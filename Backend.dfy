/**
 * The request handlers of backend/main.py: identify a photographed pill and
 * remember it for the session, answer a follow-up question about the
 * remembered pill, and speak an arbitrary text. Identity failures reject
 * the request; knowledge, generation and speech failures only degrade it.
 */
module Backend {
  import opened Base
  import Labels
  import Rag
  import Vision

  /** An HTTP outcome: an `HTTPException` with its status and detail, or a JSON body. */
  datatype Response<T> = Rejected(status: int, detail: string) | Served(body: T)

  /** The body of a successful identification. */
  datatype Identification = Identification(pillName: string, script: string, audio: Option<Bytes>)

  /** The body of a successful follow-up. */
  datatype FollowupAnswer = FollowupAnswer(pillName: string, question: string, answer: string, audio: Option<Bytes>)

  /** The speech provider: the audio for a text, or `None` when synthesis failed. */
  type Speech = string -> Option<Bytes>

  const NoImageDetail: string := "이미지 파일을 업로드해주세요."
  const NotRecognisedDetail: string := "약을 식별하지 못했습니다. 다시 촬영해주세요."
  const NoSessionDetail: string := "먼저 약을 촬영해주세요."
  const SpeechFailedDetail: string := "음성 합성에 실패했습니다. 다시 시도해주세요."

  /** `audio if audio_bytes else None`: empty audio counts as no audio. */
  function Audio(audioBytes: Option<Bytes>): (audio: Option<Bytes>)
    ensures audio.None? <==> audioBytes.None? || audioBytes.value == []
    ensures audio.Some? ==> audio == audioBytes && audio.value != []
  {
    if audioBytes.Some? && audioBytes.value != [] then audioBytes else None
  }

  /**
   * `extract_drug_name(raw) or raw`: the normalised name, or the raw label
   * when normalising leaves nothing. Never empty for a non-empty label, and
   * always a contiguous piece of it.
   */
  function PillName(rawPillName: string): (pillName: string)
    ensures rawPillName != "" ==> pillName != ""
    ensures exists a, b :: 0 <= a <= b <= |rawPillName| && pillName == rawPillName[a..b]
  {
    var extracted := Labels.ExtractDrugName(rawPillName);
    Labels.ExtractDrugNameIsInfix(rawPillName);
    assert rawPillName == rawPillName[0..|rawPillName|];
    if extracted != "" then extracted else rawPillName
  }

  /** `synthesize_tts`: the audio, or status 500 exactly when synthesis gave none. */
  function SynthesizeTts(text: string, speech: Speech): (r: Response<Bytes>)
    ensures r.Rejected? <==> speech(text).None? || speech(text).value == []
    ensures r.Rejected? ==> r == Rejected(500, SpeechFailedDetail)
    ensures r.Served? ==> r.body == speech(text).value && r.body != []
  {
    var audioBytes := speech(text);
    if audioBytes.None? || audioBytes.value == [] then Rejected(500, SpeechFailedDetail)
    else Served(audioBytes.value)
  }

  /** The process: the session store and the lazily loaded vision models. */
  class App {
    var sessions: map<string, string>
    const vision: Vision.Service

    /** Stored names are never empty, and the vision models were loaded at most once. */
    ghost predicate Valid()
      reads this, vision
    {
      && vision.Valid()
      && forall id | id in sessions :: sessions[id] != ""
    }

    constructor ()
      ensures Valid() && sessions == map[] && fresh(vision) && vision.predictor == null
    {
      sessions := map[];
      vision := new Vision.Service();
    }

    /**
     * `identify_pill`: 400 for an empty upload (before any model is
     * touched), 422 when vision gives no label; otherwise the session
     * remembers the pill name, the summary is grounded exactly when the
     * registry found records for that name, and audio is absent exactly when
     * speech failed. Models loaded by the call stay loaded for later calls.
     */
    method IdentifyPill(sessionId: string, contents: Bytes, files: Vision.ModelFiles, photo: Vision.Photo,
                        registry: Rag.Registry, model: Rag.Model, speech: Speech)
      returns (r: Response<Identification>)
      requires Valid()
      modifies this, vision
      ensures Valid()
      ensures contents == [] ==>
                && r == Rejected(400, NoImageDetail)
                && sessions == old(sessions)
                && vision.predictor == old(vision.predictor)
      ensures contents != [] ==>
                && (old(vision.predictor) != null ==> vision.predictor == old(vision.predictor))
                && (old(vision.predictor) == null && Vision.Loadable(files) ==>
                      vision.predictor != null && vision.predictor.names == files.classNames)
                && (old(vision.predictor) == null && !Vision.Loadable(files) ==> vision.predictor == null)
      ensures contents != [] ==>
                var raw := Vision.Identify(old(vision.Available(files)), photo);
                (raw.None? || raw.value == "") ==>
                  r == Rejected(422, NotRecognisedDetail) && sessions == old(sessions)
      ensures contents != [] ==>
                var raw := Vision.Identify(old(vision.Available(files)), photo);
                (raw.Some? && raw.value != "") ==>
                  var pillName := PillName(raw.value);
                  var info := Rag.FetchDrugInfo(pillName, registry);
                  && r.Served?
                  && r.body.pillName == pillName
                  && pillName != ""
                  && sessions == old(sessions)[sessionId := pillName]
                  && (Rag.Found(info) ==> r.body.script == Rag.GenerateSummaryWithRag(info.value, model))
                  && (!Rag.Found(info) ==> r.body.script == Rag.GenerateSummaryBackup(pillName, model))
                  && Rag.Plain(r.body.script)
                  && r.body.audio == Audio(speech(r.body.script))
    {
      if contents == [] {
        return Rejected(400, NoImageDetail);
      }
      var rawPillName := vision.IdentifyPill(files, photo);
      if rawPillName.None? || rawPillName.value == "" {
        return Rejected(422, NotRecognisedDetail);
      }
      var pillName := PillName(rawPillName.value);
      var drugInfo := Rag.FetchDrugInfo(pillName, registry);
      var script: string;
      if Rag.Found(drugInfo) {
        script := Rag.GenerateSummaryWithRag(drugInfo.value, model);
      } else {
        script := Rag.GenerateSummaryBackup(pillName, model);
      }
      sessions := sessions[sessionId := pillName];
      var audio := Audio(speech(script));
      return Served(Identification(pillName, script, audio));
    }

    /**
     * `followup_question`: 400 exactly when the session has no (or an empty)
     * stored name; otherwise the stored name and the question come back with
     * the answer about that name, and the store is only read.
     */
    method FollowupQuestion(sessionId: string, question: string,
                            registry: Rag.Registry, model: Rag.Model, speech: Speech)
      returns (r: Response<FollowupAnswer>)
      ensures r.Rejected? <==> sessionId !in sessions || sessions[sessionId] == ""
      ensures r.Rejected? ==> r == Rejected(400, NoSessionDetail)
      ensures r.Served? ==>
                var answer := Rag.AnswerFollowupQuestion(sessions[sessionId], question, registry, model);
                && r.body == FollowupAnswer(sessions[sessionId], question, answer, Audio(speech(answer)))
                && Rag.Plain(answer)
    {
      if sessionId !in sessions || sessions[sessionId] == "" {
        return Rejected(400, NoSessionDetail);
      }
      var pillName := sessions[sessionId];
      var answer := Rag.AnswerFollowupQuestion(pillName, question, registry, model);
      var audio := Audio(speech(answer));
      return Served(FollowupAnswer(pillName, question, answer, audio));
    }

    /**
     * A follow-up after a successful identification in the same session is
     * answered about the identified pill, even if speech failed both times.
     */
    method IdentifyThenFollowup(sessionId: string, contents: Bytes, files: Vision.ModelFiles, photo: Vision.Photo,
                                question: string, registry: Rag.Registry, model: Rag.Model, speech: Speech)
      returns (identified: Response<Identification>, answered: Response<FollowupAnswer>)
      requires Valid()
      modifies this, vision
      ensures Valid()
      ensures identified.Served? ==>
                && answered.Served?
                && answered.body.pillName == identified.body.pillName
                && answered.body.question == question
      ensures identified.Rejected? ==>
                (answered.Rejected? <==> sessionId !in old(sessions) || old(sessions)[sessionId] == "")
    {
      identified := IdentifyPill(sessionId, contents, files, photo, registry, model, speech);
      answered := FollowupQuestion(sessionId, question, registry, model, speech);
    }
  }
}
