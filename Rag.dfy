/**
 * Knowledge lookup and narration (backend/services/rag_service.py): the
 * registry reply is collapsed into "records or nothing", a prompt is chosen
 * by whether records were found, and whatever the text model returns is
 * sanitised of markup, or replaced by a fixed apology when the call fails.
 */
module Rag {
  import opened Base
  import opened Strings

  // ---------------------------------------------------------------------
  // clean_script

  /** A script is plain when it holds no emphasis (`*`) or heading (`#`) mark. */
  predicate Plain(s: string)
  {
    '*' !in s && '#' !in s
  }

  /**
   * `clean_script`: `None` and "" give ""; otherwise `**`, then `*`, then
   * `#` are replaced by nothing, in that order.
   */
  function CleanScript(scriptText: Option<string>): (r: string)
    ensures Plain(r)
    ensures scriptText == None || scriptText == Some("") ==> r == ""
  {
    if scriptText.None? || scriptText.value == "" then ""
    else
      var noDouble := Replace(scriptText.value, "**", "");
      var noStar := Replace(noDouble, "*", "");
      var cleaned := Replace(noStar, "#", "");
      ReplaceCharByNothing(noDouble, '*');
      ReplaceCharByNothing(noStar, '#');
      WithoutDrops(noDouble, '*');
      WithoutDrops(noStar, '#');
      cleaned
  }

  /** Reference rule for sanitising: drop every `*` and `#`, keep the rest in order. */
  function Strip(s: string): (r: string)
    ensures |r| <= |s|
    decreases |s|
  {
    if s == [] then ""
    else (if s[0] == '*' || s[0] == '#' then "" else [s[0]]) + Strip(s[1..])
  }

  /** Two single-character passes make the one-pass rule. */
  lemma {:induction false} StripByPasses(s: string)
    ensures Without(Without(s, '*'), '#') == Strip(s)
    decreases |s|
  {
    if s != [] {
      StripByPasses(s[1..]);
      WithoutConcat(if s[0] == '*' then "" else [s[0]], Without(s[1..], '*'), '#');
    }
  }

  /** `clean_script` deletes exactly the `*` and `#` characters (the `**` pass adds nothing). */
  lemma CleanScriptIsStrip(s: string)
    ensures CleanScript(Some(s)) == Strip(s)
  {
    if s != "" {
      var noDouble := Replace(s, "**", "");
      ReplaceCharByNothing(noDouble, '*');
      ReplaceCharByNothing(Without(noDouble, '*'), '#');
      ReplaceDoubledSubsumed(s, '*');
      StripByPasses(s);
    }
  }

  /** A plain text passes the sanitising rule unchanged. */
  lemma {:induction false} StripKeepsPlain(s: string)
    requires Plain(s)
    ensures Strip(s) == s
    decreases |s|
  {
    if s != [] {
      StripKeepsPlain(s[1..]);
      assert [s[0]] + s[1..] == s;
    }
  }

  /** Sanitising is order-preserving: it distributes over concatenation. */
  lemma {:induction false} StripConcat(a: string, b: string)
    ensures Strip(a + b) == Strip(a) + Strip(b)
    decreases |a|
  {
    if a == [] {
      assert a + b == b;
    } else {
      assert (a + b)[0] == a[0] && (a + b)[1..] == a[1..] + b;
      StripConcat(a[1..], b);
    }
  }

  /** Every character other than `*` and `#` is kept, as often as it occurs. */
  lemma {:induction false} StripKeepsOthers(s: string, c: char)
    requires c != '*' && c != '#'
    ensures multiset(Strip(s))[c] == multiset(s)[c]
    decreases |s|
  {
    if s != [] {
      StripKeepsOthers(s[1..], c);
      assert s == [s[0]] + s[1..];
    }
  }

  /** Sanitising twice is sanitising once. */
  lemma CleanScriptIdempotent(t: Option<string>)
    ensures CleanScript(Some(CleanScript(t))) == CleanScript(t)
  {
    var once := CleanScript(t);
    CleanScriptIsStrip(once);
    StripKeepsPlain(once);
  }

  // ---------------------------------------------------------------------
  // fetch_drug_info

  /** One registry record: its fields exactly as the registry sent them. */
  datatype DrugRecord = DrugRecord(fields: map<string, string>)

  /** The `body` object of a registry reply. */
  datatype RegistryBody = RegistryBody(totalCount: Option<int>, items: seq<DrugRecord>)

  /** What the HTTP exchange with the drug registry produced. */
  datatype RegistryReply =
    | RequestFailed                        // any request error: timeout, connection, error status
    | Received(body: Option<RegistryBody>) // the decoded JSON; `None` when it has no "body"

  /** The drug registry: what the HTTP exchange produces for the name looked up. */
  type Registry = string -> RegistryReply

  /** `body.get("totalCount", 0)`. */
  function TotalCount(body: RegistryBody): (count: int)
    ensures body.totalCount.Some? ==> count == body.totalCount.value
    ensures body.totalCount.None? ==> count == 0
  {
    match body.totalCount
    case None => 0
    case Some(n) => n
  }

  /**
   * `fetch_drug_info`: the items when the reply has a body whose count is
   * positive, `None` otherwise, whether the registry answered "nothing" or
   * the request failed.
   */
  function FetchDrugInfo(itemName: string, registry: Registry): (info: Option<seq<DrugRecord>>)
    ensures var reply := registry(itemName);
      info.Some? <==> reply.Received? && reply.body.Some? && TotalCount(reply.body.value) > 0
    ensures info.Some? ==> info.value == registry(itemName).body.value.items
  {
    match registry(itemName)
    case RequestFailed => None
    case Received(body) =>
      if body.Some? && TotalCount(body.value) > 0 then Some(body.value.items) else None
  }

  /** Python truthiness of the lookup result: records present and non-empty. */
  predicate Found(info: Option<seq<DrugRecord>>)
  {
    info.Some? && info.value != []
  }

  /** A failed request and a reply with no results are one and the same miss. */
  lemma KnowledgeMissCollapses(itemName: string, registry: Registry, items: seq<DrugRecord>, count: int)
    requires count <= 0
    requires registry(itemName) == RequestFailed || registry(itemName) == Received(None)
          || registry(itemName) == Received(Some(RegistryBody(Some(count), items)))
          || registry(itemName) == Received(Some(RegistryBody(None, items)))
    ensures FetchDrugInfo(itemName, registry) == None
  {
  }

  // ---------------------------------------------------------------------
  // text generation

  /** The prompts the service can send, with the data each one carries. */
  datatype Prompt =
    | RagSummary(drugData: seq<DrugRecord>)
    | BackupSummary(itemName: string)
    | RagFollowUp(userQuestion: string, ragData: seq<DrugRecord>)
    | BackupFollowUp(userQuestion: string, itemName: string)
    | GroundedAnswer(pillName: string, question: string, context: seq<DrugRecord>)
    | GeneralAnswer(pillName: string, question: string)

  /** What the text model's call produced: its text, or an exception. */
  datatype Generation = Generated(text: string) | GenerationRaised

  /** The hosted text model, as a total map from prompt to outcome. */
  type Model = Prompt -> Generation

  /** Returned by the summary generators when the model call raises. */
  const SummaryApology: string := "죄송합니다. 약물 정보를 요약하는 데 실패했습니다."

  /** Returned by the follow-up generators when the model call raises. */
  const FollowUpApology: string := "죄송합니다. 추가 질문에 답변하는 데 실패했습니다."

  /** The shared `try: clean_script(response.text) except: apology` tail. */
  function Narrate(outcome: Generation, apology: string): (script: string)
    requires Plain(apology)
    ensures Plain(script)
    ensures outcome.GenerationRaised? ==> script == apology
    ensures outcome.Generated? ==> script == CleanScript(Some(outcome.text))
  {
    match outcome
    case Generated(text) => CleanScript(Some(text))
    case GenerationRaised => apology
  }

  /** The two apologies are plain and tell a failed summary from a failed answer. */
  lemma ApologiesArePlainAndDistinct()
    ensures Plain(SummaryApology) && Plain(FollowUpApology)
    ensures SummaryApology != FollowUpApology
  {
    assert SummaryApology[15] != FollowUpApology[15];
  }

  /** `generate_summary_with_rag`: a summary grounded in the registry records. */
  function GenerateSummaryWithRag(drugData: seq<DrugRecord>, model: Model): (script: string)
    ensures Plain(script)
    ensures model(RagSummary(drugData)).GenerationRaised? ==> script == SummaryApology
    ensures model(RagSummary(drugData)).Generated? ==>
              script == CleanScript(Some(model(RagSummary(drugData)).text))
  {
    ApologiesArePlainAndDistinct();
    Narrate(model(RagSummary(drugData)), SummaryApology)
  }

  /** `generate_summary_backup`: a general-knowledge summary for a name the registry lacks. */
  function GenerateSummaryBackup(itemName: string, model: Model): (script: string)
    ensures Plain(script)
    ensures model(BackupSummary(itemName)).GenerationRaised? ==> script == SummaryApology
    ensures model(BackupSummary(itemName)).Generated? ==>
              script == CleanScript(Some(model(BackupSummary(itemName)).text))
  {
    ApologiesArePlainAndDistinct();
    Narrate(model(BackupSummary(itemName)), SummaryApology)
  }

  /** `answer_follow_up_with_rag`: an answer grounded in the given records. */
  function AnswerFollowUpWithRag(userQuestion: string, ragData: seq<DrugRecord>, model: Model): (answer: string)
    ensures Plain(answer)
    ensures model(RagFollowUp(userQuestion, ragData)).GenerationRaised? ==> answer == FollowUpApology
    ensures model(RagFollowUp(userQuestion, ragData)).Generated? ==>
              answer == CleanScript(Some(model(RagFollowUp(userQuestion, ragData)).text))
  {
    ApologiesArePlainAndDistinct();
    Narrate(model(RagFollowUp(userQuestion, ragData)), FollowUpApology)
  }

  /** `answer_follow_up_backup`: an answer from general knowledge. */
  function AnswerFollowUpBackup(userQuestion: string, itemName: string, model: Model): (answer: string)
    ensures Plain(answer)
    ensures model(BackupFollowUp(userQuestion, itemName)).GenerationRaised? ==> answer == FollowUpApology
    ensures model(BackupFollowUp(userQuestion, itemName)).Generated? ==>
              answer == CleanScript(Some(model(BackupFollowUp(userQuestion, itemName)).text))
  {
    ApologiesArePlainAndDistinct();
    Narrate(model(BackupFollowUp(userQuestion, itemName)), FollowUpApology)
  }

  /** The prompt `answer_followup_question` builds from the lookup result. */
  function AnswerPrompt(pillName: string, question: string, info: Option<seq<DrugRecord>>): (prompt: Prompt)
    ensures prompt.GroundedAnswer? <==> Found(info)
    ensures prompt.GroundedAnswer? ==> prompt == GroundedAnswer(pillName, question, info.value)
    ensures prompt.GeneralAnswer? <==> !Found(info)
    ensures prompt.GeneralAnswer? ==> prompt == GeneralAnswer(pillName, question)
  {
    if Found(info) then GroundedAnswer(pillName, question, info.value)
    else GeneralAnswer(pillName, question)
  }

  /**
   * `answer_followup_question`: looks the given name up again, asks the grounded
   * or the general-knowledge question, and sanitises or apologises.
   */
  function AnswerFollowupQuestion(pillName: string, question: string, registry: Registry, model: Model): (answer: string)
    ensures Plain(answer)
    ensures model(AnswerPrompt(pillName, question, FetchDrugInfo(pillName, registry))).GenerationRaised? ==>
              answer == FollowUpApology
    ensures model(AnswerPrompt(pillName, question, FetchDrugInfo(pillName, registry))).Generated? ==>
              answer == CleanScript(Some(model(AnswerPrompt(pillName, question, FetchDrugInfo(pillName, registry))).text))
  {
    ApologiesArePlainAndDistinct();
    Narrate(model(AnswerPrompt(pillName, question, FetchDrugInfo(pillName, registry))), FollowUpApology)
  }

  /** A follow-up is grounded exactly when the registry returned records. */
  lemma FollowupGroundedIffFound(pillName: string, question: string, registry: Registry)
    ensures var reply := registry(pillName);
        AnswerPrompt(pillName, question, FetchDrugInfo(pillName, registry)).GroundedAnswer?
        <==> reply.Received? && reply.body.Some? && TotalCount(reply.body.value) > 0
             && reply.body.value.items != []
  {
  }
}
