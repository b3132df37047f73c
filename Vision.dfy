/**
 * Pill recognition (backend/services/vision_service.py): decode the photo,
 * detect at most one pill region, classify each detected crop, and keep the
 * most confident result. The detector, the classifier and image decoding are
 * providers; what each produced for one photo is given as a `Photo`.
 */
module Vision {
  import opened Base

  /** `PillResult`: a classifier label with its top-1 confidence. */
  datatype PillResult = PillResult(pillType: string, confidence: real)

  /** A detected region, in image coordinates. */
  datatype Box = Box(x0: real, y0: real, x1: real, y1: real)

  /** What the detector produced: an exception, or its boxes. */
  datatype Detection = DetectorRaised | Detected(boxes: seq<Box>)

  /**
   * What happened for one box: the crop failed (outside any handler), the
   * classifier raised (handled: the box is skipped), or a top-1 class index
   * with its confidence.
   */
  datatype BoxOutcome = CropRaised | ClassifierRaised | Top1(index: int, confidence: real)

  /** The providers' behaviour on one uploaded photo. */
  datatype Photo = Photo(decodes: bool, detection: Detection, classify: Box -> BoxOutcome)

  /**
   * What loading the two model files meets: whether each file exists,
   * whether the model library accepts both checkpoints, and the class names
   * the classifier checkpoint carries.
   */
  datatype ModelFiles = ModelFiles(detectorExists: bool, classifierExists: bool,
                                   checkpointsLoad: bool, classNames: map<int, string>)

  /** Why `_get_predictor` raised. */
  datatype LoadError = DetectorNotFound | ClassifierNotFound | CheckpointRejected

  /** Loading the predictor from these files succeeds. */
  predicate Loadable(files: ModelFiles)
  {
    files.detectorExists && files.classifierExists && files.checkpointsLoad
  }

  /** The label given to a top-1 index the classifier has no name for. */
  const Unknown: string := "UNKNOWN"

  /** `names.get(index, "UNKNOWN")`. */
  function LabelOf(names: map<int, string>, index: int): (pillType: string)
    ensures index in names ==> pillType == names[index]
    ensures index !in names ==> pillType == Unknown
  {
    if index in names then names[index] else Unknown
  }

  /**
   * The candidate list the loop builds over `boxes`, or `None` when a crop
   * raised and the exception left `predict`.
   */
  function Candidates(names: map<int, string>, classify: Box -> BoxOutcome, boxes: seq<Box>): (candidates: Option<seq<PillResult>>)
    ensures candidates.None? <==> exists k :: 0 <= k < |boxes| && classify(boxes[k]).CropRaised?
    ensures candidates.Some? ==> |candidates.value| <= |boxes|
    decreases |boxes|
  {
    if boxes == [] then Some([])
    else
      match Candidates(names, classify, boxes[..|boxes| - 1])
      case None => None
      case Some(results) =>
        match classify(boxes[|boxes| - 1])
        case CropRaised => None
        case ClassifierRaised => Some(results)
        case Top1(index, conf) => Some(results + [PillResult(LabelOf(names, index), conf)])
  }

  /** `predict`'s outcome: `Some(results)`, or `None` when it raised. */
  function Predicted(names: map<int, string>, photo: Photo): (predictions: Option<seq<PillResult>>)
    ensures !photo.decodes || photo.detection.DetectorRaised? ==> predictions == Some([])
    ensures predictions.None? <==>
              photo.decodes && photo.detection.Detected?
              && exists k :: 0 <= k < |photo.detection.boxes| && photo.classify(photo.detection.boxes[k]).CropRaised?
  {
    if !photo.decodes then Some([])
    else
      match photo.detection
      case DetectorRaised => Some([])
      case Detected(boxes) => Candidates(names, photo.classify, boxes)
  }

  /** Once a crop has raised, no later box can undo it. */
  lemma {:induction false} CandidatesAbortStays(names: map<int, string>, classify: Box -> BoxOutcome, boxes: seq<Box>, n: nat)
    requires n <= |boxes|
    requires Candidates(names, classify, boxes[..n]) == None
    ensures Candidates(names, classify, boxes) == None
    decreases |boxes| - n
  {
    if n < |boxes| {
      assert boxes[..n + 1][..n] == boxes[..n];
      CandidatesAbortStays(names, classify, boxes, n + 1);
    } else {
      assert boxes[..n] == boxes;
    }
  }

  /**
   * Exactly one candidate per box the classifier labelled, in box order:
   * `origin` lists those boxes' indices, increasing, and a box whose
   * classification raised is merely skipped.
   */
  lemma {:induction false} CandidatesFromBoxes(names: map<int, string>, classify: Box -> BoxOutcome, boxes: seq<Box>)
    returns (origin: seq<nat>)
    requires Candidates(names, classify, boxes).Some?
    ensures var results := Candidates(names, classify, boxes).value;
      && |origin| == |results| <= |boxes|
      && (forall k :: 0 <= k < |origin| ==> origin[k] < |boxes|)
      && (forall k, l :: 0 <= k < l < |origin| ==> origin[k] < origin[l])
      && (forall k :: 0 <= k < |origin| ==>
            classify(boxes[origin[k]]).Top1? &&
            results[k] == PillResult(LabelOf(names, classify(boxes[origin[k]]).index),
                                     classify(boxes[origin[k]]).confidence))
    ensures forall k :: 0 <= k < |boxes| && classify(boxes[k]).Top1? ==> k in origin
    decreases |boxes|
  {
    if boxes == [] {
      origin := [];
    } else {
      var front := boxes[..|boxes| - 1];
      var last := |boxes| - 1;
      var before := CandidatesFromBoxes(names, classify, front);
      assert forall k :: 0 <= k < |before| ==> boxes[before[k]] == front[before[k]];
      match classify(boxes[last])
      case ClassifierRaised =>
        origin := before;
      case Top1(index, conf) =>
        origin := before + [last];
    }
  }

  /** When no box fails, every box yields exactly its own candidate. */
  lemma {:induction false} CandidatesAllClassified(names: map<int, string>, classify: Box -> BoxOutcome, boxes: seq<Box>)
    requires forall k :: 0 <= k < |boxes| ==> classify(boxes[k]).Top1?
    ensures Candidates(names, classify, boxes).Some?
    ensures |Candidates(names, classify, boxes).value| == |boxes|
    ensures forall k :: 0 <= k < |boxes| ==>
              Candidates(names, classify, boxes).value[k]
                == PillResult(LabelOf(names, classify(boxes[k]).index), classify(boxes[k]).confidence)
    decreases |boxes|
  {
    if boxes != [] {
      var front := boxes[..|boxes| - 1];
      CandidatesAllClassified(names, classify, front);
    }
  }

  /** With the detector capped at one box, `predict` yields at most one candidate. */
  lemma SingleBoxAtMostOneCandidate(names: map<int, string>, photo: Photo)
    requires photo.detection.Detected? ==> |photo.detection.boxes| <= 1
    requires Predicted(names, photo).Some?
    ensures |Predicted(names, photo).value| <= 1
  {
    if photo.decodes && photo.detection.Detected? {
      var origin := CandidatesFromBoxes(names, photo.classify, photo.detection.boxes);
    }
  }

  /** `PillPredictorYolo`: the two loaded models; only the classifier's names are visible here. */
  class PillPredictor {
    const names: map<int, string>

    constructor (names: map<int, string>)
      ensures this.names == names
    {
      this.names := names;
    }

    /**
     * `predict`: `[]` when the photo does not decode, the detector raises
     * or finds nothing; otherwise one candidate per successfully classified
     * box, a box whose classification raises being skipped.
     */
    method Predict(photo: Photo) returns (outcome: Option<seq<PillResult>>)
      ensures outcome == Predicted(names, photo)
      ensures !photo.decodes || photo.detection == DetectorRaised || photo.detection == Detected([])
              ==> outcome == Some([])
    {
      if !photo.decodes {
        return Some([]);
      }
      if photo.detection.DetectorRaised? {
        return Some([]);
      }
      var boxes := photo.detection.boxes;
      var results: seq<PillResult> := [];
      if boxes == [] {
        return Some(results);
      }
      for i := 0 to |boxes|
        invariant Candidates(names, photo.classify, boxes[..i]) == Some(results)
      {
        assert boxes[..i + 1][..i] == boxes[..i];
        match photo.classify(boxes[i])
        case CropRaised =>
          CandidatesAbortStays(names, photo.classify, boxes, i + 1);
          return None;
        case ClassifierRaised =>
        case Top1(index, conf) =>
          results := results + [PillResult(LabelOf(names, index), conf)];
      }
      assert boxes[..|boxes|] == boxes;
      return Some(results);
    }
  }

  /**
   * `max(predictions, key=confidence)`: the index of a most confident
   * candidate, the first one on ties.
   */
  function FirstMax(predictions: seq<PillResult>): (best: nat)
    requires predictions != []
    ensures best < |predictions|
    ensures forall k :: 0 <= k < |predictions| ==> predictions[k].confidence <= predictions[best].confidence
    ensures forall k :: 0 <= k < best ==> predictions[k].confidence < predictions[best].confidence
    decreases |predictions|
  {
    if |predictions| == 1 then 0
    else
      var best := FirstMax(predictions[..|predictions| - 1]);
      if predictions[|predictions| - 1].confidence > predictions[best].confidence
      then |predictions| - 1
      else best
  }

  /**
   * `identify_pill` once a predictor is (or is not) available: `None` without
   * one, when `predict` raised, or when it found nothing; otherwise the label
   * of the first most confident candidate.
   */
  function Identify(names: Option<map<int, string>>, photo: Photo): (result: Option<string>)
    ensures result.Some? <==>
              (names.Some? && Predicted(names.value, photo).Some? && Predicted(names.value, photo).value != [])
    ensures result.Some? ==>
              var predictions := Predicted(names.value, photo).value;
              exists best :: 0 <= best < |predictions|
                && (forall k :: 0 <= k < |predictions| ==> predictions[k].confidence <= predictions[best].confidence)
                && (forall k :: 0 <= k < best ==> predictions[k].confidence < predictions[best].confidence)
                && result.value == predictions[best].pillType
  {
    match names
    case None => None
    case Some(n) =>
      match Predicted(n, photo)
      case None => None
      case Some(predictions) =>
        if predictions == [] then None
        else Some(predictions[FirstMax(predictions)].pillType)
  }

  /** A photo with no detected region never yields a label, whatever the classifier does. */
  lemma NoRegionNoLabel(names: Option<map<int, string>>, photo: Photo)
    requires !photo.decodes || photo.detection == DetectorRaised || photo.detection == Detected([])
    ensures Identify(names, photo) == None
  {
  }

  /**
   * The module-level `_predictor` and `identify_pill`. The models are loaded
   * on first use only; `loads` counts how often that happened.
   */
  class Service {
    var predictor: PillPredictor?
    ghost var loads: nat

    /** The models were loaded once if a predictor exists, never otherwise. */
    ghost predicate Valid()
      reads this
    {
      loads == if predictor == null then 0 else 1
    }

    constructor ()
      ensures Valid() && predictor == null
    {
      predictor := null;
      loads := 0;
    }

    /** The class names `identify_pill` would classify with, or `None` if loading would raise. */
    function Available(files: ModelFiles): (names: Option<map<int, string>>)
      reads this
      ensures predictor != null ==> names == Some(predictor.names)
      ensures predictor == null ==> (names.Some? <==> Loadable(files))
    {
      if predictor != null then Some(predictor.names)
      else if Loadable(files) then Some(files.classNames)
      else None
    }

    /**
     * `_get_predictor`: returns the existing predictor untouched, or checks
     * both model files (detector first) and loads them once; a checkpoint the
     * model library rejects raises and leaves nothing stored.
     */
    method GetPredictor(files: ModelFiles) returns (r: Result<PillPredictor, LoadError>)
      requires Valid()
      modifies this
      ensures Valid()
      ensures old(predictor) != null ==> r == Ok(old(predictor)) && predictor == old(predictor)
      ensures old(predictor) == null && !files.detectorExists ==>
                r == Err(DetectorNotFound) && predictor == null
      ensures old(predictor) == null && files.detectorExists && !files.classifierExists ==>
                r == Err(ClassifierNotFound) && predictor == null
      ensures old(predictor) == null && files.detectorExists && files.classifierExists && !files.checkpointsLoad ==>
                r == Err(CheckpointRejected) && predictor == null
      ensures old(predictor) == null && Loadable(files) ==>
                r.Ok? && fresh(r.value) && predictor == r.value && predictor.names == files.classNames
      ensures r.Ok? <==> Available(files) != None
      ensures r.Ok? ==> Some(r.value.names) == old(Available(files))
    {
      if predictor == null {
        if !files.detectorExists {
          return Err(DetectorNotFound);
        }
        if !files.classifierExists {
          return Err(ClassifierNotFound);
        }
        if !files.checkpointsLoad {
          return Err(CheckpointRejected);
        }
        predictor := new PillPredictor(files.classNames);
        loads := loads + 1;
      }
      return Ok(predictor);
    }

    /** `identify_pill`: any failure, from loading onwards, is `None`. */
    method IdentifyPill(files: ModelFiles, photo: Photo) returns (result: Option<string>)
      requires Valid()
      modifies this
      ensures Valid()
      ensures result == Identify(old(Available(files)), photo)
      ensures old(predictor) != null ==> predictor == old(predictor)
      ensures old(predictor) == null && Loadable(files) ==>
                predictor != null && predictor.names == files.classNames
      ensures old(predictor) == null && !Loadable(files) ==> predictor == null
      ensures predictor != null ==> Available(files) == old(Available(files))
    {
      var loaded := GetPredictor(files);
      if loaded.Err? {
        return None;
      }
      var predictions := loaded.value.Predict(photo);
      if predictions.None? || predictions.value == [] {
        return None;
      }
      var best := FirstMax(predictions.value);
      return Some(predictions.value[best].pillType);
    }
  }
}
