# PillBuddy backend: identify-and-answer orchestration in Dafny

PillBuddy identifies a pill from a photo, then explains it in speech and text for a
visually impaired user, and answers follow-up questions about the same pill. This
project models the part of the backend that has real branching and state:

- **Label normalisation** (`Labels`): `extract_drug_name` turns a classifier label
  such as `X_ASPIRIN_500MG` into the drug name `ASPIRIN`. It is specified by an
  independent rule ("the text between the first and the last `_`") and proved equal
  to that rule. The Python `str` built-ins it uses (`split`, `join`, plus `replace`
  for the sanitiser) are in `Strings`, with their round trips.
- **Knowledge lookup and narration** (`Rag`): `clean_script` deletes every `*` and `#`.
  It is idempotent and keeps everything else in order. `fetch_drug_info` collapses
  "no results" and "request failed" into one `None`. The grounded or the fallback
  generator is chosen by whether the lookup found records (main.py:70,
  rag_service.py:140). Each generator asks with its one fixed prompt and returns the
  sanitised model text, or a fixed apology when the model call raises.
- **Recognition** (`Vision`): `predict`'s loop over detected boxes skips boxes whose
  classification raises. `identify_pill` takes the first most confident candidate.
  `_get_predictor` loads the models once, on first use (class `Vision.Service`).
- **Request handlers** (`Backend`): class `App` holds the process-wide session store
  (`map<string, string>`) and the vision service. `IdentifyPill` rejects with 400
  for an empty upload and with 422 when no label is found; otherwise it stores the
  pill name. `FollowupQuestion` rejects with 400 for an unknown session and otherwise
  only reads the store. `SynthesizeTts` rejects with 500 exactly when speech gives no
  audio.

The providers are parameters:

- the photo's decoding, detection and per-box classification (`Vision.Photo`);
- the presence of the model files, whether their checkpoints load, and the classifier's class names (`Vision.ModelFiles`);
- the registry, a map from the name looked up to the HTTP reply (`Rag.Registry`);
- the text model, a total map from prompt to outcome (`Rag.Model`);
- the speech engine, a map from text to optional audio (`Backend.Speech`).

What the code does and does not guarantee:

- The code never checks that a script ends with the closing navigation sentence. It
  only asks the model for it.
- Model loading is an unguarded global, not a concurrency-safe init-once primitive.
- `fetch_drug_info` returns the items whenever `totalCount > 0`, even when the item
  list is empty. Such an empty list is falsy, so the callers then take the fallback
  path.
- The "fall back to the second token" clause of `extract_drug_name` never changes the
  result (`Labels.EmptyCoreFallbackIsEmpty`).

## Model

| member | source | states |
|---|---|---|
| `Strings.Split` | backend/main.py:31 | `str.split` always returns at least one piece |
| `Strings.Join` | backend/main.py:33 | `sep.join(parts)`: the first piece is a prefix of the result, and two or more pieces put a separator in it |
| `Strings.Replace` | backend/services/rag_service.py:28-30 | `str.replace` left to right, without overlaps: replacing by nothing never lengthens the text, and a text with no occurrence of the pattern's first character is unchanged |
| `Strings.JoinSplit` | backend/main.py:31-33 | joining the pieces of a split with the same separator gives the original string back |
| `Strings.SplitJoin` | backend/main.py:31-33 | splitting a join of separator-free pieces gives the pieces back |
| `Strings.ReplaceDoubledSubsumed` | backend/services/rag_service.py:28-29 | deleting `**` before deleting every `*` changes nothing |
| `Labels.ExtractDrugName` | backend/main.py:28-37 | `""` is returned as `""`, and a label with no `_` is returned unchanged |
| `Labels.ExtractDrugNameIsSpan` | backend/main.py:28-37 | `extract_drug_name` equals the reference rule: the whole label when it has no `_`; the text after the `_` when there is one; otherwise the text between the first and the last `_` |
| `Labels.ExtractDrugNameIsInfix` | backend/main.py:28-37 | the result is a contiguous substring of the label, so it is never longer than the label |
| `Labels.ExtractDrugNameFixedPoint` | backend/main.py:29-37 | a label is returned unchanged if and only if it contains no `_` (so `""` and bare names are fixed points) |
| `Labels.ExtractDrugNameOuterTokens` | backend/main.py:31-34 | for `code_name..._dose` with no `_` in code or dose, the result is exactly the middle `name...`, inner `_` kept |
| `Labels.ExtractDrugNameTwoTokens` | backend/main.py:35-36 | for `code_name` with one `_`, the result is `name` |
| `Labels.EmptyCoreFallbackIsEmpty` | backend/main.py:33 | when the rejoined middle is empty, `parts[1]` is empty too, so the `or parts[1]` fallback never changes the result |
| `Labels.ExtractDrugNameExamples` | backend/main.py:28-37 | `X_ASPIRIN_500MG` → `ASPIRIN`, `X_ASPIRIN` → `ASPIRIN`, `ASPIRIN` → `ASPIRIN`, `""` → `""` |
| `Rag.CleanScript` | backend/services/rag_service.py:25-31 | the output never contains `*` or `#`; `None` and `""` both give `""` |
| `Rag.CleanScriptIsStrip` | backend/services/rag_service.py:28-31 | for any text, `clean_script` equals the one-pass rule "delete every `*` and `#`, keep all else in order" |
| `Rag.StripConcat` | backend/services/rag_service.py:28-31 | sanitising preserves order: it distributes over concatenation |
| `Rag.StripKeepsOthers` | backend/services/rag_service.py:28-31 | every character other than `*` and `#` occurs in the output exactly as often as in the input |
| `Rag.CleanScriptIdempotent` | backend/services/rag_service.py:25-31 | `clean_script(clean_script(t)) == clean_script(t)` |
| `Rag.TotalCount` | backend/services/rag_service.py:45 | `body.get("totalCount", 0)`: the count when present, 0 when absent |
| `Rag.FetchDrugInfo` | backend/services/rag_service.py:34-50 | for the name looked up, returns records if and only if the reply has a body whose `totalCount` (0 when absent) is positive, and those records are the body's items; a request error gives `None` |
| `Rag.KnowledgeMissCollapses` | backend/services/rag_service.py:45-50 | a failed request, a reply without body, and a count of zero or less (or a missing count) all give `None` |
| `Rag.Narrate` | backend/services/rag_service.py:66-71 | the shared tail: the sanitised model text on success, the given apology if the call raises, and plain either way |
| `Rag.ApologiesArePlainAndDistinct` | backend/services/rag_service.py:71 | both apologies contain no markup, and the summary apology differs from the follow-up apology |
| `Rag.GenerateSummaryWithRag` | backend/services/rag_service.py:53-71 | asks with the grounded summary prompt; gives the sanitised text, or the summary apology when the call raises; never contains markup |
| `Rag.GenerateSummaryBackup` | backend/services/rag_service.py:74-90 | the same, with the fallback summary prompt for the name |
| `Rag.AnswerFollowUpWithRag` | backend/services/rag_service.py:93-114 | the same, with the grounded follow-up prompt and the follow-up apology |
| `Rag.AnswerFollowUpBackup` | backend/services/rag_service.py:117-135 | the same, with the general-knowledge follow-up prompt and the follow-up apology |
| `Rag.AnswerPrompt` | backend/services/rag_service.py:139-166 | the prompt is grounded in the records if and only if the lookup found a non-empty list; otherwise it is the general-knowledge prompt for the name and question |
| `Rag.AnswerFollowupQuestion` | backend/services/rag_service.py:138-173 | asks with the prompt chosen from a fresh lookup of the given pill name; gives the sanitised text, or the follow-up apology when the call raises; never contains markup |
| `Rag.FollowupGroundedIffFound` | backend/services/rag_service.py:139-140 | the follow-up is grounded exactly when the registry's reply for the pill name has a positive count and non-empty items |
| `Vision.LabelOf` | backend/services/vision_service.py:61 | a top-1 index with a class name gives that name; any other index gives `"UNKNOWN"` |
| `Vision.Candidates` | backend/services/vision_service.py:48-62 | the loop's result over the boxes: the loop raises if and only if some box's crop raises, and otherwise gives at most one candidate per box |
| `Vision.Predicted` | backend/services/vision_service.py:29-64 | `predict`'s outcome: `[]` when the photo does not decode or the detector raises; it raises if and only if the photo decodes, boxes are detected, and some crop raises |
| `Vision.CandidatesAbortStays` | backend/services/vision_service.py:48-53 | a crop that raises is outside the per-box handler: once it happens, the whole `predict` raises, whatever later boxes do |
| `Vision.CandidatesFromBoxes` | backend/services/vision_service.py:48-62 | there is exactly one result per box the classifier labelled, in box order, with that box's label and confidence; a box whose classification raised is skipped and the later boxes still count |
| `Vision.CandidatesAllClassified` | backend/services/vision_service.py:48-62 | when every box is classified, result `k` is box `k`'s label and confidence |
| `Vision.SingleBoxAtMostOneCandidate` | backend/services/vision_service.py:37 | with the detector capped at one box, `predict` yields at most one candidate |
| `Vision.PillPredictor.constructor` | backend/services/vision_service.py:22-27 | the predictor keeps the class names of the classifier it loaded |
| `Vision.PillPredictor.Predict` | backend/services/vision_service.py:29-64 | the loop computes the candidate list; `[]` when decoding fails, the detector raises, or no box is found; a box whose classification raises is skipped |
| `Vision.FirstMax` | backend/services/vision_service.py:87 | picks a candidate at least as confident as every other, and strictly more confident than every earlier one (first on ties, as Python `max`) |
| `Vision.Identify` | backend/services/vision_service.py:81-91 | a label exists if and only if the predictor loads, `predict` does not raise and finds at least one candidate; it is then the `pill_type` of a first maximum-confidence candidate |
| `Vision.NoRegionNoLabel` | backend/services/vision_service.py:36-46 | an undecodable photo, a raising detector, or no detected region gives no label, whatever the classifier would say |
| `Vision.Service.Available` | backend/services/vision_service.py:70-78 | the class names `identify_pill` will use: the stored predictor's, else the files' when they load, else none |
| `Vision.Service.GetPredictor` | backend/services/vision_service.py:70-78 | an existing predictor is returned unchanged. Otherwise, a missing detector file, then a missing classifier file, then a rejected checkpoint raises and stores nothing. Otherwise, one fresh predictor is stored. The models are loaded at most once |
| `Vision.Service.IdentifyPill` | backend/services/vision_service.py:81-91 | returns what `Identify` gives for the names available before the call; every failure, model loading included, is `None`; a stored predictor is kept, and one loaded by this call is stored; a failed load stores nothing |
| `Backend.Audio` | backend/main.py:79-82 | audio is absent exactly when synthesis returned nothing or empty bytes |
| `Backend.PillName` | backend/main.py:67 | the stored name is never empty for a non-empty label, and it is a contiguous substring of the label |
| `Backend.SynthesizeTts` | backend/main.py:111-122 | rejects with 500 exactly when synthesis gives no audio; otherwise it returns that audio |
| `Backend.App.constructor` | backend/main.py:25 | the process starts with an empty session store and no loaded models |
| `Backend.App.IdentifyPill` | backend/main.py:54-88 | empty upload: 400, store and models untouched. Non-empty upload: loaded models stay loaded, and models loaded by this call are stored. No label: 422, store untouched. Otherwise: the session maps to the non-empty pill name and no other key changes; the summary is grounded if and only if records were found for that name; the script is plain; the store is written whatever speech does; audio is absent if and only if speech gave none |
| `Backend.App.FollowupQuestion` | backend/main.py:91-108 | rejects with 400 if and only if the session has no stored name or an empty one; otherwise echoes the stored name and the question with the plain answer about that name; the store is only read |
| `Backend.App.IdentifyThenFollowup` | backend/main.py:76 | after a successful identification, a follow-up in the same session is answered about the identified pill |

## Left out

- The HTTP layer is not modelled: the app, CORS, `/health`, the static mount and serving `index.html` (backend/main.py:14-23, 49-51, 125-133). Responses are modelled as `Response` values.
- Base64 encoding of audio (RFC 4648 section 4, backend/main.py:80, 100, 121): responses carry the audio bytes that would be encoded.
- The providers are parameters, not modelled:
  - the registry HTTP call (backend/services/rag_service.py:42-44) becomes its reply;
  - the Gemini call becomes `Rag.Model`;
  - Azure speech (backend/services/tts_service.py) becomes `Backend.Speech`;
  - loading the YOLO checkpoints (backend/services/vision_service.py:24-25) becomes `Vision.ModelFiles`;
  - YOLO inference and PIL decoding and cropping (backend/services/vision_service.py:31, 37, 49-53) become `Vision.Photo`.
- Prompt wording and the closing navigation sentence: the code only asks the model for the sentence and never checks it. The prompts are modelled by the data they carry.
- `Rag.FetchDrugInfo`: a body with a positive count but no `items` key would raise `KeyError`. That is not a request error, so it would leave `fetch_drug_info` (backend/services/rag_service.py:46). The model's bodies always carry items. A JSON reply that is not an object is not modelled either.
- `Vision.PillPredictor.Predict` assumes the detector returns at least one result object (backend/services/vision_service.py:43). It also assumes reading the classifier's top-1 index and confidence (lines 58-60) does not raise.
- Floating point: confidences are `real`s, used only for comparison. Box coordinates are passed through without truncation (`int(coord)`).
- Concurrency is not modelled: the async handlers, `run_in_executor` (backend/main.py:113-116), and the race on the first `_get_predictor` call. `_get_predictor` is modelled sequentially.
- Import-time environment checks (backend/services/rag_service.py:13-17, backend/services/tts_service.py:12-13) and the startup scripts check_server.py and run_server.py are not modelled.
- Log output (`print`) is not modelled.
