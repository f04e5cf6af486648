# medbot reply dispatch, in Dafny

A model of the reply logic of medbot, a Vietnamese medical-triage chatbot
served with Flask (`app.py`). Four views are modelled.

- `/get` is the browser route. It runs the intent classifier on the message
  and then routes on the `mode` argument. In mode `problem` it applies two
  post-filters to the classifier's answer. The name prompt
  (`Dạ bạn cho mình xin họ và tên ạ`) becomes a redirect to the intake form.
  An answer that starts with `bạn có thể` ("you could ...") becomes a fixed
  clarification request when the message has fewer than three
  comma-separated pieces. Mode `thongtin` sends the retrieval answer and mode
  `chatgpt` the generated answer. Any other mode, a missing one included,
  gives no reply.
- `/api/chat` is the JSON route. It refuses a body without `message` (400).
  It defaults `mode` to `problem` and echoes the mode. It also reports the
  detected intent label. It applies neither post-filter: every mode other
  than `thongtin` and `chatgpt` gets the classifier's answer as it is. Any
  exception becomes a 500 that carries the exception's text.
- `/api/intents` summarises the intent catalog. It gives one entry per
  intent: the tag, the two counts and the first three patterns.
- `/api/search` lists retrieval hits. There is one record per hit, in hit
  order. The id falls back to the hit's identifier and the content to `""`.
  The score is the hit's. An empty query gives a 400.

Modules:

- `Wrappers`: `Option` and `Result`.
- `Http`: JSON values, error responses and `dict.get`.
- `PyStr`: the Python string operations the views branch on. `split(',')`
  is proved to give one more piece than there are commas, and to round-trip
  with `join` in both directions.
- `Dispatch`: `/get` and `/api/chat`, as functions with lemmas. These
  include lemmas that set the two routes side by side for the same
  collaborator answers.
- `Shaping`: `/api/intents` and `/api/search`. Each is a method whose loop
  builds the list one entry at a time.

Collaborators are parameters: `Dispatch.Services` bundles the classifier
(`disease_response`), the intent detector (segmentation, tokenizer, model,
arg-max), the retrieval answer (`problem_response`) and the generation
service (`chatgpt_response`). Each one returns `Failure(text)` when it
raises. `/api/search` takes the search and the stored-document lookup as
functions; each returns `None` when it raises.

Three behaviours of the code worth noting, which the model keeps:

- On an unknown mode, `/get` returns `None`; it does not fall back to the
  classification reply. Flask turns that `None` into a 500.
- `/get` runs the classifier in every mode. A classifier exception therefore
  fails the `thongtin` and `chatgpt` modes too.
- There is no tagged result between selector and router. The redirect is
  decided by comparing the answer's text with the name prompt, and the model
  does the same.

## Model

| member | source | states |
|---|---|---|
| PyStr.Split | app.py:81 | `s.split(',')` gives exactly one more piece than `s` has commas, and no piece contains a comma |
| PyStr.JoinSplit | app.py:81 | joining the pieces of a split with the separator gives back the original message |
| PyStr.SplitJoin | app.py:81 | splitting a join of comma-free pieces gives back those pieces, so the split loses nothing |
| PyStr.Take | app.py:171 | the slice `patterns[:3]` is a prefix of the patterns of length min(3, len) |
| Dispatch.ProblemFilter | app.py:78-83 | in mode `problem` the reply is a redirect exactly when the answer is the name prompt; any text reply is the answer or the clarification; an error happens exactly when the message is missing and the answer (not the name prompt) starts with `bạn có thể`, which is `None.split` raising `AttributeError`; the prefix test is `PyStr.StartsWith`, Python's `startswith` |
| Dispatch.GetBotResponse | app.py:66-87 | `/get` redirects exactly when mode is `problem` and the classifier answers the name prompt; it gives no reply exactly when the classifier succeeds and the mode is none of the three; a classifier exception fails every mode |
| Dispatch.NamePromptRedirects | app.py:78-80 | the name-prompt answer redirects to the form whatever the message, before the comma test is reached |
| Dispatch.ShortMessageClarified | app.py:81-82 | a `bạn có thể` answer other than the name prompt, to a message with at most one comma, is replaced by exactly the fixed clarification |
| Dispatch.OtherAnswersUnchanged | app.py:81-83 | in mode `problem` an answer without that opening, or one given to a message with two or more commas, is sent unchanged |
| Dispatch.RetrievalModeUnfiltered | app.py:84-85 | mode `thongtin` sends exactly the retrieval answer, or fails with its error; no post-filter applies |
| Dispatch.GenerationModeUnfiltered | app.py:86-87 | mode `chatgpt` sends exactly the generated answer, or fails with its error; no post-filter applies |
| Dispatch.ApiChat | app.py:111-157 | 400 `Missing message field` exactly when the body or its `message` is missing; every other error is a 500; a success echoes the mode (defaulted to `problem`) and reports a label from `tags_set`; an exception `e` from the classifier, or from the intent detector after a successful classification, gives a 500 carrying `str(e)` |
| Dispatch.MissingMessageRefused | app.py:119-121 | a body without `message` gets a 400 whatever the collaborators do, so no classification takes place |
| Dispatch.ChatModeDefaultsToProblem | app.py:124 | a body without `mode` is answered exactly like the same body with mode `problem`; the mode is read by `Dispatch.ChatMode`, which is `data.get('mode', 'problem')` |
| Dispatch.ChatSkipsPostFilters | app.py:141-155 | every mode other than `thongtin`/`chatgpt` returns the raw classifier answer, its confidence, the detected label and the echoed mode; there is no redirect and no comma test |
| Dispatch.ChatDelegatedModes | app.py:143-146 | modes `thongtin` and `chatgpt` return the collaborator's text, or a 500 with its error |
| Dispatch.ChatIntentOutOfRange | app.py:138-157 | an intent index past the end of `tags_set` is an `IndexError`, answered with a 500 |
| Dispatch.RoutesDifferOnNamePrompt | app.py:79-80 | on the name-prompt answer `/get` redirects while `/api/chat` returns the prompt as text |
| Dispatch.RoutesDifferOnShortMessage | app.py:81-82 | on a short message with a `bạn có thể` answer `/get` sends the clarification while `/api/chat` sends the answer, which differs from it |
| Dispatch.RoutesDifferOnUnknownMode | app.py:147-148 | on an unknown mode `/get` gives no reply while `/api/chat` falls back to the classifier answer |
| Dispatch.RoutesAgreeOnDelegatedModes | app.py:143-146 | in modes `thongtin` and `chatgpt`, for the same collaborator answer, both routes forward it unchanged (text or error) |
| Shaping.ApiIntents | app.py:159-173 | one summary per catalog intent, in catalog order, with the tag, `patterns_count`, `responses_count` and the first min(3, len) patterns; `total` is the number of entries |
| Shaping.SummaryIsUnique | app.py:165-172 | an intent has exactly one summary, so those conditions fix the listing completely |
| Shaping.FewPatternsShownInFull | app.py:171 | an intent with at most three patterns shows all of them |
| Shaping.ApiSearch | app.py:175-199 | an empty or missing `q` gives a 400; a search that raises gives a 500; otherwise the call succeeds exactly when every hit's document can be loaded, giving one record per hit in hit order with the stored `id` (else the hit's docid), the stored `contents` (else `""`) and the hit's score, and `total` equal to the number of records; the defaults are `Http.Get`, Python's `dict.get`, as `Shaping.Describes` states them |

## Left out

- HTTP plumbing is not modelled: Flask routing, reading request arguments, `jsonify`, `redirect(url_for('form'))` and the HTML pages. The views' results are modelled as values.
- The patient database is not modelled: the model class and the `/delete`, `/database`, `/form` and `/api/patients` endpoints are storage I/O.
- Model loading, the segmenter, the tokenizer, the neural network and the Lucene/BM25 index are not modelled. These are foreign libraries. Their results enter as parameters: the detected intent is an index supplied by an oracle, and the hit list comes from a search function.
- `disease_response`, `problem_response`, `chatgpt_response` and `get_label` are defined in `src/utils`, which is not part of this model. They are opaque parameters, and confidences are opaque `real` values.
- The debug `print` output of `/get` and at startup is not modelled.
- `/api/chat` with a JSON body that is not an object (an array, a string, a number) is not modelled. The body is either absent or an object. A malformed body or a wrong content type is not modelled either: `request.get_json()` then raises `BadRequest` or `UnsupportedMediaType` inside the `try`, and the view answers 500 with `str(e)`.
- JSON values other than strings and `null` are carried as opaque values. Only strings and `null` are compared or defaulted.
- Collaborators are modelled as deterministic functions of the message, so repeated calls on one message give one answer. The real generation service is a network call whose text varies and whose failures are transient, and how `disease_response` picks a template is not visible. The side-by-side lemmas (`Dispatch.RoutesDifferOnNamePrompt`, `Dispatch.RoutesDifferOnShortMessage`, `Dispatch.RoutesDifferOnUnknownMode`, `Dispatch.RoutesAgreeOnDelegatedModes`) therefore compare the routes for one collaborator answer, not two separate requests.
- Dispatch.ApiChat: the text of a collaborator's exception is `Failure(text)`, that is `str(e)`. How each collaborator can fail is not modelled, and the `IndexError` text `list index out of range` assumes that `get_label` returns `tags_set` as a Python list, which `src/utils` (not part of this model) would have to confirm.
- Shaping.ApiIntents: the catalog is taken to be well formed, with every intent having `tag`, `patterns` and `responses`. A missing key would be a `KeyError`.
- Shaping.ApiSearch: `limit` enters already converted. Flask's `type=int` conversion, with its fallback to 5 when the argument is not an integer, is the `None` case. The model does not claim that the search returns at most `limit` hits, because that belongs to the search library.
- `build_lookup_db.py` is not modelled: it only does file I/O and JSON formatting. `test_api.py` is not modelled: it is an HTTP client script that makes no assertions.
