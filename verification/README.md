# CV job matcher: upload controller, response normaliser and proxy rewrite

A Dafny model of the logic inside the CV job matcher page and its
development server. The page lets a user pick or drop a PDF résumé, posts it
to an n8n webhook, and shows the ranked job matches that come back. The
model covers the following.

- **Upload controller** (`UploadController`). The component's five pieces of
  state (`file`, `loading`, `results`, `error`, `uploadProgress`) form one
  immutable record. Each handler is one pure transition:
  - `SelectFile` is `handleFileChange` and `DropFiles` is `handleDrop`.
  - `BeginUpload` is the guard and reset at the start of `handleUpload`.
  - `Tick` is the updater the progress interval runs.
  - `Settle` is the rest of `handleUpload` once `fetch` has settled.
  - `Triage` checks the status, then the content type, then JSON decoding.
- **Response normaliser** (`Normaliser`). It finds the raw match list with the
  priority chain: a top-level array, then `results`, then `matches`, then a
  single match object. It then fills in each record's fields with
  JavaScript `||` defaulting.
- **Decoded JSON** (`Json`). A JSON value type with `undefined` (`Absent`),
  plus JavaScript truthiness, `||`, and property reads.
- **Errors** (`Errors`). The failure kinds one submission can end in, and the
  message each one shows. The server-error message carries the status code
  in decimal and a body excerpt of at most 100 characters.
- **Score display** (`ScoreDisplay`). The threshold tables of
  `getScoreLabel`, `getScoreColor` and `getScoreBg`.
- **Proxy rewrite** (`ViteProxy`). The `/api` → `/webhook` path rewrite of
  the Vite dev-server proxy.

Inputs the page gets from the outside are parameters of the model:
- the selected files of an event;
- the HTTP status, the `content-type` header, the body text, and the body
  decoded as JSON (`None` when `response.json()` would reject);
- whether `fetch` rejected.

Scores are integers. The Vietnamese user-facing messages are represented by
English glosses. The one exception is the server-error message, whose
structure (status code and body excerpt) is modelled exactly.

### Notes on the code's behaviour

- Defaulting uses `||`, so defaults also replace present falsy values, not
  only missing ones. An empty `job_title` becomes `Unknown Position`. A
  `semantic_score` of `0` next to a `score` of `75` becomes `75`, not `0`.
- The two score fields are not always kept identical. When both are truthy
  and differ, each keeps its own value (`Normaliser.ScoresAgree`).
- A `null` payload, or a `null` element in the match list, makes a property
  read throw. The `catch` reports this as an error (`NullAccess`), not as a
  shape error.
- `response.ok` is modelled as a status from 200 to 299, the range the
  Fetch standard gives for an ok status (`StatusOk`).
- When `fetch` itself rejects, the assignment that sets progress to 100 is
  skipped, so `Settle` leaves the progress value as it was.

## Model

| member | source | states |
|---|---|---|
| Json.Or | n8n-project/src/CVJobMatcher.jsx:110-115 | the or-operator's value is `a` when `a` is truthy and `b` otherwise, so it is truthy iff either operand is |
| Json.Truthy | n8n-project/src/CVJobMatcher.jsx:96-115 | `null` and `undefined` are falsy and every array and object is truthy, as JavaScript truthiness has it |
| Json.Get | n8n-project/src/CVJobMatcher.jsx:96-100 | a property read gives the object's own field when there is one and `undefined` otherwise |
| Json.OrAssociative | n8n-project/src/CVJobMatcher.jsx:111-112 | the chained defaults (score, then the other score, then 0) pick the same value however they are grouped |
| Json.OrNeverAbsent | n8n-project/src/CVJobMatcher.jsx:110-115 | a field defaulted with a present default is never `undefined` |
| Text.Includes | n8n-project/src/CVJobMatcher.jsx:85 | `includes` is true exactly when the needle occurs at some index of the string |
| Text.Substring | n8n-project/src/CVJobMatcher.jsx:80 | `substring(0, n)` is a prefix of the string whose length is the smaller of n and the string's length |
| Text.DecimalString | n8n-project/src/CVJobMatcher.jsx:80 | the interpolated status is a non-empty digit string with no leading zero (0 renders as `0`) that reads back as the status |
| Errors.ServerFailure | n8n-project/src/CVJobMatcher.jsx:78-81 | a non-ok response's error keeps the status and the body's prefix of exactly min(100, body length) characters |
| Errors.FailureMessage | n8n-project/src/CVJobMatcher.jsx:78-104 | a server error's message is `Server error (` + the decimal status + `): ` + the excerpt; every thrown message is non-empty |
| Errors.CaughtMessage | n8n-project/src/CVJobMatcher.jsx:121-122 | every caught failure shows the fixed prefix followed by exactly the thrown error's message |
| Errors.ServerErrorMessageContents | n8n-project/src/CVJobMatcher.jsx:78-81 | the shown server-error message contains the decimal status code and the body excerpt, and the excerpt is a prefix of the body of length at most 100 |
| Normaliser.NormaliseJob | n8n-project/src/CVJobMatcher.jsx:109-116 | a record fails exactly when it is null or undefined; otherwise all six fields are present, and title, reasoning, skill gaps and strengths are the given value when truthy and the default otherwise |
| Normaliser.ScoresAgree | n8n-project/src/CVJobMatcher.jsx:111-112 | if exactly one score field is truthy, both outputs equal it; if neither is, both are 0; if both are, each keeps its own value; the outputs are equal exactly when not both are truthy or they agree |
| Normaliser.NormaliseAll | n8n-project/src/CVJobMatcher.jsx:109-116 | the mapped list has the input's length and order, record by record, and it fails exactly when some element is null or undefined |
| Normaliser.FirstMatch | n8n-project/src/CVJobMatcher.jsx:94-104 | the result is that of a matcher that applies with none before it applying, and there is no result only when no matcher applies |
| Normaliser.ExtractList | n8n-project/src/CVJobMatcher.jsx:94-104 | a null payload fails with a property-read error; an array is taken as is; a shape error means the payload is neither an array nor a single match; a list that comes from neither the top level nor `results` nor `matches` is the payload wrapped as `[data]` |
| Normaliser.LooksLikeSingleMatch | n8n-project/src/CVJobMatcher.jsx:100 | only an object with its own `job_title` field can be taken as a single match |
| Normaliser.ExtractListIsFirstMatch | n8n-project/src/CVJobMatcher.jsx:94-104 | the if-chain equals "first applicable shape" over the ordered matchers: top-level array, `results`, `matches`, single object |
| Normaliser.ShapePriority | n8n-project/src/CVJobMatcher.jsx:96-101 | an array under `results` wins over `matches` and over the single-object reading; without either array, the object is accepted exactly when it looks like a single match |
| Normaliser.Normalise | n8n-project/src/CVJobMatcher.jsx:94-119 | an empty raw list gives the no-matches guidance; a list of matches is non-empty and is exactly the raw list mapped record by record, in order; a failure is the shape dispatch's failure, or a property-read error from a null record |
| Normaliser.NormaliseExamples | n8n-project/src/CVJobMatcher.jsx:94-116 | `[]` gives no matches; `[{job_title:"Engineer", score:75}]` gives one record with both scores 75 and default reasoning and lists; `{job_title:"Solo", score:0}` is accepted as a single match; `{foo:"bar"}` is a shape error; `null` and `[null]` fail |
| Normaliser.DefaultingExamples | n8n-project/src/CVJobMatcher.jsx:109-116 | a fully populated record under `results` passes through unchanged; an empty title becomes the placeholder and a 0 semantic score is replaced by the other score |
| UploadController.NoticeText | n8n-project/src/CVJobMatcher.jsx:18-122 | the banner text is empty exactly when there is no notice, and for a failed request it is the caught failure's message |
| UploadController.Acceptable | n8n-project/src/CVJobMatcher.jsx:16-17 | a PDF of exactly 10485760 bytes is accepted and any file one byte larger is refused |
| UploadController.SelectFile | n8n-project/src/CVJobMatcher.jsx:13-30 | an empty event changes nothing; the file is stored iff it is a PDF of at most 10485760 bytes; a rejected file sets a non-empty error (type checked before size), clears the file and keeps the results; an accepted one clears error and results; loading and progress never change |
| UploadController.DropFiles | n8n-project/src/CVJobMatcher.jsx:32-39 | a drop with no files changes nothing |
| UploadController.DropIsSelection | n8n-project/src/CVJobMatcher.jsx:32-39 | dropping files has exactly the effect of selecting them |
| UploadController.SelectIdempotent | n8n-project/src/CVJobMatcher.jsx:13-30 | choosing the same file twice equals choosing it once |
| UploadController.BeginUpload | n8n-project/src/CVJobMatcher.jsx:45-54 | with no file the submit is refused and only the error changes; otherwise the selected file is requested with loading on, error and results cleared and progress 0 |
| UploadController.Tick | n8n-project/src/CVJobMatcher.jsx:61-67 | below 90 a tick adds exactly 10; anything at or above 90 goes to 90; 90 is the only fixed point; from a multiple of 10 within [0, 90] the tick stays a multiple of 10 within [previous, 90] |
| UploadController.TicksClosedForm | n8n-project/src/CVJobMatcher.jsx:60-68 | after n ticks from 0 the progress is 10·n below 9 ticks and 90 from then on |
| UploadController.TicksMonotone | n8n-project/src/CVJobMatcher.jsx:60-68 | ticked progress never decreases, stays within [0, 90] and is a multiple of 10 |
| UploadController.StatusOk | n8n-project/src/CVJobMatcher.jsx:78 | `response.ok` holds exactly for statuses of the 2xx class |
| UploadController.DeclaresJson | n8n-project/src/CVJobMatcher.jsx:85 | a content type starting with `application/json` (with any parameters after it) passes; a missing or empty header fails |
| UploadController.Triage | n8n-project/src/CVJobMatcher.jsx:78-90 | a non-ok status is a server error whatever the content type; an ok status without a JSON content type is a not-JSON error; a JSON response whose body does not decode is a decoding error; the body is used exactly when status, content type and decoding all succeed |
| UploadController.Settle | n8n-project/src/CVJobMatcher.jsx:70-126 | loading ends and the file is kept; a resolved fetch sets progress to 100, a rejected one keeps both the progress and the results and reports a network error; a response that fails triage shows that failure; a decoded payload shows its normalisation failure, the no-matches guidance, or its records as the results; results and error never change together |
| UploadController.SubmissionOutcome | n8n-project/src/CVJobMatcher.jsx:45-126 | after a full submission, results are shown iff the banner is empty iff the response triages and normalises to matches, and the shown results are the raw list mapped record by record; the no-matches guidance appears iff the list was empty |
| UploadController.ServerErrorFirst | n8n-project/src/CVJobMatcher.jsx:78-81 | a non-ok status ends in a server error naming the status code, with no results |
| ScoreDisplay.ScoreLabel | n8n-project/src/CVJobMatcher.jsx:141-147 | the label is at or above each named label exactly when the score reaches that label's threshold (90, 80, 70, 60) |
| ScoreDisplay.LabelMonotone | n8n-project/src/CVJobMatcher.jsx:141-147 | a higher score never gets a lower label |
| ScoreDisplay.ScoreColor | n8n-project/src/CVJobMatcher.jsx:129-133 | the text tone is at or above amber or emerald exactly when the score reaches 60 or 80 |
| ScoreDisplay.ScoreBg | n8n-project/src/CVJobMatcher.jsx:135-139 | the background tone is at or above amber or emerald exactly when the score reaches 60 or 80 |
| ScoreDisplay.TextClass | n8n-project/src/CVJobMatcher.jsx:129-133 | emerald, amber and rose tones give exactly the classes `text-emerald-600`, `text-amber-600` and `text-rose-600` |
| ScoreDisplay.BgClass | n8n-project/src/CVJobMatcher.jsx:135-139 | emerald, amber and rose tones give exactly the emerald, amber and rose background-and-border class pairs |
| ScoreDisplay.ToneMonotone | n8n-project/src/CVJobMatcher.jsx:129-139 | colour and background are monotone in the score and always agree |
| ScoreDisplay.ToneCoarsensLabel | n8n-project/src/CVJobMatcher.jsx:129-147 | emerald goes with the top two labels, amber with the middle two, rose with the default label |
| ViteProxy.Rewrite | n8n-project/vite.config.js:15 | a path starting with `/api` becomes `/webhook` followed by the rest unchanged and grows by 4; any other path is unchanged |
| ViteProxy.RewriteIdempotent | n8n-project/vite.config.js:15 | rewriting twice equals rewriting once |
| ViteProxy.RewriteRoundTrip | n8n-project/vite.config.js:15 | a path not starting with `/webhook` is recovered from its rewrite |
| ViteProxy.RewriteInjectiveOffWebhook | n8n-project/vite.config.js:15 | two paths not starting with `/webhook` that rewrite to the same path are equal |
| ViteProxy.RewriteCollision | n8n-project/vite.config.js:15 | `/api` + rest and `/webhook` + rest are forwarded to the same path |
| ViteProxy.RewriteExamples | n8n-project/vite.config.js:14-15 | `/api/cv-upload` becomes `/webhook/cv-upload`, `/api/api/x` becomes `/webhook/api/x`, `/apix` becomes `/webhookx`, and `/v1/api` and `/ap` are unchanged |

## Left out

- React hooks, JSX rendering, icons and styling are presentation only. The
  tone datatype stands for the colour class strings, which `TextClass` and
  `BgClass` give.
- `fetch`, `FormData`, the webhook URL, `response.text()` and
  `response.json()` are network I/O. Their results are inputs of `Settle`.
- `handleDragOver` only calls `preventDefault`, so it has no state to model.
- Timer scheduling is left out: the real timing of `setInterval` and
  `setTimeout`, interval cancellation, the interval that keeps running after
  a rejected fetch, and the reset of progress to 0 one second after
  settlement. Only the tick function and the assignment of 100 on a resolved
  fetch are modelled.
- The `(file.size / 1024).toFixed(2)` size display is floating-point
  formatting.
- Json.Num: every decoded JSON number is an integer, not only the scores
  `ScoreDisplay` sees. NaN, fractional and exponent-form numbers, and
  non-numeric scores, are not modelled, because the handler only tests
  numbers for truthiness and compares scores with thresholds.
- Text.Substring: counts characters, whereas JavaScript's `substring` counts
  UTF-16 code units. The two differ only for bodies with characters outside
  the Basic Multilingual Plane.
- The exact Vietnamese messages, and the runtime's own texts for network
  errors, JSON decoding errors (`Undecodable`) and property-read errors,
  are English glosses. Only emptiness and the
  server-error structure are modelled.
- The submit button's `disabled={!file || loading}` gating is rendering and
  is not modelled. `BeginUpload` is modelled as callable in any state, as
  the handler is.
- A `files` property that is `null` in a change event is modelled as an
  empty file list.
- The proxy's target, `changeOrigin`/`secure` flags, port, plugin setup and
  `proxyReq` logging hook are library wiring and I/O. Only the `rewrite`
  function is modelled.
