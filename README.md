# Résumé checker: server pipeline, client storage and scan flow

This project models in Dafny the deterministic core of a mobile ATS (applicant tracking
system) résumé checker, and proves properties of that model. The core has four parts.

- **The server's five résumé endpoints** (`server/routes.ts`):
  - analyze an uploaded file, match a job description, improve a résumé, generate
    interview questions, and write a cover letter;
  - each endpoint checks its required inputs and returns 400 before any model call;
  - each builds the user content for a chat-completion call and makes at most one call:
    none when a value inserted into the prompt cannot be converted to text;
  - a missing or empty reply reads as `"{}"`, and the reply is cut to its greedy
    `{ … }` span;
  - the span is parsed, or a fixed per-task fallback takes its place;
  - the analyze endpoint merges request metadata under the parsed keys, and the
    cover-letter endpoint stamps `generatedAt` when it is missing or falsy (`""`, `0`, …).
- **On-device persistence** (`client/lib/storage.ts`): a key-value store holding the
  scan history (newest first, at most 50), the subscription (a partial-record merge), the
  free-scan quota, the current analysis and the last job description, plus a reset.
- **The scan flow** (`client/screens/ScanScreen.tsx`): the quota gate, the scan consumed
  before the upload and never refunded, and the two storage writes after a successful
  analysis.
- **Classification helpers inside the UI**:
  - score bands at 80/60/40 (`ScoreCircle`, `HistoryCard`);
  - the section status colour, with its falsy-zero test (`SectionStatus`);
  - interview questions grouped into fixed category sections (`InterviewQuestionsScreen`);
  - the rounded average score and the three most recent scans (`HomeScreen`).

Modules:

| module | file | models |
|---|---|---|
| `Wrappers` | wrappers.dfy | `Option` |
| `Text` | text.dfy | decimal rendering of integers (`String(n)`), prefix and suffix |
| `JsValue` | json.dfy | JSON values, JavaScript truthiness, `String(v)` and object spread |
| `ResumeTypes` | resume_types.dfy | the records of `client/types/resume.ts` and their JSON shapes |
| `Routes` | routes.dfy | `server/routes.ts` |
| `Storage` | storage.dfy | `client/lib/storage.ts`, as the class `Store` over a map |
| `ScanScreen` | scan_screen.dfy | `handlePickDocument` and `handleAnalyze` in `ScanScreen.tsx`, as a class |
| `Theme` | theme.dfy | the theme colour tokens the helpers return |
| `ScoreCircle`, `HistoryCard`, `SectionStatus` | score_circle.dfy, history_card.dfy, section_status.dfy | the components' pure helpers |
| `InterviewQuestions` | interview_questions.dfy | sections, guards and empty state of `InterviewQuestionsScreen.tsx` |
| `HomeScreen` | home_screen.dfy | average score, its label and the recent-scans slice |

The model call, `JSON.parse`, `JSON.stringify`, base64 and UTF-8 decoding are
function-typed parameters. `parse` returns `None` where `JSON.parse` throws. The clock
and the id generator are plain parameters.

A handler returns the list of model requests it made together with the response, so
"rejected before any model call" is stated as `sent == []`.

There is no retry on a failed model call, and no check that a parsed reply has the
required keys. Each request makes at most one model call, and any exception becomes a 500.
A parsed reply is not validated: match-jd, improve and interview-questions return it
as `JSON.parse` gives it, analyze spreads it over the request metadata, and cover-letter
only stamps its `generatedAt`.

A template literal `${v}` converts `v` with `String(v)`. For a JSON object that has its own
`toString` property, that conversion throws a TypeError, and so does an array holding such
an object. The throw happens while the model request is being built, inside the handler's
`try`. The prompt builders therefore return `None` in that case, and the handler answers
500 without calling the model.

## Model

| member | source | states |
|---|---|---|
| JsValue.ToText | server/routes.ts:128 | When the conversion does not throw, a string is inserted unchanged, any object as `[object Object]`, and an empty array as nothing. |
| JsValue.ToTextSingleton | server/routes.ts:128 | A one-element array whose element is not null converts exactly as its element does. |
| JsValue.ToTextOfStrings | server/routes.ts:128 | An array of strings always converts, to the strings joined with commas. |
| JsValue.SpreadEntries | server/routes.ts:92 | Spreading an object copies exactly its fields; `null`, booleans and numbers copy nothing. An array or a string spreads to exactly the keys `"0"`, `"1"`, … one per element or character, each holding that element or that one-character string. |
| Routes.ExtractText | server/routes.ts:20-26 | A PDF gives exactly: the fixed header line, then a prefix of its base64 text of length min(n, 5000), then `...`. Any other type gives a prefix of the UTF-8 text of length min(n, 10000). |
| Routes.AnalyzeUserContent | server/routes.ts:60 | The analyze prompt is the fixed intro followed by the extracted text, unaltered. |
| Routes.MatchJdUserContent | server/routes.ts:128 | The prompt is built iff both values convert to text. It is then exactly the résumé block followed by the job-description block: it starts and ends with them and has the length of the two together. |
| Routes.SuggestionsOrEmpty | server/routes.ts:183 | Truthy suggestions pass through unchanged; absent or falsy ones become `[]`. |
| Routes.ImproveUserContent | server/routes.ts:183 | The prompt is built iff the résumé converts to text. It is then the résumé part, `\n\n` and the stringified suggestions-or-`[]` part, pinned by prefix, suffix, middle and length. |
| Routes.InterviewUserContent | server/routes.ts:246 | The prompt is built iff the résumé converts to text and, when the job description is truthy, it does too. It always starts with the résumé block. It is longer than that block iff the job description is truthy, and the rest is then exactly the job-description block. |
| Routes.CoverLetterUserContent | server/routes.ts:308 | The prompt is built iff the job description converts to text and, when the résumé is truthy, it does too. It then starts with `Resume:\n` iff the résumé is truthy, ends with the job-description block, and has the length of the blocks it holds. |
| Routes.OwnToStringBlocksPrompt | server/routes.ts:128-308 | A truthy résumé that is an object with its own `toString` passes the presence check, but none of the four prompts can be built from it. |
| Routes.ReplyText | server/routes.ts:66 | A missing or empty reply becomes `"{}"`; a non-empty one is kept; the result is never empty. |
| Routes.IndexFrom | server/routes.ts:69 | The first index from a start position holding a character, or none when no such index exists. |
| Routes.LastIndexBelow | server/routes.ts:69 | The last index below a bound holding a character, or none when no such index exists. |
| Routes.JsonSpan | server/routes.ts:69 | The greedy match exists iff some `{` comes before some `}`. It starts at the first `{` and ends at the last `}`. |
| Routes.JsonCandidate | server/routes.ts:69-70 | With a match, the parsed text is that contiguous slice, starting with `{` and ending with `}`. Without one, it is the whole reply. |
| Routes.Decode | server/routes.ts:67-84 | A successful parse is returned unchanged, with no shape check. A failed parse yields the task's fallback. |
| Routes.CandidateOfWrapped | server/routes.ts:69-70 | Brace-free prose before an object and brace-free text after it are cut away, whatever the object contains. |
| Routes.CandidateOfTwoObjects | server/routes.ts:69 | Two objects separated by prose are captured together, because the match is greedy. |
| Routes.CandidateWithoutSpan | server/routes.ts:69-70 | When every `}` comes before every `{`, the whole reply goes to the parser. |
| Routes.AnalyzeFallbackSections | server/routes.ts:74-80 | All five fallback sections are marked present. |
| Routes.AnalyzeFallback | server/routes.ts:72-83 | The analyze fallback has exactly the keys atsScore, sections, missingItems and suggestions, and atsScore is 65. |
| Routes.MatchJdFallback | server/routes.ts:140-146 | The match fallback has matchPercentage 60 and three matched skills. |
| Routes.ImproveFallback | server/routes.ts:195-208 | The improve fallback has three original points, three improved points and downloadReady true. |
| Routes.InterviewFallback | server/routes.ts:258-270 | The interview fallback has nine questions, exactly three per category. |
| Routes.FallbackCounts | server/routes.ts:258-270 | Three blocks of three single-category questions give three questions per category. |
| Routes.CoverLetterFallback | server/routes.ts:320-333 | The cover-letter fallback has non-empty content and is stamped with the time it was built. |
| Routes.Metadata | server/routes.ts:86-91 | The request metadata has exactly the keys id, fileName, fileSize, uploadedAt and resumeContent. They hold the generated id, the original file name, the file size, the upload time and the extracted text. |
| Routes.AnalysisRecord | server/routes.ts:86-93 | The keys are the metadata keys plus the spread analysis keys. Every analysis key wins, and every other metadata key keeps its request value. |
| Routes.StampGeneratedAt | server/routes.ts:336-338 | An object whose generatedAt is truthy is returned unchanged. Any other object gets generatedAt = now and keeps its other fields. An array is unchanged. null or a primitive throws (500). |
| Routes.StampIdempotent | server/routes.ts:336-338 | Stamping twice equals stamping once. |
| Routes.EmptyReplyAnalysis | server/routes.ts:66-93 | An empty reply, parsed as `{}`, yields an analysis record holding exactly the request metadata. |
| Routes.HandleAnalyze | server/routes.ts:29-100 | Status is 400 iff no file was uploaded, and then no model call is made. Otherwise one request carries the extracted text. A thrown call gives 500 "Failed to analyze resume". A reply gives 200 with the assembled record. |
| Routes.HandleMatchJd | server/routes.ts:102-154 | Status is 400 iff resumeContent or jobDescription is falsy, with no model call. Otherwise, a value that cannot be converted to text gives 500 with no model call. Otherwise one request is made; it gives 500 on throw and 200 with the decoded reply or the fallback. |
| Routes.HandleImprove | server/routes.ts:156-216 | Status is 400 iff resumeContent is falsy; suggestions are never checked. Otherwise, a résumé that cannot be converted to text gives 500 with no model call. Otherwise one request is made; it gives 500 on throw and 200 with the decoded reply or the fallback. |
| Routes.HandleInterviewQuestions | server/routes.ts:218-278 | Status is 400 iff resumeContent is falsy; jobDescription is never checked. Otherwise, a value that cannot be converted to text gives 500 with no model call. Otherwise one request is made; it gives 500 on throw and 200 with the decoded reply or the fallback. |
| Routes.HandleCoverLetter | server/routes.ts:280-345 | Status is 400 iff jobDescription is falsy; resumeContent is never checked. Otherwise, a value that cannot be converted to text gives 500 with no model call. Otherwise one request is made. It gives 500 on throw or when stamping throws, and 200 with the stamped result otherwise. |
| ResumeTypes.OfCategory | client/screens/InterviewQuestionsScreen.tsx:93 | The filter keeps exactly the questions of the category (both directions) and never grows the list. |
| ResumeTypes.OfCategoryAppend | client/screens/InterviewQuestionsScreen.tsx:93 | Filtering distributes over concatenation, so relative order is kept. |
| ResumeTypes.OfCategoryUniform | client/screens/InterviewQuestionsScreen.tsx:93 | A list entirely of the category is kept whole; a list with none of it becomes empty. |
| Storage.Merged | client/lib/storage.ts:57 | Each supplied field of the partial takes its new value, and every other field keeps the old one. |
| Storage.MergeIdempotent | client/lib/storage.ts:54-63 | Merging the same partial twice equals merging it once, and the empty partial changes nothing. |
| Storage.Prepended | client/lib/storage.ts:29-31 | The new scan is at index 0, followed by the old history in order. The length is min(old + 1, 50), and duplicates are kept. |
| Storage.HistoryStaysCapped | client/lib/storage.ts:27-35 | Any sequence of additions keeps the history at 50 entries or fewer, with the latest scan first. |
| Storage.FreeScanDecision | client/lib/storage.ts:65-79 | Premium is granted with no change. Free with none left is refused with no change. Otherwise one scan moves from remaining to used. Tier, maxFreeScans and remaining + used are preserved, and it grants iff premium or remaining > 0. |
| Storage.FreeQuotaIsExact | client/lib/storage.ts:65-79 | On the free tier, k attempts are granted exactly min(k, remaining) scans, and the counters move by that amount. |
| Storage.DefaultQuota | client/lib/storage.ts:11-16 | A fresh install gets three scans; the fourth attempt is refused, leaving 0 remaining and 3 used. |
| Storage.Key.Name | client/lib/storage.ts:4-9 | Every storage key name carries the `ats_` prefix. |
| Storage.KeyNamesDistinct | client/lib/storage.ts:4-9 | Distinct keys are stored under distinct names, so a write to one key never overwrites another. |
| Storage.Store.constructor | client/lib/storage.ts:11-16 | An empty store reads as no history, the default free subscription, no résumé and an empty job description. |
| Storage.Store.ScanHistory | client/lib/storage.ts:18-25 | Nothing stored reads as `[]`. |
| Storage.Store.Subscription | client/lib/storage.ts:45-52 | Nothing stored reads as the free tier with 3 of 3 scans left and 0 used. |
| Storage.Store.CurrentResume | client/lib/storage.ts:89-96 | Returns null iff nothing is stored. |
| Storage.Store.LastJd | client/lib/storage.ts:106-112 | Nothing stored reads as `''`. |
| Storage.Store.AddScanToHistory | client/lib/storage.ts:27-35 | The stored history becomes `Prepended(old history, scan)`; the other keys are untouched. |
| Storage.Store.ClearScanHistory | client/lib/storage.ts:37-43 | Only the history key is removed, and the history then reads as `[]`. |
| Storage.Store.UpdateSubscription | client/lib/storage.ts:54-63 | The returned record is the merge of the old one and the partial. It is what is stored, and nothing else changes. |
| Storage.Store.UseFreeScan | client/lib/storage.ts:65-79 | The result and the new subscription are those of `FreeScanDecision`. The store is written only when a free-tier scan is consumed. |
| Storage.Store.SaveCurrentResume | client/lib/storage.ts:81-87 | Reading the current résumé afterwards gives back what was saved; the other keys are untouched. |
| Storage.Store.SaveLastJd | client/lib/storage.ts:98-104 | Reading the last job description afterwards gives back what was saved; the other keys are untouched. |
| Storage.Store.ResetAllData | client/lib/storage.ts:114-120 | All four keys are gone, and every getter returns its default. |
| Storage.InterleavedUseFreeScan | client/lib/storage.ts:65-79 | Suppose two calls both read one remaining scan before either writes. Both are granted, and the stored count drops by only one. |
| ScanScreen.SelectionOf | client/screens/ScanScreen.tsx:57-62 | The name and URI are kept. A missing size becomes 0. A missing or empty MIME type becomes `application/octet-stream`; the MIME type is never empty. |
| ScanScreen.PickedFile | client/screens/ScanScreen.tsx:55-56 | A file is picked iff the result is not cancelled and has at least one asset, and it is then the first asset. |
| ScanScreen.HistoryEntry | client/screens/ScanScreen.tsx:115-121 | The history entry carries the analysis id, the file name, score = atsScore, scannedAt = uploadedAt and the résumé text. |
| ScanScreen.ScanScreen.constructor | client/screens/ScanScreen.tsx:36-43 | The screen starts with no file selected and not analyzing. |
| ScanScreen.ScanScreen.HandlePickDocument | client/screens/ScanScreen.tsx:45-69 | A usable pick replaces the selection; a cancelled or empty pick keeps it. |
| ScanScreen.ScanScreen.HandleRemoveFile | client/screens/ScanScreen.tsx:71-73 | The selection is cleared. |
| ScanScreen.ScanScreen.StartAnalyze | client/screens/ScanScreen.tsx:75-84 | With no selection, nothing happens. A free tier with none left goes to upgrade without starting. Otherwise the spinner starts and the selected file proceeds. |
| ScanScreen.ScanScreen.FinishAnalyze | client/screens/ScanScreen.tsx:85-131 | A refused scan goes to upgrade with no upload and no store change. A granted scan uploads the file. A failed upload keeps the consumed scan and the selection. A success stores the analysis, prepends its history entry and clears the selection. The spinner is off on every path. |
| ScanScreen.ScanScreen.HandleAnalyze | client/screens/ScanScreen.tsx:75-132 | An ungated tap does nothing or goes to upgrade, consuming no quota. A gated tap always uploads, and a free-tier scan is spent even if the upload fails. A failed upload keeps the selection, the history and the current résumé. Success writes the current résumé and the history head and clears the selection. No path touches the saved job description. |
| ScanScreen.InterleavedTaps | client/screens/ScanScreen.tsx:75-131 | Suppose two taps both pass the gate with one scan left. The first gets the report and the second is refused by `useFreeScan` and sent to upgrade. |
| ScoreCircle.BandOf | client/components/ScoreCircle.tsx:41-46 | Every score lies in exactly one band of ≥80, 60–79, 40–59 and below 40. |
| ScoreCircle.BandMonotone | client/components/ScoreCircle.tsx:41-46 | A higher score never gets a lower band. |
| ScoreCircle.ScoreColor | client/components/ScoreCircle.tsx:41-46 | The colour is the one of the score's band. |
| ScoreCircle.ScoreMessage | client/components/ScoreCircle.tsx:48-53 | The message is the one of the same band as the colour. |
| ScoreCircle.Caption | client/components/ScoreCircle.tsx:89-97 | A non-empty label is shown; otherwise the band message is shown. |
| HistoryCard.ScoreColor | client/components/HistoryCard.tsx:18-23 | The card's colour is the band colour, and equals the gauge's colour on every score. |
| HistoryCard.ScoreColorMonotone | client/components/HistoryCard.tsx:18-23 | Banding is monotone, and two scores share a colour iff they share a band. |
| SectionStatus.StatusColor | client/components/SectionStatus.tsx:19-25 | Absent is error whatever the score. Present follows the score: ≥80 success, 60–79 primary, 40–59 warning. Present with no score or a score below 40 (0 included) is error. |
| SectionStatus.VisibleIssues | client/components/SectionStatus.tsx:57-59 | The first min(2, n) issues are shown in order, and none when issues are omitted. |
| SectionStatus.StatusIcon | client/components/SectionStatus.tsx:45-49 | The check icon shows iff the section is present. |
| SectionStatus.ScoreText | client/components/SectionStatus.tsx:50-54 | The score text shows iff a score is defined. It is then exactly its decimal form followed by `%`: that prefix, a final `%`, and one character more than the decimal. |
| SectionStatus.ZeroScore | client/components/SectionStatus.tsx:19-54 | A present section scored 0 shows "0%" in the error colour. |
| InterviewQuestions.KeepNonEmpty | client/screens/InterviewQuestionsScreen.tsx:105 | The kept sections are exactly the non-empty ones. |
| InterviewQuestions.Sections | client/screens/InterviewQuestionsScreen.tsx:89-105 | There are at most three sections, in the order hr, technical, situational. Each is non-empty and holds exactly its category's questions. Every category with questions has a section. |
| InterviewQuestions.SectionTitles | client/screens/InterviewQuestionsScreen.tsx:89-103 | Every section shown is titled after its category: "HR Questions", "Technical Questions" or "Situational Questions". |
| InterviewQuestions.CategoriesCoverKnown | client/screens/InterviewQuestionsScreen.tsx:93-103 | The three category filters together count exactly the questions of a known category. |
| InterviewQuestions.SectionsTotal | client/screens/InterviewQuestionsScreen.tsx:89-105 | The section sizes add up to the number of questions whose category is one of the three. |
| InterviewQuestions.ThreeByThree | client/screens/InterviewQuestionsScreen.tsx:89-105 | Three questions per category give three sections of three. |
| InterviewQuestions.FallbackSections | client/screens/InterviewQuestionsScreen.tsx:89-105 | The server's fallback questions display as three sections of three. |
| InterviewQuestions.EmptyStateHasNoSections | client/screens/InterviewQuestionsScreen.tsx:137 | When the empty state shows, there are no sections. |
| InterviewQuestions.RequestBody | client/screens/InterviewQuestionsScreen.tsx:70-73 | The request body has exactly the keys resumeContent and jobDescription, holding the stored résumé text and the stored last job description as strings. |
| InterviewQuestions.RequestAtServer | client/screens/InterviewQuestionsScreen.tsx:64-74 | The server refuses this request iff the stored résumé text is empty. An empty job description adds no job-description block. |
| InterviewQuestions.InterviewQuestionsScreen.constructor | client/screens/InterviewQuestionsScreen.tsx:33-51 | The screen starts with the loaded résumé, job description and subscription, no questions, and not generating. |
| InterviewQuestions.InterviewQuestionsScreen.HandleGenerate | client/screens/InterviewQuestionsScreen.tsx:53-87 | A missing or non-premium subscription goes to upgrade, and premium with no résumé gets an alert; neither sends a request. Otherwise one request is sent and generation ends. A successful reply replaces the questions; a failed one keeps them. |
| HomeScreen.RoundHalfUp | client/screens/HomeScreen.tsx:58 | The result is the integer nearest to the quotient, and a half rounds up. |
| HomeScreen.AvgScore | client/screens/HomeScreen.tsx:57-59 | An empty history gives 0. Otherwise the result is the mean score rounded half up. |
| HomeScreen.TotalBetween | client/screens/HomeScreen.tsx:58 | The score total lies between n × minimum and n × maximum. |
| HomeScreen.AvgBetweenMinAndMax | client/screens/HomeScreen.tsx:57-58 | The rounded average lies between the lowest and the highest score. |
| HomeScreen.AvgLabel | client/screens/HomeScreen.tsx:99 | The label is `--` iff the average is ≤ 0; otherwise it is exactly the decimal followed by `%`: that prefix, a final `%`, and one character more. |
| HomeScreen.ZeroHistoryShowsDash | client/screens/HomeScreen.tsx:57-99 | Any non-empty history whose scores are all 0 averages 0 and shows `--`. |
| HomeScreen.TotalScore | client/screens/HomeScreen.tsx:58 | The `reduce` sum of scores is never negative when no score is. |
| HomeScreen.RecentScans | client/screens/HomeScreen.tsx:195-203 | The block is absent iff the history is empty. Otherwise it holds the first min(3, n) entries in order. |

## Left out

- The model's system instructions (the long prompt texts) are left out. A request names its task instead.
- JSON key order and the exact serialised text of responses are not modelled. Bodies are maps.
- Numbers are integers only; fractional scores, `NaN` and `Infinity` are not modelled. A falsy number is therefore just 0.
- `.slice` in JavaScript counts UTF-16 code units. The model slices sequences of characters, so surrogate pairs are not modelled.
- The 10 MiB upload limit is enforced by the upload middleware before a handler runs, so it is a precondition of `HandleAnalyze`.
- The multer limit error is not modelled, nor anything else the HTTP wiring does before a handler.
- `server/index.ts` is not part of this model.
- Device storage failures are not modelled. The `catch` branches that return defaults or swallow errors are unreachable here.
- JSON round-trips through storage are taken to be the identity, so the store holds typed values.
- `getScanHistory` and the other getters trust the stored shape.
- On the client, a response body whose `questions` field is missing is not modelled; the screen would then fail on `questions.length`.
- A fetch reply is a success with its typed payload, or a failure.
- Navigation, alerts, haptics, animations, styles, date formatting and rendering are left out. So are the screens that only wrap a fetch: report, history, JD match, improve, cover letter, profile, upgrade and auth.
- Concurrency is shown only through the two scenarios `Storage.InterleavedUseFreeScan` and `ScanScreen.InterleavedTaps`. Other interleavings of the client's `await`s are not modelled.
- `ScanScreen.ScanScreen.FinishAnalyze`: a store write is taken to complete before the next begins.
- The id generator and the clock are parameters: `generateId` (time plus random text) and `new Date().toISOString()`.
- JsValue.ToText: a number is written with all its digits. JavaScript switches to exponent notation from 10^21 (`1e+21`) and loses precision beyond 2^53, and neither is modelled.
- Routes.StampGeneratedAt: assumes the server module runs in strict mode, where assigning `generatedAt` on a boolean, number or string throws and the handler answers 500. In sloppy mode the assignment is silently ignored and the primitive is returned with 200. Nothing in the server files fixes the mode.
- Routes.HandleCoverLetter: takes one `now` for both time reads, since at most one of them is used on any path.
