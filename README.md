# MindBlitz study assistant — a Dafny model of its core

MindBlitz turns a topic into a study pack. The backend reads the topic's
page summary from the encyclopedia and asks a generative model for a
summary, a quiz, a study tip, a fun fact and, in math mode, a math problem.
Every field the model does not supply is built by a local fallback. The
frontend keeps a recent-topics history and a colour theme in the browser's
`localStorage`, runs the quiz card and tracks a daily study streak.

The model has one module per source file. Each module keeps that file's
functions and their branches, constants and error paths. There are also
four shared modules:

- `Wrappers`: `Option` and `Result`.
- `Strings`: ECMAScript `trim`, ASCII lower-casing, substring search,
  `join` and decimal printing, each stated with its properties.
- `Json`: JSON values, JavaScript truthiness, and an abstract `Runtime`
  that holds `JSON.parse`, `JSON.stringify`, `String(v)` and the throwing
  `slice`.
- `Errors`: the `HttpError(status, message)` the controller throws, and
  the status 500 the error handler uses for any other exception.

Modules:

- `Validate` (`backend/src/utils/validate.js`) trims the topic, cuts it
  to 200 characters and normalises the mode.
- `WikiService` (`backend/src/services/wikiService.js`) maps the
  page-summary response to the topic record, including the 404 case,
  the thrown failures and the fun fact.
- `AIService` (`backend/src/services/aiService.js`) covers the key
  check, the two prompt templates, the request, and the recovery of a
  JSON value from the reply. Recovery is fence stripping, a direct parse,
  then a scan for the first balanced `{…}` or `[…]` span. It also covers
  the shaping of the result and the all-empty sentinel returned on every
  failure. The bracket scan is an imperative method proved against its
  specification function.
- `StudyController` (`backend/src/controllers/studyController.js`) holds
  the request checks, the fallback summary, tip, quiz and math problem,
  and the composition of the payload from the model's content and the
  fallbacks. The quiz builder is a loop-based method proved against a
  specification function.
- `Storage` (`frontend/src/lib/storage.js`) is a `BrowserStorage` class
  over the key-value map: the history under `ssa_history` (newest first,
  case-insensitive de-duplication, ten entries) and the theme under
  `ssa_theme`.
- `StreakTracker` (`frontend/src/components/StreakTracker.jsx`) is the
  mount-time and per-pack streak transitions, and a `Tracker` class
  holding the component state and the stored record.
- `Quiz` (`frontend/src/components/Quiz.jsx`) is the scoring, the
  celebration threshold, the option and question marks, and a
  `QuizState` class for choosing and revealing.

The network, the clock and the runtime's JSON functions are inputs:

- the response of each HTTP request is a parameter;
- `Date.now()` is the `tipSeed`/`mathSeed` parameters;
- `toISOString()` is the `timestamp` parameter;
- calendar days are day numbers;
- `JSON.parse` is a partial function `string -> Option<Json>`.

## Model

| member | source | states |
|---|---|---|
| Validate.SanitizeInput | backend/src/utils/validate.js:1-3 | the result is the trimmed input cut to at most 200 characters: a prefix of the trimmed text, all of it when that fits, exactly 200 characters otherwise |
| Validate.SanitizeKeepsText | backend/src/utils/validate.js:1-3 | a topic whose trimmed text is non-empty stays non-empty after sanitising and does not start with white space |
| Validate.ModeName | backend/src/utils/validate.js:5-7 | the mode's name is `math` or `normal`, and `math` exactly for the math mode |
| Validate.NormalizeMode | backend/src/utils/validate.js:5-7 | the mode is math if and only if the raw value is exactly the string `math` |
| Validate.NormalizeModeIdempotent | backend/src/utils/validate.js:5-7 | normalising the name of a normalised mode gives the same mode |
| Strings.Trim | backend/src/utils/validate.js:2 | the result is a slice of the input with only white space cut at each end, and has no white space at either end |
| Strings.TrimIdentity | backend/src/controllers/studyController.js:71 | trimming leaves a text unchanged exactly when it has no edge white space, and trimming twice is trimming once |
| Strings.TrimPadded | backend/src/services/aiService.js:173-176 | white space added around a text does not change its trimmed form |
| Strings.Lower | frontend/src/lib/storage.js:15 | lower-casing keeps the length and lower-cases every character in place |
| Strings.Contains | backend/src/services/aiService.js:106 | true exactly when the pattern occurs at some position |
| Strings.IndexOf | backend/src/services/aiService.js:193 | -1 exactly when the character is absent, else the position of its first occurrence |
| Strings.Take | backend/src/utils/validate.js:2 | the first `n` characters, or the whole text when it is shorter |
| Strings.JoinClosing | backend/src/services/aiService.js:156 | a join of two or more parts ends with the separator and the last part |
| Strings.NatToString | backend/src/services/wikiService.js:14 | a non-empty run of decimal digits without a leading zero |
| Strings.NatToStringRoundTrip | backend/src/services/wikiService.js:14 | reading the printed digits back gives the number |
| WikiService.OrElse | backend/src/services/wikiService.js:19 | `a \|\| b` on strings: the first when non-empty, else the second |
| WikiService.NonEmpty | backend/src/services/wikiService.js:21-22 | a falsy string becomes `null`, a non-empty one is kept |
| WikiService.BuildFunFact | backend/src/services/wikiService.js:28-34 | no fact without a title; otherwise the intro and the title, followed by the description or by the fixed tail when there is none |
| WikiService.FromData | backend/src/services/wikiService.js:17-25 | the record falls back from the title to the topic and from the extract to the description; the fun fact is the built one |
| WikiService.FetchTopicData | backend/src/services/wikiService.js:12-25 | a 404 is an empty-extract record; another failure status, a failed request or an unreadable body is an error with status 500 and the code's message; a success maps the body |
| WikiService.FunFactPresence | backend/src/services/wikiService.js:28-31 | a fetched record has a fun fact exactly when the request succeeded with a body that has a title |
| AIService.Truncate | backend/src/services/aiService.js:159-162 | empty stays empty, a text within the bound is kept, a longer one is its first `max` characters and `...` |
| AIService.ContainsAny | backend/src/services/aiService.js:106 | true exactly when one of the terms occurs in the text |
| AIService.IsMathTopic | backend/src/services/aiService.js:106 | true exactly when the lower-cased topic contains one of the eleven math terms |
| AIService.MathPromptLines | backend/src/services/aiService.js:108-133 | the math prompt has 22 lines: topic, context cut to 1200 characters, the math task, the problem and hint lines chosen by the formula flag, and the no-fences line last |
| AIService.NormalPromptLines | backend/src/services/aiService.js:135-156 | the normal prompt has 20 lines: topic, truncated context, the study task, and the no-fences line last |
| AIService.TemplatesDiffer | backend/src/services/aiService.js:108-156 | the two templates' task lines, and the formula and word variants, are different texts |
| AIService.PromptLines | backend/src/services/aiService.js:105-157 | the template is the mode's, and in math mode the formula variant is chosen exactly for a math topic |
| AIService.BuildPrompt | backend/src/services/aiService.js:105-157 | the prompt is the lines joined by newlines: it opens with the topic line and the truncated context line, each ending in a newline, and closes with a newline and the no-fences line |
| AIService.RequestFor | backend/src/services/aiService.js:1-26 | the request carries the mode's system line and the prompt in one text part, temperature 0.3 in math mode and 0.4 otherwise, and the configured model and API version or their defaults |
| AIService.FenceBodyStart | backend/src/services/aiService.js:173 | the body of a fenced reply starts after the three backticks, and after the `json` tag, in any letter case, exactly when the tag is there |
| AIService.StripCodeFences | backend/src/services/aiService.js:172-179 | a text wrapped in a fence becomes its trimmed body; any other text is unchanged |
| AIService.StripTaggedFence | backend/src/services/aiService.js:172-177 | a ```` ```json ```` fence around a body gives the trimmed body |
| AIService.StripUpperTaggedFence | backend/src/services/aiService.js:172-177 | the tag is matched without regard to case: a ```` ```JSON ```` fence around a body gives the trimmed body |
| AIService.StripPlainFence | backend/src/services/aiService.js:172-177 | a fence without a `json` tag gives the trimmed body |
| AIService.DepthSnoc | backend/src/services/aiService.js:195-199 | the depth counter after one more character grows by one for an opening bracket, drops by one for a closing one, and is unchanged otherwise |
| AIService.FirstReturnFrom | backend/src/services/aiService.js:196-205 | the scan stops at the first position where the depth returns to zero, and finds none when it never does |
| AIService.Candidate | backend/src/services/aiService.js:193-201 | the candidate is the span from the first opening bracket to the first point where its depth returns to zero; it is absent exactly when there is no bracket or no such point |
| AIService.ReturnSpan | backend/src/services/aiService.js:196-201 | a span that ends where the depth first returns to zero is balanced and ends the scan |
| AIService.TryBracket | backend/src/services/aiService.js:192-206 | a value is found exactly when that bracket has a candidate span whose parse is truthy, and it is that parse |
| AIService.ScanBracket | backend/src/services/aiService.js:192-206 | the depth-counting loop returns what the candidate specification gives |
| AIService.BalancedJson | backend/src/services/aiService.js:189-209 | objects are tried before arrays: the object attempt when it finds a value, else the array attempt; none without a candidate |
| AIService.ExtractBalancedJson | backend/src/services/aiService.js:189-209 | the two-pass loop returns the object attempt when it succeeds and the array attempt otherwise, as the specification gives |
| AIService.SpanAfterProse | backend/src/services/aiService.js:189-204 | an object after prose that has no brace, followed by any text, is recovered |
| AIService.ParseReply | backend/src/services/aiService.js:164-170 | the recovered value is truthy: the direct parse of the cleaned text, else the balanced span, else `{}` |
| AIService.RobustParseJson | backend/src/services/aiService.js:164-170 | the method computes the recovery specification and its result is truthy |
| AIService.CleanReply | backend/src/services/aiService.js:164-167 | a reply that parses directly after trimming gives that value |
| AIService.FencedReply | backend/src/services/aiService.js:165-167 | a body inside a ```` ```json ```` fence is recovered when the trimmed body parses |
| AIService.TrailingProseReply | backend/src/services/aiService.js:164-170 | an object followed by prose that makes the direct parse fail is still recovered |
| AIService.FirstThree | backend/src/services/aiService.js:87-88 | an array keeps its first three entries in order; anything else becomes `[]` |
| AIService.OrDefault | backend/src/services/aiService.js:89-91 | a truthy value is kept, a falsy one replaced by the default |
| AIService.Shape | backend/src/services/aiService.js:86-92 | the result has at most three summary and quiz entries, other fields keep a truthy value or their default, and each field is taken from the parsed value |
| AIService.ShapeCapsSummary | backend/src/services/aiService.js:87 | a four-entry summary keeps its first three entries |
| AIService.PartTexts | backend/src/services/aiService.js:67-68 | one text per part, in order |
| AIService.CandidateText | backend/src/services/aiService.js:62-68 | a text exists exactly for a truthy body with a non-empty `candidates` array whose first `parts` is falsy or an array; it is `""` for falsy parts, else the part texts joined by newlines |
| AIService.ShapeOfNonObject | backend/src/services/aiService.js:86-92 | shaping any value that is not an object gives the all-empty sentinel |
| AIService.AIContentFor | backend/src/services/aiService.js:4-103 | a request is sent exactly when the key is usable; without a key, on a failed request, a non-2xx status, an unreadable body or a body without candidate text the content is the all-empty sentinel; after a 2xx reply with candidate text the content is the shaped recovery of that text; every result is shaped |
| AIService.GenerateAIContent | backend/src/services/aiService.js:4-103 | the method returns what the outcome specification gives, and so the sentinel on every failure and the shaped recovered text on success |
| AIService.NonObjectIsSentinel | backend/src/services/aiService.js:72-77 | a recovered value that is not an object gives the sentinel even after a successful request |
| StudyController.Split | backend/src/controllers/studyController.js:69 | the pieces, with the separating white-space runs woven back between them, give the text again; every piece but the last ends in a sentence mark, every separator is a non-empty white-space run, no later piece starts with white space, and no piece holds a mark followed by white space |
| StudyController.SplitStep | backend/src/controllers/studyController.js:69 | a first piece ending in a mark, one white-space run and a split remainder form a split of the whole text |
| StudyController.NonEmptyPieces | backend/src/controllers/studyController.js:70 | exactly the filter: no empty piece, the pieces kept in order as a subsequence, each non-empty piece as often as in the input, and a non-empty first piece stays first |
| StudyController.TrimEach | backend/src/controllers/studyController.js:71 | each piece is trimmed in place |
| StudyController.BuildFallbackSummary | backend/src/controllers/studyController.js:66-73 | empty exactly for an empty extract; otherwise as many entries as the smaller of three and the number of non-empty pieces of the split, the k-th being the trimmed k-th non-empty piece |
| StudyController.SplitJoin | backend/src/controllers/studyController.js:69 | sentences joined by single spaces are split back into the same sentences |
| StudyController.SummaryOfSentences | backend/src/controllers/studyController.js:66-73 | the fallback summary of sentences joined by spaces is the first three sentences |
| StudyController.NonEmptyPiecesOfNonEmpty | backend/src/controllers/studyController.js:70 | a list without empty pieces passes the filter unchanged |
| StudyController.Tips | backend/src/controllers/studyController.js:77-86 | eight tips, each naming the subject between its fixed texts |
| StudyController.BuildFallbackStudyTip | backend/src/controllers/studyController.js:75-88 | the tip is the one at the seed modulo eight |
| StudyController.StudyTipNamesSubject | backend/src/controllers/studyController.js:76 | the tip names the title, or `this topic` when the title is empty |
| StudyController.StudyTipCycle | backend/src/controllers/studyController.js:87 | the choice repeats every eight seeds and the seeds 0 to 7 reach every tip |
| StudyController.Item | backend/src/controllers/studyController.js:98-165 | a question with four pairwise different options, the first of which is its answer |
| StudyController.DistinctByFirst | backend/src/controllers/studyController.js:98-165 | four non-empty options with pairwise different first characters are pairwise different |
| StudyController.WhyOptions | backend/src/controllers/studyController.js:100-105 | the four options of the first summary template are pairwise different |
| StudyController.DisruptionOptions | backend/src/controllers/studyController.js:111-116 | the four options of the second summary template are pairwise different |
| StudyController.ApplicationOptions | backend/src/controllers/studyController.js:122-127 | the four options of the third summary template are pairwise different |
| StudyController.SummaryQuestion | backend/src/controllers/studyController.js:94-131 | each of the three question templates is well formed: four pairwise different options, the first of which is the answer |
| StudyController.SummaryQuestionQuotes | backend/src/controllers/studyController.js:95-128 | the first two templates quote the 100-character excerpt in the question; the third has the first 50 characters of the excerpt in its answer |
| StudyController.DepthOptions | backend/src/controllers/studyController.js:137-142 | the four options of the first generic question are pairwise different |
| StudyController.VerifyOptions | backend/src/controllers/studyController.js:147-152 | the four options of the second generic question are pairwise different |
| StudyController.SkillOptions | backend/src/controllers/studyController.js:157-162 | the four options of the third generic question are pairwise different |
| StudyController.LastResortItem | backend/src/controllers/studyController.js:134-165 | each of the three generic questions is well formed: four pairwise different options, the first of which is the answer |
| StudyController.LastResort | backend/src/controllers/studyController.js:134-165 | three generic questions, in their order |
| StudyController.SummaryQuestions | backend/src/controllers/studyController.js:93-131 | one question per summary entry among the first three, built from that entry and its position |
| StudyController.FallbackQuizSpec | backend/src/controllers/studyController.js:90-172 | exactly three well-formed questions (four distinct options each, the answer among them): from the summary entries at their positions, padded with the generic questions at the remaining positions |
| StudyController.PadWithLastResort | backend/src/controllers/studyController.js:167-169 | the padding loop appends the generic questions from the count already collected onwards |
| StudyController.BuildFallbackQuiz | backend/src/controllers/studyController.js:90-172 | the loop-based builder returns the quiz specification |
| StudyController.PaddingIsPositional | backend/src/controllers/studyController.js:167-169 | one summary entry gives its question, then the generic questions two and three |
| StudyController.CeilDiv | backend/src/controllers/studyController.js:193 | the least number of days that covers the pages |
| StudyController.Num1 | backend/src/controllers/studyController.js:176 | the first number lies in 30..99 |
| StudyController.Percentage | backend/src/controllers/studyController.js:177-178 | the percentage and the pages per day lie in 10..49 |
| StudyController.Pages | backend/src/controllers/studyController.js:192 | the page count is 90..297 and a multiple of three |
| StudyController.BuildFallbackMathQuestion | backend/src/controllers/studyController.js:174-198 | the template is the seed modulo three; its numbers lie in their ranges, and for the page template the answer is the printed least covering number of days |
| StudyController.RequestTopic | backend/src/controllers/studyController.js:8-15 | a topic is accepted exactly when it is a string with non-blank trimmed text, and is then the non-empty sanitised text |
| StudyController.CheckedRequest | backend/src/controllers/studyController.js:11-21 | 400 for a missing or blank topic, the lookup's error, 404 for an empty extract; otherwise the topic and a record with a non-empty title and extract |
| StudyController.Texts | backend/src/controllers/studyController.js:25-27 | the summary pieces as JSON strings, in order |
| StudyController.EntryTexts | backend/src/controllers/studyController.js:94-95 | succeeds with the texts when every entry is a string; otherwise fails with an entry that is not a string |
| StudyController.EntryTextsOfTexts | backend/src/controllers/studyController.js:25-34 | strings written as entries are read back unchanged |
| StudyController.ComposedSummary | backend/src/controllers/studyController.js:25-27 | the model's summary when non-empty, else the fallback pieces; one to three entries when the extract is non-empty |
| StudyController.ComposedFunFact | backend/src/controllers/studyController.js:52 | the model's fact when truthy, else the page's fact when non-empty, else `null` |
| StudyController.ComposedTip | backend/src/controllers/studyController.js:29 | the model's tip when truthy, else the seeded fallback tip; always truthy |
| StudyController.ComposedQuiz | backend/src/controllers/studyController.js:31-35 | the model's quiz when non-empty, else the fallback quiz of the summary texts; a summary entry that is not a string is an error with status 500 |
| StudyController.ComposedMath | backend/src/controllers/studyController.js:37-44 | no math outside math mode; the model's problem when truthy, else the fallback problem |
| StudyController.PackFrom | backend/src/controllers/studyController.js:25-58 | every field of the payload is its composed value, and the payload fails exactly when the quiz does |
| StudyController.ComposePack | backend/src/controllers/studyController.js:25-58 | the step-by-step composition equals the payload specification |
| StudyController.StudyPackFor | backend/src/controllers/studyController.js:6-64 | a failed check is the error passed on; otherwise the payload for the page title, the normalised mode and the model's content; a payload has a non-empty topic and one to three summary entries |
| StudyController.CreateStudyPack | backend/src/controllers/studyController.js:6-64 | the handler returns what the request specification gives |
| StudyController.StudyPackShape | backend/src/controllers/studyController.js:25-52 | every payload has one to three summary entries, one to three quiz questions from the model or exactly three built ones, a math problem exactly in math mode, and a truthy tip |
| StudyController.PackFromShape | backend/src/controllers/studyController.js:25-52 | a payload composed from shaped content has at most three model questions or three built ones, math exactly in math mode, and a tip |
| StudyController.SentinelAllFallback | backend/src/controllers/studyController.js:25-52 | with the all-empty content every field is its fallback, and the payload cannot fail |
| StudyController.WithoutKeyAllFallback | backend/src/controllers/studyController.js:23-52 | without a usable key the model is not asked and the payload is the all-fallback one |
| Storage.HistoryOf | frontend/src/lib/storage.js:4-12 | at most ten entries: the first ten of a stored array, `[]` for anything else or a text that does not parse |
| Storage.WithoutTopic | frontend/src/lib/storage.js:15 | fails exactly when an entry is not a string; otherwise every kept entry differs from the topic ignoring case and the kept entries keep their order |
| Storage.WithoutTopicCounts | frontend/src/lib/storage.js:15 | each entry that differs from the topic is kept as often as it occurs and every other entry is dropped, which with the order makes the result exactly the filter |
| Storage.NextHistory | frontend/src/lib/storage.js:15-16 | the topic first, then at most nine earlier entries that differ from it ignoring case |
| Storage.NextHistoryKeepsOrder | frontend/src/lib/storage.js:15-16 | the surviving earlier entries keep their relative order |
| Storage.NextHistoryIdempotent | frontend/src/lib/storage.js:15-16 | adding the topic again to the new list changes nothing |
| Storage.HistoryRoundTrip | frontend/src/lib/storage.js:17-18 | a list of at most ten entries, written and read back, is the same list |
| Storage.AddTwiceIsAddOnce | frontend/src/lib/storage.js:14-19 | adding a topic twice stores the same list as adding it once |
| Storage.ThemeOf | frontend/src/lib/storage.js:21-23 | the stored theme unless absent or empty, else `light` |
| Storage.BrowserStorage.GetItem | frontend/src/lib/storage.js:6 | the stored text of a key, `null` when absent |
| Storage.BrowserStorage.GetHistory | frontend/src/lib/storage.js:4-12 | at most ten entries; a stored non-empty text reads as the first ten entries of the array it parses to, and as `[]` when it does not parse or is not an array; an absent key or a stored empty text reads as the parse of `'[]'`, and so as the empty list when the runtime parses `'[]'` as an empty array |
| Storage.BrowserStorage.AddToHistory | frontend/src/lib/storage.js:14-19 | the new list is written under the history key and returned, nothing is written when the filter throws, and the theme is unchanged |
| Storage.BrowserStorage.GetTheme | frontend/src/lib/storage.js:21-23 | the stored theme when it is non-empty; `light` when the key is absent or the stored theme is empty |
| Storage.BrowserStorage.SetTheme | frontend/src/lib/storage.js:25-27 | the theme is written and read back, and the history read with any parser is unchanged |
| StreakTracker.OnMount | frontend/src/components/StreakTracker.jsx:15-29 | same day: the record as stored, not rewritten; the next day: the run extended by one; a gap: the run restarted at 1; the total is kept |
| StreakTracker.OnGenerate | frontend/src/components/StreakTracker.jsx:35-40 | one more pack in the total, the run kept or started at 1, today stamped |
| StreakTracker.MountSameDayIsStable | frontend/src/components/StreakTracker.jsx:15-16 | mounting twice on one day changes nothing the second time |
| StreakTracker.NextDayExtends | frontend/src/components/StreakTracker.jsx:21-24 | a pack one day and a visit the next extend the run by one |
| StreakTracker.GapRestarts | frontend/src/components/StreakTracker.jsx:25-28 | a visit after a gap of more than a day restarts the run and keeps the total |
| StreakTracker.Tracker.constructor | frontend/src/components/StreakTracker.jsx:6 | the initial zero streak over the stored record |
| StreakTracker.Tracker.Mount | frontend/src/components/StreakTracker.jsx:8-32 | nothing without a stored record; otherwise the mount transition, written back exactly when it changes the day |
| StreakTracker.Tracker.Generate | frontend/src/components/StreakTracker.jsx:34-43 | the next streak becomes the state and the stored record |
| Quiz.CorrectAmong | frontend/src/components/Quiz.jsx:15 | the count over a prefix never exceeds its length |
| Quiz.CorrectCount | frontend/src/components/Quiz.jsx:15 | the number of correct answers never exceeds the number of questions |
| Quiz.CorrectAmongIsSize | frontend/src/components/Quiz.jsx:15 | the count is the number of questions whose chosen answer is their answer |
| Quiz.AllCorrectCelebrates | frontend/src/components/Quiz.jsx:15-16 | all questions answered correctly count in full |
| Quiz.NothingAnsweredCountsZero | frontend/src/components/Quiz.jsx:15-16 | with nothing answered the count is zero |
| Quiz.MarkOption | frontend/src/components/Quiz.jsx:47-61 | an option is marked correct, wrong, selected or default exactly as the class chain decides |
| Quiz.QuestionFeedback | frontend/src/components/Quiz.jsx:27-29 | after the reveal, correct exactly for the chosen answer, the answer shown exactly for a non-empty wrong choice, nothing otherwise |
| Quiz.Chosen | frontend/src/components/Quiz.jsx:27 | the chosen option of a question, absent when it has none |
| Quiz.CardFor | frontend/src/components/Quiz.jsx:26-49 | a question's card has its feedback and one mark per option |
| Quiz.RevealedMarks | frontend/src/components/Quiz.jsx:47-49 | after the reveal the answer option is marked correct, and an unanswered question has no wrong mark and no feedback |
| Quiz.QuizState.constructor | frontend/src/components/Quiz.jsx:7-9 | no answers, not revealed, no celebration |
| Quiz.QuizState.Render | frontend/src/components/Quiz.jsx:11-84 | only a notice for an empty list, else one card per question from the current answers |
| Quiz.QuizState.Choose | frontend/src/components/Quiz.jsx:62 | a click records the option before the reveal and is ignored after it; other answers are kept |
| Quiz.QuizState.Reveal | frontend/src/components/Quiz.jsx:13-20 | the quiz is revealed and answers are kept; the celebration fires when at least half of the answers are correct |

## Left out

- The HTTP requests themselves are not modelled. That covers `fetch`, headers, URL encoding, the 20-second abort timer and the response body stream. Each request's result is an input: `WikiResponse` and `AIReply`.
- Logging (`console.error`, `console.warn`) is not modelled, nor is the missing-fields warning at `backend/src/services/aiService.js:79-84`: it has no effect on the result.
- `JSON.parse`, `JSON.stringify` and `String(v)` are abstract functions in `Json.Runtime`. The round-trip lemmas state as a requirement that the runtime reads its own output back.
- The message of the `TypeError` thrown by `slice` on a summary entry that is not a string is the abstract `Runtime.sliceError`. An array entry, which has its own `slice`, is treated as an error too.
- `StudyController.BuildFallbackMathQuestion`: the floating-point answers and explanations of the growth and wrong-answer templates (`Math.pow`, `toFixed`, `Math.floor` on floats) are not computed. The model keeps the template choice, the integer ranges and the page template's ceiling answer. The page template's explanation prints the pages per day with `toFixed(2)`; that text is not computed either.
- `Date.now()` and `toISOString()` are parameters.
- Validate.SanitizeInput, AIService.Truncate, StudyController.SummaryQuestionQuotes: lengths and cut points count characters of `seq<char>`. JavaScript counts UTF-16 code units, so a text with characters outside the Basic Multilingual Plane is cut at a different place (the 200-character topic bound, the 1200-character context bound, the 100-character excerpt of `StudyController.Excerpt` and its 50-character prefix).
- `Strings.Lower` lower-cases ASCII letters only. Full Unicode case mapping is not modelled.
- `StudyController.Split` models `split(/(?<=[.!?])\s+/)` with the ECMAScript white-space set of `Strings.IsSpace`. Regular-expression matching in general is not modelled.
- `AIService.IsMathTopic` matches the topic case-insensitively through the ASCII `Strings.Lower`.
- `AIService.OutgoingRequest`: no contract of its own. It only names the request for a topic, and `AIService.RequestFor`, `AIService.BuildPrompt` and `AIService.PromptLines` state its content.
- The prompt, tip and question texts are the source's own wording, written as short literal pieces joined together.
- `StudyController.StudyPackFor` uses the page title for `wiki.title || topic`. A fetched record always has a non-empty title here, because the topic has already passed the blank check.
- `Storage.BrowserStorage.SetTheme`: an empty theme is written but reads back as `light`, so the read-back promise is stated only for a non-empty theme.
- A stored streak record that is not valid JSON, or not in the expected shape, is not modelled. `JSON.parse` throwing in the mount effect has no counterpart. Counts are natural numbers.
- The confetti reset timer (`frontend/src/components/Quiz.jsx:18`) is not modelled. After a celebration, `showConfetti` stays true in the model.
- `Quiz.Question`: the answer is always a string. In the source, a question without an answer (`undefined`) left unanswered would count as correct; the model does not cover that case.
- The `disabled={reveal}` button state is covered by `Quiz.QuizState.Choose` ignoring clicks after the reveal. It is not modelled as a precondition.
- Presentation components are not part of this model: `App.jsx`, `History.jsx`, `ThemeToggle.jsx`, `Toggle.jsx`, `Confetti.jsx`, `EnhancedSpinner.jsx`, `ErrorBoundary.jsx` and the `ui/` components. The same goes for the Express wiring (`app.js`, `server.js`, `routes/study.js`, `middleware/errorHandler.js`) and `frontend/src/lib/api.js`. The only part of the error handler kept is its mapping of an exception to status 500 and its message.
