# Merleau video analysis: a verified model of the CLI core

Merleau sends a video, either a local file or a YouTube URL, to the Gemini
inference service with a prompt. It returns the generated description together
with token counts and a cost estimate. This project models the core of
`merleau/cli.py` in Dafny and proves what that code promises.

- `youtube.dfy` (module `YouTube`) models `is_youtube_url`. The regular
  expression is anchored at the start of the string only. Two readings of it
  are defined:
  - `IsYouTubeUrl` consumes the optional scheme and the optional `www.`
    greedily, the way a matcher scans the string.
  - `PatternMatches` says that one of the 3 × 2 × 3 = 18 literal prefixes
    begins the string.

  The two readings are proved equal. Closure under extension, case
  sensitivity and the standard watch, short-link and shorts URLs are proved
  on top of that.
- `cost.dfy` (module `Cost`) models `calculate_cost` over exact reals: prices
  per million tokens, the total as the sum of the two parts, linearity and
  monotonicity.
- `polling.dfy` (module `Polling`) models `wait_for_processing` as a method
  with the source's `while` loop. The service's answers to the successive
  `files.get` calls are an input sequence. The method returns the first file
  that is not PROCESSING, together with the trace of its effects: a progress
  callback or a printed dot per round, a re-fetch per round, and the closing
  newline. The method is proved against the functions `LeadingProcessing` and
  `WaitEffects`.
- `service.dfy` (module `Service`) holds the shared records. These are the
  file handle with its state, the usage metadata, the response, and the
  events an analysis can perform. It also holds counting and phase-order
  predicates over traces.
- `analysis.dfy` (module `Analysis`) models `AnalysisResult` and
  `analyze_video`:
  - `AnalyzeVideo` is a method that follows the source step by step. It
    returns the outcome (a result, or the raised `ValueError` or
    `RuntimeError` with its message) and the trace of events.
  - It is proved equal to the reference function `AnalysisRun`.
  - The environment (the `GEMINI_API_KEY` value, whether the path exists),
    the callbacks supplied, and the service's answers are all inputs.
- `analysis_properties.dfy` (module `AnalysisProperties`) proves what the
  orchestration promises, as lemmas about `AnalysisRun`:
  - the order in which the checks fail;
  - that nothing reaches the network before a validation error;
  - that the YouTube branch skips upload and waiting;
  - the order and number of the callbacks;
  - the faithful copying of the usage counts and costs.

Two details of the code the model keeps as written:

- `merleau/cli.py:118` raises `ValueError` for a local path that does not
  exist.
- `merleau/cli.py:149` copies `total_token_count` from the usage metadata
  instead of summing the prompt and response counts.

## Model

| member | source | states |
|---|---|---|
| YouTube.IsYouTubeUrlMatchesPattern | merleau/cli.py:16-21 | greedy consumption of optional scheme, optional "www." and a required video path accepts a string exactly when one of the 18 literal prefixes of the anchored pattern begins it (both directions) |
| YouTube.ExtensionPreservesMatch | merleau/cli.py:18-20 | matching is anchored at the start only: if s is a YouTube URL then so is s + t for every t |
| YouTube.AcceptsEveryVideoId | merleau/cli.py:18-20 | each scheme × host prefix × path combination, followed by any video identifier (including the empty one), is accepted |
| YouTube.RejectsUnlessFirstCharacterFits | merleau/cli.py:18-20 | the empty string and every string whose first character is not 'h', 'w' or 'y' are rejected |
| YouTube.RejectsHostNotStartingWithY | merleau/cli.py:18-20 | after the optional scheme and "www." are consumed, the rest must start with a lower-case 'y', so other subdomains and capitalised hosts fail |
| YouTube.AcceptsWatchUrl | merleau/cli.py:18-20 | "https://www.youtube.com/watch?v=" followed by any identifier is accepted |
| YouTube.AcceptsShortLink | merleau/cli.py:18-20 | "https://youtu.be/" followed by any identifier is accepted |
| YouTube.AcceptsShortsUrl | merleau/cli.py:18-20 | "https://youtube.com/shorts/" followed by any identifier is accepted |
| YouTube.AcceptsBareShortLink | merleau/cli.py:18-20 | "www.youtu.be/" with no scheme, followed by any identifier, is accepted |
| YouTube.AcceptsEmptyVideoId | merleau/cli.py:18-20 | "youtu.be/" with an empty identifier already matches |
| YouTube.RejectedExamples | merleau/cli.py:18-20 | "clip.mp4", a URL with a leading blank, an ftp URL and an upper-case scheme are all rejected |
| YouTube.RejectsOtherSubdomain | merleau/cli.py:18-20 | "https://m.youtube.com/watch?v=..." is rejected |
| YouTube.RejectsCapitalisedHost | merleau/cli.py:18-20 | "https://www.YouTube.com/watch?v=..." is rejected: matching is case-sensitive |
| YouTube.RejectsOtherPath | merleau/cli.py:18-20 | "https://www.youtube.com/embed/..." is rejected: only the three listed paths count |
| YouTube.DotMatchesOnlyDot | merleau/cli.py:19 | the escaped '.' of "youtube\.com" matches a dot and no other character: "youtube" + c + "com/watch?v=..." is rejected for every c other than '.' |
| YouTube.QuestionMarkIsLiteral | merleau/cli.py:19 | the escaped '?' of "watch\?v=" is a literal question mark, not a quantifier on 'h': both "youtube.com/watchv=..." and "youtube.com/watcv=..." are rejected |
| Cost.CalculateCost | merleau/cli.py:50-57 | the total is exactly input plus output, and every component is non-negative when the token counts are |
| Cost.CostPerToken | merleau/cli.py:55-56 | input cost is 0.15 dollars per million prompt tokens and output cost 0.60 per million response tokens |
| Cost.ZeroTokensCostNothing | merleau/cli.py:55-57 | zero prompt and response tokens cost zero in every component |
| Cost.CostIsAdditive | merleau/cli.py:55-57 | the cost of two usages added together is the sum of their costs, component by component |
| Cost.CostIsMonotone | merleau/cli.py:55-57 | more tokens of either kind never cost less, in any component |
| Cost.CostIgnoresReportedTotal | merleau/cli.py:55-57 | the usage's reported total token count does not affect the cost |
| Cost.CostExample | merleau/cli.py:50-57 | 1000 prompt and 500 response tokens cost 0.00015, 0.0003 and 0.00045 |
| Polling.LeadingProcessing | merleau/cli.py:38 | the number of rounds is the index of the first answer that is not PROCESSING: every earlier answer is PROCESSING and that one is not |
| Polling.WaitForProcessing | merleau/cli.py:36-47 | the loop returns the first observed file that is not PROCESSING; its effects are one tick and one re-fetch per earlier PROCESSING answer, then a newline only without a callback; a file that is not PROCESSING is returned unchanged with no rounds |
| Polling.TickCounts | merleau/cli.py:38-44 | over k rounds: k progress callbacks and no dots when a callback is given, k dots and no callbacks otherwise, and k re-fetches |
| Polling.WaitCounts | merleau/cli.py:38-46 | a whole wait of k rounds has k callbacks or k dots, k re-fetches, and a trailing newline exactly when no callback was supplied |
| Polling.WaitEffectsInWaitPhase | merleau/cli.py:38-46 | a wait performs only ticks, re-fetches and the newline: no upload, analyzing or generation event |
| Polling.TwoRoundsExample | merleau/cli.py:36-47 | two PROCESSING answers before an ACTIVE one give two rounds, two callbacks, and the active file |
| Analysis.ResolveApiKey | merleau/cli.py:104 | the resolved key is usable exactly when the argument or the environment's value is non-empty, and a non-empty argument wins |
| Analysis.AnalyzeVideo | merleau/cli.py:74-153 | the step-by-step analysis ends with the outcome and the event trace of the reference definition AnalysisRun, for every key, path, callback choice and service answer |
| AnalysisProperties.MissingKeyFailsFirst | merleau/cli.py:104-106 | ValueError with the missing-key message is raised exactly when neither the argument nor the environment supplies a non-empty key, and then no event at all (no client, no network) has happened |
| AnalysisProperties.KeyArgumentTakesPrecedence | merleau/cli.py:104-108 | the first event is building the client, with the argument's key when it is non-empty and the environment's otherwise |
| AnalysisProperties.MissingFileFailsBeforeUpload | merleau/cli.py:116-118 | a non-YouTube path that does not exist raises ValueError "Video file not found: <path>" after building the client and before any network call |
| AnalysisProperties.ValueErrorsPrecedeNetwork | merleau/cli.py:104-120 | whenever the outcome is a ValueError, the trace holds no upload, re-fetch or generation request |
| AnalysisProperties.RuntimeErrorMeansFailedProcessing | merleau/cli.py:117-128 | RuntimeError "File processing failed" is raised exactly when a local file was uploaded and the wait ended in FAILED |
| AnalysisProperties.FailedProcessingStopsBeforeGeneration | merleau/cli.py:120-139 | after FAILED processing the trace has one upload, one re-fetch per waiting round, and neither the analyzing callback nor a generation request |
| AnalysisProperties.YouTubeUrlSkipsUploadAndWait | merleau/cli.py:110-114 | for a YouTube URL the run succeeds with no upload, re-fetch, tick or newline; the upload callback receives the URL itself; the request carries the URL with type video/mp4 |
| AnalysisProperties.LocalFileWaitsThenGenerates | merleau/cli.py:116-139 | a local file whose processing ends other than FAILED is analysed after k rounds (k callbacks or dots, k re-fetches, a newline only without a callback), and the request carries the file in its final state |
| AnalysisProperties.SuccessfulRunInOrder | merleau/cli.py:108-139 | a successful run goes client, upload, waiting, analyzing, generation without going back; the upload and analyzing callbacks run once each when supplied; exactly one generation request, and it is last |
| AnalysisProperties.ResultCopiesUsage | merleau/cli.py:141-153 | a run succeeds exactly when the key is present and the source is a YouTube URL or an existing file that does not end FAILED; the result copies the text and the three token counts verbatim and its costs are calculate_cost of the same usage |
| AnalysisProperties.TotalTokensAreCopiedNotSummed | merleau/cli.py:145-153 | a reported total of 1800 for 1000 prompt and 500 response tokens is returned as 1800, not recomputed as the sum |
| AnalysisProperties.OutcomeIndependentOfModel | merleau/cli.py:136-153 | the model name reaches only the generation request: the outcome, costs included, is the same for every model, and the trace has the same length and the same events except that its generation request names the other model |

## Left out

- The Gemini SDK calls (`genai.Client`, `files.upload`, `files.get`, `models.generate_content`, `types.Part.from_uri`) are foreign code. They appear only as trace events. Their answers are inputs: the uploaded file, the sequence of files that successive `files.get` calls return, and the generation response. Exceptions those calls may raise are not modelled.
- `time.sleep(2)` between polls is not modelled: time is not observable in the model.
- Polling.WaitForProcessing: the real loop may wait forever. The model requires the answers to eventually leave PROCESSING (`Settles`, and `WaitEnds` for an analysis), so it does not claim that the real loop terminates.
- A state name other than PROCESSING, ACTIVE or FAILED is represented by one `Unspecified` state. Like ACTIVE, it neither keeps the loop waiting nor raises.
- Cost.CalculateCost: amounts are exact reals. IEEE double rounding in the division and multiplication is not modelled, and neither is the `:.6f` formatting of `print_usage`.
- Token counts are unbounded integers. Usage metadata whose counts are missing (`None`) is not modelled.
- The default values of `prompt` and `model` (`merleau/cli.py:76-77`) are not modelled: a `Request` always names both. Every caller in the repository passes both explicitly.
- `load_dotenv`, `os.getenv` and `os.path.exists` are environment reads. They become inputs: the key variable's value, and whether the path exists.
- Console output appears only as the wait's dots and newline. `print_usage`, `analyze`, `main`, argument parsing and `sys.exit` are CLI plumbing and are not modelled.
- `streamlit_app.py` (browser UI) and `analyze_video.py` (a one-off script that repeats the polling loop and the cost formula) are not part of this model.
