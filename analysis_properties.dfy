/** What the reference definition of an analysis promises: the order in
    which its checks fail, what the YouTube branch skips, the order of the
    callbacks, and how the result is filled in. Through AnalyzeVideo's
    postcondition, each of these holds of the method as well. */
module AnalysisProperties {
  import opened Service
  import opened YouTube
  import opened Cost
  import opened Polling
  import opened Analysis

  /** The trace of a successful run, block by block: the client, the upload
      steps, the waiting steps, the analyzing callback if given, and the
      generation request. */
  function SuccessTrace(key: string, uploadSteps: seq<Event>, waitSteps: seq<Event>, onAnalyzing: bool, generate: Event): seq<Event> {
    [ClientCreated(key)] + uploadSteps + waitSteps + CallbackIf(onAnalyzing, OnAnalyzing) + [generate]
  }

  /** Counting over a successful trace, block by block. */
  lemma CountSuccessTrace(key: string, uploadSteps: seq<Event>, waitSteps: seq<Event>, onAnalyzing: bool, generate: Event, kind: EventKind)
    requires generate.GenerateContent?
    ensures CountOf(SuccessTrace(key, uploadSteps, waitSteps, onAnalyzing, generate), kind)
      == (if kind == ClientKind then 1 else 0)
         + CountOf(uploadSteps, kind) + CountOf(waitSteps, kind)
         + (if onAnalyzing && kind == AnalyzingKind then 1 else 0)
         + (if kind == GenerateKind then 1 else 0)
  {
    var client := [ClientCreated(key)];
    var analyzing := CallbackIf(onAnalyzing, OnAnalyzing);
    CountOfAppend(client + uploadSteps + waitSteps + analyzing, [generate], kind);
    CountOfAppend(client + uploadSteps + waitSteps, analyzing, kind);
    CountOfAppend(client + uploadSteps, waitSteps, kind);
    CountOfAppend(client, uploadSteps, kind);
    CountOfSingleton(ClientCreated(key), kind);
    CountOfSingleton(generate, kind);
    if onAnalyzing {
      CountOfSingleton(OnAnalyzing, kind);
    }
  }

  /** A successful trace whose upload and waiting blocks belong to their
      phases never goes back to an earlier phase. */
  lemma SuccessTraceInOrder(key: string, uploadSteps: seq<Event>, waitSteps: seq<Event>, onAnalyzing: bool, generate: Event)
    requires generate.GenerateContent? && AllInPhase(uploadSteps, 1) && AllInPhase(waitSteps, 2)
    ensures InPhaseOrder(SuccessTrace(key, uploadSteps, waitSteps, onAnalyzing, generate))
  {
    var client := [ClientCreated(key)];
    var analyzing := CallbackIf(onAnalyzing, OnAnalyzing);
    AppendPhase(client, uploadSteps, 1);
    AppendPhase(client + uploadSteps, waitSteps, 2);
    AppendPhase(client + uploadSteps + waitSteps, analyzing, 3);
    AppendPhase(client + uploadSteps + waitSteps + analyzing, [generate], 4);
  }

  /** The upload steps of a local file: the upload, then the callback. */
  function LocalUploadSteps(path: string, onUpload: bool, uri: string): seq<Event> {
    [FileUpload(path)] + CallbackIf(onUpload, OnUpload(uri))
  }

  lemma CountLocalUploadSteps(path: string, onUpload: bool, uri: string, kind: EventKind)
    ensures CountOf(LocalUploadSteps(path, onUpload, uri), kind)
      == (if kind == UploadKind then 1 else 0) + (if onUpload && kind == UploadCallbackKind then 1 else 0)
    ensures AllInPhase(LocalUploadSteps(path, onUpload, uri), 1)
  {
    CountOfAppend([FileUpload(path)], CallbackIf(onUpload, OnUpload(uri)), kind);
    CountOfSingleton(FileUpload(path), kind);
    if onUpload {
      CountOfSingleton(OnUpload(uri), kind);
    }
  }

  lemma CountCallback(onUpload: bool, url: string, kind: EventKind)
    ensures CountOf(CallbackIf(onUpload, OnUpload(url)), kind) == (if onUpload && kind == UploadCallbackKind then 1 else 0)
    ensures AllInPhase(CallbackIf(onUpload, OnUpload(url)), 1)
  {
    if onUpload {
      CountOfSingleton(OnUpload(url), kind);
    }
  }

  /** The run on a YouTube URL, read as a successful trace. */
  lemma YouTubeRun(req: Request, env: Environment, cbs: Callbacks, remote: Remote, key: string)
    requires ResolveApiKey(req.apiKey, env.envApiKey) == Some(key) && key != ""
    requires IsYouTubeUrl(req.videoPath)
    ensures AnalysisRun(req, env, cbs, remote)
      == Execution(Returned(ResultOf(remote.response)),
           SuccessTrace(key, CallbackIf(cbs.onUpload, OnUpload(req.videoPath)), [], cbs.onAnalyzing,
             GenerateContent(req.model, UriPart(req.videoPath, VideoMimeType), req.prompt)))
  {
    RunOnYouTubeUrl(req, env, cbs, remote, key);
    var upload := CallbackIf(cbs.onUpload, OnUpload(req.videoPath));
    assert [ClientCreated(key)] + upload + [] == [ClientCreated(key)] + upload;
  }

  /** The run on a local file, up to the end of the wait. */
  lemma LocalRun(req: Request, env: Environment, cbs: Callbacks, remote: Remote, key: string)
    requires ResolveApiKey(req.apiKey, env.envApiKey) == Some(key) && key != ""
    requires !IsYouTubeUrl(req.videoPath) && env.pathExists
    requires Settles([remote.uploaded] + remote.polls)
    ensures var observed := [remote.uploaded] + remote.polls;
      var k := LeadingProcessing(observed);
      var upload := LocalUploadSteps(req.videoPath, cbs.onUpload, remote.uploaded.uri);
      var wait := WaitEffects(observed[..k], cbs.onProcessing);
      AnalysisRun(req, env, cbs, remote)
        == if observed[k].state == Failed then Execution(Raised(RuntimeError(ProcessingFailedMessage)), [ClientCreated(key)] + upload + wait)
           else Execution(Returned(ResultOf(remote.response)),
                  SuccessTrace(key, upload, wait, cbs.onAnalyzing, GenerateContent(req.model, FilePart(observed[k]), req.prompt)))
  {
    RunAfterUpload(req, env, cbs, remote, key);
    var upload := LocalUploadSteps(req.videoPath, cbs.onUpload, remote.uploaded.uri);
    assert [ClientCreated(key), FileUpload(req.videoPath)] + CallbackIf(cbs.onUpload, OnUpload(remote.uploaded.uri))
      == [ClientCreated(key)] + upload;
  }

  /** A missing or empty key is reported first, before a client is built or
      anything is sent; and that error is raised for no other reason. */
  lemma MissingKeyFailsFirst(req: Request, env: Environment, cbs: Callbacks, remote: Remote)
    requires WaitEnds(req, env, remote)
    ensures (AnalysisRun(req, env, cbs, remote).outcome == Raised(ValueError(MissingKeyMessage)))
        <==> (!Truthy(req.apiKey) && !Truthy(env.envApiKey))
    ensures !Truthy(req.apiKey) && !Truthy(env.envApiKey) ==> AnalysisRun(req, env, cbs, remote).trace == []
  {
    var key := ResolveApiKey(req.apiKey, env.envApiKey);
    if Truthy(key) && !IsYouTubeUrl(req.videoPath) && !env.pathExists {
      RunWithoutFile(req, env, cbs, remote, key.value);
      assert (FileNotFoundPrefix + req.videoPath)[0] == 'V';
      assert MissingKeyMessage[0] == KeyVariable[0] == 'G';
    }
  }

  /** The client is built with the key argument when it is given, and with
      the environment's key only when the argument is missing or empty. */
  lemma KeyArgumentTakesPrecedence(req: Request, env: Environment, cbs: Callbacks, remote: Remote)
    requires WaitEnds(req, env, remote)
    requires Truthy(req.apiKey) || Truthy(env.envApiKey)
    ensures var trace := AnalysisRun(req, env, cbs, remote).trace;
      |trace| > 0 &&
      trace[0] == ClientCreated(if Truthy(req.apiKey) then req.apiKey.value else env.envApiKey.value)
  {
  }

  /** A local path that does not exist is reported after the key check and
      before any upload: nothing reaches the network. */
  lemma MissingFileFailsBeforeUpload(req: Request, env: Environment, cbs: Callbacks, remote: Remote)
    requires WaitEnds(req, env, remote)
    requires Truthy(ResolveApiKey(req.apiKey, env.envApiKey))
    requires !IsYouTubeUrl(req.videoPath) && !env.pathExists
    ensures AnalysisRun(req, env, cbs, remote).outcome == Raised(ValueError(FileNotFoundPrefix + req.videoPath))
    ensures var trace := AnalysisRun(req, env, cbs, remote).trace;
      trace == [ClientCreated(ResolveApiKey(req.apiKey, env.envApiKey).value)] &&
      forall i :: 0 <= i < |trace| ==> !trace[i].IsNetwork()
  {
  }

  /** Input-validation errors are raised before any network call. */
  lemma ValueErrorsPrecedeNetwork(req: Request, env: Environment, cbs: Callbacks, remote: Remote)
    requires WaitEnds(req, env, remote)
    ensures var run := AnalysisRun(req, env, cbs, remote);
      run.outcome.Raised? && run.outcome.error.ValueError? ==>
        forall i :: 0 <= i < |run.trace| ==> !run.trace[i].IsNetwork()
  {
    if Uploads(req, env) {
      RunAfterUpload(req, env, cbs, remote, ResolveApiKey(req.apiKey, env.envApiKey).value);
    }
  }

  /** RuntimeError is raised exactly when an uploaded file's processing
      ends FAILED. */
  lemma RuntimeErrorMeansFailedProcessing(req: Request, env: Environment, cbs: Callbacks, remote: Remote)
    requires WaitEnds(req, env, remote)
    ensures var observed := [remote.uploaded] + remote.polls;
      (AnalysisRun(req, env, cbs, remote).outcome == Raised(RuntimeError(ProcessingFailedMessage)))
        <==> (Uploads(req, env) && observed[LeadingProcessing(observed)].state == Failed)
  {
    if Uploads(req, env) {
      RunAfterUpload(req, env, cbs, remote, ResolveApiKey(req.apiKey, env.envApiKey).value);
    }
  }

  /** Counting over the trace of a run that stops after the wait. */
  lemma CountFailedTrace(key: string, upload: seq<Event>, wait: seq<Event>, kind: EventKind)
    ensures CountOf([ClientCreated(key)] + upload + wait, kind)
      == (if kind == ClientKind then 1 else 0) + CountOf(upload, kind) + CountOf(wait, kind)
  {
    CountOfAppend([ClientCreated(key)] + upload, wait, kind);
    CountOfAppend([ClientCreated(key)], upload, kind);
    CountOfSingleton(ClientCreated(key), kind);
  }

  /** When processing ends FAILED, the run has uploaded once and re-fetched
      once per waiting round, and neither the analyzing callback nor the
      generation request happens. */
  lemma FailedProcessingStopsBeforeGeneration(req: Request, env: Environment, cbs: Callbacks, remote: Remote)
    requires WaitEnds(req, env, remote) && Uploads(req, env)
    requires var observed := [remote.uploaded] + remote.polls; observed[LeadingProcessing(observed)].state == Failed
    ensures var observed := [remote.uploaded] + remote.polls;
      var trace := AnalysisRun(req, env, cbs, remote).trace;
      CountOf(trace, UploadKind) == 1 &&
      CountOf(trace, GetKind) == LeadingProcessing(observed) &&
      CountOf(trace, AnalyzingKind) == 0 &&
      CountOf(trace, GenerateKind) == 0
  {
    var observed := [remote.uploaded] + remote.polls;
    var k := LeadingProcessing(observed);
    var key := ResolveApiKey(req.apiKey, env.envApiKey).value;
    LocalRun(req, env, cbs, remote, key);
    FailedTraceCounts(key, req.videoPath, cbs.onUpload, remote.uploaded.uri, observed[..k], cbs.onProcessing);
  }

  /** The counts of a run that stops after waiting on `waited`. */
  lemma FailedTraceCounts(key: string, path: string, onUpload: bool, uri: string, waited: seq<File>, onProcessing: bool)
    ensures var trace := [ClientCreated(key)] + LocalUploadSteps(path, onUpload, uri) + WaitEffects(waited, onProcessing);
      CountOf(trace, UploadKind) == 1 &&
      CountOf(trace, GetKind) == |waited| &&
      CountOf(trace, AnalyzingKind) == 0 &&
      CountOf(trace, GenerateKind) == 0
  {
    var upload := LocalUploadSteps(path, onUpload, uri);
    var wait := WaitEffects(waited, onProcessing);
    WaitCounts(waited, onProcessing);
    WaitEffectsInWaitPhase(waited, onProcessing);
    CountFailedTrace(key, upload, wait, UploadKind);
    CountFailedTrace(key, upload, wait, GetKind);
    CountFailedTrace(key, upload, wait, AnalyzingKind);
    CountFailedTrace(key, upload, wait, GenerateKind);
    CountLocalUploadSteps(path, onUpload, uri, UploadKind);
    CountLocalUploadSteps(path, onUpload, uri, GetKind);
    CountLocalUploadSteps(path, onUpload, uri, AnalyzingKind);
    CountLocalUploadSteps(path, onUpload, uri, GenerateKind);
    CountOutsidePhase(wait, 2, UploadKind);
    CountOutsidePhase(wait, 2, AnalyzingKind);
    CountOutsidePhase(wait, 2, GenerateKind);
  }

  /** On a YouTube trace, a kind that is neither the client, the upload
      callback, the analyzing callback nor the request does not occur. */
  lemma CountNothingOfKind(key: string, upload: seq<Event>, onAnalyzing: bool, generate: Event, kind: EventKind)
    requires generate.GenerateContent? && AllInPhase(upload, 1)
    requires kind in {UploadKind, GetKind, ProgressKind, DotKind, NewlineKind}
    requires CountOf(upload, UploadKind) == 0
    ensures CountOf(SuccessTrace(key, upload, [], onAnalyzing, generate), kind) == 0
  {
    CountSuccessTrace(key, upload, [], onAnalyzing, generate, kind);
    if kind != UploadKind {
      CountOutsidePhase(upload, 1, kind);
    }
  }

  /** A YouTube URL is handed to the service as is: no upload, no wait, the
      upload callback receives the URL itself, and the request carries the
      URL with the video/mp4 type. */
  lemma YouTubeUrlSkipsUploadAndWait(req: Request, env: Environment, cbs: Callbacks, remote: Remote)
    requires WaitEnds(req, env, remote)
    requires Truthy(ResolveApiKey(req.apiKey, env.envApiKey)) && IsYouTubeUrl(req.videoPath)
    ensures AnalysisRun(req, env, cbs, remote).outcome.Returned?
    ensures var trace := AnalysisRun(req, env, cbs, remote).trace;
      CountOf(trace, UploadKind) == 0 && CountOf(trace, GetKind) == 0 &&
      CountOf(trace, ProgressKind) == 0 && CountOf(trace, DotKind) == 0 && CountOf(trace, NewlineKind) == 0 &&
      (cbs.onUpload ==> trace[1] == OnUpload(req.videoPath)) &&
      trace[|trace| - 1] == GenerateContent(req.model, UriPart(req.videoPath, VideoMimeType), req.prompt)
  {
    var key := ResolveApiKey(req.apiKey, env.envApiKey).value;
    YouTubeRun(req, env, cbs, remote, key);
    YouTubeTraceCounts(key, cbs.onUpload, req.videoPath, cbs.onAnalyzing,
      GenerateContent(req.model, UriPart(req.videoPath, VideoMimeType), req.prompt));
  }

  /** The counts of a successful trace with no upload and no wait. */
  lemma YouTubeTraceCounts(key: string, onUpload: bool, url: string, onAnalyzing: bool, generate: Event)
    requires generate.GenerateContent?
    ensures var trace := SuccessTrace(key, CallbackIf(onUpload, OnUpload(url)), [], onAnalyzing, generate);
      CountOf(trace, UploadKind) == 0 && CountOf(trace, GetKind) == 0 &&
      CountOf(trace, ProgressKind) == 0 && CountOf(trace, DotKind) == 0 && CountOf(trace, NewlineKind) == 0 &&
      (onUpload ==> trace[1] == OnUpload(url)) &&
      trace[|trace| - 1] == generate
  {
    var upload := CallbackIf(onUpload, OnUpload(url));
    CountCallback(onUpload, url, UploadKind);
    CountNothingOfKind(key, upload, onAnalyzing, generate, UploadKind);
    CountNothingOfKind(key, upload, onAnalyzing, generate, GetKind);
    CountNothingOfKind(key, upload, onAnalyzing, generate, ProgressKind);
    CountNothingOfKind(key, upload, onAnalyzing, generate, DotKind);
    CountNothingOfKind(key, upload, onAnalyzing, generate, NewlineKind);
  }

  /** The waiting kinds occur in a successful trace only in its waiting block. */
  lemma CountLocalWaitKind(key: string, upload: seq<Event>, wait: seq<Event>, onAnalyzing: bool, generate: Event, kind: EventKind)
    requires generate.GenerateContent? && AllInPhase(upload, 1)
    requires KindPhase(kind) == 2
    ensures CountOf(SuccessTrace(key, upload, wait, onAnalyzing, generate), kind) == CountOf(wait, kind)
  {
    CountSuccessTrace(key, upload, wait, onAnalyzing, generate, kind);
    CountOutsidePhase(upload, 1, kind);
  }

  /** A local file that finishes processing in any state but FAILED is
      analysed after exactly as many rounds as the answers were PROCESSING:
      one callback or one dot per round, one re-fetch per round, and the
      request carries the file in its final state. */
  lemma LocalFileWaitsThenGenerates(req: Request, env: Environment, cbs: Callbacks, remote: Remote)
    requires WaitEnds(req, env, remote) && Uploads(req, env)
    requires var observed := [remote.uploaded] + remote.polls; observed[LeadingProcessing(observed)].state != Failed
    ensures AnalysisRun(req, env, cbs, remote).outcome.Returned?
    ensures var observed := [remote.uploaded] + remote.polls;
      var k := LeadingProcessing(observed);
      var trace := AnalysisRun(req, env, cbs, remote).trace;
      observed[k].state in {Active, Unspecified} &&
      CountOf(trace, ProgressKind) == (if cbs.onProcessing then k else 0) &&
      CountOf(trace, DotKind) == (if cbs.onProcessing then 0 else k) &&
      CountOf(trace, GetKind) == k &&
      CountOf(trace, NewlineKind) == (if cbs.onProcessing then 0 else 1) &&
      trace[|trace| - 1] == GenerateContent(req.model, FilePart(observed[k]), req.prompt)
  {
    var observed := [remote.uploaded] + remote.polls;
    var k := LeadingProcessing(observed);
    var key := ResolveApiKey(req.apiKey, env.envApiKey).value;
    LocalRun(req, env, cbs, remote, key);
    LocalTraceCounts(key, req.videoPath, cbs.onUpload, remote.uploaded.uri, observed[..k], cbs.onProcessing,
      cbs.onAnalyzing, GenerateContent(req.model, FilePart(observed[k]), req.prompt));
  }

  /** The waiting counts of a successful trace after waiting on `waited`. */
  lemma LocalTraceCounts(key: string, path: string, onUpload: bool, uri: string, waited: seq<File>, onProcessing: bool,
                         onAnalyzing: bool, generate: Event)
    requires generate.GenerateContent?
    ensures var trace := SuccessTrace(key, LocalUploadSteps(path, onUpload, uri), WaitEffects(waited, onProcessing), onAnalyzing, generate);
      CountOf(trace, ProgressKind) == (if onProcessing then |waited| else 0) &&
      CountOf(trace, DotKind) == (if onProcessing then 0 else |waited|) &&
      CountOf(trace, GetKind) == |waited| &&
      CountOf(trace, NewlineKind) == (if onProcessing then 0 else 1) &&
      trace[|trace| - 1] == generate
  {
    var upload := LocalUploadSteps(path, onUpload, uri);
    var wait := WaitEffects(waited, onProcessing);
    CountLocalUploadSteps(path, onUpload, uri, GetKind);
    WaitCounts(waited, onProcessing);
    CountLocalWaitKind(key, upload, wait, onAnalyzing, generate, ProgressKind);
    CountLocalWaitKind(key, upload, wait, onAnalyzing, generate, DotKind);
    CountLocalWaitKind(key, upload, wait, onAnalyzing, generate, GetKind);
    CountLocalWaitKind(key, upload, wait, onAnalyzing, generate, NewlineKind);
  }

  /** The ordering and counting facts of any successful trace. */
  lemma SuccessTraceFacts(key: string, upload: seq<Event>, wait: seq<Event>, onAnalyzing: bool, generate: Event)
    requires generate.GenerateContent? && AllInPhase(upload, 1) && AllInPhase(wait, 2)
    ensures var trace := SuccessTrace(key, upload, wait, onAnalyzing, generate);
      InPhaseOrder(trace) &&
      CountOf(trace, GenerateKind) == 1 && trace[|trace| - 1].GenerateContent? &&
      CountOf(trace, AnalyzingKind) == (if onAnalyzing then 1 else 0) &&
      CountOf(trace, UploadCallbackKind) == CountOf(upload, UploadCallbackKind)
  {
    SuccessTraceInOrder(key, upload, wait, onAnalyzing, generate);
    CountSuccessTrace(key, upload, wait, onAnalyzing, generate, GenerateKind);
    CountSuccessTrace(key, upload, wait, onAnalyzing, generate, AnalyzingKind);
    CountSuccessTrace(key, upload, wait, onAnalyzing, generate, UploadCallbackKind);
    CountOutsidePhase(upload, 1, GenerateKind);
    CountOutsidePhase(upload, 1, AnalyzingKind);
    CountOutsidePhase(wait, 2, GenerateKind);
    CountOutsidePhase(wait, 2, AnalyzingKind);
    CountOutsidePhase(wait, 2, UploadCallbackKind);
  }

  /** A successful run goes through its steps in order (client, upload,
      wait, analyzing, generation), calls each of the upload and analyzing
      callbacks at most once, and ends with its only generation request. */
  lemma SuccessfulRunInOrder(req: Request, env: Environment, cbs: Callbacks, remote: Remote)
    requires WaitEnds(req, env, remote)
    requires AnalysisRun(req, env, cbs, remote).outcome.Returned?
    ensures var trace := AnalysisRun(req, env, cbs, remote).trace;
      InPhaseOrder(trace) &&
      CountOf(trace, GenerateKind) == 1 && trace[|trace| - 1].GenerateContent? &&
      CountOf(trace, AnalyzingKind) == (if cbs.onAnalyzing then 1 else 0) &&
      CountOf(trace, UploadCallbackKind) == (if cbs.onUpload then 1 else 0)
  {
    var key := ResolveApiKey(req.apiKey, env.envApiKey).value;
    if IsYouTubeUrl(req.videoPath) {
      var upload := CallbackIf(cbs.onUpload, OnUpload(req.videoPath));
      var generate := GenerateContent(req.model, UriPart(req.videoPath, VideoMimeType), req.prompt);
      YouTubeRun(req, env, cbs, remote, key);
      CountCallback(cbs.onUpload, req.videoPath, UploadCallbackKind);
      SuccessTraceFacts(key, upload, [], cbs.onAnalyzing, generate);
    } else {
      var observed := [remote.uploaded] + remote.polls;
      var k := LeadingProcessing(observed);
      var upload := LocalUploadSteps(req.videoPath, cbs.onUpload, remote.uploaded.uri);
      var wait := WaitEffects(observed[..k], cbs.onProcessing);
      var generate := GenerateContent(req.model, FilePart(observed[k]), req.prompt);
      LocalRun(req, env, cbs, remote, key);
      CountLocalUploadSteps(req.videoPath, cbs.onUpload, remote.uploaded.uri, UploadCallbackKind);
      WaitEffectsInWaitPhase(observed[..k], cbs.onProcessing);
      SuccessTraceFacts(key, upload, wait, cbs.onAnalyzing, generate);
    }
  }

  /** A successful run returns the response text and the usage counts as the
      service reported them, and the costs calculate_cost gives for that
      usage. A run succeeds exactly when the key is present and either the
      source is a YouTube URL, or the file exists and does not end FAILED. */
  lemma ResultCopiesUsage(req: Request, env: Environment, cbs: Callbacks, remote: Remote)
    requires WaitEnds(req, env, remote)
    ensures var observed := [remote.uploaded] + remote.polls;
      (AnalysisRun(req, env, cbs, remote).outcome.Returned?)
        <==> (Truthy(ResolveApiKey(req.apiKey, env.envApiKey)) &&
              (IsYouTubeUrl(req.videoPath) ||
               (env.pathExists && observed[LeadingProcessing(observed)].state != Failed)))
    ensures AnalysisRun(req, env, cbs, remote).outcome.Returned? ==>
      var r := AnalysisRun(req, env, cbs, remote).outcome.result;
      var usage := remote.response.usage;
      r.text == remote.response.text &&
      r.promptTokens == usage.promptTokenCount &&
      r.responseTokens == usage.candidatesTokenCount &&
      r.totalTokens == usage.totalTokenCount &&
      Costs(r.inputCost, r.outputCost, r.totalCost) == CalculateCost(usage) &&
      r.totalCost == r.inputCost + r.outputCost
  {
  }

  /** The reported total is copied, not recomputed: when the service counts
      more tokens than prompt and response together, so does the result. */
  lemma TotalTokensAreCopiedNotSummed(req: Request, env: Environment, cbs: Callbacks, uploaded: File, polls: seq<File>)
    requires WaitEnds(req, env, Remote(uploaded, polls, Response("", Usage(1000, 500, 1800))))
    requires Truthy(ResolveApiKey(req.apiKey, env.envApiKey)) && IsYouTubeUrl(req.videoPath)
    ensures var r := AnalysisRun(req, env, cbs, Remote(uploaded, polls, Response("", Usage(1000, 500, 1800)))).outcome.result;
      r.totalTokens == 1800 && r.totalTokens != r.promptTokens + r.responseTokens &&
      r.inputCost == 0.00015 && r.outputCost == 0.0003 && r.totalCost == 0.00045
  {
    CostExample();
  }

  /** The event a run performs instead of e when another model is named:
      only a generation request carries the model. */
  function WithModel(e: Event, model: string): Event {
    if e.GenerateContent? then e.(model := model) else e
  }

  /** `after` is `before` with the model of its generation requests renamed. */
  predicate ModelRenamed(before: seq<Event>, after: seq<Event>, model: string) {
    |after| == |before| && forall i :: 0 <= i < |before| ==> after[i] == WithModel(before[i], model)
  }

  /** A trace that stops before the generation phase names no model. */
  lemma RenameBeforeGeneration(es: seq<Event>, model: string)
    requires PhasesAtMost(es, 3)
    ensures ModelRenamed(es, es, model)
  {
  }

  /** Two successful traces that differ only in the generation request's
      model are related by renaming it. */
  lemma RenameSuccessTrace(key: string, uploadSteps: seq<Event>, waitSteps: seq<Event>, onAnalyzing: bool,
                           part: VideoPart, prompt: string, oldModel: string, model: string)
    requires AllInPhase(uploadSteps, 1) && AllInPhase(waitSteps, 2)
    ensures ModelRenamed(SuccessTrace(key, uploadSteps, waitSteps, onAnalyzing, GenerateContent(oldModel, part, prompt)),
                         SuccessTrace(key, uploadSteps, waitSteps, onAnalyzing, GenerateContent(model, part, prompt)), model)
  {
    var client := [ClientCreated(key)];
    var analyzing := CallbackIf(onAnalyzing, OnAnalyzing);
    AppendPhase(client, uploadSteps, 1);
    AppendPhase(client + uploadSteps, waitSteps, 2);
    AppendPhase(client + uploadSteps + waitSteps, analyzing, 3);
    RenameBeforeGeneration(client + uploadSteps + waitSteps + analyzing, model);
  }

  /** The model name reaches only the generation request: the outcome,
      costs included, is the same whatever model is named, and the trace
      differs only in the model its generation request names. */
  lemma OutcomeIndependentOfModel(req: Request, env: Environment, cbs: Callbacks, remote: Remote, model: string)
    requires WaitEnds(req, env, remote)
    ensures WaitEnds(req.(model := model), env, remote)
    ensures AnalysisRun(req.(model := model), env, cbs, remote).outcome == AnalysisRun(req, env, cbs, remote).outcome
    ensures ModelRenamed(AnalysisRun(req, env, cbs, remote).trace, AnalysisRun(req.(model := model), env, cbs, remote).trace, model)
  {
    var renamed := req.(model := model);
    var key := ResolveApiKey(req.apiKey, env.envApiKey);
    if !Truthy(key) {
      RunWithoutKey(req, env, cbs, remote);
      RunWithoutKey(renamed, env, cbs, remote);
    } else if IsYouTubeUrl(req.videoPath) {
      YouTubeRun(req, env, cbs, remote, key.value);
      YouTubeRun(renamed, env, cbs, remote, key.value);
      CountCallback(cbs.onUpload, req.videoPath, ClientKind);
      RenameSuccessTrace(key.value, CallbackIf(cbs.onUpload, OnUpload(req.videoPath)), [], cbs.onAnalyzing,
        UriPart(req.videoPath, VideoMimeType), req.prompt, req.model, model);
    } else if !env.pathExists {
      RunWithoutFile(req, env, cbs, remote, key.value);
      RunWithoutFile(renamed, env, cbs, remote, key.value);
      RenameBeforeGeneration([ClientCreated(key.value)], model);
    } else {
      LocalRun(req, env, cbs, remote, key.value);
      LocalRun(renamed, env, cbs, remote, key.value);
      var observed := [remote.uploaded] + remote.polls;
      var k := LeadingProcessing(observed);
      var upload := LocalUploadSteps(req.videoPath, cbs.onUpload, remote.uploaded.uri);
      var wait := WaitEffects(observed[..k], cbs.onProcessing);
      CountLocalUploadSteps(req.videoPath, cbs.onUpload, remote.uploaded.uri, ClientKind);
      WaitEffectsInWaitPhase(observed[..k], cbs.onProcessing);
      if observed[k].state == Failed {
        AppendPhase([ClientCreated(key.value)], upload, 1);
        AppendPhase([ClientCreated(key.value)] + upload, wait, 2);
        RenameBeforeGeneration([ClientCreated(key.value)] + upload + wait, model);
      } else {
        RenameSuccessTrace(key.value, upload, wait, cbs.onAnalyzing, FilePart(observed[k]), req.prompt, req.model, model);
      }
    }
  }
}
