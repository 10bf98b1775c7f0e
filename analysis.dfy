/** The analysis of one video (analyze_video): resolve the API key, submit
    the video (a YouTube URL directly, a local file by upload followed by a
    wait for processing), request the description, and report tokens and
    cost.

    Everything outside the program is an input: the environment (the key
    variable, whether the path exists) and the service's answers (the
    uploaded file, the answers of successive state queries, the generation
    response). Which optional callbacks the caller passed is a flag per
    callback; what the program does is recorded as a trace of events. */
module Analysis {
  import opened Service
  import opened YouTube
  import opened Cost
  import opened Polling

  datatype Option<T> = None | Some(value: T)

  const VideoMimeType: string := "video/mp4"

  /** The environment variable the key is read from. */
  const KeyVariable: string := "GEMINI_API_KEY"

  const MissingKeyMessage: string := KeyVariable + " not found in environment or .env file"
  const FileNotFoundPrefix: string := "Video file not found: "
  const ProcessingFailedMessage: string := "File processing failed"

  /** What a successful analysis returns. */
  datatype AnalysisResult = AnalysisResult(
    text: string,
    promptTokens: int,
    responseTokens: int,
    totalTokens: int,
    inputCost: real,
    outputCost: real,
    totalCost: real)

  /** The two exception classes the analysis raises itself. */
  datatype Error = ValueError(message: string) | RuntimeError(message: string)

  datatype Outcome = Returned(result: AnalysisResult) | Raised(error: Error)

  /** The caller's arguments. */
  datatype Request = Request(videoPath: string, prompt: string, model: string, apiKey: Option<string>)

  /** Which of the optional callbacks the caller supplied. */
  datatype Callbacks = Callbacks(onUpload: bool, onProcessing: bool, onAnalyzing: bool)

  /** The GEMINI_API_KEY variable (after the .env file is loaded) and
      whether the video path exists on disk. */
  datatype Environment = Environment(envApiKey: Option<string>, pathExists: bool)

  /** The service's answers: the file an upload creates, the files that
      successive state queries return, and the generation response. */
  datatype Remote = Remote(uploaded: File, polls: seq<File>, response: Response)

  /** What an analysis ends with, and everything it did on the way. */
  datatype Execution = Execution(outcome: Outcome, trace: seq<Event>)

  /** A key counts as given when it is present and not empty. */
  predicate Truthy(key: Option<string>) {
    key.Some? && key.value != ""
  }

  /** `api_key or os.getenv(...)`: the argument unless it is missing or
      empty, the environment's value otherwise. */
  function ResolveApiKey(argument: Option<string>, environment: Option<string>): (key: Option<string>)
    ensures Truthy(key) <==> Truthy(argument) || Truthy(environment)
    ensures Truthy(argument) ==> key == argument
    ensures !Truthy(argument) ==> key == environment
  {
    if Truthy(argument) then argument else environment
  }

  /** The run goes as far as uploading a local file. */
  predicate Uploads(req: Request, env: Environment) {
    Truthy(ResolveApiKey(req.apiKey, env.envApiKey)) && !IsYouTubeUrl(req.videoPath) && env.pathExists
  }

  /** Precondition of the model: an upload is followed by state answers
      that eventually leave PROCESSING. */
  predicate WaitEnds(req: Request, env: Environment, remote: Remote) {
    Uploads(req, env) ==> Settles([remote.uploaded] + remote.polls)
  }

  function CallbackIf(supplied: bool, e: Event): seq<Event> {
    if supplied then [e] else []
  }

  /** The result built from a generation response. */
  function ResultOf(response: Response): AnalysisResult {
    var costs := CalculateCost(response.usage);
    AnalysisResult(response.text,
      response.usage.promptTokenCount, response.usage.candidatesTokenCount, response.usage.totalTokenCount,
      costs.input, costs.output, costs.total)
  }

  /** The final step, shared by both sources: the analyzing callback, one
      generation request, and the result. */
  function Generation(req: Request, cbs: Callbacks, response: Response, part: VideoPart, before: seq<Event>): Execution {
    Execution(Returned(ResultOf(response)),
      before + CallbackIf(cbs.onAnalyzing, OnAnalyzing) + [GenerateContent(req.model, part, req.prompt)])
  }

  /** Reference definition of an analysis, step by step as a value. */
  function AnalysisRun(req: Request, env: Environment, cbs: Callbacks, remote: Remote): Execution
    requires WaitEnds(req, env, remote)
  {
    var apiKey := ResolveApiKey(req.apiKey, env.envApiKey);
    if !Truthy(apiKey) then Execution(Raised(ValueError(MissingKeyMessage)), [])
    else
      var client := [ClientCreated(apiKey.value)];
      if IsYouTubeUrl(req.videoPath) then
        Generation(req, cbs, remote.response, UriPart(req.videoPath, VideoMimeType),
          client + CallbackIf(cbs.onUpload, OnUpload(req.videoPath)))
      else if !env.pathExists then
        Execution(Raised(ValueError(FileNotFoundPrefix + req.videoPath)), client)
      else
        var observed := [remote.uploaded] + remote.polls;
        var k := LeadingProcessing(observed);
        var waited := client + [FileUpload(req.videoPath)] + CallbackIf(cbs.onUpload, OnUpload(remote.uploaded.uri))
          + WaitEffects(observed[..k], cbs.onProcessing);
        if observed[k].state == Failed then
          Execution(Raised(RuntimeError(ProcessingFailedMessage)), waited)
        else
          Generation(req, cbs, remote.response, FilePart(observed[k]), waited)
  }

  /** The four ways a run can go, each read off the reference definition. */
  lemma RunWithoutKey(req: Request, env: Environment, cbs: Callbacks, remote: Remote)
    requires !Truthy(ResolveApiKey(req.apiKey, env.envApiKey))
    ensures AnalysisRun(req, env, cbs, remote) == Execution(Raised(ValueError(MissingKeyMessage)), [])
  {
  }

  lemma RunOnYouTubeUrl(req: Request, env: Environment, cbs: Callbacks, remote: Remote, key: string)
    requires ResolveApiKey(req.apiKey, env.envApiKey) == Some(key) && key != ""
    requires IsYouTubeUrl(req.videoPath)
    ensures AnalysisRun(req, env, cbs, remote)
      == Generation(req, cbs, remote.response, UriPart(req.videoPath, VideoMimeType),
           [ClientCreated(key)] + CallbackIf(cbs.onUpload, OnUpload(req.videoPath)))
  {
  }

  lemma RunWithoutFile(req: Request, env: Environment, cbs: Callbacks, remote: Remote, key: string)
    requires ResolveApiKey(req.apiKey, env.envApiKey) == Some(key) && key != ""
    requires !IsYouTubeUrl(req.videoPath) && !env.pathExists
    ensures AnalysisRun(req, env, cbs, remote)
      == Execution(Raised(ValueError(FileNotFoundPrefix + req.videoPath)), [ClientCreated(key)])
  {
  }

  lemma RunAfterUpload(req: Request, env: Environment, cbs: Callbacks, remote: Remote, key: string)
    requires ResolveApiKey(req.apiKey, env.envApiKey) == Some(key) && key != ""
    requires !IsYouTubeUrl(req.videoPath) && env.pathExists
    requires Settles([remote.uploaded] + remote.polls)
    ensures var observed := [remote.uploaded] + remote.polls;
      var k := LeadingProcessing(observed);
      var waited := [ClientCreated(key), FileUpload(req.videoPath)] + CallbackIf(cbs.onUpload, OnUpload(remote.uploaded.uri))
        + WaitEffects(observed[..k], cbs.onProcessing);
      AnalysisRun(req, env, cbs, remote)
        == if observed[k].state == Failed then Execution(Raised(RuntimeError(ProcessingFailedMessage)), waited)
           else Generation(req, cbs, remote.response, FilePart(observed[k]), waited)
  {
    assert [ClientCreated(key)] + [FileUpload(req.videoPath)] == [ClientCreated(key), FileUpload(req.videoPath)];
  }

  /** analyze_video: check the key, submit the video, wait for a local
      file's processing, then generate and report. */
  method AnalyzeVideo(req: Request, env: Environment, cbs: Callbacks, remote: Remote)
    returns (outcome: Outcome, trace: seq<Event>)
    requires WaitEnds(req, env, remote)
    ensures Execution(outcome, trace) == AnalysisRun(req, env, cbs, remote)
  {
    ghost var expected := AnalysisRun(req, env, cbs, remote);
    var apiKey := req.apiKey;
    if !Truthy(apiKey) {
      apiKey := env.envApiKey;
    }
    if !Truthy(apiKey) {
      outcome := Raised(ValueError(MissingKeyMessage));
      trace := [];
      RunWithoutKey(req, env, cbs, remote);
      return;
    }
    assert apiKey == ResolveApiKey(req.apiKey, env.envApiKey);
    var key := apiKey.value;
    trace := [ClientCreated(key)];

    var part: VideoPart;
    if IsYouTubeUrl(req.videoPath) {
      part := UriPart(req.videoPath, VideoMimeType);
      if cbs.onUpload {
        trace := trace + [OnUpload(req.videoPath)];
      }
      assert trace == [ClientCreated(key)] + CallbackIf(cbs.onUpload, OnUpload(req.videoPath));
      assert expected == Generation(req, cbs, remote.response, part, trace) by {
        RunOnYouTubeUrl(req, env, cbs, remote, key);
      }
    } else {
      if !env.pathExists {
        outcome := Raised(ValueError(FileNotFoundPrefix + req.videoPath));
        RunWithoutFile(req, env, cbs, remote, key);
        return;
      }
      var myfile := remote.uploaded;
      trace := trace + [FileUpload(req.videoPath)];
      if cbs.onUpload {
        trace := trace + [OnUpload(myfile.uri)];
      }
      assert trace == [ClientCreated(key), FileUpload(req.videoPath)] + CallbackIf(cbs.onUpload, OnUpload(remote.uploaded.uri));
      var waitEffects;
      myfile, waitEffects := WaitForProcessing(myfile, remote.polls, cbs.onProcessing);
      trace := trace + waitEffects;
      if myfile.state == Failed {
        outcome := Raised(RuntimeError(ProcessingFailedMessage));
        RunAfterUpload(req, env, cbs, remote, key);
        return;
      }
      part := FilePart(myfile);
      assert expected == Generation(req, cbs, remote.response, part, trace) by {
        RunAfterUpload(req, env, cbs, remote, key);
      }
    }
    ghost var beforeGeneration := trace;

    if cbs.onAnalyzing {
      trace := trace + [OnAnalyzing];
    }
    assert trace == beforeGeneration + CallbackIf(cbs.onAnalyzing, OnAnalyzing);
    trace := trace + [GenerateContent(req.model, part, req.prompt)];

    var usage := remote.response.usage;
    var costs := CalculateCost(usage);
    outcome := Returned(AnalysisResult(remote.response.text,
      usage.promptTokenCount, usage.candidatesTokenCount, usage.totalTokenCount,
      costs.input, costs.output, costs.total));
    assert trace == beforeGeneration + CallbackIf(cbs.onAnalyzing, OnAnalyzing) + [GenerateContent(req.model, part, req.prompt)];
  }
}
