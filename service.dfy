/** Vocabulary shared by the orchestration: the records the remote inference
    service hands back (files, usage metadata, responses) and the observable
    events of one analysis (client construction, remote calls, callbacks and
    console output). The remote service itself is not modelled; its answers
    are inputs to the operations that use them. */
module Service {

  /** Processing state of an uploaded file, as reported by the service.
      Unspecified stands for any state name other than the three the
      program compares against: it is neither waited on nor treated as failed. */
  datatype FileState = Processing | Active | Failed | Unspecified

  /** A handle on a file stored by the service. */
  datatype File = File(name: string, uri: string, state: FileState)

  /** The media reference sent along with the prompt: either a URL handed to
      the service as is, or a file previously uploaded and processed. */
  datatype VideoPart = UriPart(fileUri: string, mimeType: string) | FilePart(file: File)

  /** Token counts reported by the service for one generation. */
  datatype Usage = Usage(promptTokenCount: int, candidatesTokenCount: int, totalTokenCount: int)

  /** Answer of one generation request. */
  datatype Response = Response(text: string, usage: Usage)

  /** One observable step of an analysis, in the order it happens. */
  datatype Event =
    | ClientCreated(apiKey: string)                                  // a service client is built
    | FileUpload(path: string)                                       // local bytes are transferred
    | OnUpload(uri: string)                                          // the upload callback runs
    | OnProgress                                                     // the progress callback runs
    | PrintDot                                                       // "." is printed instead
    | FileGet(name: string)                                          // the file state is re-fetched
    | PrintNewline                                                   // the wait ends with a newline
    | OnAnalyzing                                                    // the analyzing callback runs
    | GenerateContent(model: string, part: VideoPart, prompt: string) // the inference request
  {
    /** Calls that reach the remote service over the network. */
    predicate IsNetwork() {
      FileUpload? || FileGet? || GenerateContent?
    }

    /** Position of the event in the fixed order of an analysis:
        client, upload, wait, analyzing, generation. */
    function Phase(): nat {
      KindPhase(KindOf(this))
    }
  }

  /** Kinds of events, so that traces can be counted by kind. */
  datatype EventKind =
    | ClientKind | UploadKind | UploadCallbackKind | ProgressKind | DotKind
    | GetKind | NewlineKind | AnalyzingKind | GenerateKind

  function KindOf(e: Event): EventKind {
    match e
    case ClientCreated(_) => ClientKind
    case FileUpload(_) => UploadKind
    case OnUpload(_) => UploadCallbackKind
    case OnProgress => ProgressKind
    case PrintDot => DotKind
    case FileGet(_) => GetKind
    case PrintNewline => NewlineKind
    case OnAnalyzing => AnalyzingKind
    case GenerateContent(_, _, _) => GenerateKind
  }

  /** The phase all events of a kind belong to. */
  function KindPhase(kind: EventKind): nat {
    match kind
    case ClientKind => 0
    case UploadKind => 1
    case UploadCallbackKind => 1
    case ProgressKind => 2
    case DotKind => 2
    case GetKind => 2
    case NewlineKind => 2
    case AnalyzingKind => 3
    case GenerateKind => 4
  }

  /** Number of events of the given kind in a trace. */
  function CountOf(es: seq<Event>, kind: EventKind): (n: nat)
    ensures n <= |es|
  {
    if es == [] then 0
    else CountOf(es[..|es| - 1], kind) + (if KindOf(es[|es| - 1]) == kind then 1 else 0)
  }

  /** A kind is counted zero times exactly when no event has that kind. */
  lemma {:induction false} CountOfZero(es: seq<Event>, kind: EventKind)
    ensures CountOf(es, kind) == 0 <==> forall i :: 0 <= i < |es| ==> KindOf(es[i]) != kind
  {
    if es != [] {
      var front := es[..|es| - 1];
      CountOfZero(front, kind);
      assert forall i :: 0 <= i < |front| ==> front[i] == es[i];
    }
  }

  /** Counting distributes over concatenation of traces. */
  lemma {:induction false} CountOfAppend(a: seq<Event>, b: seq<Event>, kind: EventKind)
    ensures CountOf(a + b, kind) == CountOf(a, kind) + CountOf(b, kind)
  {
    if b != [] {
      assert (a + b)[..|a + b| - 1] == a + b[..|b| - 1];
      CountOfAppend(a, b[..|b| - 1], kind);
    } else {
      assert a + b == a;
    }
  }

  /** A one-event trace counts that event's kind once. */
  lemma CountOfSingleton(e: Event, kind: EventKind)
    ensures CountOf([e], kind) == if KindOf(e) == kind then 1 else 0
  {
    assert [e][..0] == [];
  }

  /** A trace whose events never go back to an earlier phase. */
  predicate InPhaseOrder(es: seq<Event>) {
    forall i, j :: 0 <= i < j < |es| ==> es[i].Phase() <= es[j].Phase()
  }

  /** Every event of the trace belongs to the given phase. */
  predicate AllInPhase(es: seq<Event>, p: nat) {
    forall i :: 0 <= i < |es| ==> es[i].Phase() == p
  }

  /** No event of the trace comes after the given phase. */
  predicate PhasesAtMost(es: seq<Event>, p: nat) {
    forall i :: 0 <= i < |es| ==> es[i].Phase() <= p
  }

  /** Appending a block of events that all belong to phase p to an ordered
      trace that has not gone past p keeps the trace ordered. */
  lemma AppendPhase(a: seq<Event>, b: seq<Event>, p: nat)
    requires InPhaseOrder(a) && PhasesAtMost(a, p) && AllInPhase(b, p)
    ensures InPhaseOrder(a + b) && PhasesAtMost(a + b, p)
  {
    var ab := a + b;
    forall i, j | 0 <= i < j < |ab| ensures ab[i].Phase() <= ab[j].Phase() {
      if j >= |a| {
        assert ab[j] == b[j - |a|];
        if i >= |a| {
          assert ab[i] == b[i - |a|];
        }
      }
    }
  }

  /** A block of events of one phase holds no event of a kind from another. */
  lemma CountOutsidePhase(es: seq<Event>, p: nat, kind: EventKind)
    requires AllInPhase(es, p) && KindPhase(kind) != p
    ensures CountOf(es, kind) == 0
  {
    assert forall i :: 0 <= i < |es| ==> KindOf(es[i]) != kind;
    CountOfZero(es, kind);
  }
}
