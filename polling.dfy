/** Waiting for an uploaded file to leave the PROCESSING state.

    The service is an oracle: `polls` lists, in order, the files that
    successive state queries return. The sleep between queries is not
    modelled. The real loop may wait forever; here the caller supplies an
    oracle that eventually reports some other state. */
module Polling {
  import opened Service

  /** Some observed file is no longer processing. */
  predicate Settles(observed: seq<File>) {
    exists i :: 0 <= i < |observed| && observed[i].state != Processing
  }

  /** Number of leading observations that are still processing: the number
      of waiting rounds before the loop stops. */
  function LeadingProcessing(observed: seq<File>): (k: nat)
    requires Settles(observed)
    ensures k < |observed| && observed[k].state != Processing
    ensures forall i :: 0 <= i < k ==> observed[i].state == Processing
  {
    if observed[0].state != Processing then 0
    else
      assert Settles(observed[1..]) by {
        var i :| 0 <= i < |observed| && observed[i].state != Processing;
        assert observed[1..][i - 1] == observed[i];
      }
      1 + LeadingProcessing(observed[1..])
  }

  /** The first observation that is not processing is the one
      LeadingProcessing finds. */
  lemma LeadingProcessingIsFirstSettled(observed: seq<File>, j: nat)
    requires j < |observed| && observed[j].state != Processing
    requires forall i :: 0 <= i < j ==> observed[i].state == Processing
    ensures Settles(observed) && LeadingProcessing(observed) == j
  {
  }

  /** What one waiting round shows: the progress callback if one was given,
      a printed dot otherwise. */
  function TickEvent(hasOnProgress: bool): Event {
    if hasOnProgress then OnProgress else PrintDot
  }

  /** The events of the waiting rounds spent on each of `waited`: a tick,
      then a re-fetch of that file by name. */
  function TickEffects(waited: seq<File>, hasOnProgress: bool): (es: seq<Event>)
    ensures |es| == 2 * |waited|
  {
    if waited == [] then []
    else TickEffects(waited[..|waited| - 1], hasOnProgress)
         + [TickEvent(hasOnProgress), FileGet(waited[|waited| - 1].name)]
  }

  /** One more waiting round appends its tick and its re-fetch. */
  lemma TickEffectsStep(waited: seq<File>, f: File, hasOnProgress: bool)
    ensures TickEffects(waited + [f], hasOnProgress)
      == TickEffects(waited, hasOnProgress) + [TickEvent(hasOnProgress)] + [FileGet(f.name)]
  {
    assert (waited + [f])[..|waited|] == waited;
  }

  /** A round of the wait on an observation that is still processing: a
      later answer exists, and the round adds its tick and its re-fetch. */
  lemma WaitRound(observed: seq<File>, fetched: nat, hasOnProgress: bool)
    requires Settles(observed) && fetched < |observed|
    requires forall i :: 0 <= i <= fetched ==> observed[i].state == Processing
    ensures fetched + 1 < |observed|
    ensures TickEffects(observed[..fetched + 1], hasOnProgress)
      == TickEffects(observed[..fetched], hasOnProgress) + [TickEvent(hasOnProgress)] + [FileGet(observed[fetched].name)]
  {
    TickEffectsStep(observed[..fetched], observed[fetched], hasOnProgress);
    assert observed[..fetched + 1] == observed[..fetched] + [observed[fetched]];
  }

  /** All events of a wait: the rounds, then a closing newline when no
      progress callback was given. */
  function WaitEffects(waited: seq<File>, hasOnProgress: bool): seq<Event> {
    TickEffects(waited, hasOnProgress) + (if hasOnProgress then [] else [PrintNewline])
  }

  /** wait_for_processing: re-fetch while the state is PROCESSING, signalling
      each round; return the first file in another state. */
  method WaitForProcessing(file: File, polls: seq<File>, hasOnProgress: bool)
    returns (result: File, effects: seq<Event>)
    requires Settles([file] + polls)
    ensures var observed := [file] + polls; var k := LeadingProcessing(observed);
      result == observed[k] && effects == WaitEffects(observed[..k], hasOnProgress)
    ensures result.state != Processing
    ensures file.state != Processing ==> result == file && effects == (if hasOnProgress then [] else [PrintNewline])
  {
    ghost var observed := [file] + polls;
    var current := file;
    var fetched := 0;
    effects := [];
    while current.state == Processing
      invariant 0 <= fetched <= |polls|
      invariant current == observed[fetched]
      invariant forall i :: 0 <= i < fetched ==> observed[i].state == Processing
      invariant effects == TickEffects(observed[..fetched], hasOnProgress)
      decreases |polls| - fetched
    {
      WaitRound(observed, fetched, hasOnProgress);
      if hasOnProgress {
        effects := effects + [OnProgress];
      } else {
        effects := effects + [PrintDot];
      }
      effects := effects + [FileGet(current.name)];
      current := polls[fetched];
      fetched := fetched + 1;
    }
    LeadingProcessingIsFirstSettled(observed, fetched);
    if !hasOnProgress {
      effects := effects + [PrintNewline];
    }
    result := current;
  }

  /** Every round of the wait invokes the progress callback when one is
      given, and prints a dot otherwise; never both. */
  lemma {:induction false} TickCounts(waited: seq<File>, hasOnProgress: bool)
    ensures CountOf(TickEffects(waited, hasOnProgress), ProgressKind) == (if hasOnProgress then |waited| else 0)
    ensures CountOf(TickEffects(waited, hasOnProgress), DotKind) == (if hasOnProgress then 0 else |waited|)
    ensures CountOf(TickEffects(waited, hasOnProgress), GetKind) == |waited|
    ensures CountOf(TickEffects(waited, hasOnProgress), NewlineKind) == 0
  {
    if waited != [] {
      var front := waited[..|waited| - 1];
      TickCounts(front, hasOnProgress);
      var round := [TickEvent(hasOnProgress), FileGet(waited[|waited| - 1].name)];
      CountOfAppend(TickEffects(front, hasOnProgress), round, ProgressKind);
      CountOfAppend(TickEffects(front, hasOnProgress), round, DotKind);
      CountOfAppend(TickEffects(front, hasOnProgress), round, GetKind);
      CountOfAppend(TickEffects(front, hasOnProgress), round, NewlineKind);
      assert round[..1] == [TickEvent(hasOnProgress)];
    }
  }

  /** Over a whole wait of k rounds: k callbacks or k dots, k re-fetches, and
      a trailing newline exactly when no callback was given. */
  lemma WaitCounts(waited: seq<File>, hasOnProgress: bool)
    ensures CountOf(WaitEffects(waited, hasOnProgress), ProgressKind) == (if hasOnProgress then |waited| else 0)
    ensures CountOf(WaitEffects(waited, hasOnProgress), DotKind) == (if hasOnProgress then 0 else |waited|)
    ensures CountOf(WaitEffects(waited, hasOnProgress), GetKind) == |waited|
    ensures CountOf(WaitEffects(waited, hasOnProgress), NewlineKind) == (if hasOnProgress then 0 else 1)
  {
    TickCounts(waited, hasOnProgress);
    var ticks := TickEffects(waited, hasOnProgress);
    if hasOnProgress {
      assert WaitEffects(waited, hasOnProgress) == ticks;
    } else {
      var newline := [PrintNewline];
      assert WaitEffects(waited, hasOnProgress) == ticks + newline;
      assert CountOf(newline, NewlineKind) == 1 by {
        assert newline[..0] == [];
      }
      CountOfAppend(ticks, newline, ProgressKind);
      CountOfAppend(ticks, newline, DotKind);
      CountOfAppend(ticks, newline, GetKind);
      CountOfAppend(ticks, newline, NewlineKind);
    }
  }

  /** Every event of a wait belongs to the waiting phase. */
  lemma {:induction false} WaitEffectsInWaitPhase(waited: seq<File>, hasOnProgress: bool)
    ensures AllInPhase(WaitEffects(waited, hasOnProgress), 2)
  {
    TickEffectsInWaitPhase(waited, hasOnProgress);
  }

  lemma {:induction false} TickEffectsInWaitPhase(waited: seq<File>, hasOnProgress: bool)
    ensures AllInPhase(TickEffects(waited, hasOnProgress), 2)
  {
    if waited != [] {
      TickEffectsInWaitPhase(waited[..|waited| - 1], hasOnProgress);
    }
  }

  /** Two PROCESSING answers before an ACTIVE one: two rounds, and the wait
      returns the active file. */
  lemma TwoRoundsExample(name: string, uri: string)
    ensures var processing := File(name, uri, Processing);
      var active := File(name, uri, Active);
      var observed := [processing, processing, active];
      Settles(observed) && LeadingProcessing(observed) == 2 && observed[2] == active &&
      CountOf(WaitEffects(observed[..2], true), ProgressKind) == 2
  {
    var processing := File(name, uri, Processing);
    var active := File(name, uri, Active);
    var observed := [processing, processing, active];
    assert observed[2].state != Processing;
    assert observed[1..][1..] == [active];
    WaitCounts(observed[..2], true);
  }
}
