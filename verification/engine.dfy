/** The scenario runner in fast-forward mode: sort the batch once, then
    dispatch the events in that order, checking the stop flag before each one. */
module Engine {
  import opened Wrappers
  import opened Network
  import opened Events
  import opened Notifications
  import opened Dispatch
  import opened Ordering

  /** The network and the notifications offered so far. */
  datatype State = State(rede: Rede, notas: seq<Notification>)

  /** The outcome of a run: the final network, the notifications delivered to
      the consumer, the events dispatched in dispatch order, and whether the
      loop was broken off by the stop flag. */
  datatype Run = Run(rede: Rede, entregues: seq<Notification>, despachados: seq<Evento>, interrompida: bool)

  /** Feeds `evs` one after another through `step`, starting from `rede` and
      collecting the notifications in emission order. */
  function Fold(step: (Rede, Evento) -> Step, rede: Rede, evs: seq<Evento>): State
    decreases |evs|
  {
    if |evs| == 0 then State(rede, [])
    else
      var before := Fold(step, rede, evs[..|evs| - 1]);
      var s := step(before.rede, evs[|evs| - 1]);
      State(s.rede, before.notas + s.notas)
  }

  /** One more event at the end is one more step after the others. */
  lemma FoldSnoc(step: (Rede, Evento) -> Step, rede: Rede, evs: seq<Evento>, e: Evento)
    ensures var before := Fold(step, rede, evs);
      var s := step(before.rede, e);
      Fold(step, rede, evs + [e]) == State(s.rede, before.notas + s.notas)
  {
    assert (evs + [e])[..|evs|] == evs;
  }

  /** Folding `a` then `b` is folding `a + b`: nothing done by `a` is undone,
      and the notifications of `b` follow those of `a`. */
  lemma {:induction false} FoldAppend(step: (Rede, Evento) -> Step, rede: Rede, a: seq<Evento>, b: seq<Evento>)
    ensures var x := Fold(step, rede, a);
      var y := Fold(step, x.rede, b);
      Fold(step, rede, a + b) == State(y.rede, x.notas + y.notas)
    decreases |b|
  {
    var x := Fold(step, rede, a);
    if |b| == 0 {
      assert a + b == a;
      assert x.notas + [] == x.notas;
    } else {
      var b', last := b[..|b| - 1], b[|b| - 1];
      assert b == b' + [last];
      assert a + b == (a + b') + [last];
      FoldAppend(step, rede, a, b');
      var y := Fold(step, x.rede, b');
      var s := step(y.rede, last);
      FoldSnoc(step, rede, a + b', last);
      FoldSnoc(step, x.rede, b', last);
      assert (x.notas + y.notas) + s.notas == x.notas + (y.notas + s.notas);
    }
  }

  /** A reflexive, transitive relation that every step keeps between the
      network before and after it holds over any number of events. */
  lemma {:induction false} FoldPreserves(step: (Rede, Evento) -> Step, inv: (Rede, Rede) -> bool,
                                         rede: Rede, evs: seq<Evento>)
    requires forall r: Rede :: inv(r, r)
    requires forall a: Rede, b: Rede, c: Rede :: inv(a, b) && inv(b, c) ==> inv(a, c)
    requires forall r: Rede, e: Evento :: inv(r, step(r, e).rede)
    ensures inv(rede, Fold(step, rede, evs).rede)
    decreases |evs|
  {
    if |evs| > 0 {
      var before := Fold(step, rede, evs[..|evs| - 1]);
      FoldPreserves(step, inv, rede, evs[..|evs| - 1]);
      assert inv(before.rede, step(before.rede, evs[|evs| - 1]).rede);
    }
  }

  /** Dispatches `evs` one after another from `rede`, in sequence order. */
  function ApplyAll(rede: Rede, evs: seq<Evento>): (st: State)
    ensures SameTopology(rede, st.rede)
    ensures EngineWrites(rede, st.rede)
  {
    forall a: Rede, b: Rede, c: Rede | EngineWrites(a, b) && EngineWrites(b, c)
      ensures EngineWrites(a, c)
    {
      EngineWritesTransitive(a, b, c);
    }
    forall r: Rede
      ensures EngineWrites(r, r)
    {
      EngineWritesReflexive(r);
    }
    FoldPreserves(Execute, (a, b) => EngineWrites(a, b), rede, evs);
    Fold(Execute, rede, evs)
  }

  /** An event whose target is missing at its turn is skipped: the batch
      without it dispatches to the same network and the same notifications,
      and every later event still takes effect. */
  lemma MissingTargetSkipped(rede: Rede, a: seq<Evento>, e: Evento, b: seq<Evento>)
    requires TargetMissing(ApplyAll(rede, a).rede, e)
    ensures ApplyAll(rede, a + [e] + b) == ApplyAll(rede, a + b)
  {
    var x := Fold(Execute, rede, a);
    var s := Execute(x.rede, e);
    assert s.rede == x.rede && s.notas == [];
    FoldSnoc(Execute, rede, a, e);
    assert x.notas + s.notas == x.notas;
    FoldAppend(Execute, rede, a + [e], b);
    FoldAppend(Execute, rede, a, b);
  }

  /** The number of events dispatched when the flag is first seen set at the
      check before event `stop` (None: never seen set). */
  function StopIndex(stop: Option<nat>, n: nat): (k: nat)
    ensures k <= n
    ensures k < n <==> stop.Some? && stop.value < n
    ensures stop.Some? && stop.value < n ==> k == stop.value
  {
    if stop.Some? && stop.value < n then stop.value else n
  }

  /** Runs an already ordered batch through `step`: the events before the
      stop index are dispatched; notifications reach the consumer only if one
      is registered. */
  function RunOrdered(step: (Rede, Evento) -> Step, callback: bool, rede: Rede, fila: seq<Evento>,
                      stop: Option<nat>): (r: Run)
    ensures r.despachados <= fila
    ensures |r.despachados| == StopIndex(stop, |fila|)
    ensures r.interrompida <==> stop.Some? && stop.value < |fila|
    ensures !callback ==> r.entregues == []
  {
    var k := StopIndex(stop, |fila|);
    var st := Fold(step, rede, fila[..k]);
    Run(st.rede, if callback then st.notas else [], fila[..k], k < |fila|)
  }

  /** The whole run: a stable sort by offset, then the ordered batch is
      dispatched event by event. */
  function Scenario(callback: bool, rede: Rede, eventos: seq<Evento>, stop: Option<nat>): (r: Run)
    ensures r.despachados <= SortByOffset(eventos)
    ensures |r.despachados| == StopIndex(stop, |eventos|)
    ensures r.interrompida <==> stop.Some? && stop.value < |eventos|
    ensures r.rede == ApplyAll(rede, r.despachados).rede
    ensures r.entregues == if callback then ApplyAll(rede, r.despachados).notas else []
    ensures !callback ==> r.entregues == []
    ensures SameTopology(rede, r.rede) && EngineWrites(rede, r.rede)
  {
    RunOrdered(Execute, callback, rede, SortByOffset(eventos), stop)
  }

  /** A batch the sort leaves as it is runs exactly as given. */
  lemma ScenarioOfOrdered(callback: bool, rede: Rede, eventos: seq<Evento>, stop: Option<nat>)
    requires SortByOffset(eventos) == eventos
    ensures Scenario(callback, rede, eventos, stop) == RunOrdered(Execute, callback, rede, eventos, stop)
  {
  }

  /** Stopping before event `i` of an ordered batch yields exactly the
      uninterrupted run of its first `i` events. */
  lemma StopKeepsPrefixOrdered(step: (Rede, Evento) -> Step, callback: bool, rede: Rede, fila: seq<Evento>, i: nat)
    requires i < |fila|
    ensures var stopped := RunOrdered(step, callback, rede, fila, Some(i));
      var prefix := RunOrdered(step, callback, rede, fila[..i], None);
      stopped == prefix.(interrompida := true)
  {
    assert fila[..i][..i] == fila[..i];
  }

  /** Resuming an ordered run stopped before event `i` with the events not yet
      dispatched reaches the uninterrupted run's state and deliveries. */
  lemma StopThenResumeOrdered(step: (Rede, Evento) -> Step, callback: bool, rede: Rede, fila: seq<Evento>, i: nat)
    requires i < |fila|
    ensures var stopped := RunOrdered(step, callback, rede, fila, Some(i));
      var full := RunOrdered(step, callback, rede, fila, None);
      var rest := Fold(step, stopped.rede, fila[i..]);
      && rest.rede == full.rede
      && full.entregues == stopped.entregues + (if callback then rest.notas else [])
  {
    assert fila[..i] + fila[i..] == fila;
    assert fila[..|fila|] == fila;
    FoldAppend(step, rede, fila[..i], fila[i..]);
  }

  /** The run loop over an ordered batch: one stop-flag check and one
      dispatch per iteration, breaking at the first check that finds the flag set. */
  method RunLoop(step: (Rede, Evento) -> Step, callback: bool, rede: Rede, fila: seq<Evento>, stop: Option<nat>)
    returns (r: Run)
    ensures r == RunOrdered(step, callback, rede, fila, stop)
  {
    var atual := rede;
    var entregues: seq<Notification> := [];
    var i := 0;
    var interrompida := false;
    while i < |fila|
      invariant i <= StopIndex(stop, |fila|)
      invariant atual == Fold(step, rede, fila[..i]).rede
      invariant entregues == if callback then Fold(step, rede, fila[..i]).notas else []
    {
      if stop.Some? && stop.value <= i {
        interrompida := true;
        break;
      }
      var passo := step(atual, fila[i]);
      assert fila[..i + 1] == fila[..i] + [fila[i]];
      FoldSnoc(step, rede, fila[..i], fila[i]);
      atual := passo.rede;
      if callback {
        entregues := entregues + passo.notas;
      }
      i := i + 1;
    }
    r := Run(atual, entregues, fila[..i], interrompida);
  }

  /** The scenario run: sort the batch once by offset, then run the loop with
      the event dispatcher. */
  method RunScenario(callback: bool, rede: Rede, eventos: seq<Evento>, stop: Option<nat>)
    returns (r: Run)
    ensures r == Scenario(callback, rede, eventos, stop)
  {
    var fila := SortByOffset(eventos);
    r := RunLoop(Execute, callback, rede, fila, stop);
  }

  /** Stopping before event `i` of the sorted batch yields exactly a complete
      run of the first `i` sorted events: same network, same deliveries. */
  lemma StopKeepsPrefix(callback: bool, rede: Rede, eventos: seq<Evento>, i: nat)
    requires i < |eventos|
    ensures var fila := SortByOffset(eventos);
      var stopped := Scenario(callback, rede, eventos, Some(i));
      stopped == Scenario(callback, rede, fila[..i], None).(interrompida := true)
  {
    var fila := SortByOffset(eventos);
    StopKeepsPrefixOrdered(Execute, callback, rede, fila, i);
    OrderedPrefix(fila, i);
    SortOfOrderedIsIdentity(fila[..i]);
  }

  /** Effects of the events dispatched before a stop remain: resuming with the
      undispatched events reaches the state of the uninterrupted run, whose
      deliveries extend the stopped run's deliveries. */
  lemma StopThenResume(callback: bool, rede: Rede, eventos: seq<Evento>, i: nat)
    requires i < |eventos|
    ensures var fila := SortByOffset(eventos);
      var stopped := Scenario(callback, rede, eventos, Some(i));
      var full := Scenario(callback, rede, eventos, None);
      var rest := ApplyAll(stopped.rede, fila[i..]);
      && rest.rede == full.rede
      && full.entregues == stopped.entregues + (if callback then rest.notas else [])
  {
    StopThenResumeOrdered(Execute, callback, rede, SortByOffset(eventos), i);
  }

  /** Without a stop every event is dispatched exactly once, in stable offset
      order, however many of them fail to resolve. */
  lemma NoStopDispatchesAll(callback: bool, rede: Rede, eventos: seq<Evento>)
    ensures var r := Scenario(callback, rede, eventos, None);
      && !r.interrompida
      && StableSortOf(r.despachados, eventos)
      && multiset(r.despachados) == multiset(eventos)
  {
    var fila := SortByOffset(eventos);
    assert fila[..|fila|] == fila;
  }
}
