/** What callers can do by themselves: in any state they get as far as `wait`, and once
    the handler is gone they all return. */
module RpcLiveness {
  import opened Wire
  import opened Rpc
  import opened RpcSafety
  import opened RpcTheorems

  predicate OfCaller(step: Step) {
    step.Upgrade? || step.Push? || step.Release? || step.Return?
  }

  // What a caller does next, and how far it is from the end of `call`.
  function Next(call: Call, c: CallId): Step {
    match call.pc
    case Starting => Upgrade(c)
    case Holding => Push(c)
    case Pushed => Release(c)
    case _ => Return(c)
  }

  function Rank(pc: Pc): nat {
    match pc
    case Starting => 4
    case Holding => 3
    case Pushed => 2
    case Waiting => 1
    case Returned(_) => 0
  }

  // The calls that have not reached `wait`, and those that have not returned.
  function Early(k: Core): set<CallId> {
    set c <- k.calls.Keys | Rank(k.calls[c].pc) > 1
  }

  function Unreturned(k: Core): set<CallId> {
    set c <- k.calls.Keys | Rank(k.calls[c].pc) > 0
  }

  // Both ends of the connection are there, or not, as before.
  predicate SameEnds(k: Core, k': Core) {
    k'.handlerAlive == k.handlerAlive && k'.serverAlive == k.serverAlive
  }

  // Only the thread of `c` moves, closer to the end.
  ghost predicate Moves(k: Core, k': Core, c: CallId) {
    && c in k.calls && k'.calls.Keys == k.calls.Keys && SameEnds(k, k')
    && Rank(k'.calls[c].pc) < Rank(k.calls[c].pc)
    && (forall d <- k.calls.Keys :: d != c ==> k'.calls[d].pc == k.calls[d].pc)
  }

  // Nobody has lost the prospect of an answer.
  ghost predicate Kept(k: Core, k': Core) {
    forall d <- k.calls.Keys ::
      d in k'.calls && (k.calls[d].writer != Finished(None) ==> k'.calls[d].writer != Finished(None))
  }

  // The push of `c` is over, or will be accepted.
  predicate HasRoom(k: Core, c: CallId)
    requires c in k.calls
  {
    k.handlerAlive && (Rank(k.calls[c].pc) <= 2 || |k.queue| < QUEUE_CAPACITY)
  }

  lemma MovesEarly(k: Core, k': Core, c: CallId)
    requires Moves(k, k', c) && c in Early(k)
    ensures Early(k') == if c in Early(k') then Early(k) else Early(k) - {c}
  {
  }

  lemma MovesUnreturned(k: Core, k': Core, c: CallId)
    requires Moves(k, k', c) && k.calls[c].pc == Waiting
    ensures Early(k') == Early(k) && Unreturned(k') == Unreturned(k) - {c} && c in Unreturned(k)
  {
  }

  lemma FreeKeepsPcs(k: Core)
    ensures var k' := FreeQueue(k);
            && k'.calls.Keys == k.calls.Keys && SameEnds(k, k')
            && (forall d <- k.calls.Keys :: k'.calls[d].pc == k.calls[d].pc)
            && (k.handlerAlive ==> k' == k)
  {
    assert k.handlerAlive ==> StrongLive(k);
    hide StrongLive;
  }

  // Setting where one call is.
  lemma SetMoves(k: Core, c: CallId, pc: Pc, w: Writer, k': Core)
    requires c in k.calls && Rank(pc) < Rank(k.calls[c].pc)
    requires k'.calls == SetCall(k, c, pc, w).calls && SameEnds(k, k')
    ensures Moves(k, k', c) && (w != Finished(None) ==> Kept(k, k'))
  {
  }

  // With room in the queue nothing is lost, and there is room for the rest of the push.
  ghost predicate Onward(k: Core, k': Core, c: CallId) {
    c in k.calls && c in k'.calls && (HasRoom(k, c) ==> Kept(k, k') && HasRoom(k', c))
  }

  lemma StartingMoves(cfg: Config, s: Sys, c: CallId)
    requires c in s.core.calls && s.core.calls[c].pc == Starting
    ensures var s' := Apply(cfg, s, Upgrade(c));
            s'.Some? && Moves(s.core, s'.value.core, c) && Onward(s.core, s'.value.core, c)
  {
    var k, k' := s.core, Apply(cfg, s, Upgrade(c)).value.core;
    hide FreeQueue, StrongLive, Moves;
    if StrongLive(k) {
      SetMoves(k, c, Holding, WithCaller, k');
    } else {
      SetMoves(k, c, Waiting, Finished(None), k');
    }
  }

  lemma HoldingMoves(cfg: Config, s: Sys, c: CallId)
    requires c in s.core.calls && s.core.calls[c].pc == Holding
    ensures var s' := Apply(cfg, s, Push(c));
            s'.Some? && Moves(s.core, s'.value.core, c) && Onward(s.core, s'.value.core, c)
  {
    var k, k' := s.core, Apply(cfg, s, Push(c)).value.core;
    hide FreeQueue, StrongLive, Moves;
    SetMoves(k, c, Pushed, if |k.queue| < QUEUE_CAPACITY then Queued else Finished(None), k');
  }

  lemma PushedMoves(cfg: Config, s: Sys, c: CallId)
    requires c in s.core.calls && s.core.calls[c].pc == Pushed
    ensures var s' := Apply(cfg, s, Release(c));
            s'.Some? && Moves(s.core, s'.value.core, c) && Onward(s.core, s'.value.core, c)
  {
    FreeKeepsPcs(SetCall(s.core, c, Waiting, s.core.calls[c].writer));
    hide FreeQueue, StrongLive;
  }

  // Until it waits, a caller is never held up.
  lemma EarlyMoves(cfg: Config, s: Sys, c: CallId)
    requires c in Early(s.core)
    ensures var s' := Apply(cfg, s, Next(s.core.calls[c], c));
            s'.Some? && Moves(s.core, s'.value.core, c) && Onward(s.core, s'.value.core, c)
  {
    var k := s.core;
    hide FreeQueue, StrongLive, Moves, Onward, SetCall;
    match k.calls[c].pc
    case Starting => StartingMoves(cfg, s, c);
    case Holding => HoldingMoves(cfg, s, c);
    case Pushed => PushedMoves(cfg, s, c);
  }

  // A caller that waits returns once its writer is finished.
  lemma WaiterMoves(cfg: Config, s: Sys, c: CallId)
    requires c in s.core.calls && s.core.calls[c].pc == Waiting && s.core.calls[c].writer.Finished?
    ensures var s' := Apply(cfg, s, Return(c)); s'.Some? && Moves(s.core, s'.value.core, c)
    ensures forall d <- s.core.calls.Keys ::
              Apply(cfg, s, Return(c)).value.core.calls[d].writer == s.core.calls[d].writer
  {
    hide FreeQueue, StrongLive;
  }

  // Running one step and then the rest.
  lemma RunCons(cfg: Config, s: Sys, step: Step, rest: seq<Step>)
    requires Apply(cfg, s, step).Some?
    ensures Run(cfg, s, [step] + rest) == Run(cfg, Apply(cfg, s, step).value, rest)
  {
    hide Apply;
    assert ([step] + rest)[1..] == rest;
  }

  // One caller reaches `wait`; nobody else moves.
  lemma {:induction false} ReachesWait(cfg: Config, s: Sys, c: CallId) returns (steps: seq<Step>, s': Sys)
    requires Inv(cfg, s) && c in Early(s.core)
    ensures Run(cfg, s, steps) == Some(s') && Inv(cfg, s') && SameEnds(s.core, s'.core)
    ensures (forall step <- steps :: OfCaller(step)) && Early(s'.core) == Early(s.core) - {c}
    ensures HasRoom(s.core, c) ==> Kept(s.core, s'.core)
    decreases Rank(s.core.calls[c].pc)
  {
    var step := Next(s.core.calls[c], c);
    EarlyMoves(cfg, s, c);
    StepKeeps(cfg, s, step);
    var t := Apply(cfg, s, step).value;
    MovesEarly(s.core, t.core, c);
    hide Inv, Apply, Run, Early, HasRoom;
    if c in Early(t.core) {
      var rest;
      rest, s' := ReachesWait(cfg, t, c);
      RunCons(cfg, s, step, rest);
      steps := [step] + rest;
    } else {
      RunCons(cfg, s, step, []);
      RunNothing(cfg, t);
      return [step] + [], t;
    }
  }

  lemma RunNothing(cfg: Config, s: Sys)
    ensures Run(cfg, s, []) == Some(s)
  {
  }

  // All of them reach `wait`.
  lemma {:induction false} AllReachWait(cfg: Config, s: Sys) returns (steps: seq<Step>, s': Sys)
    requires Inv(cfg, s)
    ensures Run(cfg, s, steps) == Some(s') && Inv(cfg, s') && SameEnds(s.core, s'.core)
    ensures (forall step <- steps :: OfCaller(step)) && Early(s'.core) == {}
    decreases Early(s.core)
  {
    hide Inv, Run;
    if Early(s.core) == {} {
      RunNothing(cfg, s);
      return [], s;
    }
    var c :| c in Early(s.core);
    var xs, t := ReachesWait(cfg, s, c);
    hide Early;
    var ys;
    ys, s' := AllReachWait(cfg, t);
    RunAppend(cfg, s, xs, ys);
    steps := xs + ys;
  }

  ghost predicate AllSet(k: Core) {
    forall c <- k.calls.Keys :: k.calls[c].writer.Finished?
  }

  // With nobody holding the queue, every writer has been finished or dropped.
  lemma AllFinished(cfg: Config, s: Sys)
    requires Inv(cfg, s) && !s.core.handlerAlive && Early(s.core) == {}
    ensures AllSet(s.core)
  {
    var k := s.core;
    hide History;
    forall c <- k.calls.Keys
      ensures !k.calls[c].HoldsQueue() && k.calls[c].pc != Starting
    {
      assert c !in Early(k);
    }
    hide Early;
    assert !StrongLive(k) && k.queue == [] && k.inFlight == [];
    hide StrongLive;
    forall c <- k.calls.Keys
      ensures k.calls[c].writer.Finished?
    {
      assert CallOk(k, c) && c !in k.queue && c !in k.inFlight;
    }
  }

  // And all of them return.
  lemma {:induction false} AllReturn(cfg: Config, s: Sys) returns (steps: seq<Step>, s': Sys)
    requires Inv(cfg, s) && AllSet(s.core) && Early(s.core) == {}
    ensures Run(cfg, s, steps) == Some(s') && Inv(cfg, s') && SameEnds(s.core, s'.core) && Kept(s.core, s'.core)
    ensures (forall step <- steps :: OfCaller(step)) && Unreturned(s'.core) == {}
    decreases Unreturned(s.core)
  {
    if Unreturned(s.core) == {} {
      RunNothing(cfg, s);
      return [], s;
    }
    var c :| c in Unreturned(s.core);
    assert c !in Early(s.core);
    assert s.core.calls[c].pc == Waiting;
    hide Inv, Apply, Run, Early, Unreturned;
    WaiterMoves(cfg, s, c);
    StepKeeps(cfg, s, Return(c));
    var t := Apply(cfg, s, Return(c)).value;
    MovesUnreturned(s.core, t.core, c);
    var rest;
    rest, s' := AllReturn(cfg, t);
    RunCons(cfg, s, Return(c), rest);
    steps := [Return(c)] + rest;
  }

  /** No caller is left hanging.  From every reachable state in which the handler is
      gone, whatever each caller is doing, there is a finite schedule of the callers' own
      steps after which every call has returned; those that had no answer return an
      error. */
  lemma EveryCallEnds(cfg: Config, before: seq<Step>, s: Sys) returns (steps: seq<Step>, s': Sys)
    requires RunFromStart(cfg, before) == Some(s) && !s.core.handlerAlive
    ensures (forall step <- steps :: OfCaller(step)) && Run(cfg, s, steps) == Some(s')
    ensures forall c <- s.core.calls.Keys :: c in s'.core.calls && s'.core.calls[c].pc.Returned?
    ensures forall c <- s.core.calls.Keys :: !s.core.calls[c].writer.Finished? ==> s'.core.calls[c].pc == Returned(None)
  {
    Reachable(cfg, before);
    hide Run, Inv, RunFromStart;
    var xs, t := AllReachWait(cfg, s);
    AllFinished(cfg, t);
    var ys;
    ys, s' := AllReturn(cfg, t);
    RunAppend(cfg, s, xs, ys);
    steps := xs + ys;
    forall c <- s.core.calls.Keys
      ensures c in s'.core.calls && s'.core.calls[c].pc.Returned?
      ensures !s.core.calls[c].writer.Finished? ==> s'.core.calls[c].pc == Returned(None)
    {
      CallsStay(cfg, s, steps, c);
      assert c !in Unreturned(s'.core);
      ReturnsItsWriter(cfg, s', c);
      if !s.core.calls[c].writer.Finished? {
        DropMeansError(cfg, before, steps, c);
      }
    }
  }

  lemma ReturnsItsWriter(cfg: Config, s: Sys, c: CallId)
    requires Inv(cfg, s) && c in s.core.calls && c !in Unreturned(s.core)
    ensures s.core.calls[c].pc.Returned? && s.core.calls[c].writer == Finished(s.core.calls[c].pc.result)
  {
    assert CallOk(s.core, c);
  }

  lemma CallStays(cfg: Config, s: Sys, step: Step, c: CallId)
    requires OfCaller(step) && Apply(cfg, s, step).Some? && c in s.core.calls
    ensures c in Apply(cfg, s, step).value.core.calls
  {
    hide StrongLive;
  }

  lemma {:induction false} CallsStay(cfg: Config, s: Sys, steps: seq<Step>, c: CallId)
    requires (forall step <- steps :: OfCaller(step)) && Run(cfg, s, steps).Some? && c in s.core.calls
    ensures c in Run(cfg, s, steps).value.core.calls
    decreases |steps|
  {
    hide Apply;
    if steps != [] {
      assert steps[0] in steps && forall step <- steps[1..] :: step in steps;
      CallStays(cfg, s, steps[0], c);
      CallsStay(cfg, Apply(cfg, s, steps[0]).value, steps[1..], c);
    }
  }
}
