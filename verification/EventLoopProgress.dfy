/** Everybody gets through: from any reachable state the pushing threads and the loop
    have a schedule, of steps they take by themselves, that serves every request accepted
    and answers every binder. */
module EventLoopProgress {
  import opened Wire
  import opened EventLoop
  import opened EventLoopSafety
  import ELW = EventLoopWakeups
  import ELX = EventLoopStranding

  // --- Threads ------------------------------------------------------------------------------------

  predicate OfThread(step: Step) {
    step.Upgrade? || step.Push? || step.Release? || step.Wake? || step.Receive?
  }

  function Next(pc: Pc, a: Id): Step {
    match pc
    case ToUpgrade => Upgrade(a)
    case Holding => Push(a)
    case ToWake => Wake(a)
    case _ => Release(a)
  }

  // How far a thread is from the end of its push.
  function Rank(pc: Pc): nat {
    match pc
    case ToUpgrade => 4
    case Holding => 3
    case PushedHolding => 2
    case RefusedHolding => 2
    case ToWake => 1
    case _ => 0
  }

  function Busy(s: Sys): set<Id> {
    set a <- s.actors.Keys | Rank(s.actors[a].pc) > 0
  }

  // The threads but `a` stay where they are, and so does the loop.
  ghost predicate OnlyMoves(s: Sys, s': Sys, a: Id) {
    && a in s.actors && s'.actors.Keys == s.actors.Keys && s'.loop == s.loop && s'.conns == s.conns
       && s'.inbox == s.inbox
    && s'.served == s.served && s'.installed == s.installed && s'.actors[a].kind == s.actors[a].kind
    && (forall b <- s.actors.Keys ::
          b != a ==> s'.actors[b].pc == s.actors[b].pc && s'.actors[b].kind == s.actors[b].kind)
  }

  lemma FreeMoves(s: Sys, a: Id)
    requires a in s.actors
    ensures OnlyMoves(s, FreeQueue(s), a) && FreeQueue(s).actors[a].pc == s.actors[a].pc
  {
    hide StrongLive;
  }

  lemma SetMoves(s: Sys, a: Id, pc: Pc)
    requires a in s.actors
    ensures OnlyMoves(s, SetPc(s, a, pc), a) && SetPc(s, a, pc).actors[a].pc == pc
  {
  }

  lemma Together(s: Sys, t: Sys, u: Sys, a: Id)
    requires OnlyMoves(s, t, a) && OnlyMoves(t, u, a)
    ensures OnlyMoves(s, u, a)
  {
  }

  // The push of `a` has been accepted, or will be.
  predicate OnItsWay(cap: nat, s: Sys, a: Id) {
    && a in s.actors && s.loop != Exited
    && match s.actors[a].pc
       case ToUpgrade => |s.queue| < cap
       case Holding => |s.queue| < cap
       case PushedHolding => true
       case ToWake => true
       case Sent => true
       case _ => false
  }

  lemma LoopHolds(s: Sys)
    requires s.loop != Exited
    ensures StrongLive(s) && FreeQueue(s) == s
  {
  }

  // `a` has moved on, and is still on its way if it was.
  ghost predicate Gains(cap: nat, s: Sys, s': Sys, a: Id) {
    && OnlyMoves(s, s', a) && Rank(s'.actors[a].pc) < Rank(s.actors[a].pc)
    && (OnItsWay(cap, s, a) ==> OnItsWay(cap, s', a))
  }

  lemma UpgradeMoves(cap: nat, s: Sys, a: Id)
    requires a in s.actors && s.actors[a].pc == ToUpgrade
    ensures var s' := ActorStep(cap, s, Upgrade(a)); s'.Some? && Gains(cap, s, s'.value, a)
  {
    if s.loop != Exited { LoopHolds(s); }
    hide StrongLive, OnlyMoves;
    SetMoves(s, a, if StrongLive(s) then Holding else Failed);
  }

  lemma PushOn(cap: nat, s: Sys, a: Id)
    requires a in s.actors && s.actors[a].pc == Holding
    ensures var s' := ActorStep(cap, s, Push(a)); s'.Some? && Gains(cap, s, s'.value, a)
  {
    hide OnlyMoves, Fed, LeftBehind;
    var s', pc := ActorStep(cap, s, Push(a)).value, if |s.queue| < cap then PushedHolding else RefusedHolding;
    SetMoves(s, a, pc);
    PushMoves(SetPc(s, a, pc), s', a);
    Together(s, SetPc(s, a, pc), s', a);
  }

  lemma WakeMoves(cap: nat, s: Sys, a: Id)
    requires a in s.actors && s.actors[a].pc == ToWake
    ensures var s' := ActorStep(cap, s, Wake(a)); s'.Some? && Gains(cap, s, s'.value, a)
  {
    hide OnlyMoves;
    SetMoves(s, a, Sent);
    PushMoves(SetPc(s, a, Sent), ActorStep(cap, s, Wake(a)).value, a);
    Together(s, SetPc(s, a, Sent), ActorStep(cap, s, Wake(a)).value, a);
  }

  lemma ReleaseMoves(cap: nat, s: Sys, a: Id)
    requires a in s.actors && (s.actors[a].pc == PushedHolding || s.actors[a].pc == RefusedHolding)
    ensures var s' := ActorStep(cap, s, Release(a)); s'.Some? && Gains(cap, s, s'.value, a)
  {
    var pc := if s.actors[a].pc == PushedHolding then ToWake else Failed;
    SetMoves(s, a, pc);
    FreeMoves(SetPc(s, a, pc), a);
    assert FreeQueue(SetPc(s, a, pc)).loop == s.loop;
    hide OnlyMoves, FreeQueue;
    Together(s, SetPc(s, a, pc), FreeQueue(SetPc(s, a, pc)), a);
  }

  // Until it has pushed and woken the loop, a thread is never held up.
  lemma ThreadMoves(cap: nat, s: Sys, a: Id) returns (s': Sys)
    requires a in Busy(s)
    ensures Apply(cap, s, Next(s.actors[a].pc, a)) == Some(s') && Gains(cap, s, s', a)
  {
    hide ActorStep, Gains;
    match s.actors[a].pc {
      case ToUpgrade => UpgradeMoves(cap, s, a);
      case Holding => PushOn(cap, s, a);
      case ToWake => WakeMoves(cap, s, a);
      case _ => ReleaseMoves(cap, s, a);
    }
    s' := Apply(cap, s, Next(s.actors[a].pc, a)).value;
  }

  // The queue, the waker and the history are not looked at.
  lemma PushMoves(s: Sys, s': Sys, a: Id)
    requires a in s.actors
    requires s' == s.(queue := s'.queue, pushed := s'.pushed, starved := s'.starved, wakePending := s'.wakePending)
    ensures OnlyMoves(s, s', a)
  {
  }

  lemma RunCons(cap: nat, s: Sys, step: Step, rest: seq<Step>)
    requires Apply(cap, s, step).Some?
    ensures Run(cap, s, [step] + rest) == Run(cap, Apply(cap, s, step).value, rest)
  {
    hide Apply;
    assert ([step] + rest)[1..] == rest;
  }

  lemma RunNothing(cap: nat, s: Sys)
    ensures Run(cap, s, []) == Some(s)
  {
  }

  lemma MovesBusy(s: Sys, s': Sys, a: Id)
    requires OnlyMoves(s, s', a) && Rank(s'.actors[a].pc) == 0
    ensures Busy(s') == Busy(s) - {a}
  {
  }

  lemma {:induction false} OneSettles(cap: nat, s: Sys, a: Id) returns (steps: seq<Step>, s': Sys)
    requires Inv(s) && a in Busy(s)
    ensures Run(cap, s, steps) == Some(s') && Inv(s') && (forall step <- steps :: OfThread(step))
    ensures OnlyMoves(s, s', a) && Rank(s'.actors[a].pc) == 0
    ensures OnItsWay(cap, s, a) ==> s'.actors[a].pc == Sent
    decreases Rank(s.actors[a].pc)
  {
    var step := Next(s.actors[a].pc, a);
    var t := ThreadMoves(cap, s, a);
    StepKeeps(cap, s, step);
    hide Inv, Apply, Run, OnlyMoves;
    if Rank(t.actors[a].pc) == 0 {
      RunCons(cap, s, step, []);
      RunNothing(cap, t);
      return [step] + [], t;
    }
    assert a in t.actors by { StillThere(s, t, a); }
    var rest;
    rest, s' := OneSettles(cap, t, a);
    RunCons(cap, s, step, rest);
    Together(s, t, s', a);
    steps := [step] + rest;
  }

  lemma StillThere(s: Sys, s': Sys, a: Id)
    requires OnlyMoves(s, s', a)
    ensures a in s'.actors
  {
  }

  // What the threads leave alone.
  ghost predicate SameLoop(s: Sys, s': Sys) {
    && s'.actors.Keys == s.actors.Keys && s'.loop == s.loop && s'.conns == s.conns && s'.inbox == s.inbox
    && s'.served == s.served && s'.installed == s.installed
    && (forall a <- s.actors.Keys :: s'.actors[a].kind == s.actors[a].kind)
    && (forall a <- s.actors.Keys :: Rank(s.actors[a].pc) == 0 ==> s'.actors[a].pc == s.actors[a].pc)
  }

  lemma {:induction false} AllSettle(cap: nat, s: Sys) returns (steps: seq<Step>, s': Sys)
    requires Inv(s)
    ensures Run(cap, s, steps) == Some(s') && Inv(s') && (forall step <- steps :: OfThread(step))
    ensures Busy(s') == {} && SameLoop(s, s')
    ensures forall a :: Busy(s) == {a} && OnItsWay(cap, s, a) ==> a in s'.actors && s'.actors[a].pc == Sent
    decreases Busy(s)
  {
    hide Inv, Run;
    if Busy(s) == {} {
      RunNothing(cap, s);
      return [], s;
    }
    var a :| a in Busy(s);
    assert forall b :: Busy(s) == {b} ==> b == a;
    var xs, t := OneSettles(cap, s, a);
    MovesBusy(s, t, a);
    hide Busy, OnItsWay;
    var ys;
    ys, s' := AllSettle(cap, t);
    ELX.RunAppend(cap, s, xs, ys);
    steps := xs + ys;
  }

  // --- The loop -----------------------------------------------------------------------------------------

  predicate OfLoop(step: Step) {
    (step.PollReturns? && step.consumesWake) || step.StartDraining? || (step.Pop? && step.registers)
    || step.TakeMessage? || step.EndFlush? || step.DropLoop?
  }

  // The loop has gone, or sleeps with no wakeup on its way.
  predicate AtRest(s: Sys) {
    (s.loop == Blocked && !s.wakePending) || s.loop == Exited
  }

  function LoopRank(loop: LoopPc): nat {
    match loop
    case Flushing(_, draining) => if draining then 4 else 6
    case Events => 5
    case Draining => 3
    case Exiting => 2
    case _ => 1
  }

  // The messages of the connection being flushed.
  function Left(s: Sys): nat {
    if s.loop.Flushing? && s.loop.token in s.conns && s.conns[s.loop.token] in s.inbox
    then |s.inbox[s.conns[s.loop.token]]| else 0
  }

  predicate Less(s': Sys, s: Sys) {
    || (s.wakePending && !s'.wakePending)
    || (s'.wakePending == s.wakePending &&
          (|| |s'.queue| < |s.queue|
           || (|s'.queue| == |s.queue| &&
                 (LoopRank(s'.loop) < LoopRank(s.loop) || (s'.loop == s.loop && Left(s') < Left(s))))))
  }

  // What the loop does next; `vacant` is the key the slab offers.
  function NextOfLoop(s: Sys, vacant: Token): Step {
    match s.loop
    case Blocked => PollReturns(true)
    case Events => StartDraining
    case Draining => Pop(vacant, true)
    case Flushing(_, _) => if Left(s) > 0 then TakeMessage else EndFlush
    case _ => DropLoop
  }

  // Nothing tells the loop to stop.
  predicate GoesOn(s: Sys) {
    s.loop != Exiting && s.loop != Exited && forall a <- s.queue :: a in s.actors && !s.actors[a].kind.Stop?
  }

  // The loop has moved on: nobody's thread has, and who was served is installed.
  ghost predicate Onward(s: Sys, s': Sys) {
    && s'.actors.Keys == s.actors.Keys
    && (forall a <- s.actors.Keys :: s'.actors[a].pc == s.actors[a].pc && s'.actors[a].kind == s.actors[a].kind)
    && (forall a <- s.installed.Keys :: a in s'.installed) && (GoesOn(s) ==> GoesOn(s'))
    && (s.loop == Exiting || s.loop == Exited ==> s'.loop == Exiting || s'.loop == Exited)
    && (forall a <- s'.served :: a in s.served || (a in s.actors && (s.actors[a].kind.Bind? ==> a in s'.installed)))
  }

  lemma OnwardTwice(s: Sys, t: Sys, u: Sys)
    requires Onward(s, t) && Onward(t, u)
    ensures Onward(s, u)
  {
  }

  lemma {:induction false} FreshToken(keys: set<Token>) returns (t: Token)
    ensures forall k <- keys :: k < t
    decreases keys
  {
    if keys == {} {
      return 0;
    }
    var k :| k in keys;
    t := FreshToken(keys - {k});
    assert forall x <- keys :: x == k || x in keys - {k};
    if k >= t {
      t := k + 1;
    }
  }

  lemma FreeOnward(s: Sys)
    ensures Onward(s, FreeQueue(s)) && |FreeQueue(s).queue| <= |s.queue| && FreeQueue(s).loop == s.loop
    ensures FreeQueue(s).wakePending == s.wakePending
  {
    hide StrongLive;
  }

  lemma DropAdvances(s: Sys)
    requires s.loop == Exiting
    ensures var s' := LoopStep(s, DropLoop); s'.Some? && Onward(s, s'.value) && Less(s'.value, s)
  {
    var t := s.(loop := Exited, conns := map[], inbox := map[]);
    FreeOnward(t);
    hide FreeQueue;
    OnwardTwice(s, t, FreeQueue(t));
  }

  lemma PopAdvances(s: Sys, vacant: Token)
    requires Inv(s) && s.loop == Draining && vacant !in s.conns
    ensures var s' := LoopStep(s, Pop(vacant, true)); s'.Some? && Onward(s, s'.value) && Less(s'.value, s)
  {
    if s.queue != [] {
      var a := s.queue[0];
      assert a in s.queue && StrongLive(s);
      NoPanic(s, a);
      hide Inv, StrongLive;
      ServeAdvances(s, Taken(s), a, vacant);
    }
  }

  lemma ServeAdvances(s: Sys, t: Sys, a: Id, vacant: Token)
    requires s.loop == Draining && s.queue != [] && a == s.queue[0] && a in s.actors && vacant !in s.conns
    requires t == Taken(s)
    ensures var s' := Serve(t, a, vacant, true); s'.Some? && Onward(s, s'.value) && Less(s'.value, s)
  {
    if s.actors[a].kind.Bind? {
      var u := AddConnection(t, a, s.actors[a].kind.blocking, vacant, true);
      AddOnward(t, a, s.actors[a].kind.blocking, vacant);
      assert Serve(t, a, vacant, true) == Some(u);
      hide AddConnection, Serve;
      TakenOnward(s, t, u);
    } else {
      var u := t.(loop := if s.actors[a].kind.Stop? then Exiting
                          else if s.actors[a].kind.token in s.conns then Flushing(s.actors[a].kind.token, true)
                          else Draining);
      assert Serve(t, a, vacant, true) == Some(u);
      hide Serve;
      TakenOnward(s, t, u);
    }
  }

  // The first request has been taken and carried out.
  lemma TakenOnward(s: Sys, t: Sys, u: Sys)
    requires s.loop == Draining && s.queue != [] && t == Taken(s) && u.actors.Keys == s.actors.Keys
    requires u.queue == t.queue && u.wakePending == s.wakePending && u.served == t.served
    requires forall b <- s.actors.Keys :: u.actors[b].pc == s.actors[b].pc && u.actors[b].kind == s.actors[b].kind
    requires forall b <- s.installed.Keys :: b in u.installed
    requires var a := s.queue[0];
             && a in s.actors && (s.actors[a].kind.Bind? ==> a in u.installed)
             && (!s.actors[a].kind.Stop? ==> u.loop != Exiting && u.loop != Exited)
    ensures Onward(s, u) && Less(u, s)
  {
    assert forall x <- t.served :: x in s.served || x == s.queue[0];
    assert s.queue[0] in s.queue && forall x <- t.queue :: x in s.queue;
  }

  lemma AddOnward(t: Sys, a: Id, blocking: bool, vacant: Token)
    requires a in t.actors
    ensures var s' := AddConnection(t, a, blocking, vacant, true);
            && s'.actors.Keys == t.actors.Keys && s'.queue == t.queue && s'.wakePending == t.wakePending
               && s'.loop == t.loop
            && s'.served == t.served && s'.installed == t.installed[a := vacant]
            && (forall b <- t.actors.Keys :: s'.actors[b].pc == t.actors[b].pc && s'.actors[b].kind == t.actors[b].kind)
  {
  }

  // Until it rests, the loop is never held up.
  lemma LoopAdvances(cap: nat, s: Sys, vacant: Token) returns (s': Sys)
    requires Inv(s) && !AtRest(s) && vacant !in s.conns
    ensures Apply(cap, s, NextOfLoop(s, vacant)) == Some(s') && Onward(s, s') && Less(s', s)
  {
    if s.loop == Draining {
      PopAdvances(s, vacant);
    } else if s.loop == Exiting {
      DropAdvances(s);
    } else if s.loop.Flushing? {
      FlushAdvances(s);
    }
    hide Inv, Onward, Less;
    if s.loop == Blocked || s.loop == Events {
      PollAdvances(s);
    }
    hide LoopStep;
    s' := Apply(cap, s, NextOfLoop(s, vacant)).value;
  }

  lemma PollAdvances(s: Sys)
    requires s.loop == Blocked || s.loop == Events
    ensures s.loop == Blocked && s.wakePending ==>
              var s' := LoopStep(s, PollReturns(true)); s'.Some? && Onward(s, s'.value) && Less(s'.value, s)
    ensures s.loop == Events ==>
              var s' := LoopStep(s, StartDraining); s'.Some? && Onward(s, s'.value) && Less(s'.value, s)
  {
  }

  lemma FlushAdvances(s: Sys)
    requires s.loop.Flushing?
    ensures var s' := LoopStep(s, if Left(s) > 0 then TakeMessage else EndFlush);
            s'.Some? && Onward(s, s'.value) && Less(s'.value, s)
  {
    hide Flushed;
  }

  lemma {:induction false} LoopRests(cap: nat, s: Sys) returns (steps: seq<Step>, s': Sys)
    requires Inv(s)
    ensures Run(cap, s, steps) == Some(s') && Inv(s') && (forall step <- steps :: OfLoop(step))
    ensures AtRest(s') && Onward(s, s')
    decreases s.wakePending, |s.queue|, LoopRank(s.loop), Left(s)
  {
    if AtRest(s) {
      RunNothing(cap, s);
      return [], s;
    }
    var vacant := FreshToken(s.conns.Keys);
    var step := NextOfLoop(s, vacant);
    var t := LoopAdvances(cap, s, vacant);
    StepKeeps(cap, s, step);
    assert OfLoop(step);
    hide Inv, Apply, Run, AtRest, Onward, NextOfLoop, OfLoop, Left, LoopRank;
    var rest;
    rest, s' := LoopRests(cap, t);
    RunCons(cap, s, step, rest);
    OnwardTwice(s, t, s');
    steps := [step] + rest;
  }

  // --- The binders --------------------------------------------------------------------------------------

  // Binders that wait for an answer which is there.
  function Answered(s: Sys): set<Id> {
    set a <- s.actors.Keys | s.actors[a].pc == Sent && s.actors[a].kind == Bind(true) && s.actors[a].reply != NoReply
  }

  // Only binders' receives.
  ghost predicate Received(s: Sys, s': Sys) {
    && s' == s.(actors := s'.actors) && s'.actors.Keys == s.actors.Keys
    && (forall a <- s.actors.Keys ::
          && s'.actors[a].kind == s.actors[a].kind && s'.actors[a].reply == s.actors[a].reply
          && s'.actors[a].pc == if a in Answered(s) then Returned else s.actors[a].pc)
  }

  lemma {:induction false} AllReceive(cap: nat, s: Sys) returns (steps: seq<Step>, s': Sys)
    requires Inv(s)
    ensures Run(cap, s, steps) == Some(s') && Inv(s') && (forall step <- steps :: OfThread(step))
    ensures Received(s, s')
    decreases Answered(s)
  {
    if Answered(s) == {} {
      RunNothing(cap, s);
      assert Received(s, s) by { hide Inv; }
      return [], s;
    }
    var a :| a in Answered(s);
    var t := SetPc(s, a, Returned);
    assert Apply(cap, s, Receive(a)) == Some(t);
    StepKeeps(cap, s, Receive(a));
    hide Inv, Apply, Run;
    OneReceived(s, a);
    hide Answered, Received, SetPc;
    var rest;
    rest, s' := AllReceive(cap, t);
    RunCons(cap, s, Receive(a), rest);
    ReceivedMore(s, a, s');
    steps := [Receive(a)] + rest;
  }

  lemma OneReceived(s: Sys, a: Id)
    requires a in Answered(s)
    ensures Answered(SetPc(s, a, Returned)) == Answered(s) - {a}
  {
  }

  lemma ReceivedMore(s: Sys, a: Id, s': Sys)
    requires a in Answered(s) && Received(SetPc(s, a, Returned), s')
    ensures Received(s, s')
  {
    OneReceived(s, a);
    hide Answered;
  }

  // At rest, with all threads through, every binder whose request was accepted has an answer.
  lemma AllAnswered(s: Sys, a: Id)
    requires Inv(s) && Busy(s) == {} && AtRest(s) && a in s.actors && s.actors[a].kind == Bind(true)
             && s.actors[a].pc == Sent
    ensures a in Answered(s)
  {
    assert forall b <- s.actors.Keys :: b !in Busy(s);
    assert s.queue == [] by {
      hide Fifo, Slab, Replies, StopIsLast;
      if s.loop == Exited {
        assert !StrongLive(s);
      }
    }
    hide Slab, StopIsLast;
    assert a in s.pushed;
    assert StrongLive(s) ==> s.served + [] == s.pushed;
  }

  // --- The result -----------------------------------------------------------------------------------------

  predicate OfSchedule(step: Step) {
    OfThread(step) || OfLoop(step)
  }

  // Everything that `s` had under way is done.
  ghost predicate Through(s: Sys, s': Sys) {
    && AtRest(s') && s'.actors.Keys == s.actors.Keys
    && (forall a <- s.actors.Keys ::
          && s'.actors[a].Settled() && s'.actors[a].kind == s.actors[a].kind
          && (s.actors[a].kind == Bind(true) ==> s'.actors[a].pc == Returned || s'.actors[a].pc == Failed))
    && (forall a <- s'.served :: a in s.served || (a in s.actors && (s.actors[a].kind.Bind? ==> a in s'.installed)))
  }

  lemma SettledThrough(s: Sys, t: Sys, u: Sys, s': Sys)
    requires SameLoop(s, t) && Busy(t) == {} && Onward(t, u) && Inv(u) && AtRest(u) && Received(u, s')
    ensures Through(s, s')
  {
    StaysSettled(t, u);
    forall a <- s.actors.Keys
      ensures s'.actors[a].Settled() && s'.actors[a].kind == s.actors[a].kind
      ensures s.actors[a].kind == Bind(true) ==> s'.actors[a].pc == Returned || s'.actors[a].pc == Failed
    {
      assert a !in Busy(u);
      if s.actors[a].kind == Bind(true) && u.actors[a].pc == Sent {
        AllAnswered(u, a);
      }
    }
    hide Inv, Busy, Answered;
  }

  lemma StaysSettled(t: Sys, u: Sys)
    requires Busy(t) == {} && Onward(t, u)
    ensures Busy(u) == {}
  {
    assert forall a <- u.actors.Keys :: a !in Busy(t) && Rank(u.actors[a].pc) == Rank(t.actors[a].pc);
  }

  // The threads settle, the loop runs until it rests, and the binders take their answers.
  lemma Schedule(cap: nat, s: Sys) returns (steps: seq<Step>, t: Sys, s': Sys)
    requires Inv(s)
    ensures Run(cap, s, steps) == Some(s') && (forall step <- steps :: OfSchedule(step)) && Through(s, s')
    ensures SameLoop(s, t) && Inv(t) && (GoesOn(t) ==> s'.loop == Blocked)
    ensures Inv(s') && (s.loop == Exiting ==> s'.loop == Exited)
    ensures forall a :: Busy(s) == {a} && OnItsWay(cap, s, a) ==>
              a in s'.actors && (s'.actors[a].pc == Sent || s'.actors[a].pc == Returned)
  {
    hide Run, Inv;
    var xs, ys, zs, u;
    xs, t := AllSettle(cap, s);
    ys, u := LoopRests(cap, t);
    zs, s' := AllReceive(cap, u);
    SettledThrough(s, t, u, s');
    ELX.RunAppend(cap, s, xs, ys);
    ELX.RunAppend(cap, s, xs + ys, zs);
    steps := (xs + ys) + zs;
    hide Through, Busy, OnItsWay, Answered;
  }

  /** From every reachable state there is a finite schedule, of the threads' and the loop's
      own steps, after which the loop rests or is gone, every thread is through, every
      binder that waits has its answer, every request served was carried out, and a
      connection has messages left only if it is starved. */
  lemma EverybodyIsServed(cap: nat, before: seq<Step>, s: Sys) returns (steps: seq<Step>, s': Sys)
    requires Run(cap, Start, before) == Some(s)
    ensures Run(cap, s, steps) == Some(s') && (forall step <- steps :: OfSchedule(step)) && AtRest(s')
    ensures forall a <- s.actors.Keys ::
              && a in s'.actors && s'.actors[a].Settled()
              && (s.actors[a].kind == Bind(true) ==> s'.actors[a].pc == Returned || s'.actors[a].pc == Failed)
    ensures forall a <- s'.served :: a in s.served || (a in s.actors && (s.actors[a].kind.Bind? ==> a in s'.installed))
    ensures s'.loop == Blocked ==> s'.queue == [] && s'.served == s'.pushed
    ensures s'.loop == Blocked ==> forall k <- s'.inbox.Keys :: s'.inbox[k] != [] <==> k in s'.starved
  {
    Reachable(cap, before);
    hide Run, Inv, AtRest;
    var t;
    steps, t, s' := Schedule(cap, s);
    if s'.loop == Blocked {
      ELX.RunAppend(cap, Start, before, steps);
      RestIsSleep(cap, before + steps, s');
    }
  }

  lemma RestIsSleep(cap: nat, steps: seq<Step>, s: Sys)
    requires Run(cap, Start, steps) == Some(s) && AtRest(s) && s.loop == Blocked
    requires forall a <- s.actors.Keys :: s.actors[a].Settled()
    ensures s.queue == [] && s.served == s.pushed
    ensures forall k <- s.inbox.Keys :: s.inbox[k] != [] <==> k in s.starved
  {
    Reachable(cap, steps);
    hide Run;
    ELW.NothingIsForgotten(cap, steps, s);
    assert StrongLive(s) && s.served + [] == s.served;
    hide Inv;
    forall k <- s.inbox.Keys
      ensures s.inbox[k] != [] <==> k in s.starved
    {
      ELW.LeftBehindIff(cap, steps, s, k);
    }
  }

  // --- A new request ---------------------------------------------------------------------------------------

  // The loop is idle, and so is everybody else.
  predicate Idle(s: Sys) {
    AtRest(s) && s.loop == Blocked && s.queue == [] && forall a <- s.actors.Keys :: s.actors[a].Settled()
  }

  // Only `a` is in the queue when it has pushed.
  lemma OnlyNew(s: Sys, t: Sys, a: Id)
    requires Inv(s) && Inv(t) && SameLoop(s, t) && Busy(s) == {a} && s.loop == Blocked && s.queue == []
    ensures forall x <- t.queue :: x == a
  {
    assert StrongLive(s) && StrongLive(t) && s.served + [] == s.pushed;
    hide Slab, Replies, StopIsLast, StrongLive;
    forall x <- t.queue
      ensures x == a
    {
      QueueDisjoint(t, x);
      assert x in t.served + t.queue && x in t.actors && x in s.actors;
      assert x != a ==> x !in Busy(s);
    }
  }

  // One request, from the idle loop until everybody is idle again.
  lemma OneRequest(cap: nat, before: seq<Step>, s: Sys, begin: Step, t: Sys) returns (steps: seq<Step>, s': Sys)
    requires cap > 0 && Run(cap, Start, before) == Some(s) && Idle(s)
    requires (begin.BeginBind? || begin.BeginCall? || begin.BeginStop?) && Apply(cap, s, begin) == Some(t)
    ensures Run(cap, s, [begin] + steps) == Some(s') && (forall step <- steps :: OfSchedule(step))
    ensures Inv(s') && Through(t, s') && begin.a in s'.actors && begin.a in s'.pushed
    ensures s'.actors[begin.a].pc == Sent || s'.actors[begin.a].pc == Returned
    ensures !begin.BeginStop? ==> Idle(s')
  {
    var a := begin.a;
    hide Apply, Inv, Run, Idle, Through, OnItsWay, SameLoop, GoesOn, OfSchedule;
    Reachable(cap, before);
    StepKeeps(cap, s, begin);
    BeginBusy(cap, s, begin, t);
    var u;
    steps, u, s' := Schedule(cap, t);
    RunCons(cap, s, begin, steps);
    ELX.RunAppend(cap, Start, before, [begin] + steps);
    Reachable(cap, before + ([begin] + steps));
    WasAccepted(s', a);
    if !begin.BeginStop? {
      GoesOnAfter(t, u, a);
      IdleAgain(cap, before + ([begin] + steps), t, s');
    }
  }

  lemma GoesOnAfter(t: Sys, u: Sys, a: Id)
    requires Inv(t) && Inv(u) && SameLoop(t, u) && Busy(t) == {a} && t.loop == Blocked && t.queue == []
    requires a in t.actors && !t.actors[a].kind.Stop?
    ensures GoesOn(u)
  {
    OnlyNew(t, u, a);
    hide Inv, Busy;
  }

  lemma IdleAgain(cap: nat, steps: seq<Step>, t: Sys, s: Sys)
    requires Run(cap, Start, steps) == Some(s) && Through(t, s) && s.loop == Blocked
    ensures Idle(s)
  {
    hide Run;
    RestIsSleep(cap, steps, s);
  }

  lemma WasAccepted(s: Sys, a: Id)
    requires Inv(s) && a in s.actors && (s.actors[a].pc == Sent || s.actors[a].pc == Returned)
    ensures a in s.pushed
  {
  }

  lemma BeginBusy(cap: nat, s: Sys, begin: Step, t: Sys)
    requires cap > 0 && Idle(s) && (begin.BeginBind? || begin.BeginCall? || begin.BeginStop?)
             && Apply(cap, s, begin) == Some(t)
    ensures Busy(t) == {begin.a} && OnItsWay(cap, t, begin.a) && t.loop == Blocked && t.queue == []
    ensures begin.a in t.actors
    ensures t.actors[begin.a].kind.Stop? <==> begin.BeginStop?
    ensures begin.BeginBind? ==> t.actors[begin.a].kind == Bind(begin.blocking)
    ensures t.served == s.served && t.actors.Keys == s.actors.Keys + {begin.a} && begin.a !in s.actors
  {
  }

  /** An idle loop installs the next connection that is bound, and tells a binder that
      waits under which token. */
  lemma NewBindIsInstalled(cap: nat, before: seq<Step>, s: Sys, a: Id) returns (steps: seq<Step>, s': Sys)
    requires cap > 0 && Run(cap, Start, before) == Some(s) && Idle(s) && a !in s.actors
    ensures Run(cap, s, [BeginBind(a, true)] + steps) == Some(s') && (forall step <- steps :: OfSchedule(step))
            && Idle(s')
    ensures a in s'.actors && s'.actors[a].pc == Returned && a in s'.installed
            && s'.actors[a].reply == Ok(s'.installed[a])
  {
    var t := Begin(s, a, Bind(true));
    assert Apply(cap, s, BeginBind(a, true)) == Some(t);
    steps, s' := OneRequest(cap, before, s, BeginBind(a, true), t);
    assert t.actors[a].kind == Bind(true);
    Reachable(cap, before);
    hide Run, Apply;
    assert a in s'.served by {
      assert StrongLive(s') && s'.served + s'.queue == s'.pushed;
      hide Most;
    }
    assert a !in s.served && a !in t.served;
  }

  /** A message queued for a bound connection, with its wakeup, is flushed. */
  lemma NewMessageIsFlushed(cap: nat, before: seq<Step>, s: Sys, a: Id, k: Id) returns (steps: seq<Step>, s': Sys)
    requires cap > 0 && Run(cap, Start, before) == Some(s) && Idle(s) && a !in s.actors && k in s.inbox
             && k in s.installed
    ensures Run(cap, s, [BeginCall(a, k)] + steps) == Some(s') && (forall step <- steps :: OfSchedule(step)) && Idle(s')
    ensures a in s'.actors && s'.actors[a].pc == Sent && forall x <- s'.inbox.Keys :: a !in s'.inbox[x]
  {
    var t := Begin(s, a, Call(k, s.installed[k])).(inbox := s.inbox[k := s.inbox[k] + [a]]);
    assert Apply(cap, s, BeginCall(a, k)) == Some(t);
    steps, s' := OneRequest(cap, before, s, BeginCall(a, k), t);
    hide Apply, Run, Inv;
    ELX.RunAppend(cap, Start, before, [BeginCall(a, k)] + steps);
    ELW.NothingIsForgotten(cap, before + ([BeginCall(a, k)] + steps), s');
    assert s'.actors[a].kind.Call?;
    NotReturned(cap, before + ([BeginCall(a, k)] + steps), s', a);
  }

  lemma NotReturned(cap: nat, steps: seq<Step>, s: Sys, a: Id)
    requires Run(cap, Start, steps) == Some(s) && a in s.actors && s.actors[a].kind.Call?
    ensures s.actors[a].pc != Returned
  {
    Reachable(cap, steps);
    assert s.actors[a].reply == ExpectedReply(s, a);
  }

  /** A shutdown ends the loop, and with it every connection. */
  lemma NewShutdownEndsTheLoop(cap: nat, before: seq<Step>, s: Sys, a: Id) returns (steps: seq<Step>, s': Sys)
    requires cap > 0 && Run(cap, Start, before) == Some(s) && Idle(s) && a !in s.actors
    ensures Run(cap, s, [BeginStop(a)] + steps) == Some(s') && (forall step <- steps :: OfSchedule(step))
    ensures s'.loop == Exited && s'.conns == map[]
  {
    var t := Begin(s, a, Stop);
    assert Apply(cap, s, BeginStop(a)) == Some(t);
    steps, s' := OneRequest(cap, before, s, BeginStop(a), t);
    hide Apply, Run;
    assert s'.actors[a].kind.Stop?;
    if s'.loop == Blocked {
      ELX.RunAppend(cap, Start, before, [BeginStop(a)] + steps);
      RestIsSleep(cap, before + ([BeginStop(a)] + steps), s');
      ServedStops(s', a);
      assert false;
    }
  }

  lemma ServedStops(s: Sys, a: Id)
    requires Inv(s) && a in s.served && a in s.actors && s.actors[a].kind.Stop?
    ensures s.loop == Exiting || s.loop == Exited
  {
  }

  // --- What may happen at any time -------------------------------------------------------------------------

  /** A poll may fail whenever the loop is in it.  That ends the loop and every connection,
      and every binder that waits is still answered. */
  lemma PollFailureEndsTheLoop(cap: nat, before: seq<Step>, s: Sys) returns (steps: seq<Step>, s': Sys)
    requires Run(cap, Start, before) == Some(s) && s.loop == Blocked
    ensures Run(cap, s, [PollFails] + steps) == Some(s') && (forall step <- steps :: OfSchedule(step))
    ensures s'.loop == Exited && s'.conns == map[]
    ensures forall a <- s.actors.Keys ::
              && a in s'.actors && s'.actors[a].Settled()
              && (s.actors[a].kind == Bind(true) ==> s'.actors[a].pc == Returned || s'.actors[a].pc == Failed)
  {
    var t := s.(loop := Exiting);
    assert Apply(cap, s, PollFails) == Some(t);
    Reachable(cap, before);
    StepKeeps(cap, s, PollFails);
    var u;
    steps, u, s' := Schedule(cap, t);
    hide Apply, Run;
    RunCons(cap, s, PollFails, steps);
    assert Slab(s');
  }

  /** While the loop handles events, it may flush any connection, and comes back with all
      its messages gone and nothing else changed. */
  lemma EventFlushes(cap: nat, s: Sys, token: Token) returns (steps: seq<Step>, s': Sys)
    requires Inv(s) && s.loop == Events && token in s.conns
    ensures Run(cap, s, [FlushForEvent(token)] + steps) == Some(s')
    ensures var k := s.conns[token]; s' == s.(inbox := s.inbox[k := []], starved := s.starved - {k})
  {
    var t := s.(loop := Flushing(token, false));
    assert Apply(cap, s, FlushForEvent(token)) == Some(t);
    assert s.conns[token] in s.inbox by { assert Slab(s); }
    steps, s' := FlushesAll(cap, t);
    hide Apply, Run;
    RunCons(cap, s, FlushForEvent(token), steps);
  }

  lemma {:induction false} FlushesAll(cap: nat, s: Sys) returns (steps: seq<Step>, s': Sys)
    requires s.loop.Flushing? && !s.loop.draining && s.loop.token in s.conns && s.conns[s.loop.token] in s.inbox
    ensures Run(cap, s, steps) == Some(s')
    ensures var k := s.conns[s.loop.token];
            s' == s.(loop := Events, inbox := s.inbox[k := []], starved := s.starved - {k})
    decreases |s.inbox[s.conns[s.loop.token]]|
  {
    var k := s.conns[s.loop.token];
    if s.inbox[k] == [] {
      s' := s.(loop := Events, starved := s.starved - {k});
      assert s.inbox[k := []] == s.inbox;
      assert Apply(cap, s, EndFlush) == Some(s');
      hide Apply;
      RunNothing(cap, s');
      RunCons(cap, s, EndFlush, []);
      return [EndFlush] + [], s';
    }
    var t := s.(inbox := s.inbox[k := s.inbox[k][1..]]);
    assert Apply(cap, s, TakeMessage) == Some(t);
    hide Apply;
    var rest;
    rest, s' := FlushesAll(cap, t);
    RunCons(cap, s, TakeMessage, rest);
    assert t.inbox[k := []] == s.inbox[k := []];
    steps := [TakeMessage] + rest;
  }

  /** A connection can die exactly while the loop is handling it, or events; its slot and
      its messages go with it, and no other's. */
  lemma ConnectionsDieAlone(cap: nat, s: Sys, token: Token)
    requires Inv(s)
    ensures var s', handled := Apply(cap, s, ConnectionDies(token)), s.loop.Flushing? && s.loop.token == token;
            && (s'.Some? <==> token in s.conns && (s.loop == Events || handled))
            && (s'.Some? ==>
                  && s'.value == s.(conns := s'.value.conns, inbox := s'.value.inbox)
                  && token !in s'.value.conns && s.conns[token] !in s'.value.inbox
                  && (forall t <- s.conns.Keys :: t != token ==>
                        && t in s'.value.conns && s'.value.conns[t] == s.conns[t]
                        && s.conns[t] in s'.value.inbox && s'.value.inbox[s.conns[t]] == s.inbox[s.conns[t]]))
  {
    assert Slab(s);
    hide Fifo, Replies, StopIsLast, Kept, WillDrain;
  }
}
