/** Wakeups, message by message: in every run of the event loop, for every queue
    capacity, what becomes of a message that a caller has queued for a connection. */
module EventLoopWakeups {
  import opened Wire
  import opened EventLoop
  import opened EventLoopSafety

  // How far the thread of a message has got with its own push.
  datatype Stand = Pushing | Accepted | Refused

  function StandOf(pc: Pc): Stand {
    match pc
    case ToUpgrade => Pushing
    case Holding => Pushing
    case RefusedHolding => Refused
    case Failed => Refused
    case _ => Accepted
  }

  predicate FlushingFor(s: Sys, k: Id) {
    s.loop.Flushing? && k in s.installed && s.loop.token == s.installed[k]
  }

  // An accepted push for connection `k` waits to be served.
  ghost predicate QueuedFor(s: Sys, k: Id) {
    exists b :: Asks(s, b, k)
  }

  predicate Asks(s: Sys, b: Id, k: Id) {
    b in s.queue && b in s.actors && s.actors[b].kind.Call? && s.actors[b].kind.conn == k
  }

  // Message `a` of connection `k` will be flushed, unless its push was refused and
  // nothing has been accepted for the connection since.
  ghost predicate Covered(s: Sys, k: Id, a: Id) {
    && a in s.actors && s.actors[a].kind.Call? && s.actors[a].kind.conn == k
    && match StandOf(s.actors[a].pc)
       case Pushing => true
       case Accepted => a in s.queue || FlushingFor(s, k)
       case Refused => k in s.starved || QueuedFor(s, k) || FlushingFor(s, k)
  }

  ghost predicate AllCovered(s: Sys) {
    forall k, a :: k in s.inbox && a in s.inbox[k] ==> Covered(s, k, a)
  }

  // A starved connection has messages left, or is being flushed.
  ghost predicate StarvedHave(s: Sys) {
    forall k <- s.starved :: k in s.installed && (k in s.inbox ==> s.inbox[k] != [] || FlushingFor(s, k))
  }

  ghost predicate Watched(s: Sys) {
    AllCovered(s) && StarvedHave(s)
  }

  // --- Steps that leave the messages where they are --------------------------------------------------

  // Nobody's stand changes, nothing leaves the queue, and no flush ends.
  ghost predicate SamePlaces(s: Sys, s': Sys) {
    && s'.inbox == s.inbox && s'.starved == s.starved
    && (forall k <- s.installed.Keys :: k in s'.installed && s'.installed[k] == s.installed[k])
    && (s.loop.Flushing? ==> s'.loop == s.loop)
    && (forall a <- s.actors.Keys :: a in s'.actors && s'.actors[a].kind == s.actors[a].kind
          && StandOf(s'.actors[a].pc) == StandOf(s.actors[a].pc))
    && (forall b <- s.queue :: b in s.actors && s.actors[b].kind.Call? ==> b in s'.queue)
  }

  lemma PlacesKeep(s: Sys, s': Sys)
    requires Watched(s) && SamePlaces(s, s')
    ensures Watched(s')
  {
    forall k, a | k in s'.inbox && a in s'.inbox[k]
      ensures Covered(s', k, a)
    {
      CoverFrame(s, s', k, a);
    }
  }

  lemma CoverFrame(s: Sys, s': Sys, k: Id, a: Id)
    requires Covered(s, k, a) && a in s'.actors && s'.actors[a].kind == s.actors[a].kind
    requires StandOf(s'.actors[a].pc) == StandOf(s.actors[a].pc)
    requires FlushingFor(s, k) ==> FlushingFor(s', k)
    requires k in s.starved ==> k in s'.starved || QueuedFor(s', k)
    requires forall b :: Asks(s, b, k) ==> Asks(s', b, k) || FlushingFor(s', k)
    ensures Covered(s', k, a)
  {
    if StandOf(s.actors[a].pc).Refused? && QueuedFor(s, k) {
      var b :| Asks(s, b, k);
    }
    assert StandOf(s.actors[a].pc).Accepted? && a in s.queue ==> Asks(s, a, k);
  }

  lemma NoInbox(s: Sys)
    requires StarvedHave(s) && s.inbox == map[]
    ensures Watched(s)
  {
  }

  // --- The threads -------------------------------------------------------------------------------------

  lemma BeginWatched(cap: nat, s: Sys, step: Step, s': Sys)
    requires step.BeginCall? || step.BeginBind? || step.BeginStop?
    requires Watched(s) && Apply(cap, s, step) == Some(s')
    ensures Watched(s')
  {
    if step.BeginCall? {
      forall k, a | k in s'.inbox && a in s'.inbox[k]
        ensures Covered(s', k, a)
      {
        if a != step.a {
          assert a in s.inbox[k];
          CoverFrame(s, s', k, a);
        }
      }
    } else {
      PlacesKeep(s, s');
    }
  }

  lemma DeadIsEmpty(s: Sys)
    requires Slab(s) && !StrongLive(s)
    ensures s.inbox == map[]
  {
    assert forall k :: k !in s.inbox;
  }

  // Upgrade, wake and receive.
  lemma MovesWatched(cap: nat, s: Sys, step: Step, s': Sys)
    requires step.Upgrade? || step.Wake? || step.Receive?
    requires Watched(s) && Slab(s) && ActorStep(cap, s, step) == Some(s')
    ensures Watched(s')
  {
    if step.Upgrade? && !StrongLive(s) {
      DeadIsEmpty(s);
      hide StrongLive;
      NoInbox(s');
    } else {
      hide StrongLive;
      PlacesKeep(s, s');
    }
  }

  // Freeing the queue touches no connection.
  lemma FreeLeaves(t: Sys)
    ensures FreeQueue(t).inbox == t.inbox && FreeQueue(t).starved == t.starved
    ensures FreeQueue(t).installed == t.installed && FreeQueue(t).loop == t.loop
  {
    hide StrongLive;
  }

  lemma FreeWatched(t: Sys)
    requires Watched(t) && Slab(t)
    ensures Watched(FreeQueue(t))
  {
    FreeLeaves(t);
    if StrongLive(t) {
      assert FreeQueue(t) == t;
    } else {
      DeadIsEmpty(t);
      hide FreeQueue, StrongLive, Slab;
      NoInbox(FreeQueue(t));
    }
  }

  lemma MoveKeeps(s: Sys, a: Id, pc: Pc)
    requires Slab(s) && a in s.actors && StandOf(pc) == StandOf(s.actors[a].pc)
    ensures Slab(SetPc(s, a, pc)) && SamePlaces(s, SetPc(s, a, pc))
  {
  }

  lemma ReleaseWatched(cap: nat, s: Sys, a: Id, s': Sys)
    requires Watched(s) && Slab(s) && ActorStep(cap, s, Release(a)) == Some(s')
    ensures Watched(s')
  {
    var t := SetPc(s, a, if s.actors[a].pc == PushedHolding then ToWake else Failed);
    hide FreeQueue, StrongLive, Slab, Watched, SetPc, SamePlaces;
    assert s' == FreeQueue(t);
    MoveKeeps(s, a, if s.actors[a].pc == PushedHolding then ToWake else Failed);
    PlacesKeep(s, t);
    FreeWatched(t);
  }

  // An accepted push will have its connection flushed.
  lemma AcceptWatched(cap: nat, s: Sys, a: Id, s': Sys)
    requires Watched(s) && |s.queue| < cap && ActorStep(cap, s, Push(a)) == Some(s')
    ensures Watched(s')
  {
    assert s' == Pushed(s, a);
    var kind := s.actors[a].kind;
    assert forall b :: b in s'.queue <==> b in s.queue || b == a;
    assert forall b, k :: Asks(s, b, k) ==> Asks(s', b, k);
    assert kind.Call? ==> Asks(s', a, kind.conn);
    forall k, m | k in s'.inbox && m in s'.inbox[k]
      ensures Covered(s', k, m)
    {
      assert Covered(s, k, m);
      if m != a {
        CoverFrame(s, s', k, m);
      }
    }
  }

  // A refused push may leave its message behind.
  lemma RefuseWatched(cap: nat, s: Sys, a: Id, s': Sys)
    requires Watched(s) && Slab(s) && |s.queue| >= cap && ActorStep(cap, s, Push(a)) == Some(s')
    ensures Watched(s')
  {
    assert s'.queue == s.queue && s'.inbox == s.inbox && s.starved <= s'.starved;
    assert forall b, k :: Asks(s, b, k) ==> Asks(s', b, k);
    forall k, m | k in s'.inbox && m in s'.inbox[k]
      ensures Covered(s', k, m)
    {
      assert Covered(s, k, m);
      if m != a {
        CoverFrame(s, s', k, m);
      }
    }
  }

  // --- The loop ----------------------------------------------------------------------------------------

  lemma TakeWatched(s: Sys, s': Sys)
    requires Watched(s) && Slab(s) && LoopStep(s, TakeMessage) == Some(s')
    ensures Watched(s')
  {
    hide FreeQueue, Serve;
    var conn := s.conns[s.loop.token];
    assert FlushingFor(s, conn) && s' == s.(inbox := s.inbox[conn := s.inbox[conn][1..]]);
    forall k, a | k in s'.inbox && a in s'.inbox[k]
      ensures Covered(s', k, a)
    {
      assert a in s.inbox[k];
      CoverFrame(s, s', k, a);
    }
  }

  // A flush ends when its connection has nothing left, or is gone.
  lemma EndWatched(s: Sys, s': Sys)
    requires Watched(s) && Slab(s) && LoopStep(s, EndFlush) == Some(s')
    ensures Watched(s')
  {
    hide FreeQueue, Serve;
    var token := s.loop.token;
    assert s' == s.(loop := s'.loop, starved := Flushed(s, token));
    forall k, a | k in s'.inbox && a in s'.inbox[k]
      ensures Covered(s', k, a)
    {
      assert Covered(s, k, a);
      assert k in s.installed && s.conns[s.installed[k]] == k;
      assert !FlushingFor(s, k);
      CoverFrame(s, s', k, a);
    }
  }

  lemma DiesWatched(s: Sys, token: Token, s': Sys)
    requires Watched(s) && Slab(s) && LoopStep(s, ConnectionDies(token)) == Some(s')
    ensures Watched(s')
  {
    hide FreeQueue, Serve;
    forall k, a | k in s'.inbox && a in s'.inbox[k]
      ensures Covered(s', k, a)
    {
      assert k in s.inbox && s'.inbox[k] == s.inbox[k];
      CoverFrame(s, s', k, a);
    }
  }

  lemma DropWatched(s: Sys, s': Sys)
    requires Watched(s) && LoopStep(s, DropLoop) == Some(s')
    ensures Watched(s')
  {
    hide StrongLive;
    assert s'.inbox == map[] && s'.starved == s.starved && s'.installed == s.installed;
    hide LoopStep;
    NoInbox(s');
  }

  // A wakeup is served by starting the flush, if the connection is still there.
  lemma WakeWatched(s: Sys, s': Sys, a: Id, conn: Id, token: Token)
    requires Watched(s) && Slab(s) && s.loop == Draining && s.queue != [] && s.queue[0] == a && a in s.actors
    requires s.actors[a].kind == Call(conn, token)
    requires s' == if token in s.conns then Taken(s).(loop := Flushing(token, true)) else Taken(s)
    ensures Watched(s')
  {
    assert forall b :: b in s.queue <==> b in s'.queue || b == a;
    forall k, m | k in s'.inbox && m in s'.inbox[k]
      ensures Covered(s', k, m)
    {
      assert Covered(s, k, m);
      assert conn == k ==> FlushingFor(s', k);
      assert forall b :: Asks(s, b, k) ==> Asks(s', b, k) || FlushingFor(s', k);
      CoverFrame(s, s', k, m);
    }
  }

  lemma BindWatched(s: Sys, s': Sys, a: Id, blocking: bool, vacant: Token, registers: bool)
    requires Watched(s) && Slab(s) && s.loop == Draining && s.queue != [] && s.queue[0] == a && a in s.actors
             && a !in s.installed
    requires s.actors[a].kind == Bind(blocking) && s' == AddConnection(Taken(s), a, blocking, vacant, registers)
    ensures Watched(s')
  {
    AddLeaves(s, s', a, blocking, vacant, registers);
    hide AddConnection;
    assert a !in s.starved;
    assert forall b, k :: Asks(s, b, k) ==> Asks(s', b, k);
    forall k, m | k in s'.inbox && m in s'.inbox[k]
      ensures Covered(s', k, m)
    {
      assert k != a && Covered(s, k, m);
      CoverFrame(s, s', k, m);
    }
  }

  lemma AddLeaves(s: Sys, s': Sys, a: Id, blocking: bool, vacant: Token, registers: bool)
    requires s.queue != [] && s.queue[0] == a && a in s.actors && a !in s.installed && s.actors[a].kind.Bind?
    requires s' == AddConnection(Taken(s), a, blocking, vacant, registers)
    ensures s'.loop == s.loop && s'.starved == s.starved
    ensures forall b <- s.queue :: b == a || b in s'.queue
    ensures forall b <- s.actors.Keys ::
              b in s'.actors && s'.actors[b].kind == s.actors[b].kind && s'.actors[b].pc == s.actors[b].pc
    ensures forall k <- s.installed.Keys :: k in s'.installed && s'.installed[k] == s.installed[k]
    ensures forall k :: k != a ==> (k in s'.inbox <==> k in s.inbox) && (k in s.inbox ==> s'.inbox[k] == s.inbox[k])
    ensures a in s'.inbox ==> s'.inbox[a] == [] || (a in s.inbox && s'.inbox[a] == s.inbox[a])
  {
    assert forall i :: 0 < i < |s.queue| ==> s.queue[i] == s.queue[1..][i - 1];
  }

  lemma PopWatched(s: Sys, vacant: Token, registers: bool, s': Sys)
    requires Inv(s) && Watched(s) && LoopStep(s, Pop(vacant, registers)) == Some(s')
    ensures Watched(s')
  {
    if s.queue == [] {
      PlacesKeep(s, s') by { hide Watched, StrongLive; }
    } else {
      var a := s.queue[0];
      assert s' == Serve(Taken(s), a, vacant, registers).value && a in s.actors;
      NoPanic(s, a);
      hide Watched, Fifo, Kept, Replies, StopIsLast, StrongLive, LoopStep, AddConnection;
      match s.actors[a].kind
      case Call(conn, token) => WakeWatched(s, s', a, conn, token);
      case Bind(blocking) => BindWatched(s, s', a, blocking, vacant, registers);
      case Stop => StopWatched(s, s');
    }
  }

  lemma StopWatched(s: Sys, s': Sys)
    requires Watched(s) && s.loop == Draining && s.queue != [] && s.queue[0] in s.actors
             && s.actors[s.queue[0]].kind.Stop?
    requires s' == Taken(s).(loop := Exiting)
    ensures Watched(s')
  {
    hide Watched;
    assert s.queue == [s.queue[0]] + s'.queue;
    PlacesKeep(s, s');
  }

  // --- Every step and every run ------------------------------------------------------------------------

  lemma LoopWatched(s: Sys, step: Step, s': Sys)
    requires Inv(s) && Watched(s) && LoopStep(s, step) == Some(s')
    ensures Watched(s')
  {
    assert Slab(s);
    hide Inv, Slab, Watched;
    match step
    case Pop(vacant, registers) => PopWatched(s, vacant, registers, s') by { hide LoopStep; }
    case TakeMessage => TakeWatched(s, s') by { hide LoopStep; }
    case EndFlush => EndWatched(s, s') by { hide LoopStep; }
    case ConnectionDies(token) => DiesWatched(s, token, s') by { hide LoopStep; }
    case DropLoop => DropWatched(s, s') by { hide LoopStep; }
    case _ => PlacesKeep(s, s');
  }

  lemma ThreadWatched(cap: nat, s: Sys, step: Step, s': Sys)
    requires step.Upgrade? || step.Push? || step.Release? || step.Wake? || step.Receive?
    requires Slab(s) && Watched(s) && ActorStep(cap, s, step) == Some(s')
    ensures Watched(s')
  {
    hide Slab, Watched, ActorStep;
    if step.Release? {
      ReleaseWatched(cap, s, step.a, s');
    } else if !step.Push? {
      MovesWatched(cap, s, step, s');
    } else if |s.queue| < cap {
      AcceptWatched(cap, s, step.a, s');
    } else {
      RefuseWatched(cap, s, step.a, s');
    }
  }

  lemma StepWatched(cap: nat, s: Sys, step: Step, s': Sys)
    requires Inv(s) && Watched(s) && Apply(cap, s, step) == Some(s')
    ensures Watched(s')
  {
    assert Slab(s);
    hide Inv, Slab, Watched, ActorStep, LoopStep;
    if step.BeginCall? || step.BeginBind? || step.BeginStop? {
      BeginWatched(cap, s, step, s') by { hide Apply; }
    } else if step.Upgrade? || step.Push? || step.Release? || step.Wake? || step.Receive? {
      ThreadWatched(cap, s, step, s');
    } else {
      LoopWatched(s, step, s');
    }
  }

  lemma {:induction false} RunWatched(cap: nat, s: Sys, steps: seq<Step>)
    requires Inv(s) && Watched(s) && Run(cap, s, steps).Some?
    ensures Inv(Run(cap, s, steps).value) && Watched(Run(cap, s, steps).value)
    decreases |steps|
  {
    hide Inv, Watched, Apply;
    if steps != [] {
      var t := Apply(cap, s, steps[0]).value;
      StepKeeps(cap, s, steps[0]);
      StepWatched(cap, s, steps[0], t);
      RunWatched(cap, t, steps[1..]);
    }
  }

  lemma WatchedReachable(cap: nat, steps: seq<Step>, s: Sys)
    requires Run(cap, Start, steps) == Some(s)
    ensures Inv(s) && Watched(s)
  {
    assert Inv(Start) && Watched(Start);
    hide Inv, Watched, Run;
    RunWatched(cap, Start, steps);
  }

  /** What the history of starved connections says: one becomes starved only when a push
      for it is refused while its message waits, and stops being so exactly when a push
      for it is accepted or a flush of it ends. */
  lemma StarvedExactly(cap: nat, s: Sys, step: Step, s': Sys, k: Id)
    requires Apply(cap, s, step) == Some(s')
    ensures var pushes := step.Push? && s.actors[step.a].kind.Call? && s.actors[step.a].kind.conn == k;
            var refused := pushes && |s.queue| >= cap && k in s.inbox && step.a in s.inbox[k];
            var accepted := pushes && |s.queue| < cap;
            var flushed := step.EndFlush? && s.loop.token in s.conns && s.conns[s.loop.token] == k;
            k in s'.starved <==> refused || (k in s.starved && !accepted && !flushed)
  {
    FreeStarves();
    hide StrongLive, FreeQueue, Serve;
    if step.Upgrade? || step.Push? || step.Release? || step.Wake? || step.Receive? {
      hide LoopStep;
    } else if step.Pop? {
      ServeStarves(s, step);
      hide ActorStep, LoopStep;
    } else {
      hide ActorStep;
    }
  }

  lemma FreeStarves()
    ensures forall s :: FreeQueue(s).starved == s.starved
  {
  }

  lemma ServeStarves(s: Sys, step: Step)
    requires step.Pop? && LoopStep(s, step).Some?
    ensures LoopStep(s, step).value.starved == s.starved
  {
  }

  // --- Results -------------------------------------------------------------------------------------------

  // The loop sleeps, no wakeup is on its way, and every thread has finished its
  // push: nobody will move before something new happens.
  predicate Asleep(s: Sys) {
    s.loop == Blocked && !s.wakePending && forall a <- s.actors.Keys :: s.actors[a].Settled()
  }

  lemma AsleepIsDrained(s: Sys)
    requires Inv(s) && Asleep(s)
    ensures s.queue == []
  {
    hide Fifo, Slab, Replies, StopIsLast, Kept;
    assert !WillDrain(s);
  }

  /** No lost wakeup, message by message.  When everything is asleep the loop's queue is
      empty, and a message is left only if its own push was refused. */
  lemma NothingIsForgotten(cap: nat, steps: seq<Step>, s: Sys)
    requires Run(cap, Start, steps) == Some(s) && Asleep(s)
    ensures s.queue == []
    ensures forall k, a :: k in s.inbox && a in s.inbox[k] ==> a in s.actors && s.actors[a].pc == Failed
  {
    hide Run, Inv;
    WatchedReachable(cap, steps, s);
    AsleepIsDrained(s);
    forall k, a | k in s.inbox && a in s.inbox[k]
      ensures a in s.actors && s.actors[a].pc == Failed
    {
      assert Covered(s, k, a);
    }
  }

  /** ... and a connection has messages left if and only if a push was refused while its
      message waited, and since then no push for the connection was accepted and no
      flush of it has ended. */
  lemma LeftBehindIff(cap: nat, steps: seq<Step>, s: Sys, k: Id)
    requires Run(cap, Start, steps) == Some(s) && Asleep(s) && k in s.inbox
    ensures s.inbox[k] != [] <==> k in s.starved
  {
    hide Run, Inv;
    WatchedReachable(cap, steps, s);
    AsleepIsDrained(s);
    if s.inbox[k] != [] {
      assert Covered(s, k, s.inbox[k][0]);
    }
  }

  // Somebody will flush connection `k`.
  ghost predicate WillFlush(s: Sys, k: Id) {
    FlushingFor(s, k) || QueuedFor(s, k) || exists a :: PushesFor(s, a, k)
  }

  predicate PushesFor(s: Sys, a: Id, k: Id) {
    a in s.actors && s.actors[a].kind.Call? && s.actors[a].kind.conn == k
        && (s.actors[a].pc == ToUpgrade || s.actors[a].pc == Holding)
  }

  /** In every state, and not only at rest: a connection with messages has somebody who
      will flush it, unless it is starved in that sense; and a queued request has
      somebody who will drain it. */
  lemma SomebodyIsOnTheWay(cap: nat, steps: seq<Step>, s: Sys, k: Id)
    requires Run(cap, Start, steps) == Some(s)
    ensures k in s.inbox && s.inbox[k] != [] ==> k in s.starved || WillFlush(s, k)
    ensures s.queue != [] ==> WillDrain(s)
  {
    hide Run, Fifo, Slab, Replies, StopIsLast, Kept, WillDrain;
    WatchedReachable(cap, steps, s);
    if k in s.inbox && s.inbox[k] != [] {
      var a := s.inbox[k][0];
      assert a in s.inbox[k] && Covered(s, k, a);
      if StandOf(s.actors[a].pc).Pushing? {
        assert PushesFor(s, a, k);
      } else if StandOf(s.actors[a].pc).Accepted? && a in s.queue {
        assert Asks(s, a, k);
      }
    }
  }
}
