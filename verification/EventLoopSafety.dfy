/** What every run of the event loop keeps: requests are served in order and none is
    forgotten, binders are answered, and nothing is served after a shutdown. */
module EventLoopSafety {
  import opened Wire
  import opened EventLoop

  predicate WasPushed(pc: Pc) {
    pc == PushedHolding || pc == ToWake || pc == Sent || pc == Returned
  }

  // --- The invariant -----------------------------------------------------------------------

  // Requests are served in the order they were pushed.
  ghost predicate Fifo(s: Sys) {
    && NoDup(s.pushed)
    && (forall a :: a in s.pushed <==> a in s.actors && WasPushed(s.actors[a].pc))
    && s.served + s.queue <= s.pushed
  }

  // ... and none is lost while anybody holds the queue; then it is freed.
  ghost predicate Kept(s: Sys) {
    if StrongLive(s) then s.served + s.queue == s.pushed else s.queue == []
  }

  // The slab, the installation history and the callers' tokens agree.
  ghost predicate Slab(s: Sys) {
    && (forall t <- s.conns.Keys :: s.conns[t] in s.installed && s.installed[s.conns[t]] == t)
    && (forall k :: k in s.inbox <==> k in s.installed && s.installed[k] in s.conns && s.conns[s.installed[k]] == k)
    && (forall a <- s.actors.Keys :: s.actors[a].kind.Call? ==>
          s.actors[a].kind.conn in s.installed && s.installed[s.actors[a].kind.conn] == s.actors[a].kind.token)
    && (s.loop == Exited ==> s.conns == map[])
  }

  // Someone will look at the queue.
  ghost predicate WillDrain(s: Sys) {
    || s.loop != Blocked
    || s.wakePending
    || exists a <- s.actors.Keys :: s.actors[a].pc == PushedHolding || s.actors[a].pc == ToWake
  }

  // The reply a binder has, given what became of its request.
  ghost function ExpectedReply(s: Sys, a: Id): Reply
    requires a in s.actors
  {
    if s.actors[a].kind != Bind(true) then NoReply
    else if a in s.served then (if a in s.installed then Ok(s.installed[a]) else Err)
    else if a in s.pushed && a !in s.queue then Disconnected
    else NoReply
  }

  ghost predicate Replies(s: Sys) {
    && (forall a <- s.actors.Keys :: s.actors[a].reply == ExpectedReply(s, a))
    && (forall a <- s.actors.Keys :: s.actors[a].pc == Returned ==> s.actors[a].reply != NoReply)
    && (forall a <- s.installed.Keys :: a in s.served && a in s.actors && s.actors[a].kind.Bind?)
    && !s.panicked
  }

  ghost predicate StopIsLast(s: Sys) {
    forall i :: 0 <= i < |s.served| ==>
      (&& s.served[i] in s.actors
       && (s.actors[s.served[i]].kind.Stop? ==> i == |s.served| - 1 && (s.loop == Exiting || s.loop == Exited)))
  }

  ghost predicate Most(s: Sys) {
    && Fifo(s) && Slab(s) && Replies(s) && StopIsLast(s)
    && (s.queue != [] ==> WillDrain(s))
  }

  ghost predicate Inv(s: Sys) {
    Most(s) && Kept(s)
  }

  // --- Threads ---------------------------------------------------------------------------------

  predicate WantsWake(x: Actor) {
    x.pc == PushedHolding || x.pc == ToWake
  }

  // Actor `a` begins, or moves without touching the queue; its duties are not lost.
  ghost predicate PcStep(s: Sys, s': Sys, a: Id) {
    && a in s'.actors && s'.actors == s.actors[a := s'.actors[a]]
    && var x := s'.actors[a];
    && (a in s.actors ==>
         && x.kind == s.actors[a].kind && x.reply == s.actors[a].reply && WasPushed(x.pc) == WasPushed(s.actors[a].pc)
         && (WantsWake(s.actors[a]) ==> WantsWake(x) || s'.wakePending))
    && (a !in s.actors ==>
         && x.pc == ToUpgrade && x.reply == NoReply
         && (x.kind.Call? ==> x.kind.conn in s.installed && x.kind.token == s.installed[x.kind.conn]))
    && (x.pc == Returned ==> x.reply != NoReply)
    && s'.queue == s.queue && s'.loop == s.loop && s'.conns == s.conns && s'.panicked == s.panicked
    && s'.installed == s.installed && s'.pushed == s.pushed && s'.served == s.served
    && (s.wakePending ==> s'.wakePending) && s'.inbox.Keys == s.inbox.Keys
  }

  lemma PcStepFifo(s: Sys, s': Sys, a: Id)
    requires Fifo(s) && Slab(s) && PcStep(s, s', a)
    ensures Fifo(s') && Slab(s')
  {
  }

  lemma PcStepReplies(s: Sys, s': Sys, a: Id)
    requires Fifo(s) && Replies(s) && StopIsLast(s) && PcStep(s, s', a)
    ensures Replies(s') && StopIsLast(s')
  {
    assert a !in s.actors ==> a !in s.pushed && a !in s.served;
    hide Fifo;
    forall b <- s'.actors.Keys
      ensures s'.actors[b].reply == ExpectedReply(s', b)
    {
    }
  }

  lemma PcStepKeeps(s: Sys, s': Sys, a: Id)
    requires Most(s) && PcStep(s, s', a)
    ensures Most(s')
  {
    hide Fifo, Slab, StopIsLast, Replies, WillDrain;
    PcStepFifo(s, s', a);
    PcStepReplies(s, s', a);
    assert s'.queue == s.queue;
    hide PcStep;
    if s'.queue != [] {
      PcStepDrain(s, s', a);
    }
  }

  lemma PcStepDrain(s: Sys, s': Sys, a: Id)
    requires PcStep(s, s', a) && WillDrain(s)
    ensures WillDrain(s')
  {
    if s.loop == Blocked && !s.wakePending {
      var b :| b in s.actors && (s.actors[b].pc == PushedHolding || s.actors[b].pc == ToWake);
      assert WantsWake(s.actors[b]);
      if !s'.wakePending {
        assert s'.actors[b].pc == PushedHolding || s'.actors[b].pc == ToWake;
      }
    }
  }

  lemma StrongStays(s: Sys, s': Sys)
    requires s.loop != Exited ==> s'.loop != Exited
    requires forall a <- s.actors.Keys :: s.actors[a].HoldsQueue() ==> a in s'.actors && s'.actors[a].HoldsQueue()
    ensures StrongLive(s) ==> StrongLive(s')
  {
    if s.loop == Exited && StrongLive(s) {
      var a :| a in s.actors && s.actors[a].HoldsQueue();
      assert s'.actors[a].HoldsQueue();
    }
  }

  lemma BeginKeeps(cap: nat, s: Sys, step: Step)
    requires step.BeginCall? || step.BeginBind? || step.BeginStop?
    requires Inv(s) && Apply(cap, s, step).Some?
    ensures Inv(Apply(cap, s, step).value)
  {
    hide Most, Kept;
    var s' := Apply(cap, s, step).value;
    BeginIsPcStep(cap, s, step);
    PcStepKeeps(s, s', step.a);
    StrongStays(s, s');
    StrongStays(s', s);
    KeptFrame(s, s');
  }

  lemma KeptFrame(s: Sys, s': Sys)
    requires Kept(s) && StrongLive(s') == StrongLive(s)
    requires s'.served == s.served && s'.queue == s.queue && s'.pushed == s.pushed
    ensures Kept(s')
  {
  }

  lemma BeginIsPcStep(cap: nat, s: Sys, step: Step)
    requires step.BeginCall? || step.BeginBind? || step.BeginStop?
    requires Apply(cap, s, step).Some?
    ensures PcStep(s, Apply(cap, s, step).value, step.a)
  {
    var s' := Apply(cap, s, step).value;
    assert s'.actors[step.a].pc == ToUpgrade;
  }

  // Upgrade, wake, receive, and a push that is refused.
  predicate QuietStep(cap: nat, s: Sys, step: Step) {
    step.Upgrade? || step.Wake? || step.Receive? || (step.Push? && |s.queue| >= cap)
  }

  lemma QuietIsPcStep(cap: nat, s: Sys, step: Step)
    requires QuietStep(cap, s, step) && ActorStep(cap, s, step).Some?
    ensures PcStep(s, ActorStep(cap, s, step).value, step.a)
  {
    hide StrongLive;
  }

  lemma QuietStrong(cap: nat, s: Sys, step: Step)
    requires QuietStep(cap, s, step) && ActorStep(cap, s, step).Some?
    ensures StrongLive(ActorStep(cap, s, step).value) == StrongLive(s)
  {
    var s', a := ActorStep(cap, s, step).value, step.a;
    if (step.Upgrade? && StrongLive(s)) || step.Push? {
      assert s'.actors[a].HoldsQueue();
      assert step.Push? ==> s.actors[a].HoldsQueue();
    } else {
      StrongStays(s', s);
      StrongStays(s, s');
    }
  }

  lemma QuietThreadKeeps(cap: nat, s: Sys, step: Step)
    requires QuietStep(cap, s, step) && Inv(s) && ActorStep(cap, s, step).Some?
    ensures Inv(ActorStep(cap, s, step).value)
  {
    var s' := ActorStep(cap, s, step).value;
    hide Most, Kept, StrongLive, ActorStep;
    QuietIsPcStep(cap, s, step);
    PcStepKeeps(s, s', step.a);
    QuietStrong(cap, s, step);
    KeptFrame(s, s');
  }

  function Pushed(s: Sys, a: Id): Sys
    requires a in s.actors
  {
    SetPc(s, a, PushedHolding).(queue := s.queue + [a], pushed := s.pushed + [a], starved := Fed(s, s.actors[a].kind))
  }

  lemma PushFifo(s: Sys, a: Id)
    requires Fifo(s) && Kept(s) && a in s.actors && s.actors[a].pc == Holding
    ensures a !in s.pushed && Fifo(Pushed(s, a)) && Kept(Pushed(s, a))
  {
    var s' := Pushed(s, a);
    assert s.actors[a].HoldsQueue() && s'.actors[a].HoldsQueue();
    assert s'.served + s'.queue == s'.pushed;
    assert forall b :: b in s'.pushed <==> b in s.pushed || b == a;
  }

  lemma PushReplies(s: Sys, a: Id)
    requires Fifo(s) && Replies(s) && a in s.actors && s.actors[a].pc == Holding && a !in s.pushed
    ensures Replies(Pushed(s, a))
  {
    var s' := Pushed(s, a);
    InPrefix(s.served, s.queue, s.pushed, a);
    assert forall b :: b in s'.queue <==> b in s.queue || b == a;
    assert forall b :: b in s'.pushed <==> b in s.pushed || b == a;
    forall b <- s'.actors.Keys
      ensures s'.actors[b].reply == ExpectedReply(s', b)
    {
      assert s.actors[b].reply == ExpectedReply(s, b);
    }
  }

  lemma InPrefix(served: seq<Id>, queue: seq<Id>, pushed: seq<Id>, a: Id)
    requires served + queue <= pushed && a !in pushed
    ensures a !in served && a !in queue
  {
    assert forall i :: 0 <= i < |served| ==> served[i] == pushed[i];
    assert forall i :: 0 <= i < |queue| ==> queue[i] == pushed[|served| + i];
  }

  lemma PushKeeps(s: Sys, a: Id)
    requires Inv(s) && a in s.actors && s.actors[a].pc == Holding
    ensures Inv(Pushed(s, a))
  {
    var s' := Pushed(s, a);
    PushFifo(s, a);
    PushReplies(s, a);
    PushSlab(s, a);
    hide Fifo, Replies, Kept, Slab, StopIsLast;
    assert s'.actors[a].pc == PushedHolding;
  }

  lemma PushSlab(s: Sys, a: Id)
    requires Slab(s) && StopIsLast(s) && a in s.actors && s.actors[a].pc == Holding
    ensures Slab(Pushed(s, a)) && StopIsLast(Pushed(s, a))
  {
  }

  // --- Freeing the queue -----------------------------------------------------------------------

  lemma FreeReplies(s: Sys)
    requires Fifo(s) && Replies(s) && s.served + s.queue == s.pushed
    ensures Replies(FreeQueue(s))
  {
    var s' := FreeQueue(s);
    forall b <- s'.actors.Keys
      ensures s'.actors[b].reply == ExpectedReply(s', b)
    {
      assert s.actors[b].reply == ExpectedReply(s, b);
      QueueDisjoint(s, b);
    }
  }

  lemma FreeKeeps(s: Sys)
    requires Most(s) && s.served + s.queue == s.pushed
    ensures Inv(FreeQueue(s))
  {
    if !StrongLive(s) {
      FreeReplies(s);
      var s' := FreeQueue(s);
      hide Replies;
      assert forall a <- s.actors.Keys :: s'.actors[a].pc == s.actors[a].pc && s'.actors[a].kind == s.actors[a].kind;
      StrongStays(s', s);
      assert s'.served + s'.queue == s.served;
      assert Fifo(s');
      assert Slab(s') && StopIsLast(s') by { hide Fifo; }
    }
  }

  lemma QueueDisjoint(s: Sys, b: Id)
    requires NoDup(s.pushed) && s.served + s.queue == s.pushed
    ensures b in s.queue ==> b in s.pushed && b !in s.served
  {
    if b in s.queue {
      var j :| 0 <= j < |s.queue| && s.queue[j] == b;
      assert s.pushed[|s.served| + j] == b;
      assert forall i :: 0 <= i < |s.served| ==> s.pushed[i] == s.served[i];
    }
  }

  function Released(s: Sys, a: Id): Sys
    requires a in s.actors
  {
    SetPc(s, a, if s.actors[a].pc == PushedHolding then ToWake else Failed)
  }

  lemma ReleaseIsPcStep(s: Sys, a: Id)
    requires a in s.actors && (s.actors[a].pc == PushedHolding || s.actors[a].pc == RefusedHolding)
    ensures PcStep(s, Released(s, a), a)
    ensures Kept(s) ==> s.served + s.queue == s.pushed
  {
    assert s.actors[a].HoldsQueue();
  }

  lemma ReleaseKeeps(cap: nat, s: Sys, a: Id)
    requires Inv(s) && ActorStep(cap, s, Release(a)).Some?
    ensures Inv(ActorStep(cap, s, Release(a)).value)
  {
    hide Most, Kept, FreeQueue;
    ReleaseIsPcStep(s, a);
    PcStepKeeps(s, Released(s, a), a);
    FreeKeeps(Released(s, a));
  }

  lemma ThreadStepKeeps(cap: nat, s: Sys, step: Step)
    requires step.Upgrade? || step.Push? || step.Release? || step.Wake? || step.Receive?
    requires Inv(s) && ActorStep(cap, s, step).Some?
    ensures Inv(ActorStep(cap, s, step).value)
  {
    hide Inv, FreeQueue, StrongLive;
    if step.Release? {
      ReleaseKeeps(cap, s, step.a);
    } else if step.Push? && |s.queue| < cap {
      PushKeeps(s, step.a);
    } else {
      QuietThreadKeeps(cap, s, step);
    }
  }

  // --- The loop --------------------------------------------------------------------------------

  // Polling and moving between phases.
  lemma PhaseKeeps(s: Sys, step: Step)
    requires step.PollReturns? || step.PollFails? || step.FlushForEvent? || step.StartDraining?
    requires Inv(s) && LoopStep(s, step).Some?
    ensures Inv(LoopStep(s, step).value)
  {
    var s' := LoopStep(s, step).value;
    StrongStays(s, s');
    StrongStays(s', s);
    LoopOnlyKeeps(s, s');
  }

  // Only the loop's own phase changes, and the history of what was left behind.
  lemma LoopOnlyKeeps(s: Sys, s': Sys)
    requires Inv(s) && StrongLive(s) && StrongLive(s')
    requires s' == s.(loop := s'.loop, wakePending := s'.wakePending, starved := s'.starved)
    requires s.loop != Exiting && s.loop != Exited && s'.loop != Exited && (s'.loop != Blocked || s.queue == [])
    ensures Inv(s')
  {
    assert Fifo(s') && Kept(s');
    assert Slab(s') && StopIsLast(s') by { hide Fifo; }
    assert Replies(s') by { hide Fifo, Slab, StopIsLast; }
  }

  lemma EndFlushKeeps(s: Sys)
    requires Inv(s) && LoopStep(s, EndFlush).Some?
    ensures Inv(LoopStep(s, EndFlush).value)
  {
    LoopOnlyKeeps(s, LoopStep(s, EndFlush).value);
  }

  // Messages leave an inbox, or a connection leaves the slab; the ledger does not look at them.
  ghost predicate LessInbox(s: Sys, s': Sys) {
    && StrongLive(s) && StrongLive(s') && Slab(s')
    && s' == s.(conns := s'.conns, inbox := s'.inbox)
  }

  lemma LedgerFrame(s: Sys, s': Sys)
    requires Inv(s) && s' == s.(conns := s'.conns, inbox := s'.inbox) && StrongLive(s) && StrongLive(s')
    ensures Fifo(s') && Kept(s') && StopIsLast(s') && (s'.queue != [] ==> WillDrain(s'))
  {
    hide Slab, Replies, StrongLive;
  }

  lemma RepliesFrame(s: Sys, s': Sys)
    requires Replies(s) && s' == s.(conns := s'.conns, inbox := s'.inbox)
    ensures Replies(s')
  {
  }

  lemma LessInboxKeeps(s: Sys, s': Sys)
    requires Inv(s) && LessInbox(s, s')
    ensures Inv(s')
  {
    hide Fifo, Kept, StopIsLast, Replies, WillDrain, Slab, StrongLive;
    LedgerFrame(s, s');
    RepliesFrame(s, s');
  }

  lemma TakeIsLess(s: Sys, s': Sys)
    requires Slab(s) && LoopStep(s, TakeMessage) == Some(s')
    ensures LessInbox(s, s')
  {
    hide FreeQueue, Serve;
  }

  lemma TakeKeeps(s: Sys)
    requires Inv(s) && LoopStep(s, TakeMessage).Some?
    ensures Inv(LoopStep(s, TakeMessage).value)
  {
    hide LoopStep, Fifo, Kept, Slab, Replies, StopIsLast, WillDrain, LessInbox;
    var s' := LoopStep(s, TakeMessage).value;
    TakeIsLess(s, s');
    LessInboxKeeps(s, s');
  }

  lemma DeathIsLess(s: Sys, token: Token, s': Sys)
    requires Slab(s) && LoopStep(s, ConnectionDies(token)) == Some(s')
    ensures LessInbox(s, s')
  {
    hide FreeQueue, Serve;
  }

  lemma DiesKeeps(s: Sys, token: Token)
    requires Inv(s) && LoopStep(s, ConnectionDies(token)).Some?
    ensures Inv(LoopStep(s, ConnectionDies(token)).value)
  {
    hide LoopStep, Fifo, Kept, Slab, Replies, StopIsLast, WillDrain, LessInbox;
    var s' := LoopStep(s, ConnectionDies(token)).value;
    DeathIsLess(s, token, s');
    LessInboxKeeps(s, s');
  }

  lemma DropLoopKeeps(s: Sys)
    requires Inv(s) && LoopStep(s, DropLoop).Some?
    ensures Inv(LoopStep(s, DropLoop).value)
  {
    var s1 := s.(loop := Exited, conns := map[], inbox := map[]);
    assert Most(s1);
    FreeKeeps(s1);
  }

  // --- Serving a request -------------------------------------------------------------------------

  function Taken(s: Sys): Sys
    requires s.queue != []
  {
    s.(queue := s.queue[1..], served := s.served + [s.queue[0]])
  }

  // What Serve does to the ledger, whatever it serves: one entry moves over.
  ghost predicate Served(s: Sys, s': Sys, a: Id) {
    && s.loop == Draining && s'.loop != Exited && s'.loop != Blocked
    && s.queue != [] && s.queue[0] == a && s'.queue == s.queue[1..] && s'.served == s.served + [a]
       && s'.pushed == s.pushed
    && s'.actors.Keys == s.actors.Keys
    && (forall b <- s.actors.Keys :: s'.actors[b].pc == s.actors[b].pc && s'.actors[b].kind == s.actors[b].kind)
    && (forall b <- s.actors.Keys :: b != a ==> s'.actors[b] == s.actors[b])
  }

  lemma ServedFifo(s: Sys, s': Sys, a: Id)
    requires Fifo(s) && Kept(s) && Served(s, s', a)
    ensures Fifo(s') && Kept(s') && a in s.pushed && a !in s.served && a in s.queue && a !in s'.queue
  {
    assert s'.served + s'.queue == s.served + s.queue;
    QueueDisjoint(s, a);
    assert forall j :: 0 <= j < |s'.queue| ==> s'.queue[j] == s.pushed[|s.served| + 1 + j];
    assert s.pushed[|s.served|] == a;
    assert forall b :: b in s'.pushed <==> b in s'.actors && WasPushed(s'.actors[b].pc);
  }

  lemma ServedIn(s: Sys, s': Sys, a: Id)
    requires Served(s, s', a)
    ensures forall b :: b in s'.served <==> b in s.served || b == a
    ensures forall b :: b in s.queue <==> b in s'.queue || b == a
  {
  }

  lemma ServedReplies(s: Sys, s': Sys, a: Id)
    requires Fifo(s) && Kept(s) && Replies(s) && Served(s, s', a) && a in s.actors
    requires forall b :: b != a ==>
               && (b in s'.installed <==> b in s.installed)
               && (b in s.installed ==> s'.installed[b] == s.installed[b])
    requires a in s'.installed ==> s.actors[a].kind.Bind?
    requires s'.actors[a].reply == if s.actors[a].kind != Bind(true) then NoReply else if a in s'.installed
             then Ok(s'.installed[a]) else Err
    requires !s'.panicked
    ensures Replies(s')
  {
    hide StrongLive;
    ServedFifo(s, s', a);
    hide Fifo, Kept;
    ServedIn(s, s', a);
    forall b <- s'.actors.Keys
      ensures s'.actors[b].reply == ExpectedReply(s', b)
    {
      assert s.actors[b].reply == ExpectedReply(s, b);
    }
  }

  lemma ServedStops(s: Sys, s': Sys, a: Id)
    requires StopIsLast(s) && Served(s, s', a) && a in s.actors
    requires s.actors[a].kind.Stop? ==> s'.loop == Exiting
    ensures StopIsLast(s')
  {
    assert forall i :: 0 <= i < |s.served| ==> !s.actors[s.served[i]].kind.Stop?;
  }

  lemma AddFrame(s: Sys, blocking: bool, vacant: Token, registers: bool)
    requires s.loop == Draining && s.queue != [] && s.queue[0] in s.actors
    ensures Served(s, AddConnection(Taken(s), s.queue[0], blocking, vacant, registers), s.queue[0])
  {
    var a := s.queue[0];
    var x := AddConnection(Taken(s), a, blocking, vacant, registers).actors[a];
    assert AddConnection(Taken(s), a, blocking, vacant, registers).actors == s.actors[a := x];
  }

  lemma ServeFrame(s: Sys, vacant: Token, registers: bool)
    requires s.loop == Draining && s.queue != [] && Serve(Taken(s), s.queue[0], vacant, registers).Some?
    ensures s.queue[0] in s.actors && Served(s, Serve(Taken(s), s.queue[0], vacant, registers).value, s.queue[0])
  {
    hide AddConnection;
    if s.actors[s.queue[0]].kind.Bind? {
      AddFrame(s, s.actors[s.queue[0]].kind.blocking, vacant, registers);
    }
  }

  lemma AddSlab(s: Sys, blocking: bool, vacant: Token)
    requires Slab(s) && s.loop == Draining && s.queue != [] && s.queue[0] in s.actors
    requires s.queue[0] !in s.installed && vacant !in s.conns
    ensures Slab(AddConnection(Taken(s), s.queue[0], blocking, vacant, true))
  {
    var s', a := AddConnection(Taken(s), s.queue[0], blocking, vacant, true), s.queue[0];
    forall k
      ensures k in s'.inbox <==> k in s'.installed && s'.installed[k] in s'.conns && s'.conns[s'.installed[k]] == k
    {
    }
    forall b <- s'.actors.Keys | s'.actors[b].kind.Call?
      ensures s'.actors[b].kind.conn in s'.installed && s'.installed[s'.actors[b].kind.conn] == s'.actors[b].kind.token
    {
      assert s.actors[b].kind == s'.actors[b].kind;
    }
  }

  lemma ServeSlab(s: Sys, vacant: Token, registers: bool)
    requires Slab(s) && s.loop == Draining && s.queue != [] && Serve(Taken(s), s.queue[0], vacant, registers).Some?
    requires s.queue[0] !in s.installed
    ensures Slab(Serve(Taken(s), s.queue[0], vacant, registers).value)
  {
    var a := s.queue[0];
    ServeFrame(s, vacant, registers);
    if s.actors[a].kind.Bind? && registers {
      AddSlab(s, s.actors[a].kind.blocking, vacant);
    } else {
      var s' := Serve(Taken(s), a, vacant, registers).value;
      assert s'.conns == s.conns && s'.inbox == s.inbox && s'.installed == s.installed && s'.loop != Exited;
      SlabFrame(s, s');
    }
  }

  lemma SlabFrame(s: Sys, s': Sys)
    requires Slab(s) && s'.conns == s.conns && s'.inbox == s.inbox && s'.installed == s.installed && s'.loop != Exited
    requires s'.actors.Keys == s.actors.Keys && forall b <- s.actors.Keys :: s'.actors[b].kind == s.actors[b].kind
    ensures Slab(s')
  {
  }

  lemma NoPanic(s: Sys, a: Id)
    requires Fifo(s) && Kept(s) && Replies(s) && StrongLive(s) && a in s.queue
    ensures a in s.actors && a !in s.installed
    ensures s.actors[a].kind == Bind(true) ==> s.actors[a].pc != Returned && s.actors[a].pc != Failed
    ensures s.actors[a].reply == NoReply
  {
    QueueDisjoint(s, a);
    assert s.actors[a].reply == ExpectedReply(s, a);
  }

  // What serving `a` changes beside the ledger: at most its own connection and reply.
  ghost predicate Tells(s: Sys, s': Sys, a: Id)
    requires a in s.actors && a in s'.actors
  {
    && (forall b :: b != a ==>
          && (b in s'.installed <==> b in s.installed)
          && (b in s.installed ==> s'.installed[b] == s.installed[b]))
    && (a in s'.installed ==> s.actors[a].kind.Bind?)
    && s'.actors[a].reply == (if s.actors[a].kind != Bind(true) then NoReply else if a in s'.installed
       then Ok(s'.installed[a]) else Err)
    && !s'.panicked
    && (s.actors[a].kind.Stop? ==> s'.loop == Exiting)
  }

  lemma ServeTells(s: Sys, a: Id, vacant: Token, registers: bool, s': Sys)
    requires s.loop == Draining && s.queue != [] && s.queue[0] == a && a in s.actors && a !in s.installed && !s.panicked
    requires s.actors[a].reply == NoReply
    requires s.actors[a].kind == Bind(true) ==> s.actors[a].pc != Returned && s.actors[a].pc != Failed
    requires Serve(Taken(s), a, vacant, registers) == Some(s')
    ensures a in s'.actors && Tells(s, s', a)
  {
  }

  /** A request is served: the binder it belongs to is still there to be told. */
  lemma ServeKeeps(s: Sys, vacant: Token, registers: bool)
    requires Inv(s) && s.loop == Draining && s.queue != []
    requires Serve(Taken(s), s.queue[0], vacant, registers).Some?
    ensures Inv(Serve(Taken(s), s.queue[0], vacant, registers).value)
  {
    var s', a := Serve(Taken(s), s.queue[0], vacant, registers).value, s.queue[0];
    ServeFrame(s, vacant, registers);
    assert StrongLive(s) && WillDrain(s') && !s.panicked;
    hide Fifo, Kept, Slab, StopIsLast, Replies, Served, Serve, WillDrain, ExpectedReply, StrongLive;
    NoPanic(s, a);
    ServeTells(s, a, vacant, registers, s');
    ServedFifo(s, s', a);
    ServeSlab(s, vacant, registers);
    ServedReplies(s, s', a);
    ServedStops(s, s', a);
  }

  // --- Every step ----------------------------------------------------------------------------------

  lemma LoopStepKeeps(s: Sys, step: Step)
    requires Inv(s) && LoopStep(s, step).Some?
    ensures Inv(LoopStep(s, step).value)
  {
    match step
    case Pop(vacant, registers) =>
      if s.queue == [] {
        LoopOnlyKeeps(s, LoopStep(s, step).value);
      } else {
        hide Inv;
        ServeKeeps(s, vacant, registers);
      }
    case TakeMessage => hide Inv; TakeKeeps(s);
    case EndFlush => hide Inv; EndFlushKeeps(s);
    case ConnectionDies(token) => hide Inv; DiesKeeps(s, token);
    case DropLoop => hide Inv; DropLoopKeeps(s);
    case _ => hide Inv; PhaseKeeps(s, step);
  }

  lemma StepKeeps(cap: nat, s: Sys, step: Step)
    requires Inv(s) && Apply(cap, s, step).Some?
    ensures Inv(Apply(cap, s, step).value)
  {
    hide Inv, ActorStep, LoopStep;
    match step
    case BeginCall(_, _) => BeginKeeps(cap, s, step);
    case BeginBind(_, _) => BeginKeeps(cap, s, step);
    case BeginStop(_) => BeginKeeps(cap, s, step);
    case Upgrade(_) => ThreadStepKeeps(cap, s, step);
    case Push(_) => ThreadStepKeeps(cap, s, step);
    case Release(_) => ThreadStepKeeps(cap, s, step);
    case Wake(_) => ThreadStepKeeps(cap, s, step);
    case Receive(_) => ThreadStepKeeps(cap, s, step);
    case _ => LoopStepKeeps(s, step);
  }

  lemma {:induction false} RunKeeps(cap: nat, s: Sys, steps: seq<Step>)
    requires Inv(s) && Run(cap, s, steps).Some?
    ensures Inv(Run(cap, s, steps).value)
    decreases |steps|
  {
    if steps != [] {
      hide Inv, Apply;
      StepKeeps(cap, s, steps[0]);
      RunKeeps(cap, Apply(cap, s, steps[0]).value, steps[1..]);
    }
  }

  lemma Reachable(cap: nat, steps: seq<Step>)
    requires Run(cap, Start, steps).Some?
    ensures Inv(Run(cap, Start, steps).value)
  {
    RunKeeps(cap, Start, steps);
  }
}
