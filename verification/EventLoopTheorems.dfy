/** Binding and shutting down, for every run of the event loop and every queue capacity. */
module EventLoopTheorems {
  import opened Wire
  import opened EventLoop
  import opened EventLoopSafety

  // --- The registration barrier ------------------------------------------------------------------

  /** A connection enters the slab under a key that was vacant, in the step that
      tells its binder. */
  lemma InstalledWhereVacant(cap: nat, s: Sys, step: Step, s': Sys, a: Id)
    requires Inv(s) && Apply(cap, s, step) == Some(s')
    requires a !in s.installed && a in s'.installed
    ensures s'.installed[a] !in s.conns && s'.installed[a] in s'.conns && s'.conns[s'.installed[a]] == a
    ensures a in s.actors && s.actors[a].reply == NoReply && a in s'.actors
    ensures s.actors[a].kind == Bind(true) ==> s'.actors[a].reply == Ok(s'.installed[a])
  {
    hide *;
    OnlyPopInstalls(cap, s, step, s', a);
    AddConnectionTells(s, a, step.vacant);
  }

  lemma AddConnectionTells(s: Sys, a: Id, vacant: Token)
    requires Inv(s) && s.loop == Draining && s.queue != [] && s.queue[0] == a && a in s.actors && s.actors[a].kind.Bind?
    ensures var s' := AddConnection(Taken(s), a, s.actors[a].kind.blocking, vacant, true);
            && a in s'.actors && a in s'.installed && s'.installed[a] == vacant && vacant in s'.conns
               && s'.conns[vacant] == a
            && s.actors[a].reply == NoReply
            && (s.actors[a].kind == Bind(true) ==> s'.actors[a].reply == Ok(vacant))
  {
    hide Slab, StopIsLast, WillDrain;
    assert a in s.queue && StrongLive(s);
    NoPanic(s, a);
    hide Inv, Fifo, Replies, Kept;
  }

  lemma FreeInstallsNothing()
    ensures forall s :: FreeQueue(s).installed == s.installed
  {
  }

  lemma ThreadsInstallNothing(cap: nat, s: Sys, step: Step, s': Sys)
    requires step.Upgrade? || step.Push? || step.Release? || step.Wake? || step.Receive?
    requires ActorStep(cap, s, step) == Some(s')
    ensures s'.installed == s.installed
  {
    FreeInstallsNothing();
    hide StrongLive, FreeQueue, Fed, LeftBehind;
  }

  lemma LoopInstallsNothing(s: Sys, step: Step, s': Sys)
    requires LoopStep(s, step) == Some(s') && !step.Pop?
    ensures s'.installed == s.installed
  {
    FreeInstallsNothing();
    hide StrongLive, FreeQueue, Serve, Flushed;
  }

  lemma ActorsInstallNothing(cap: nat, s: Sys, step: Step, s': Sys)
    requires Apply(cap, s, step) == Some(s') && !step.Pop?
    ensures s'.installed == s.installed
  {
    hide ActorStep, LoopStep;
    if step.Upgrade? || step.Push? || step.Release? || step.Wake? || step.Receive? {
      ThreadsInstallNothing(cap, s, step, s');
    } else if step.BeginCall? || step.BeginBind? || step.BeginStop? {
      assert s'.installed == s.installed;
    } else {
      LoopInstallsNothing(s, step, s');
    }
  }

  lemma OnlyPopInstalls(cap: nat, s: Sys, step: Step, s': Sys, a: Id)
    requires Apply(cap, s, step) == Some(s') && a !in s.installed && a in s'.installed
    ensures step.Pop? && s.loop == Draining && s.queue != [] && s.queue[0] == a && a in s.actors
            && s.actors[a].kind.Bind?
    ensures step.vacant !in s.conns && s' == AddConnection(Taken(s), a, s.actors[a].kind.blocking, step.vacant, true)
  {
    if step.Pop? {
      hide StrongLive;
    } else {
      ActorsInstallNothing(cap, s, step, s');
      assert false;
    }
  }

  /** A blocking bind returns Ok(token) only after its connection was installed
      under that token, and it never finds its reply channel closed by a panic. */
  lemma BindReturnsAfterInstall(cap: nat, steps: seq<Step>, a: Id)
    requires Run(cap, Start, steps).Some? && a in Run(cap, Start, steps).value.actors
    requires Run(cap, Start, steps).value.actors[a].pc == Returned
    ensures var s := Run(cap, Start, steps).value;
            && (s.actors[a].reply.Ok? ==>
                 a in s.installed && s.installed[a] == s.actors[a].reply.token && a in s.served)
            && (!s.actors[a].reply.Ok? ==> a !in s.installed)
            && !s.panicked
  {
    Reachable(cap, steps);
    var s := Run(cap, Start, steps).value;
    assert s.actors[a].reply == ExpectedReply(s, a);
  }

  /** Telling a binder panics exactly when the binder no longer waits: it has its answer
      already, or its push failed. */
  lemma TellingPanicsIff(s: Sys, a: Id, blocking: bool, vacant: Token, registers: bool)
    requires a in s.actors && !s.panicked
    ensures AddConnection(s, a, blocking, vacant, registers).panicked <==>
            blocking && (s.actors[a].pc.Returned? || s.actors[a].pc.Failed?)
  {
  }

  /** Requests are served in the order they were pushed; nothing pushed behind a
      Shutdown that was served is served or installed. */
  lemma NothingBehindShutdown(cap: nat, steps: seq<Step>, i: nat, j: nat)
    requires Run(cap, Start, steps).Some?
    requires var s := Run(cap, Start, steps).value;
             i < |s.served| && s.served[i] in s.actors && s.actors[s.served[i]].kind.Stop? && i < j < |s.pushed|
    ensures var s := Run(cap, Start, steps).value;
            s.served <= s.pushed && s.pushed[j] !in s.served && s.pushed[j] !in s.installed
  {
    Reachable(cap, steps);
    var s := Run(cap, Start, steps).value;
    assert forall x :: 0 <= x < |s.served| ==> s.pushed[x] == s.served[x];
    assert |s.served| == i + 1;
  }

  /** When the loop is gone and every thread has finished its push, each blocked
      binder has an answer: Ok if it was installed, an error if not. */
  lemma BindersAreAnswered(cap: nat, steps: seq<Step>, a: Id)
    requires Run(cap, Start, steps).Some?
    requires var s := Run(cap, Start, steps).value;
             && s.loop == Exited && (forall x <- s.actors.Keys :: s.actors[x].Settled())
             && a in s.actors && s.actors[a].kind == Bind(true) && s.actors[a].pc == Sent
    ensures var s := Run(cap, Start, steps).value;
            s.actors[a].reply == if a in s.installed then Ok(s.installed[a]) else if a in s.served then Err
                else Disconnected
  {
    Reachable(cap, steps);
    var s := Run(cap, Start, steps).value;
    assert !StrongLive(s);
    assert s.actors[a].reply == ExpectedReply(s, a);
  }
}
