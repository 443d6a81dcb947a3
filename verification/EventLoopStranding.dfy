/** That the condition of the wakeup guarantee can fail.  `wake_connection` ignores a
    push that finds the loop's queue full, so for every capacity there is a run after
    which everything is asleep, a caller waits, and its message was never flushed. */
module EventLoopStranding {
  import opened Wire
  import opened EventLoop
  import opened EventLoopWakeups

  lemma {:induction false} RunAppend(cap: nat, s: Sys, xs: seq<Step>, ys: seq<Step>)
    requires Run(cap, s, xs).Some?
    ensures Run(cap, s, xs + ys) == Run(cap, Run(cap, s, xs).value, ys)
    decreases |xs|
  {
    hide Apply;
    if xs == [] {
      assert xs + ys == ys;
    } else {
      assert (xs + ys)[1..] == xs[1..] + ys;
      RunAppend(cap, Apply(cap, s, xs[0]).value, xs[1..], ys);
    }
  }

  lemma Two(cap: nat, s: Sys, x: Step, s1: Sys, rest: seq<Step>)
    requires Apply(cap, s, x) == Some(s1)
    ensures Run(cap, s, [x] + rest) == Run(cap, s1, rest)
  {
    hide Apply;
    assert ([x] + rest)[1..] == rest;
  }

  function At(s: Sys, a: Id, kind: Kind, pc: Pc): Sys {
    s.(actors := s.actors[a := Actor(kind, pc, NoReply)])
  }

  predicate Is(s: Sys, a: Id, kind: Kind, pc: Pc) {
    a in s.actors && s.actors[a] == Actor(kind, pc, NoReply) && s.loop == Blocked
  }

  lemma Upgrades(cap: nat, s: Sys, a: Id, k: Kind)
    requires Is(s, a, k, ToUpgrade)
    ensures Apply(cap, s, Upgrade(a)) == Some(At(s, a, k, Holding))
  {
  }

  lemma Pushes(cap: nat, s: Sys, a: Id, k: Kind)
    requires Is(s, a, k, Holding)
    ensures |s.queue| < cap && !k.Call? ==>
      Apply(cap, s, Push(a)) == Some(At(s, a, k, PushedHolding).(queue := s.queue + [a], pushed := s.pushed + [a]))
    ensures |s.queue| >= cap && k.Call? && k.conn in s.inbox && a in s.inbox[k.conn] ==>
      Apply(cap, s, Push(a)) == Some(At(s, a, k, RefusedHolding).(starved := s.starved + {k.conn}))
  {
  }

  lemma Releases(cap: nat, s: Sys, a: Id, k: Kind)
    ensures Is(s, a, k, PushedHolding) ==> Apply(cap, s, Release(a)) == Some(At(s, a, k, ToWake))
    ensures Is(s, a, k, RefusedHolding) ==> Apply(cap, s, Release(a)) == Some(At(s, a, k, Failed))
  {
    assert s.loop == Blocked ==> StrongLive(At(s, a, k, ToWake)) && StrongLive(At(s, a, k, Failed));
    hide StrongLive;
  }

  lemma Wakes(cap: nat, s: Sys, a: Id, k: Kind)
    requires Is(s, a, k, ToWake)
    ensures Apply(cap, s, Wake(a)) == Some(At(s, a, k, Sent).(wakePending := true))
  {
  }

  // A thread binds a connection without waiting: one more entry in the queue.
  function Queued(s: Sys, a: Id, blocking: bool): Sys {
    At(s, a, Bind(blocking), Sent).(queue := s.queue + [a], pushed := s.pushed + [a], wakePending := true)
  }

  function BindSteps(a: Id, blocking: bool): seq<Step> {
    [BeginBind(a, blocking)] + ([Upgrade(a)] + ([Push(a)] + ([Release(a)] + ([Wake(a)] + []))))
  }

  // From holding the queue to having woken the loop.
  lemma PushThrough(cap: nat, s: Sys, a: Id, k: Kind)
    requires Is(s, a, k, Holding) && |s.queue| < cap && !k.Call?
    ensures Run(cap, s, [Push(a)] + ([Release(a)] + ([Wake(a)] + []))) ==
            Some(At(s, a, k, Sent).(queue := s.queue + [a], pushed := s.pushed + [a], wakePending := true))
  {
    hide Apply;
    var s3 := At(s, a, k, PushedHolding).(queue := s.queue + [a], pushed := s.pushed + [a]);
    var s4 := s3.(actors := At(s, a, k, ToWake).actors);
    var s5 := At(s, a, k, Sent).(queue := s.queue + [a], pushed := s.pushed + [a], wakePending := true);
    Pushes(cap, s, a, k);
    Releases(cap, s3, a, k);
    assert At(s3, a, k, ToWake) == s4;
    Wakes(cap, s4, a, k);
    assert At(s4, a, k, Sent).(wakePending := true) == s5;
    Two(cap, s, Push(a), s3, [Release(a)] + ([Wake(a)] + []));
    Two(cap, s3, Release(a), s4, [Wake(a)] + []);
    Two(cap, s4, Wake(a), s5, []);
  }

  // A state in which thread `a` has got further.
  lemma AtTwice(s: Sys, a: Id, k: Kind, p: Pc, q: Pc)
    ensures At(At(s, a, k, p), a, k, q) == At(s, a, k, q)
  {
  }

  lemma BindQueues(cap: nat, s: Sys, a: Id, blocking: bool)
    requires a !in s.actors && |s.queue| < cap && s.loop == Blocked
    ensures Run(cap, s, BindSteps(a, blocking)) == Some(Queued(s, a, blocking))
  {
    var k := Bind(blocking);
    var s1, s2 := At(s, a, k, ToUpgrade), At(s, a, k, Holding);
    assert Apply(cap, s, BeginBind(a, blocking)) == Some(s1);
    hide Apply, Run;
    Upgrades(cap, s1, a, k);
    AtTwice(s, a, k, ToUpgrade, Holding);
    PushThrough(cap, s2, a, k);
    AtTwice(s, a, k, Holding, Sent);
    hide At;
    var rest := [Push(a)] + ([Release(a)] + ([Wake(a)] + []));
    Two(cap, s, BeginBind(a, blocking), s1, [Upgrade(a)] + rest);
    Two(cap, s1, Upgrade(a), s2, rest);
  }

  // One connection, installed; threads 0..n have finished; the queue holds only
  // connections being bound without waiting.
  ghost predicate Stage(s: Sys, n: nat) {
    && s.conns == map[0 := 0] && s.inbox == map[0 := []] && s.installed == map[0 := 0] && s.starved == {}
    && (forall a <- s.actors.Keys :: a <= n && s.actors[a].Settled())
    && QueueOfBinds(s)
  }

  ghost predicate QueueOfBinds(s: Sys) {
    forall a <- s.queue :: a in s.actors && s.actors[a].kind == Bind(false) && s.actors[a].reply == NoReply
  }

  // Fill the queue up to its capacity.
  lemma {:induction false} FillUp(cap: nat, s: Sys, n: nat) returns (steps: seq<Step>, s': Sys, n': nat)
    requires Stage(s, n) && s.loop == Blocked && |s.queue| <= cap
    requires s.queue != [] ==> s.wakePending
    ensures Run(cap, s, steps) == Some(s') && Stage(s', n') && s'.loop == Blocked && |s'.queue| == cap
    ensures s'.queue != [] ==> s'.wakePending
    decreases cap - |s.queue|
  {
    hide Apply;
    if |s.queue| == cap {
      return [], s, n;
    }
    BindQueues(cap, s, n + 1, false);
    var s1 := Queued(s, n + 1, false);
    assert Stage(s1, n + 1);
    var rest;
    rest, s', n' := FillUp(cap, s1, n + 1);
    RunAppend(cap, s, BindSteps(n + 1, false), rest);
    steps := BindSteps(n + 1, false) + rest;
  }

  // The loop drains a queue of such connections and goes back to sleep.
  lemma {:induction false} DrainAll(cap: nat, s: Sys) returns (steps: seq<Step>, s': Sys)
    requires s.loop == Draining && QueueOfBinds(s)
    ensures Run(cap, s, steps) == Some(s') && s'.loop == Blocked && s'.queue == []
    ensures s'.actors == s.actors && s'.inbox == s.inbox && s'.starved == s.starved && s'.wakePending == s.wakePending
    ensures s'.conns == s.conns && s'.installed == s.installed
    decreases |s.queue|
  {
    if s.queue == [] {
      s' := s.(loop := Blocked);
      Two(cap, s, Pop(0, false), s', []);
      return [Pop(0, false)] + [], s';
    }
    var a := s.queue[0];
    assert a in s.queue;
    var s1 := s.(queue := s.queue[1..], served := s.served + [a]);
    assert s.actors[a := s.actors[a].(reply := NoReply)] == s.actors;
    assert Apply(cap, s, Pop(0, false)) == Some(s1);
    var rest;
    rest, s' := DrainAll(cap, s1);
    Two(cap, s, Pop(0, false), s1, rest);
    steps := [Pop(0, false)] + rest;
  }

  // The push of a message is refused.
  lemma PushIsRefused(cap: nat, s: Sys, a: Id, k: Kind)
    requires Is(s, a, k, ToUpgrade) && |s.queue| >= cap && k.Call? && k.conn in s.inbox && a in s.inbox[k.conn]
    ensures Run(cap, s, [Upgrade(a)] + ([Push(a)] + ([Release(a)] + [])))
            == Some(At(s, a, k, Failed).(starved := s.starved + {k.conn}))
  {
    var s1 := At(s, a, k, Holding);
    var s2 := At(s, a, k, RefusedHolding).(starved := s.starved + {k.conn});
    var s3 := At(s, a, k, Failed).(starved := s.starved + {k.conn});
    Upgrades(cap, s, a, k);
    Pushes(cap, s1, a, k);
    AtTwice(s, a, k, Holding, RefusedHolding);
    assert At(s1, a, k, RefusedHolding).(starved := s.starved + {k.conn}) == s2;
    Releases(cap, s2, a, k);
    AtTwice(s, a, k, RefusedHolding, Failed);
    assert At(s2, a, k, Failed) == At(At(s, a, k, RefusedHolding), a, k, Failed).(starved := s.starved + {k.conn});
    assert Run(cap, s3, []) == Some(s3);
    hide Apply, Run, At;
    Two(cap, s, Upgrade(a), s1, [Push(a)] + ([Release(a)] + []));
    Two(cap, s1, Push(a), s2, [Release(a)] + []);
    Two(cap, s2, Release(a), s3, []);
  }

  // A caller queues its message and finds the loop's queue full.
  lemma CallIsRefused(cap: nat, s: Sys, n: nat) returns (steps: seq<Step>, s': Sys)
    requires Stage(s, n) && s.loop == Blocked && |s.queue| == cap
    ensures Run(cap, s, steps) == Some(s')
    ensures s' == At(s, n + 1, Call(0, 0), Failed).(inbox := map[0 := [n + 1]], starved := {0})
  {
    var a, k := n + 1, Call(0, 0);
    var s1 := At(s, a, k, ToUpgrade).(inbox := map[0 := [a]]);
    assert s.inbox[0] == [] && [] + [a] == [a];
    assert s.inbox[0 := s.inbox[0] + [a]] == map[0 := [a]];
    assert Apply(cap, s, BeginCall(a, 0)) == Some(s1);
    hide Apply, Run;
    var rest := [Upgrade(a)] + ([Push(a)] + ([Release(a)] + []));
    PushIsRefused(cap, s1, a, k);
    Two(cap, s, BeginCall(a, 0), s1, rest);
    s' := At(s1, a, k, Failed).(starved := {0});
    AtTwice(s, a, k, ToUpgrade, Failed);
    assert {} + {0} == {0};
    assert s' == At(At(s, a, k, ToUpgrade), a, k, Failed).(inbox := map[0 := [a]], starved := {0});
    steps := [BeginCall(a, 0)] + rest;
  }

  // The loop wakes up and starts draining.
  lemma Awake(cap: nat, s: Sys)
    requires s.loop == Blocked
    ensures Run(cap, s, [PollReturns(true)] + ([StartDraining] + []))
            == Some(s.(loop := Draining, wakePending := false))
  {
    Two(cap, s, PollReturns(true), s.(loop := Events, wakePending := false), [StartDraining] + []);
    Two(cap, s.(loop := Events, wakePending := false), StartDraining, s.(loop := Draining, wakePending := false), []);
  }

  lemma FirstConnection(cap: nat) returns (steps: seq<Step>, s: Sys)
    requires cap >= 1
    ensures Run(cap, Start, steps) == Some(s) && Stage(s, 0) && s.loop == Blocked && s.queue == []
  {
    BindQueues(cap, Start, 0, false);
    var s1 := Queued(Start, 0, false);
    Awake(cap, s1);
    var s2 := s1.(loop := Draining, wakePending := false);
    var pops;
    pops, s := InstallFirst(cap, s2);
    hide Apply;
    var poll := [PollReturns(true)] + ([StartDraining] + []);
    RunAppend(cap, s1, poll, pops);
    RunAppend(cap, Start, BindSteps(0, false), poll + pops);
    steps := BindSteps(0, false) + (poll + pops);
  }

  lemma FirstPop(cap: nat, s2: Sys)
    requires s2 == Queued(Start, 0, false).(loop := Draining, wakePending := false)
    ensures Apply(cap, s2, Pop(0, true)) == Some(AddConnection(s2.(queue := [], served := [0]), 0, false, 0, true))
  {
    assert s2.queue == [0] && s2.queue[1..] == [] && s2.served + [0] == [0];
    hide AddConnection, StrongLive;
  }

  lemma InstallFirst(cap: nat, s2: Sys) returns (pops: seq<Step>, s: Sys)
    requires s2 == Queued(Start, 0, false).(loop := Draining, wakePending := false)
    ensures Run(cap, s2, pops) == Some(s) && Stage(s, 0) && s.loop == Blocked && s.queue == []
  {
    var s3 := AddConnection(s2.(queue := [], served := [0]), 0, false, 0, true);
    FirstPop(cap, s2);
    s := s3.(loop := Blocked);
    assert Stage(s, 0) && s3.loop == Draining && s3.queue == [];
    hide Stage, AddConnection, Queued;
    assert Apply(cap, s3, Pop(0, false)) == Some(s);
    assert Run(cap, s, []) == Some(s);
    hide Apply, Run;
    pops := [Pop(0, true)] + ([Pop(0, false)] + []);
    Two(cap, s2, Pop(0, true), s3, [Pop(0, false)] + []);
    Two(cap, s3, Pop(0, false), s, []);
  }

  /** For every capacity there is a run that strands a message: everything is
      asleep, connection 0 is alive with a message queued, and the push of that
      message was refused. */
  lemma RefusedWakeupStrands(cap: nat) returns (steps: seq<Step>)
    requires cap >= 1
    ensures Run(cap, Start, steps).Some?
    ensures var s := Run(cap, Start, steps).value;
            Asleep(s) && 0 in s.inbox && s.inbox[0] != [] && 0 in s.starved
  {
    hide Apply;
    var xs, s1 := FirstConnection(cap);
    var ys, s2, n := FillUp(cap, s1, 0);
    var zs, s3 := CallIsRefused(cap, s2, n);
    Awake(cap, s3);
    var s4 := s3.(loop := Draining, wakePending := false);
    assert QueueOfBinds(s4);
    var ds, s5 := DrainAll(cap, s4);
    var poll := [PollReturns(true)] + ([StartDraining] + []);
    RunAppend(cap, s3, poll, ds);
    RunAppend(cap, s2, zs, poll + ds);
    RunAppend(cap, s1, ys, zs + (poll + ds));
    RunAppend(cap, Start, xs, ys + (zs + (poll + ds)));
    steps := xs + (ys + (zs + (poll + ds)));
  }
}
