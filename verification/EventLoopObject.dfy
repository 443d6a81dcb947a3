/** The second half of EventLoop::poll (audioipc/src/ipccore.rs) as an object: the
    loop that serves queued requests, changing the slab in place.  It is a run of
    the machine in EventLoop, so what holds of every run holds of it. */
module EventLoopObject {
  import opened Wire
  import EL = EventLoop
  import ELS = EventLoopSafety
  import ELX = EventLoopStranding

  type Id = EL.Id
  type Token = EL.Token

  // `steps` lead from `s0` to `t`.
  ghost predicate Led(cap: nat, s0: EL.Sys, steps: seq<EL.Step>, t: EL.Sys) {
    EL.Run(cap, s0, steps) == Some(t) && ELS.Inv(t)
  }

  lemma Extend(cap: nat, s0: EL.Sys, steps: seq<EL.Step>, t: EL.Sys, step: EL.Step, u: EL.Sys)
    requires Led(cap, s0, steps, t) && EL.Apply(cap, t, step) == Some(u)
    ensures Led(cap, s0, steps + [step], u)
  {
    ELS.StepKeeps(cap, t, step);
    hide EL.Apply, ELS.Inv;
    ELX.RunAppend(cap, s0, steps, [step]);
    assert [step][1..] == [];
    assert EL.Run(cap, u, []) == Some(u);
  }

  lemma LedTake(cap: nat, s0: EL.Sys, steps: seq<EL.Step>, t: EL.Sys, conn: Id)
    requires Led(cap, s0, steps, t) && t.loop.Flushing? && t.loop.token in t.conns && t.conns[t.loop.token] == conn
    requires conn in t.inbox && t.inbox[conn] != []
    ensures Led(cap, s0, steps + [EL.TakeMessage], t.(inbox := t.inbox[conn := t.inbox[conn][1..]]))
  {
    var u := t.(inbox := t.inbox[conn := t.inbox[conn][1..]]);
    hide Led;
    assert EL.Apply(cap, t, EL.TakeMessage) == Some(u);
    Extend(cap, s0, steps, t, EL.TakeMessage, u);
  }

  lemma LedDies(cap: nat, s0: EL.Sys, steps: seq<EL.Step>, t: EL.Sys)
    requires Led(cap, s0, steps, t) && t.loop.Flushing? && t.loop.token in t.conns
    ensures Led(cap, s0, steps + [EL.ConnectionDies(t.loop.token)], EL.Remove(t, t.loop.token))
  {
    hide Led;
    assert EL.Apply(cap, t, EL.ConnectionDies(t.loop.token)) == Some(EL.Remove(t, t.loop.token));
    Extend(cap, s0, steps, t, EL.ConnectionDies(t.loop.token), EL.Remove(t, t.loop.token));
  }

  // A flush for a wakeup is over.
  function Ended(t: EL.Sys): EL.Sys
    requires t.loop.Flushing?
  {
    t.(loop := EL.Draining, starved := EL.Flushed(t, t.loop.token))
  }

  lemma LedEnd(cap: nat, s0: EL.Sys, steps: seq<EL.Step>, t: EL.Sys)
    requires Led(cap, s0, steps, t) && t.loop.Flushing? && t.loop.draining
    requires t.loop.token in t.conns ==> t.conns[t.loop.token] in t.inbox && t.inbox[t.conns[t.loop.token]] == []
    ensures Led(cap, s0, steps + [EL.EndFlush], Ended(t))
  {
    hide Led;
    assert EL.Apply(cap, t, EL.EndFlush) == Some(Ended(t));
    Extend(cap, s0, steps, t, EL.EndFlush, Ended(t));
  }

  lemma LedInbox(cap: nat, s0: EL.Sys, steps: seq<EL.Step>, t: EL.Sys, token: Token)
    requires Led(cap, s0, steps, t) && token in t.conns
    ensures t.conns[token] in t.inbox
  {
    assert ELS.Slab(t);
  }

  // One request is served: the machine's Pop, for each kind of request.
  lemma LedPop(cap: nat, s0: EL.Sys, steps: seq<EL.Step>, t: EL.Sys, vacant: Token, registers: bool, u: EL.Sys)
    requires Led(cap, s0, steps, t) && t.loop == EL.Draining && t.queue != []
    requires EL.Serve(ELS.Taken(t), t.queue[0], vacant, registers) == Some(u)
    ensures Led(cap, s0, steps + [EL.Pop(vacant, registers)], u)
  {
    hide Led, EL.Serve;
    assert EL.Apply(cap, t, EL.Pop(vacant, registers)) == Some(u);
    Extend(cap, s0, steps, t, EL.Pop(vacant, registers), u);
  }

  lemma LedIdle(cap: nat, s0: EL.Sys, steps: seq<EL.Step>, t: EL.Sys)
    requires Led(cap, s0, steps, t) && t.loop == EL.Draining && t.queue == []
    ensures Led(cap, s0, steps + [EL.Pop(0, false)], t.(loop := EL.Blocked))
  {
    hide Led;
    assert EL.Apply(cap, t, EL.Pop(0, false)) == Some(t.(loop := EL.Blocked));
    Extend(cap, s0, steps, t, EL.Pop(0, false), t.(loop := EL.Blocked));
  }

  lemma LedUntold(cap: nat, s0: EL.Sys, steps: seq<EL.Step>, t: EL.Sys)
    requires Led(cap, s0, steps, t) && t.queue != [] && t.loop == EL.Draining
    ensures t.queue[0] in t.actors && t.actors[t.queue[0]].reply == EL.NoReply
  {
    ELS.NoPanic(t, t.queue[0]);
  }

  // The fields of the object.
  datatype View = View(
    connections: map<Token, Id>,
    queued: map<Id, seq<Id>>,
    requests: seq<(Id, EL.Kind)>,
    told: map<Id, EL.Reply>)

  // They are those of the machine.
  ghost predicate Matches(v: View, s: EL.Sys) {
    v.connections == s.conns && v.queued == s.inbox && Requests(v.requests, s) && Told(v.told, s.actors)
  }

  // The answers sent are those the machine has given, to the same binders.
  ghost predicate Told(told: map<Id, EL.Reply>, actors: map<Id, EL.Actor>) {
    && (forall a <- told.Keys :: a in actors && actors[a].reply == told[a] && (told[a].Ok? || told[a].Err?))
    && (forall a <- actors.Keys :: actors[a].reply.Ok? || actors[a].reply.Err? ==> a in told)
  }

  ghost predicate Requests(requests: seq<(Id, EL.Kind)>, s: EL.Sys) {
    && |requests| == |s.queue|
    && (forall i :: 0 <= i < |requests| ==>
          requests[i].0 == s.queue[i] && s.queue[i] in s.actors && requests[i].1 == s.actors[s.queue[i]].kind)
  }

  lemma Front(v: View, t: EL.Sys)
    requires Matches(v, t)
    ensures v.connections == t.conns && (v.requests == [] <==> t.queue == [])
    ensures var rs := v.requests;
            rs != [] ==> rs[0].0 == t.queue[0] && t.queue[0] in t.actors && rs[0].1 == t.actors[t.queue[0]].kind
  {
  }

  lemma Untold(v: View, t: EL.Sys, a: Id)
    requires Matches(v, t) && a in t.actors && t.actors[a].reply == EL.NoReply
    ensures a !in v.told
  {
  }

  // Each of the first `n` requests whose binder waits has been answered.
  ghost predicate Answered(requests: seq<(Id, EL.Kind)>, n: nat, told: map<Id, EL.Reply>)
    requires n <= |requests|
  {
    forall i :: 0 <= i < n && requests[i].1 == EL.Bind(true) ==> requests[i].0 in told
  }

  // No answer has been taken back.
  ghost predicate Extends(told: map<Id, EL.Reply>, before: map<Id, EL.Reply>) {
    forall a <- before.Keys :: a in told && told[a] == before[a]
  }

  // `n` of the requests are served: the others are left, and the binders are told.
  ghost predicate Served(all: seq<(Id, EL.Kind)>, n: nat, v: View, before: map<Id, EL.Reply>) {
    n <= |all| && v.requests == all[n..] && Answered(all, n, v.told) && Extends(v.told, before)
  }

  lemma ServedNone(v: View)
    ensures Served(v.requests, 0, v, v.told)
  {
  }

  lemma ServedOne(all: seq<(Id, EL.Kind)>, n: nat, v: View, v': View, before: map<Id, EL.Reply>)
    requires Served(all, n, v, before) && v.requests != []
    requires v'.requests == v.requests[1..] && Extends(v'.told, v.told)
    requires v.requests[0].1 == EL.Bind(true) ==> v.requests[0].0 in v'.told
    ensures Served(all, n + 1, v', before)
  {
    assert v.requests[0] == all[n] && all[n..][1..] == all[n + 1..];
    hide Extends;
    Unchanged(v'.told, v.told, before);
  }

  lemma Unchanged(told: map<Id, EL.Reply>, middle: map<Id, EL.Reply>, before: map<Id, EL.Reply>)
    ensures Extends(told, told)
    ensures Extends(told, middle) && Extends(middle, before) ==> Extends(told, before)
  {
  }

  // What a bind request changes.
  function Reply(vacant: Token, registers: bool): EL.Reply {
    if registers then EL.Ok(vacant) else EL.Err
  }

  function BindView(v: View, a: Id, blocking: bool, vacant: Token, registers: bool): View {
    View(if registers then v.connections[vacant := a] else v.connections,
         if registers then v.queued[a := []] else v.queued,
         v.requests,
         if blocking then v.told[a := Reply(vacant, registers)] else v.told)
  }

  function Tail(v: View): View
    requires v.requests != []
  {
    v.(requests := v.requests[1..])
  }

  function AfterBind(t: EL.Sys, blocking: bool, vacant: Token, registers: bool): EL.Sys
    requires t.queue != [] && t.queue[0] in t.actors
  {
    EL.AddConnection(ELS.Taken(t), t.queue[0], blocking, vacant, registers)
  }

  lemma MatchesBind(v: View, t: EL.Sys, blocking: bool, vacant: Token, registers: bool)
    requires Matches(v, t) && v.requests != [] && t.actors[t.queue[0]].reply == EL.NoReply
    requires t.actors[t.queue[0]].kind == EL.Bind(blocking)
    ensures Matches(BindView(Tail(v), t.queue[0], blocking, vacant, registers),
            AfterBind(t, blocking, vacant, registers))
  {
    var a, u := t.queue[0], AfterBind(t, blocking, vacant, registers);
    BindMoves(t, blocking, vacant, registers);
    hide AfterBind;
    RequestsTail(v.requests, t, u);
    hide Requests;
    ToldOne(v.told, t.actors, a, u.actors, Reply(vacant, registers), blocking);
    hide Told;
  }

  lemma RequestsTail(requests: seq<(Id, EL.Kind)>, t: EL.Sys, u: EL.Sys)
    requires Requests(requests, t) && requests != [] && u.queue == t.queue[1..] && u.actors.Keys == t.actors.Keys
    requires forall b <- t.actors.Keys :: u.actors[b].kind == t.actors[b].kind
    ensures Requests(requests[1..], u)
  {
    var rest := requests[1..];
    assert forall i :: 0 <= i < |rest| ==> rest[i] == requests[i + 1] && u.queue[i] == t.queue[i + 1];
  }

  lemma ToldOne(told: map<Id, EL.Reply>, actors: map<Id, EL.Actor>, a: Id, actors': map<Id, EL.Actor>, r: EL.Reply,
      blocking: bool)
    requires Told(told, actors) && actors'.Keys == actors.Keys && a in actors && actors[a].reply == EL.NoReply
    requires (forall b <- actors.Keys :: b != a ==> actors'[b] == actors[b]) && (r.Ok? || r.Err?)
    requires actors'[a].reply == if blocking then r else EL.NoReply
    ensures Told(if blocking then told[a := r] else told, actors')
  {
  }

  lemma BindMoves(t: EL.Sys, blocking: bool, vacant: Token, registers: bool)
    requires t.queue != [] && t.queue[0] in t.actors
    ensures var a, u := t.queue[0], AfterBind(t, blocking, vacant, registers);
            && u.queue == t.queue[1..] && u.actors.Keys == t.actors.Keys
            && (forall b <- t.actors.Keys ::
                  u.actors[b].kind == t.actors[b].kind && (b != a ==> u.actors[b] == t.actors[b]))
            && u.actors[a].reply == (if blocking then Reply(vacant, registers) else EL.NoReply)
            && u.conns == (if registers then t.conns[vacant := a] else t.conns)
            && u.inbox == if registers then t.inbox[a := []] else t.inbox
  {
  }

  lemma LedBind(cap: nat, s0: EL.Sys, steps: seq<EL.Step>, t: EL.Sys, blocking: bool, vacant: Token, registers: bool)
    requires Led(cap, s0, steps, t) && t.loop == EL.Draining && t.queue != [] && t.queue[0] in t.actors
    requires t.actors[t.queue[0]].kind == EL.Bind(blocking) && vacant !in t.conns
    ensures var u := AfterBind(t, blocking, vacant, registers);
            Led(cap, s0, steps + [EL.Pop(vacant, registers)], u) && u.loop == EL.Draining
  {
    hide Led;
    LedPop(cap, s0, steps, t, vacant, registers, AfterBind(t, blocking, vacant, registers));
  }

  // A shutdown or a wakeup changes only where the loop is.
  function NextLoop(t: EL.Sys, kind: EL.Kind): EL.LoopPc {
    if !kind.Call? then EL.Exiting else if kind.token in t.conns then EL.Flushing(kind.token, true) else EL.Draining
  }

  function AfterOther(t: EL.Sys): EL.Sys
    requires t.queue != [] && t.queue[0] in t.actors
  {
    ELS.Taken(t).(loop := NextLoop(t, t.actors[t.queue[0]].kind))
  }

  lemma LedOther(cap: nat, s0: EL.Sys, steps: seq<EL.Step>, t: EL.Sys)
    requires Led(cap, s0, steps, t) && t.loop == EL.Draining && t.queue != [] && t.queue[0] in t.actors
    requires !t.actors[t.queue[0]].kind.Bind?
    ensures Led(cap, s0, steps + [EL.Pop(0, false)], AfterOther(t))
    ensures AfterOther(t).loop == NextLoop(t, t.actors[t.queue[0]].kind)
  {
    hide Led;
    LedPop(cap, s0, steps, t, 0, false, AfterOther(t));
  }

  lemma MatchesOther(v: View, t: EL.Sys)
    requires Matches(v, t) && v.requests != []
    ensures Matches(Tail(v), AfterOther(t))
  {
    OtherMoves(t);
    hide AfterOther, Told;
    RequestsTail(v.requests, t, AfterOther(t));
  }

  lemma OtherMoves(t: EL.Sys)
    requires t.queue != [] && t.queue[0] in t.actors
    ensures var u := AfterOther(t);
            u.conns == t.conns && u.inbox == t.inbox && u.actors == t.actors && u.queue == t.queue[1..]
  {
  }

  lemma LedNothing(cap: nat, s: EL.Sys)
    requires ELS.Inv(s)
    ensures Led(cap, s, [], s)
  {
  }

  class EventLoop {
    var connections: map<Token, Id>
    var queued: map<Id, seq<Id>>            // what the handler of each connection holds
    var requests: seq<(Id, EL.Kind)>
    var told: map<Id, EL.Reply>             // what was sent to blocked binders

    function Now(): View
      reads this
    {
      View(connections, queued, requests, told)
    }

    ghost predicate Shows(s: EL.Sys)
      reads this
    {
      Matches(Now(), s)
    }

    // add_connection, and the answer to a binder that waits for one.
    method AddConnection(a: Id, blocking: bool, vacant: Token, registers: bool)
      modifies this
      ensures connections == if registers then old(connections)[vacant := a] else old(connections)
      ensures queued == if registers then old(queued)[a := []] else old(queued)
      ensures told == if blocking then old(told)[a := if registers then EL.Ok(vacant) else EL.Err] else old(told)
      ensures requests == old(requests)
    {
      if registers {
        connections := connections[vacant := a];
        queued := queued[a := []];
      }
      if blocking {
        told := told[a := if registers then EL.Ok(vacant) else EL.Err];
      }
    }

    // The arm of the request loop for AddConnection: a binder that waits is told,
    // whether or not the connection could be registered, and nobody else is.
    method ServeBind(blocking: bool, key: Token, registers: bool,
                     ghost cap: nat, ghost s0: EL.Sys, ghost before: seq<EL.Step>, ghost s: EL.Sys)
      returns (ghost steps: seq<EL.Step>, ghost t: EL.Sys)
      requires Shows(s) && Led(cap, s0, before, s) && s.loop == EL.Draining
      requires requests != [] && requests[0].1 == EL.Bind(blocking) && key !in connections
      modifies this
      ensures Led(cap, s0, steps, t) && Shows(t) && t.loop == EL.Draining
      ensures requests == old(requests)[1..]
      ensures var a := old(requests)[0].0;
              && connections == (if registers then old(connections)[key := a] else old(connections))
              && queued == (if registers then old(queued)[a := []] else old(queued))
              && told == (if blocking then old(told)[a := if registers then EL.Ok(key) else EL.Err] else old(told))
      ensures Extends(told, old(told))
    {
      hide Led, ELS.Inv, AfterBind, AfterOther, Matches;
      Front(Now(), s);
      LedUntold(cap, s0, before, s);
      var a := requests[0].0;
      Untold(Now(), s, a);
      MatchesBind(Now(), s, blocking, key, registers);
      LedBind(cap, s0, before, s, blocking, key, registers);
      requests := requests[1..];
      AddConnection(a, blocking, key, registers);
      assert Now() == BindView(Tail(old(Now())), a, blocking, key, registers);
      steps, t := before + [EL.Pop(key, registers)], AfterBind(s, blocking, key, registers);
    }

    // handle_wake: flush what the handler holds; the connection may die of it,
    // after any number of messages.
    method HandleWake(token: Token, dies: Option<nat>,
                      ghost cap: nat, ghost s0: EL.Sys, ghost before: seq<EL.Step>, ghost s: EL.Sys)
      returns (ghost steps: seq<EL.Step>, ghost t: EL.Sys)
      requires Shows(s) && Led(cap, s0, before, s)
      requires s.loop == EL.Flushing(token, true) && token in connections
      modifies this`connections, this`queued
      ensures Led(cap, s0, steps, t) && Shows(t) && t.loop == EL.Draining
      ensures connections == if dies.Some? then old(connections) - {token} else old(connections)
      ensures dies.None? ==> queued == old(queued)[old(connections)[token] := []]
    {
      hide Led, Requests, EL.Flushed;
      steps, t := before, s;
      LedInbox(cap, s0, before, s, token);
      var conn := connections[token];
      ghost var q0 := queued;
      var sent := 0;
      while queued[conn] != [] && dies != Some(sent)
        invariant conn in queued && queued == q0[conn := queued[conn]] && connections == old(connections)
        invariant Led(cap, s0, steps, t) && t == s.(inbox := queued)
        decreases |queued[conn]|
      {
        LedTake(cap, s0, steps, t, conn);
        queued := queued[conn := queued[conn][1..]];
        steps, t := steps + [EL.TakeMessage], t.(inbox := queued);
        sent := sent + 1;
      }
      if dies.Some? {
        LedDies(cap, s0, steps, t);
        connections := connections - {token};
        queued := queued - {conn};
        steps, t := steps + [EL.ConnectionDies(token)], EL.Remove(t, token);
      }
      LedEnd(cap, s0, steps, t);
      steps, t := steps + [EL.EndFlush], Ended(t);
      RequestsFrame(requests, s, t);
    }

    // The arm for WakeConnection: a wakeup for a connection that is gone does nothing.
    method ServeWake(token: Token, dies: Option<nat>,
                     ghost cap: nat, ghost s0: EL.Sys, ghost before: seq<EL.Step>, ghost s: EL.Sys)
      returns (ghost steps: seq<EL.Step>, ghost t: EL.Sys)
      requires Shows(s) && Led(cap, s0, before, s) && s.loop == EL.Draining
      requires requests != [] && requests[0].1.Call? && requests[0].1.token == token
      modifies this`connections, this`queued, this`requests
      ensures Led(cap, s0, steps, t) && Shows(t) && t.loop == EL.Draining
      ensures requests == old(requests)[1..]
      ensures token !in old(connections) ==> connections == old(connections) && queued == old(queued)
      ensures token in old(connections) ==>
                && connections == (if dies.Some? then old(connections) - {token} else old(connections))
                && (dies.None? ==> queued == old(queued)[old(connections)[token] := []])
    {
      hide Led, ELS.Inv, AfterBind, AfterOther, Matches;
      Front(Now(), s);
      MatchesOther(Now(), s);
      LedOther(cap, s0, before, s);
      requests := requests[1..];
      assert Now() == Tail(old(Now()));
      steps, t := before + [EL.Pop(0, false)], AfterOther(s);
      if token in connections {
        steps, t := HandleWake(token, dies, cap, s0, steps, t);
      }
    }

    // The arm for Shutdown.
    method ServeStop(ghost cap: nat, ghost s0: EL.Sys, ghost before: seq<EL.Step>, ghost s: EL.Sys)
      returns (ghost steps: seq<EL.Step>, ghost t: EL.Sys)
      requires Shows(s) && Led(cap, s0, before, s) && s.loop == EL.Draining
      requires requests != [] && requests[0].1.Stop?
      modifies this`requests
      ensures Led(cap, s0, steps, t) && Shows(t) && t.loop == EL.Exiting
      ensures requests == old(requests)[1..]
    {
      hide Led, ELS.Inv, AfterBind, AfterOther, Matches;
      Front(Now(), s);
      MatchesOther(Now(), s);
      LedOther(cap, s0, before, s);
      requests := requests[1..];
      assert Now() == Tail(old(Now()));
      steps, t := before + [EL.Pop(0, false)], AfterOther(s);
    }

    // One request, whatever it is.
    method ServeOne(vacant: map<Token, Id> -> Token, registers: Id -> bool, dies: Id -> Option<nat>,
                    ghost cap: nat, ghost s0: EL.Sys, ghost before: seq<EL.Step>, ghost s: EL.Sys)
      returns (goOn: bool, ghost steps: seq<EL.Step>, ghost t: EL.Sys)
      requires Shows(s) && Led(cap, s0, before, s) && s.loop == EL.Draining && requests != []
      requires forall m :: vacant(m) !in m
      modifies this
      ensures Led(cap, s0, steps, t) && Shows(t) && t.loop == if goOn then EL.Draining else EL.Exiting
      ensures goOn <==> !old(requests)[0].1.Stop?
      ensures requests == old(requests)[1..] && Extends(told, old(told))
      ensures old(requests)[0].1 == EL.Bind(true) ==> old(requests)[0].0 in told
    {
      hide Led, ELS.Inv, Matches, Extends;
      Unchanged(told, told, told);
      var (a, kind) := requests[0];
      goOn := !kind.Stop?;
      match kind {
        case Bind(blocking) =>
          steps, t := ServeBind(blocking, vacant(connections), registers(a), cap, s0, before, s);
        case Stop =>
          steps, t := ServeStop(cap, s0, before, s);
        case Call(conn, token) =>
          steps, t := ServeWake(token, dies(a), cap, s0, before, s);
      }
    }

    /** The request loop.  `vacant` is the key the slab offers, `registers` whether
        registration succeeds, `dies` whether a wakeup ends its connection, and after
        how many messages.  The loop is a run of the machine that ends with an empty
        queue, or with a Shutdown as the last request served; every binder served
        that waits has been told. */
    method ServeRequests(vacant: map<Token, Id> -> Token, registers: Id -> bool, dies: Id -> Option<nat>,
                         ghost cap: nat, ghost s: EL.Sys)
      returns (goOn: bool, ghost n: nat, ghost steps: seq<EL.Step>, ghost t: EL.Sys)
      requires Shows(s) && ELS.Inv(s) && s.loop == EL.Draining
      requires forall m :: vacant(m) !in m
      modifies this
      ensures Led(cap, s, steps, t) && Shows(t)
      ensures if goOn then requests == [] && t.loop == EL.Blocked else t.loop == EL.Exiting
      ensures Served(old(requests), n, Now(), old(told))
    {
      goOn, n, steps, t := true, 0, [], s;
      LedNothing(cap, s);
      ServedNone(Now());
      hide Led, ELS.Inv, Matches, Extends, Served;
      while goOn && requests != []
        invariant Shows(t) && Led(cap, s, steps, t) && t.loop == if goOn then EL.Draining else EL.Exiting
        invariant Served(old(requests), n, Now(), old(told))
        decreases |requests|
      {
        ghost var v := Now();
        goOn, steps, t := ServeOne(vacant, registers, dies, cap, s, steps, t);
        ServedOne(old(requests), n, v, Now(), old(told));
        n := n + 1;
      }
      if goOn {
        Front(Now(), t);
        LedIdle(cap, s, steps, t);
        MatchesIdle(Now(), t);
        steps, t := steps + [EL.Pop(0, false)], t.(loop := EL.Blocked);
      }
    }
  }

  lemma MatchesIdle(v: View, t: EL.Sys)
    requires Matches(v, t)
    ensures Matches(v, t.(loop := EL.Blocked))
  {
  }

  lemma RequestsFrame(requests: seq<(Id, EL.Kind)>, s: EL.Sys, t: EL.Sys)
    requires Requests(requests, s) && t.queue == s.queue && t.actors == s.actors
    ensures Requests(requests, t)
  {
  }
}
