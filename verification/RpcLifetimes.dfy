/** How long a client connection lives: from the steps that cloned and dropped proxies
    to the moment the handler gives up, an orderly end, and a tear-down at any time. */
module RpcLifetimes {
  import opened Wire
  import opened Rpc
  import opened RpcSafety
  import opened RpcTheorems
  import opened RpcLiveness
  import opened RpcProgress
  import B = RpcBytes

  // --- The proxies, read off the steps -----------------------------------------------------------

  // The first proxy and every clone made, less those dropped.
  function LiveProxies(steps: seq<Step>): set<ProxyId> {
    if steps == [] then {0}
    else
      var before := LiveProxies(steps[..|steps| - 1]);
      match steps[|steps| - 1]
      case CloneProxy(p, q) => before + {q}
      case DropProxy(p) => before - {p}
      case _ => before
  }

  lemma {:induction false} RunLast(cfg: Config, s: Sys, steps: seq<Step>, last: Step)
    requires Run(cfg, s, steps + [last]).Some?
    ensures Run(cfg, s, steps).Some? && Apply(cfg, Run(cfg, s, steps).value, last) == Run(cfg, s, steps + [last])
    decreases |steps|
  {
    hide Apply;
    if steps == [] {
      assert [] + [last] == [last] && [last][1..] == [];
    } else {
      assert (steps + [last])[1..] == steps[1..] + [last];
      RunLast(cfg, Apply(cfg, s, steps[0]).value, steps[1..], last);
    }
  }

  lemma StepProxies(cfg: Config, s: Sys, step: Step)
    requires Apply(cfg, s, step).Some?
    ensures var k, k' := s.core, Apply(cfg, s, step).value.core;
            match step
            case CloneProxy(p, q) => p in k.proxies && q !in k.proxies && k'.proxies == k.proxies + {q}
            case DropProxy(p) => p in k.proxies && k'.proxies == k.proxies - {p}
            case _ => k'.proxies == k.proxies
  {
    hide StrongLive, Cancel;
  }

  /** In every run the proxies that count are the first one and every clone made, less
      those dropped. */
  lemma {:induction false} ProxiesAreThoseLeft(cfg: Config, steps: seq<Step>)
    requires RunFromStart(cfg, steps).Some?
    ensures RunFromStart(cfg, steps).value.core.proxies == LiveProxies(steps)
    decreases |steps|
  {
    if steps != [] {
      var before, last := steps[..|steps| - 1], steps[|steps| - 1];
      assert steps == before + [last];
      RunLast(cfg, Sys(InitCore(cfg), [], []), before, last);
      hide Apply, Run;
      ProxiesAreThoseLeft(cfg, before);
      StepProxies(cfg, RunFromStart(cfg, before).value, last);
    }
  }

  /** A new connection is live, with one proxy and nothing under way. */
  lemma StartsLive(cfg: Config)
    ensures var s := Sys(InitCore(cfg), [], []);
            && RunFromStart(cfg, []) == Some(s) && Live(s.core) && LiveProxies([]) == {0}
            && s.core.calls == map[] && Work(s) == 0 && s.core.server == cfg.init
  {
  }

  /** A handler that is asked for the next request gives up exactly when every proxy ever
      made has been dropped, or the request cannot be encoded. */
  lemma GivesUpIff(cfg: Config, steps: seq<Step>, s: Sys, encodes: bool)
    requires RunFromStart(cfg, steps) == Some(s) && s.core.handlerAlive
    ensures var s' := Apply(cfg, s, ClientProduce(encodes));
            && s'.Some?
            && (!s'.value.core.handlerAlive <==> LiveProxies(steps) == {} || (!encodes && s.core.queue != []))
  {
    ProxiesAreThoseLeft(cfg, steps);
    Reachable(cfg, steps);
    if s.core.queue != [] {
      FirstQueued(cfg, s);
    }
    hide Inv, RunFromStart, StrongLive, Cancel;
  }

  /** A clone keeps the connection when the proxy it was made from is dropped. */
  lemma CloneOutlivesOriginal(cfg: Config, steps: seq<Step>, s: Sys, p: ProxyId, q: ProxyId) returns (s': Sys)
    requires RunFromStart(cfg, steps) == Some(s) && s.core.handlerAlive
    requires p in LiveProxies(steps) && q !in LiveProxies(steps)
    requires forall c <- s.core.calls.Keys :: s.core.calls[c].proxy == p ==> s.core.calls[c].pc.Returned?
    ensures Run(cfg, s, [CloneProxy(p, q), DropProxy(p), ClientProduce(true)]) == Some(s')
    ensures s'.core.handlerAlive && q in s'.core.proxies && p !in s'.core.proxies
  {
    ProxiesAreThoseLeft(cfg, steps);
    var s1 := s.(core := s.core.(proxies := s.core.proxies + {q}));
    var s2 := s.(core := s.core.(proxies := s.core.proxies + {q} - {p}));
    assert Apply(cfg, s, CloneProxy(p, q)) == Some(s1) && Apply(cfg, s1, DropProxy(p)) == Some(s2);
    var xs := [CloneProxy(p, q)] + ([DropProxy(p)] + []);
    RunNothing(cfg, s2);
    hide Apply, Run, RunFromStart;
    RunCons(cfg, s1, DropProxy(p), []);
    RunCons(cfg, s, CloneProxy(p, q), [DropProxy(p)] + []);
    RunJoinsStart(cfg, steps, s, xs, s2);
    ProxiesAreThoseLeft(cfg, steps + xs);
    GivesUpIff(cfg, steps + xs, s2, true);
    s' := Apply(cfg, s2, ClientProduce(true)).value;
    StepProxies(cfg, s2, ClientProduce(true));
    RunNothing(cfg, s');
    RunCons(cfg, s2, ClientProduce(true), []);
    RunAppend(cfg, s, xs, [ClientProduce(true)] + []);
    assert xs + ([ClientProduce(true)] + []) == [CloneProxy(p, q), DropProxy(p), ClientProduce(true)];
  }

  lemma RunJoinsStart(cfg: Config, before: seq<Step>, s: Sys, steps: seq<Step>, s': Sys)
    requires RunFromStart(cfg, before) == Some(s) && Run(cfg, s, steps) == Some(s')
    ensures RunFromStart(cfg, before + steps) == Some(s')
  {
    hide Run;
    RunAppend(cfg, Sys(InitCore(cfg), [], []), before, steps);
  }

  // --- A new call -------------------------------------------------------------------------------------

  // What the server answers to `req` after some of the requests it has handled.
  ghost predicate AnswerTo(cfg: Config, k: Core, req: Req, r: Resp) {
    exists i :: 0 <= i < |k.handled| && k.handled[i] == req && r == Answer(cfg, k.handled[..i], req)
  }

  /** On a live connection, a call can be made through any live proxy at any time, and a
      finite schedule later it returns the server's answer to its request. */
  lemma NewCallIsAnswered(cfg: Config, before: seq<Step>, s: Sys, c: CallId, p: ProxyId, req: Req)
    returns (steps: seq<Step>, s': Sys)
    requires RunFromStart(cfg, before) == Some(s) && Live(s.core) && p in LiveProxies(before) && c !in s.core.calls
    ensures Run(cfg, s, [NewCall(c, p, req)] + steps) == Some(s') && forall step <- steps :: OfSchedule(step)
    ensures c in s'.core.calls && s'.core.calls[c].pc.Returned?
    ensures var result := s'.core.calls[c].pc.result; result.Some? && AnswerTo(cfg, s'.core, req, result.value)
  {
    ProxiesAreThoseLeft(cfg, before);
    var t := s.(core := s.core.(calls := s.core.calls[c := Call(req, p, Starting, WithCaller)]));
    assert Apply(cfg, s, NewCall(c, p, req)) == Some(t);
    RunNothing(cfg, t);
    hide Apply, Run, RunFromStart;
    RunCons(cfg, s, NewCall(c, p, req), []);
    RunJoinsStart(cfg, before, s, [NewCall(c, p, req)] + [], t);
    Reachable(cfg, before + ([NewCall(c, p, req)] + []));
    steps, s' := EveryCallIsAnswered(cfg, before + ([NewCall(c, p, req)] + []), t);
    RunCons(cfg, s, NewCall(c, p, req), steps);
    ScheduleKeepsRequests(cfg, t, steps, s');
  }

  // A schedule starts no call, and changes nobody's request.
  lemma {:induction false} ScheduleKeepsRequests(cfg: Config, s: Sys, steps: seq<Step>, s': Sys)
    requires (forall step <- steps :: OfSchedule(step)) && Run(cfg, s, steps) == Some(s')
    ensures SameRequests(s.core, s'.core)
    decreases |steps|
  {
    if steps != [] {
      assert steps[0] in steps && forall step <- steps[1..] :: step in steps;
      var t := Apply(cfg, s, steps[0]).value;
      if OfCaller(steps[0]) {
        CallersKeepRequests(s.core, steps[0]) by { hide ClientStep; }
      } else {
        LoopsKeepRequests(cfg, s, steps[0]);
      }
      hide Apply;
      ScheduleKeepsRequests(cfg, t, steps[1..], s');
    }
  }

  // --- The end ------------------------------------------------------------------------------------------

  // A step that lets go of a proxy.
  lemma {:induction false} DropAll(cfg: Config, s: Sys) returns (steps: seq<Step>, s': Sys)
    requires forall c <- s.core.calls.Keys :: s.core.calls[c].pc.Returned?
    ensures Run(cfg, s, steps) == Some(s') && s' == s.(core := s.core.(proxies := {}))
    ensures forall step <- steps :: step.DropProxy?
    decreases s.core.proxies
  {
    if s.core.proxies == {} {
      RunNothing(cfg, s);
      return [], s;
    }
    var p :| p in s.core.proxies;
    var t := s.(core := s.core.(proxies := s.core.proxies - {p}));
    assert Apply(cfg, s, DropProxy(p)) == Some(t);
    var rest;
    rest, s' := DropAll(cfg, t);
    hide Apply;
    RunCons(cfg, s, DropProxy(p), rest);
    steps := [DropProxy(p)] + rest;
  }

  /** An orderly end.  From every reachable state of a live connection, all calls can
      return, the proxies be dropped, and the handler then give up by itself, with
      nobody's call cancelled: whoever was not refused has the answer to his request. */
  lemma OrderlyEnd(cfg: Config, before: seq<Step>, s: Sys) returns (steps: seq<Step>, s': Sys)
    requires RunFromStart(cfg, before) == Some(s) && Live(s.core)
    ensures (forall step <- steps :: OfSchedule(step) || step.DropProxy?) && Run(cfg, s, steps) == Some(s')
    ensures s'.core.proxies == {} && !s'.core.handlerAlive && s'.core.serverAlive
    ensures forall c <- s.core.calls.Keys :: c in s'.core.calls && s'.core.calls[c].pc.Returned?
    ensures forall c <- s.core.calls.Keys :: s.core.calls[c].writer != Finished(None) ==>
              var result := s'.core.calls[c].pc.result;
              result.Some? && OwnAnswer(cfg, s'.core, c, result.value)
  {
    hide Apply, Run, RunFromStart, Inv, OwnAnswer;
    Reachable(cfg, before);
    var xs, t := EveryCallIsAnswered(cfg, before, s);
    ScheduleKeepsRequests(cfg, s, xs, t);
    var ys, u := DropAll(cfg, t);
    RunKeeps(cfg, s, xs);
    RunKeeps(cfg, t, ys);
    s' := NothingToDrop(cfg, u);
    RunNothing(cfg, s');
    RunCons(cfg, u, ClientProduce(true), []);
    RunAppend(cfg, s, xs, ys);
    RunAppend(cfg, s, xs + ys, [ClientProduce(true)] + []);
    steps := (xs + ys) + ([ClientProduce(true)] + []);
    forall c <- s.core.calls.Keys | s.core.calls[c].writer != Finished(None)
      ensures OwnAnswer(cfg, s'.core, c, s'.core.calls[c].pc.result.value)
    {
      SameAnswers(cfg, t.core, s'.core, c, s'.core.calls[c].pc.result.value);
    }
  }

  lemma SameAnswers(cfg: Config, k: Core, k': Core, c: CallId, r: Resp)
    requires OwnAnswer(cfg, k, c, r) && k'.calls == k.calls && k'.handled == k.handled && k'.sent == k.sent
    ensures OwnAnswer(cfg, k', c, r)
  {
  }

  // Without proxies the handler gives up, and cancels nothing.
  lemma NothingToDrop(cfg: Config, s: Sys) returns (s': Sys)
    requires Inv(cfg, s) && s.core.handlerAlive && s.core.proxies == {}
    requires forall c <- s.core.calls.Keys :: s.core.calls[c].pc.Returned?
    ensures Apply(cfg, s, ClientProduce(true)) == Some(s') && s' == s.(core := s.core.(handlerAlive := false))
    ensures s.core.queue == [] && s.core.inFlight == []
  {
    NobodyQueued(cfg, s);
    hide Inv;
    DropsNothing(s.core);
    hide DropHandler;
    assert s.up + [] == s.up;
    s' := s.(core := s.core.(handlerAlive := false));
  }

  lemma NobodyQueued(cfg: Config, s: Sys)
    requires Inv(cfg, s) && forall c <- s.core.calls.Keys :: s.core.calls[c].pc.Returned?
    ensures s.core.queue == [] && s.core.inFlight == []
  {
    var k := s.core;
    hide History;
    SomeMember(k.queue);
    SomeMember(k.inFlight);
    assert forall c <- k.calls.Keys :: CallOk(k, c);
  }

  lemma DropsNothing(k: Core)
    requires k.queue == [] && k.inFlight == []
    ensures DropHandler(k) == k.(handlerAlive := false)
  {
    assert Cancel(k.calls, []) == k.calls;
    hide StrongLive, Cancel;
  }

  /** A client can be torn down at any time, and a server too: however far each caller
      is, a finite schedule of the callers' own steps then returns every call. */
  lemma TornDownAtAnyTime(cfg: Config, before: seq<Step>, s: Sys, serverFirst: bool) returns (steps: seq<Step>, s': Sys)
    requires RunFromStart(cfg, before) == Some(s) && Live(s.core)
    ensures var downs := (if serverFirst then [ServerAbort] else []) + [ClientAbort];
            Run(cfg, s, downs + steps) == Some(s') && !s'.core.handlerAlive && (serverFirst ==> !s'.core.serverAlive)
    ensures (forall step <- steps :: OfCaller(step))
    ensures forall c <- s.core.calls.Keys :: c in s'.core.calls && s'.core.calls[c].pc.Returned?
  {
    var downs := (if serverFirst then [ServerAbort] else []) + [ClientAbort];
    var t := Downs(cfg, s, serverFirst, downs);
    RunJoinsStart(cfg, before, s, downs, t);
    hide Run, RunFromStart;
    Reachable(cfg, before + downs);
    steps, s' := EveryCallEnds(cfg, before + downs, t);
    RunAppend(cfg, s, downs, steps);
    StaysDown(cfg, t, steps, s');
  }

  lemma Downs(cfg: Config, s: Sys, serverFirst: bool, downs: seq<Step>) returns (t: Sys)
    requires Live(s.core) && downs == (if serverFirst then [ServerAbort] else []) + [ClientAbort]
    ensures Run(cfg, s, downs) == Some(t) && !t.core.handlerAlive && t.core.calls.Keys == s.core.calls.Keys
    ensures t.core.serverAlive == !serverFirst
  {
    var s1 := if serverFirst then s.(core := s.core.(serverAlive := false, responses := [])) else s;
    t := s1.(core := DropHandler(s1.core));
    DroppedRequests(s1.core);
    RunNothing(cfg, t);
    assert Apply(cfg, s1, ClientAbort) == Some(t) by { hide DropHandler; }
    assert t.core.serverAlive == s1.core.serverAlive by { hide StrongLive, Cancel; }
    RunCons(cfg, s1, ClientAbort, []);
    if serverFirst {
      assert Apply(cfg, s, ServerAbort) == Some(s1) by { hide DropHandler; }
      hide Apply, Run;
      RunCons(cfg, s, ServerAbort, [ClientAbort] + []);
      assert downs == [ServerAbort] + ([ClientAbort] + []);
    } else {
      assert downs == [ClientAbort] + [];
    }
  }

  lemma {:induction false} StaysDown(cfg: Config, s: Sys, steps: seq<Step>, s': Sys)
    requires (forall step <- steps :: OfCaller(step)) && Run(cfg, s, steps) == Some(s')
    ensures SameEnds(s.core, s'.core)
    decreases |steps|
  {
    if steps != [] {
      assert steps[0] in steps && forall step <- steps[1..] :: step in steps;
      var t := Apply(cfg, s, steps[0]).value;
      assert SameEnds(s.core, t.core) by { hide StrongLive, Cancel; }
      hide Apply;
      StaysDown(cfg, t, steps[1..], s');
    }
  }

  // --- Over bytes ---------------------------------------------------------------------------------------

  function Locals(steps: seq<Step>): seq<B.ByteStep> {
    seq(|steps|, i requires 0 <= i < |steps| => B.Local(steps[i]))
  }

  // Steps of the callers touch no link.
  lemma {:induction false} LocalRun(w: B.Setup, b: B.ByteSys, s: Sys, steps: seq<Step>, s': Sys)
    requires b.core == s.core && Run(w.cfg, s, steps) == Some(s')
    requires forall step <- steps :: OfCaller(step) || step == ClientAbort
    ensures B.Run(w, b, Locals(steps)) == Some(b.(core := s'.core))
    decreases |steps|
  {
    if steps != [] {
      assert steps[0] in steps && forall step <- steps[1..] :: step in steps;
      var t := Apply(w.cfg, s, steps[0]).value;
      var c := b.(core := t.core);
      assert B.Apply(w, b, B.Local(steps[0])) == Some(c) by { hide ClientStep; }
      assert Locals(steps)[0] == B.Local(steps[0]) && Locals(steps)[1..] == Locals(steps[1..]);
      hide Apply, B.Apply;
      LocalRun(w, c, t, steps[1..], s');
    }
  }

  /** Over bytes too, both ends can be torn down in every reachable state of a live
      connection, whatever is on its way, and a finite schedule of the callers' own steps
      then returns every call. */
  lemma TornDownOverBytes(w: B.Setup, before: seq<B.ByteStep>, b: B.ByteSys)
      returns (steps: seq<B.ByteStep>, b': B.ByteSys)
    requires w.Valid() && B.Run(w, B.Start(w), before) == Some(b) && Live(b.core)
    ensures B.Run(w, b, [B.ServerDown] + steps) == Some(b') && !b'.core.handlerAlive && !b'.core.serverAlive
    ensures forall step <- steps :: step.Local? && (OfCaller(step.step) || step.step == ClientAbort)
    ensures forall c <- b.core.calls.Keys :: c in b'.core.calls && b'.core.calls[c].pc.Returned?
  {
    B.BytesRefineQueues(w, before);
    var queued := B.MeaningOfRun(w, B.Start(w), before);
    var s := RunFromStart(w.cfg, queued).value;
    assert b.core == s.core;
    hide B.Run, Run, RunFromStart, B.Refines, B.MeaningOfRun;
    var rest, s' := TornDownAtAnyTime(w.cfg, queued, s, true);
    var t := ServerGoes(w, b, s);
    assert [ServerAbort] + [ClientAbort] + rest == [ServerAbort] + ([ClientAbort] + rest);
    RunCons(w.cfg, s, ServerAbort, [ClientAbort] + rest);
    var b1 := b.(core := t.core);
    hide Apply, B.Apply;
    LocalRun(w, b1, t, [ClientAbort] + rest, s');
    steps := Locals([ClientAbort] + rest);
    b' := b1.(core := s'.core);
    B.ByteRunCons(w, b, B.ServerDown, b1, steps);
  }

  lemma ServerGoes(w: B.Setup, b: B.ByteSys, s: Sys) returns (t: Sys)
    requires b.core == s.core && s.core.serverAlive
    ensures Apply(w.cfg, s, ServerAbort) == Some(t) && B.Apply(w, b, B.ServerDown) == Some(b.(core := t.core))
  {
    t := s.(core := s.core.(serverAlive := false, responses := []));
  }
}
