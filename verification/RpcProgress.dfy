/** A live connection answers: from any reachable state there is a schedule, of steps
    that callers and event loops take by themselves, after which every call has returned
    with the server's answer to its own request.  Over queues, and over bytes. */
module RpcProgress {
  import opened Wire
  import opened Codec
  import L = Link
  import opened Rpc
  import opened RpcSafety
  import opened RpcTheorems
  import opened RpcLiveness
  import B = RpcBytes

  predicate Live(k: Core) {
    k.handlerAlive && k.serverAlive
  }

  // A step of one of the event loops: an item is produced and encoded, or decoded and consumed.
  predicate OfLoop(step: Step) {
    step == ClientProduce(true) || step.ClientConsume? || step.ServerConsume? || step == ServerProduce(true)
  }

  predicate OfSchedule(step: Step) {
    OfCaller(step) || OfLoop(step)
  }

  // How many such steps the messages on their way still take.
  function Work(s: Sys): nat {
    4 * |s.core.queue| + 3 * |s.up| + 2 * |s.core.responses| + |s.down|
  }

  function NextOfLoop(s: Sys): Step {
    if s.down != [] then ClientConsume
    else if s.core.responses != [] then ServerProduce(true)
    else if s.up != [] then ServerConsume
    else ClientProduce(true)
  }

  // A step of a loop brings one message further, and moves no caller.
  ghost predicate Brings(s: Sys, s': Sys) {
    Live(s'.core) && Work(s') < Work(s) && Early(s'.core) == Early(s.core) && Kept(s.core, s'.core)
  }

  lemma EarlyFrame(k: Core, k': Core)
    requires k'.calls.Keys == k.calls.Keys && forall c <- k.calls.Keys :: k'.calls[c].pc == k.calls[c].pc
    ensures Early(k') == Early(k)
  {
  }

  // A response on its way has its call in flight.
  lemma FirstInFlight(cfg: Config, s: Sys)
    requires Inv(cfg, s) && Live(s.core) && s.down != []
    ensures var k := s.core; k.inFlight != [] && k.inFlight[0] in k.calls
  {
    var k := s.core;
    hide Shape, Completed, Answers;
    assert |k.inFlight| == |k.sent| - k.done && k.done + |s.down| <= |k.answers| <= |k.sent|;
    assert k.inFlight[0] == k.sent[k.done] && k.sent[k.done] in k.sent;
  }

  lemma ConsumeMoves(k: Core, resp: Resp)
    requires k.inFlight != [] && k.inFlight[0] in k.calls
    ensures var k' := Consume(k, resp);
            && SameEnds(k, k') && (Live(k) ==> Live(k')) && k'.queue == k.queue && k'.responses == k.responses
               && Kept(k, k')
            && k'.calls.Keys == k.calls.Keys && forall c <- k.calls.Keys :: k'.calls[c].pc == k.calls[c].pc
  {
  }

  lemma ConsumeBrings(cfg: Config, s: Sys)
    requires Inv(cfg, s) && Live(s.core) && s.down != []
    ensures var s' := Apply(cfg, s, ClientConsume); s'.Some? && Brings(s, s'.value)
  {
    FirstInFlight(cfg, s);
    hide Inv;
    ConsumeMoves(s.core, s.down[0]);
    EarlyFrame(s.core, Consume(s.core, s.down[0]));
    hide Early, Kept, SameEnds, Consume, ClientStep, Produce, Serve, Reply;
    var s' := s.(core := Consume(s.core, s.down[0]), down := s.down[1..]);
    assert Apply(cfg, s, ClientConsume) == Some(s');
    hide Apply;
  }

  // A queued request has its call, whose proxy is live.
  lemma FirstQueued(cfg: Config, s: Sys)
    requires Inv(cfg, s) && s.core.queue != []
    ensures var k := s.core; k.queue[0] in k.calls && k.calls[k.queue[0]].writer == Queued && k.proxies != {}
  {
    var k := s.core;
    hide History;
    assert k.queue[0] in k.queue && CallOk(k, k.queue[0]);
  }

  lemma ProduceBrings(cfg: Config, s: Sys)
    requires Inv(cfg, s) && Live(s.core) && s.core.queue != []
    ensures var s' := Apply(cfg, s, ClientProduce(true)); s'.Some? && Brings(s, s'.value)
  {
    FirstQueued(cfg, s);
    hide Inv;
    EarlyFrame(s.core, Produce(s.core, true).core);
    hide Early;
  }

  lemma ServerBrings(cfg: Config, s: Sys)
    requires Live(s.core)
    ensures s.up != [] ==> var s' := Apply(cfg, s, ServerConsume); s'.Some? && Brings(s, s'.value)
    ensures s.core.responses != [] ==> var s' := Apply(cfg, s, ServerProduce(true)); s'.Some? && Brings(s, s'.value)
  {
    assert Early(s.core.(responses := [])) == Early(s.core);
  }

  // Everything on its way arrives.
  lemma {:induction false} Drains(cfg: Config, s: Sys) returns (steps: seq<Step>, s': Sys)
    requires Inv(cfg, s) && Live(s.core)
    ensures Run(cfg, s, steps) == Some(s') && Inv(cfg, s') && Live(s'.core) && Work(s') == 0
    ensures (forall step <- steps :: OfLoop(step)) && Early(s'.core) == Early(s.core) && Kept(s.core, s'.core)
    decreases Work(s)
  {
    if Work(s) == 0 {
      RunNothing(cfg, s);
      return [], s;
    }
    var step := NextOfLoop(s);
    if s.down != [] { ConsumeBrings(cfg, s); }
    else if s.core.responses != [] || s.up != [] { ServerBrings(cfg, s); }
    else { ProduceBrings(cfg, s); }
    StepKeeps(cfg, s, step);
    hide Inv, Apply, Run, Early, Work;
    var t := Apply(cfg, s, step).value;
    var rest;
    rest, s' := Drains(cfg, t);
    RunCons(cfg, s, step, rest);
    steps := [step] + rest;
  }

  // One by one the callers get as far as `wait`, and none finds the queue full.
  lemma {:induction false} AllWaitAndDrain(cfg: Config, s: Sys) returns (steps: seq<Step>, s': Sys)
    requires Inv(cfg, s) && Live(s.core) && Work(s) == 0
    ensures Run(cfg, s, steps) == Some(s') && Inv(cfg, s') && Live(s'.core) && Work(s') == 0
    ensures (forall step <- steps :: OfSchedule(step)) && Early(s'.core) == {} && Kept(s.core, s'.core)
    decreases Early(s.core)
  {
    hide Inv, Run;
    if Early(s.core) == {} {
      RunNothing(cfg, s);
      return [], s;
    }
    var c :| c in Early(s.core);
    assert HasRoom(s.core, c);
    hide Early;
    var xs, t := ReachesWait(cfg, s, c);
    var ys, u := Drains(cfg, t);
    var zs;
    zs, s' := AllWaitAndDrain(cfg, u);
    RunAppend(cfg, s, xs, ys);
    RunAppend(cfg, s, xs + ys, zs);
    steps := (xs + ys) + zs;
  }

  lemma AllAreSet(cfg: Config, s: Sys)
    requires Inv(cfg, s) && Live(s.core) && Work(s) == 0 && Early(s.core) == {}
    ensures AllSet(s.core)
  {
    var k := s.core;
    AllAnswered(cfg, s);
    hide History;
    forall c <- k.calls.Keys
      ensures k.calls[c].writer.Finished?
    {
      assert CallOk(k, c) && c !in Early(k) && c !in k.queue && c !in k.inFlight;
    }
  }

  /** From every reachable state of a live connection there is a finite schedule, of
      callers' steps and of items that the event loops encode and decode, after which
      every call has returned; and every call that was not refused by a full queue
      returns the server's answer to its own request. */
  lemma EveryCallIsAnswered(cfg: Config, before: seq<Step>, s: Sys) returns (steps: seq<Step>, s': Sys)
    requires RunFromStart(cfg, before) == Some(s) && Live(s.core)
    ensures (forall step <- steps :: OfSchedule(step)) && Run(cfg, s, steps) == Some(s') && Live(s'.core)
    ensures forall c <- s.core.calls.Keys :: c in s'.core.calls && s'.core.calls[c].pc.Returned?
    ensures forall c <- s.core.calls.Keys :: s.core.calls[c].writer != Finished(None) ==>
              var result := s'.core.calls[c].pc.result;
              result.Some? && OwnAnswer(cfg, s'.core, c, result.value)
  {
    Reachable(cfg, before);
    hide Run, Inv, RunFromStart, Work;
    var xs, t := Drains(cfg, s);
    var ys, u := AllWaitAndDrain(cfg, t);
    AllAreSet(cfg, u);
    var zs;
    zs, s' := AllReturn(cfg, u);
    RunAppend(cfg, s, xs, ys);
    RunAppend(cfg, s, xs + ys, zs);
    steps := (xs + ys) + zs;
    forall c <- s.core.calls.Keys
      ensures c in s'.core.calls && s'.core.calls[c].pc.Returned?
      ensures s.core.calls[c].writer != Finished(None) ==>
                var result := s'.core.calls[c].pc.result;
                result.Some? && OwnAnswer(cfg, s'.core, c, result.value)
    {
      assert c in t.core.calls && c in u.core.calls && c in s'.core.calls;
      assert c !in Unreturned(s'.core);
      ReturnsItsWriter(cfg, s', c);
      if s.core.calls[c].writer != Finished(None) {
        OwnAnswerFromInv(cfg, s', c, s'.core.calls[c].pc.result.value);
      }
    }
  }

  // --- Over bytes ---------------------------------------------------------------------------------------

  // The requests of all calls can be serialized, and whatever the server answers to them.
  ghost predicate AllEncode(w: B.Setup, k: Core) {
    && (forall c <- k.calls.Keys :: w.reqs.ser(k.calls[c].req).Some?)
    && (forall state, c :: c in k.calls ==> w.resps.ser(w.cfg.process(state, k.calls[c].req).1).Some?)
  }

  // Requests never change, and a schedule starts no call.
  ghost predicate SameRequests(k: Core, k': Core) {
    k'.calls.Keys == k.calls.Keys && forall c <- k.calls.Keys :: k'.calls[c].req == k.calls[c].req
  }

  lemma CallersKeepRequests(k: Core, step: Step)
    requires OfCaller(step) && ClientStep(k, step).Some?
    ensures SameRequests(k, ClientStep(k, step).value)
  {
    hide StrongLive;
  }

  lemma DroppedRequests(k: Core)
    ensures SameRequests(k, DropHandler(k))
  {
    hide StrongLive;
  }

  lemma LoopsKeepRequests(cfg: Config, s: Sys, step: Step)
    requires OfLoop(step) && Apply(cfg, s, step).Some?
    ensures SameRequests(s.core, Apply(cfg, s, step).value.core)
  {
    DroppedRequests(s.core);
    hide DropHandler;
  }

  lemma StillEncodes(w: B.Setup, s: Sys, step: Step)
    requires AllEncode(w, s.core) && OfSchedule(step) && Apply(w.cfg, s, step).Some?
    ensures AllEncode(w, Apply(w.cfg, s, step).value.core)
  {
    if OfCaller(step) {
      hide ClientStep;
      CallersKeepRequests(s.core, step);
    } else {
      LoopsKeepRequests(w.cfg, s, step);
    }
    hide Apply;
  }

  // The next response is an answer to the request of a call.
  lemma NextResponse(w: B.Setup, s: Sys)
    requires Inv(w.cfg, s) && AllEncode(w, s.core) && s.core.responses != []
    ensures w.resps.ser(s.core.responses[0]).Some?
  {
    var i := OldestResponse(w.cfg, s);
    hide Inv;
  }

  lemma OldestResponse(cfg: Config, s: Sys) returns (i: nat)
    requires Inv(cfg, s) && s.core.responses != []
    ensures var k := s.core;
            && i < |k.handled| && i < |k.sent| && k.sent[i] in k.calls
            && k.responses[0] == cfg.process(ServerAfter(cfg, k.handled[..i]), k.calls[k.sent[i]].req).1
  {
    var k := s.core;
    i := k.done + |s.down|;
    hide Shape, ServerAfter;
    assert i < |k.handled| && k.responses[0] == k.answers[i] by { hide Completed, Answers; }
    assert k.sent[i] in k.sent;
    hide Completed, Wires;
  }

  // What neither callers nor loops do: start a call, drop a proxy, tear anything down.
  predicate ByteOfSchedule(step: B.ByteStep) {
    match step
    case Local(t) => OfCaller(t)
    case ServerDown => false
    case _ => true
  }

  lemma ByteRunOne(w: B.Setup, b: B.ByteSys, step: B.ByteStep)
    ensures B.Run(w, b, [step]) == B.Apply(w, b, step)
  {
    hide B.Apply;
    assert [step][1..] == [];
    assert forall b1 :: B.Run(w, b1, []) == Some(b1);
  }

  // All bytes cross the pipe, and the oldest message is decoded.
  lemma RequestArrives(w: B.Setup, b: B.ByteSys, s: Sys) returns (steps: seq<B.ByteStep>, b': B.ByteSys)
    requires w.Valid() && B.Refines(w, b, s) && Live(s.core) && s.up != []
    ensures (forall step <- steps :: ByteOfSchedule(step)) && B.Run(w, b, steps) == Some(b')
    ensures Apply(w.cfg, s, ServerConsume).Some? && B.Refines(w, b', Apply(w.cfg, s, ServerConsume).value)
  {
    var n, m := |b.up.outbound|, |b.up.pipe| + |b.up.outbound|;
    var b1 := b.(up := L.Send(b.up, n));
    var b2 := b1.(up := L.Recv(b1.up, m));
    assert B.Apply(w, b, B.ClientSend(n)) == Some(b1) && B.Apply(w, b1, B.ServerRecv(m)) == Some(b2);
    L.TransferKeeps(w.reqs, b.up, s.up, n);
    L.TransferKeeps(w.reqs, b1.up, s.up, m);
    assert b2.up.outbound == [] && b2.up.pipe == [];
    L.ArrivedIsDecodable(w.reqs, b2.up, s.up);
    B.StepRefines(w, b2, s, B.ServerDecode);
    B.RunOne(w.cfg, s, ServerConsume);
    b' := B.Apply(w, b2, B.ServerDecode).value;
    hide B.Apply, B.Refines, B.Run;
    steps := Three(w, b, B.ClientSend(n), b1, B.ServerRecv(m), b2, B.ServerDecode, b');
  }

  lemma ResponseArrives(w: B.Setup, b: B.ByteSys, s: Sys) returns (steps: seq<B.ByteStep>, b': B.ByteSys)
    requires w.Valid() && B.Refines(w, b, s) && Live(s.core) && s.down != []
    ensures (forall step <- steps :: ByteOfSchedule(step)) && B.Run(w, b, steps) == Some(b')
    ensures Apply(w.cfg, s, ClientConsume).Some? && B.Refines(w, b', Apply(w.cfg, s, ClientConsume).value)
  {
    var n, m := |b.down.outbound|, |b.down.pipe| + |b.down.outbound|;
    var b1 := b.(down := L.Send(b.down, n));
    var b2 := b1.(down := L.Recv(b1.down, m));
    assert B.Apply(w, b, B.ServerSend(n)) == Some(b1) && B.Apply(w, b1, B.ClientRecv(m)) == Some(b2);
    L.TransferKeeps(w.resps, b.down, s.down, n);
    L.TransferKeeps(w.resps, b1.down, s.down, m);
    assert b2.down.outbound == [] && b2.down.pipe == [];
    L.ArrivedIsDecodable(w.resps, b2.down, s.down);
    B.StepRefines(w, b2, s, B.ClientDecode);
    B.RunOne(w.cfg, s, ClientConsume);
    b' := B.Apply(w, b2, B.ClientDecode).value;
    hide B.Apply, B.Refines, B.Run;
    steps := Three(w, b, B.ServerSend(n), b1, B.ClientRecv(m), b2, B.ClientDecode, b');
  }

  lemma Three(w: B.Setup, b: B.ByteSys, x: B.ByteStep, b1: B.ByteSys, y: B.ByteStep, b2: B.ByteSys, z: B.ByteStep,
      b3: B.ByteSys)
    returns (steps: seq<B.ByteStep>)
    requires B.Apply(w, b, x) == Some(b1) && B.Apply(w, b1, y) == Some(b2) && B.Apply(w, b2, z) == Some(b3)
    ensures B.Run(w, b, steps) == Some(b3) && forall step <- steps :: step == x || step == y || step == z
  {
    hide B.Apply, B.Run;
    ByteRunOne(w, b, x);
    ByteRunOne(w, b1, y);
    ByteRunOne(w, b2, z);
    B.ByteRunAppend(w, b, [x], [y]);
    B.ByteRunAppend(w, b, [x] + [y], [z]);
    steps := ([x] + [y]) + [z];
  }

  // A step that is one byte-level step.
  lemma OneStep(w: B.Setup, b: B.ByteSys, s: Sys, step: Step) returns (steps: seq<B.ByteStep>, b': B.ByteSys)
    requires w.Valid() && AllEncode(w, s.core) && Inv(w.cfg, s) && B.Refines(w, b, s) && Apply(w.cfg, s, step).Some?
    requires OfCaller(step) || step == ClientProduce(true) || step == ServerProduce(true)
    ensures (forall x <- steps :: ByteOfSchedule(x)) && B.Run(w, b, steps) == Some(b')
    ensures B.Refines(w, b', Apply(w.cfg, s, step).value)
  {
    var x := if OfCaller(step) then B.Local(step) else if step.ClientProduce? then B.ClientEncode else B.ServerEncode;
    SameMeaning(w, b, s, step, x);
    hide B.Apply, Apply, B.Meaning, AllEncode, Inv, B.Refines;
    b' := B.Apply(w, b, x).value;
    B.StepRefines(w, b, s, x);
    ByteRunOne(w, b, x);
    steps := [x];
  }

  lemma SameMeaning(w: B.Setup, b: B.ByteSys, s: Sys, step: Step, x: B.ByteStep)
    requires AllEncode(w, s.core) && Inv(w.cfg, s) && b.core == s.core
    requires x == if OfCaller(step) then B.Local(step) else if step.ClientProduce? then B.ClientEncode
             else B.ServerEncode
    requires OfCaller(step) || step == ClientProduce(true) || step == ServerProduce(true)
    requires Apply(w.cfg, s, step).Some?
    ensures Run(w.cfg, s, B.Meaning(w, b, x)) == Apply(w.cfg, s, step) && B.Apply(w, b, x).Some?
  {
    var y := if OfCaller(step) then step else if step.ClientProduce?
             then ClientProduce(B.NextRequestEncodes(w, b.core)) else ServerProduce(B.NextResponseEncodes(w, b.core));
    assert B.Meaning(w, b, x) == [y];
    if s.core.responses != [] { NextResponse(w, s); }
    hide Inv, B.Meaning, DropHandler, SetCall;
    assert Apply(w.cfg, s, y) == Apply(w.cfg, s, step);
    assert B.Apply(w, b, x).Some? by { hide AllEncode; }
    hide Apply, B.Apply;
    B.RunOne(w.cfg, s, y);
  }

  // A step never brings a torn-down end back.
  lemma LiveBefore(cfg: Config, s: Sys, step: Step)
    requires Apply(cfg, s, step).Some? && Live(Apply(cfg, s, step).value.core)
    ensures Live(s.core)
  {
    hide StrongLive, Cancel;
  }

  lemma {:induction false} LiveThroughout(cfg: Config, s: Sys, steps: seq<Step>)
    requires Run(cfg, s, steps).Some? && Live(Run(cfg, s, steps).value.core)
    ensures Live(s.core)
    decreases |steps|
  {
    hide Apply, Live;
    if steps != [] {
      LiveThroughout(cfg, Apply(cfg, s, steps[0]).value, steps[1..]);
      LiveBefore(cfg, s, steps[0]);
    }
  }

  // A schedule over queues can be followed over bytes.
  lemma {:induction false} Follows(w: B.Setup, b: B.ByteSys, s: Sys, steps: seq<Step>)
      returns (xs: seq<B.ByteStep>, b': B.ByteSys)
    requires w.Valid() && AllEncode(w, s.core) && Inv(w.cfg, s) && B.Refines(w, b, s)
             && forall step <- steps :: OfSchedule(step)
    requires Run(w.cfg, s, steps).Some? && Live(Run(w.cfg, s, steps).value.core)
    ensures (forall x <- xs :: ByteOfSchedule(x)) && B.Run(w, b, xs) == Some(b')
    ensures B.Refines(w, b', Run(w.cfg, s, steps).value)
    decreases |steps|
  {
    if steps == [] {
      assert B.Run(w, b, []) == Some(b);
      return [], b;
    }
    var step := steps[0];
    assert step in steps && forall x <- steps[1..] :: x in steps;
    LiveThroughout(w.cfg, s, steps);
    var t := Apply(w.cfg, s, step).value;
    StillEncodes(w, s, step);
    StepKeeps(w.cfg, s, step);
    assert step == ServerConsume ==> s.up != [];
    assert step == ClientConsume ==> s.down != [];
    hide Apply, B.Apply, B.Refines, B.Run, Live, AllEncode, Inv;
    var ys, b1;
    if step == ServerConsume {
      ys, b1 := RequestArrives(w, b, s);
    } else if step == ClientConsume {
      ys, b1 := ResponseArrives(w, b, s);
    } else {
      ys, b1 := OneStep(w, b, s, step);
    }
    var zs;
    zs, b' := Follows(w, b1, t, steps[1..]);
    B.ByteRunAppend(w, b, ys, zs);
    xs := ys + zs;
  }

  /** Over bytes, in whatever pieces they have travelled so far: from every reachable
      state of a live connection there is a finite schedule after which every call has
      returned, with the server's answer to its own request unless a full queue had
      refused it. */
  lemma EveryByteCallIsAnswered(w: B.Setup, before: seq<B.ByteStep>, b: B.ByteSys)
      returns (steps: seq<B.ByteStep>, b': B.ByteSys)
    requires w.Valid() && AllEncode(w, b.core) && B.Run(w, B.Start(w), before) == Some(b) && Live(b.core)
    ensures (forall step <- steps :: ByteOfSchedule(step)) && B.Run(w, b, steps) == Some(b') && Live(b'.core)
    ensures forall c <- b.core.calls.Keys :: c in b'.core.calls && b'.core.calls[c].pc.Returned?
    ensures forall c <- b.core.calls.Keys :: b.core.calls[c].writer != Finished(None) ==>
              var result := b'.core.calls[c].pc.result;
              result.Some? && OwnAnswer(w.cfg, b'.core, c, result.value)
  {
    B.BytesRefineQueues(w, before);
    var queued := B.MeaningOfRun(w, B.Start(w), before);
    var s := RunFromStart(w.cfg, queued).value;
    Reachable(w.cfg, queued);
    hide B.Run, Run, RunFromStart, L.Carries, OwnAnswer, Inv;
    var xs, s' := EveryCallIsAnswered(w.cfg, queued, s);
    steps, b' := Follows(w, b, s, xs);
  }
}
