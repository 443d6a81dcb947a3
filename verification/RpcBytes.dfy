/** The same RPC system with real connections: requests and responses are
    encoded into outbound buffers, cross the pipe in pieces of any size, and are
    decoded from inbound buffers.  The byte system refines the queue system of
    module Rpc, so every claim about calls carries over. */
module RpcBytes {
  import opened Wire
  import opened Codec
  import L = Link
  import opened Rpc
  import opened RpcSafety
  import opened RpcTheorems

  datatype Setup = Setup(cfg: Config, reqs: Serde<Req>, resps: Serde<Resp>) {
    ghost predicate Valid() { Sound(reqs) && Sound(resps) }
  }

  datatype ByteSys = ByteSys(core: Core, up: L.Link, down: L.Link, corrupt: bool)

  // One atomic step.  Each side is a single event-loop thread, so produce,
  // decode, send and receive are separate steps that interleave freely.
  datatype ByteStep =
    | Local(step: Step)        // a step of a caller, or the client tearing down
    | ClientEncode
    | ClientSend(n: nat)
    | ServerRecv(n: nat)
    | ServerDecode
    | ServerEncode
    | ServerSend(n: nat)
    | ClientRecv(n: nat)
    | ClientDecode
    | ServerDown

  predicate NextRequestEncodes(w: Setup, k: Core) {
    k.queue != [] && k.queue[0] in k.calls && w.reqs.ser(k.calls[k.queue[0]].req).Some?
  }

  predicate NextResponseEncodes(w: Setup, k: Core) {
    k.responses != [] && w.resps.ser(k.responses[0]).Some?
  }

  // An item `produce` handed out, appended to the outbound buffer.
  function Put<M>(sd: Serde<M>, l: L.Link, msg: Option<M>): L.Link {
    if msg.Some? && sd.ser(msg.value).Some? then L.Encode(l, sd.ser(msg.value).value) else l
  }

  function Apply(w: Setup, b: ByteSys, step: ByteStep): Option<ByteSys> {
    match step
    case Local(t) =>
      var k := ClientStep(b.core, t);
      if k.Some? then Some(b.(core := k.value)) else None
    case ClientEncode =>
      if !b.core.handlerAlive then None
      else
        var p := Produce(b.core, NextRequestEncodes(w, b.core));
        Some(b.(core := p.core, up := Put(w.reqs, b.up, p.msg)))
    case ClientSend(n) =>
      if !b.core.handlerAlive || n > |b.up.outbound| then None else Some(b.(up := L.Send(b.up, n)))
    case ServerRecv(n) =>
      if !b.core.serverAlive || n > |b.up.pipe| then None else Some(b.(up := L.Recv(b.up, n)))
    case ServerDecode =>
      if !b.core.serverAlive then None
      else
        var d := DecodeOnce(w.reqs, b.up.state, b.up.inbound);
        var up := L.AfterDecode(b.up, d);
        (match d.outcome
         case More => Some(b.(up := up))
         case Item(req) => Some(b.(core := Serve(w.cfg, b.core, req), up := up))
         case Fail(_) => Some(b.(core := b.core.(serverAlive := false, responses := []), up := up, corrupt := true)))
    case ServerEncode =>
      if !b.core.serverAlive then None
      else
        var p := Reply(b.core, NextResponseEncodes(w, b.core));
        Some(b.(core := p.core, down := Put(w.resps, b.down, p.msg)))
    case ServerSend(n) =>
      if !b.core.serverAlive || n > |b.down.outbound| then None else Some(b.(down := L.Send(b.down, n)))
    case ClientRecv(n) =>
      if !b.core.handlerAlive || n > |b.down.pipe| then None else Some(b.(down := L.Recv(b.down, n)))
    case ClientDecode =>
      if !b.core.handlerAlive then None
      else
        var d := DecodeOnce(w.resps, b.down.state, b.down.inbound);
        var down := L.AfterDecode(b.down, d);
        (match d.outcome
         case More => Some(b.(down := down))
         case Item(resp) => Some(b.(core := Consume(b.core, resp), down := down))
         case Fail(_) => Some(b.(core := DropHandler(b.core), down := down, corrupt := true)))
    case ServerDown =>
      if b.core.serverAlive then Some(b.(core := b.core.(serverAlive := false, responses := []))) else None
  }

  function Run(w: Setup, b: ByteSys, steps: seq<ByteStep>): Option<ByteSys>
    decreases |steps|
  {
    if steps == [] then Some(b)
    else match Apply(w, b, steps[0])
         case None => None
         case Some(t) => Run(w, t, steps[1..])
  }

  lemma ByteRunCons(w: Setup, b: ByteSys, step: ByteStep, b1: ByteSys, rest: seq<ByteStep>)
    requires Apply(w, b, step) == Some(b1)
    ensures Run(w, b, [step] + rest) == Run(w, b1, rest)
  {
    hide Apply;
    assert ([step] + rest)[1..] == rest;
  }

  lemma {:induction false} ByteRunAppend(w: Setup, b: ByteSys, xs: seq<ByteStep>, ys: seq<ByteStep>)
    requires Run(w, b, xs).Some?
    ensures Run(w, b, xs + ys) == Run(w, Run(w, b, xs).value, ys)
    decreases |xs|
  {
    hide Apply;
    if xs == [] {
      assert xs + ys == ys;
    } else {
      assert (xs + ys)[1..] == xs[1..] + ys;
      ByteRunAppend(w, Apply(w, b, xs[0]).value, xs[1..], ys);
    }
  }

  function Start(w: Setup): ByteSys {
    ByteSys(InitCore(w.cfg), L.EmptyLink, L.EmptyLink, false)
  }

  // --- Refinement ------------------------------------------------------------------------

  // The two ends agree, and each link carries exactly the messages in the FIFO.
  ghost predicate Refines(w: Setup, b: ByteSys, s: Sys) {
    && b.core == s.core && !b.corrupt
    && L.Carries(w.reqs, b.up, s.up)
    && L.Carries(w.resps, b.down, s.down)
  }

  // The queue-level steps that a byte-level step amounts to: one, or none.
  function Meaning(w: Setup, b: ByteSys, step: ByteStep): seq<Step> {
    match step
    case Local(t) => [t]
    case ClientEncode => [ClientProduce(NextRequestEncodes(w, b.core))]
    case ServerEncode => [ServerProduce(NextResponseEncodes(w, b.core))]
    case ServerDecode =>
      if DecodeOnce(w.reqs, b.up.state, b.up.inbound).outcome.Item? then [ServerConsume] else []
    case ClientDecode =>
      if DecodeOnce(w.resps, b.down.state, b.down.inbound).outcome.Item? then [ClientConsume] else []
    case ServerDown => [ServerAbort]
    case _ => []
  }

  lemma RunOne(cfg: Config, s: Sys, step: Step)
    ensures Rpc.Run(cfg, s, [step]) == Rpc.Apply(cfg, s, step)
  {
    assert Rpc.Run(cfg, s, [step]) ==
           match Rpc.Apply(cfg, s, step) case None => None case Some(t) => Rpc.Run(cfg, t, []);
  }

  lemma PutRefines<M(!new)>(sd: Serde<M>, l: L.Link, msgs: seq<M>, msg: Option<M>)
    requires L.Carries(sd, l, msgs)
    requires msg.Some? ==> sd.ser(msg.value).Some?
    ensures L.Carries(sd, Put(sd, l, msg), msgs + Opt(msg))
  {
    if msg.Some? {
      L.EncodeAppends(sd, l, msgs, msg.value);
    } else {
      assert msgs + [] == msgs;
    }
  }

  lemma DecodeRefines(w: Setup, b: ByteSys, s: Sys, step: ByteStep)
    requires w.Valid() && Refines(w, b, s) && Apply(w, b, step).Some?
    requires step.ServerDecode? || step.ClientDecode?
    ensures var s' := Rpc.Run(w.cfg, s, Meaning(w, b, step));
            s'.Some? && Refines(w, Apply(w, b, step).value, s'.value)
  {
    hide DecodeOnce, L.Carries, Serve, Consume, DropHandler;
    RunOne(w.cfg, s, ServerConsume);
    RunOne(w.cfg, s, ClientConsume);
    if step.ServerDecode? {
      L.DecodeIsPop(w.reqs, b.up, s.up);
    } else {
      L.DecodeIsPop(w.resps, b.down, s.down);
    }
  }

  lemma StepRefines(w: Setup, b: ByteSys, s: Sys, step: ByteStep)
    requires w.Valid() && Refines(w, b, s) && Apply(w, b, step).Some?
    ensures var s' := Rpc.Run(w.cfg, s, Meaning(w, b, step));
            s'.Some? && Refines(w, Apply(w, b, step).value, s'.value)
  {
    hide DecodeOnce, L.Carries, Serve, Consume, DropHandler;
    match step
    case Local(t) => RunOne(w.cfg, s, t);
    case ServerDown => RunOne(w.cfg, s, ServerAbort);
    case ClientEncode =>
      RunOne(w.cfg, s, ClientProduce(NextRequestEncodes(w, b.core)));
      PutRefines(w.reqs, b.up, s.up, Produce(b.core, NextRequestEncodes(w, b.core)).msg);
    case ServerEncode =>
      RunOne(w.cfg, s, ServerProduce(NextResponseEncodes(w, b.core)));
      PutRefines(w.resps, b.down, s.down, Reply(b.core, NextResponseEncodes(w, b.core)).msg);
    case ServerDecode => DecodeRefines(w, b, s, step);
    case ClientDecode => DecodeRefines(w, b, s, step);
    case ClientSend(n) => L.TransferKeeps(w.reqs, b.up, s.up, n);
    case ServerRecv(n) => L.TransferKeeps(w.reqs, b.up, s.up, n);
    case ServerSend(n) => L.TransferKeeps(w.resps, b.down, s.down, n);
    case ClientRecv(n) => L.TransferKeeps(w.resps, b.down, s.down, n);
  }

  // The queue-level run that a byte-level run amounts to.
  function MeaningOfRun(w: Setup, b: ByteSys, steps: seq<ByteStep>): seq<Step>
    decreases |steps|
  {
    if steps == [] || Apply(w, b, steps[0]).None? then []
    else Meaning(w, b, steps[0]) + MeaningOfRun(w, Apply(w, b, steps[0]).value, steps[1..])
  }

  lemma {:induction false} RunRefines(w: Setup, b: ByteSys, s: Sys, steps: seq<ByteStep>)
    requires w.Valid() && Refines(w, b, s) && Run(w, b, steps).Some?
    ensures var s' := Rpc.Run(w.cfg, s, MeaningOfRun(w, b, steps));
            s'.Some? && Refines(w, Run(w, b, steps).value, s'.value)
    decreases |steps|
  {
    hide Apply, Meaning, Refines;
    if steps != [] {
      StepRefines(w, b, s, steps[0]);
      var b1, s1 := Apply(w, b, steps[0]).value, Rpc.Run(w.cfg, s, Meaning(w, b, steps[0])).value;
      RunRefines(w, b1, s1, steps[1..]);
      RunAppend(w.cfg, s, Meaning(w, b, steps[0]), MeaningOfRun(w, b1, steps[1..]));
    }
  }

  /** Every byte-level run, however the pipe cuts the bytes, is a queue-level
      run: same callers, same server, and the bytes in each direction are
      exactly the frames of the messages still in that FIFO. */
  lemma BytesRefineQueues(w: Setup, steps: seq<ByteStep>)
    requires w.Valid() && Run(w, Start(w), steps).Some?
    ensures var s := RunFromStart(w.cfg, MeaningOfRun(w, Start(w), steps));
            s.Some? && Refines(w, Run(w, Start(w), steps).value, s.value)
  {
    RunRefines(w, Start(w), Sys(InitCore(w.cfg), [], []), steps);
  }

  /** End to end over bytes: a call that returns Ok returns the server's answer
      to its own request, the codec never meets a malformed frame, and no
      response arrives without a call to receive it. */
  lemma ByteCallsGetTheirOwnAnswers(w: Setup, steps: seq<ByteStep>)
    requires w.Valid() && Run(w, Start(w), steps).Some?
    ensures var b := Run(w, Start(w), steps).value;
            && (forall c, r :: c in b.core.calls && b.core.calls[c].pc == Returned(Some(r)) ==>
               OwnAnswer(w.cfg, b.core, c, r))
            && (forall i :: 0 <= i < |b.core.handled| ==>
                  i < |b.core.sent| && b.core.sent[i] in b.core.calls
                      && b.core.handled[i] == b.core.calls[b.core.sent[i]].req)
            && !b.corrupt && !b.core.mismatch
  {
    BytesRefineQueues(w, steps);
    CallsGetTheirOwnAnswers(w.cfg, MeaningOfRun(w, Start(w), steps));
  }

  /** Tearing down over bytes: when the client's handler is gone and every
      caller has reached `wait`, every call is resolved. */
  lemma ByteDropResolvesEveryone(w: Setup, steps: seq<ByteStep>)
    requires w.Valid() && Run(w, Start(w), steps).Some?
    requires var k := Run(w, Start(w), steps).value.core;
             !k.handlerAlive && forall c <- k.calls.Keys :: k.calls[c].pc == Waiting || k.calls[c].pc.Returned?
    ensures var k := Run(w, Start(w), steps).value.core;
            forall c <- k.calls.Keys :: k.calls[c].writer.Finished?
  {
    BytesRefineQueues(w, steps);
    DropResolvesEveryone(w.cfg, MeaningOfRun(w, Start(w), steps));
  }

  /** A stream is found corrupt exactly by a decode that fails. */
  lemma CorruptIff(w: Setup, b: ByteSys, step: ByteStep, b': ByteSys)
    requires Apply(w, b, step) == Some(b') && !b.corrupt
    ensures b'.corrupt <==>
              || (step.ServerDecode? && DecodeOnce(w.reqs, b.up.state, b.up.inbound).outcome.Fail?)
              || (step.ClientDecode? && DecodeOnce(w.resps, b.down.state, b.down.inbound).outcome.Fail?)
  {
    hide DecodeOnce, Serve, Consume, DropHandler, ClientStep, Produce, Reply;
  }

  // Nothing is left to encode, to move or to decode on a live connection.
  predicate Quiescent(w: Setup, b: ByteSys) {
    && b.core.handlerAlive && b.core.serverAlive && b.core.queue == [] && b.core.responses == []
    && b.up.outbound == [] && b.up.pipe == [] && b.down.outbound == [] && b.down.pipe == []
    && DecodeOnce(w.reqs, b.up.state, b.up.inbound).outcome.More?
    && DecodeOnce(w.resps, b.down.state, b.down.inbound).outcome.More?
  }

  /** No response is lost or stuck: on a live connection with nothing left to
      do, every request that was sent has been answered and its call resolved. */
  lemma QuiescentMeansAnswered(w: Setup, steps: seq<ByteStep>)
    requires w.Valid() && Run(w, Start(w), steps).Some? && Quiescent(w, Run(w, Start(w), steps).value)
    ensures var k := Run(w, Start(w), steps).value.core;
            k.inFlight == [] && forall c <- k.sent :: c in k.calls && k.calls[c].writer.Finished?
  {
    BytesRefineQueues(w, steps);
    Reachable(w.cfg, MeaningOfRun(w, Start(w), steps));
    var b, s := Run(w, Start(w), steps).value, RunFromStart(w.cfg, MeaningOfRun(w, Start(w), steps)).value;
    if s.up != [] {
      L.ArrivedIsDecodable(w.reqs, b.up, s.up);
    }
    if s.down != [] {
      L.ArrivedIsDecodable(w.resps, b.down, s.down);
    }
    AllAnswered(w.cfg, s);
  }
}
