/** One call whose answer carries a handle, from the caller and back: the machine of
    RpcHandles does get there. */
module RpcHandlesDelivery {
  import opened Wire
  import opened Codec
  import R = Rpc
  import H = Handles
  import HF = HandlesFailedSend
  import opened RpcHandles

  lemma RunStep(w: Setup, s: Sys, step: Step, t: Sys, rest: seq<Step>)
    requires Apply(w, s, step) == Some(t)
    ensures Run(w, s, [step] + rest) == Run(w, t, rest)
  {
    hide Apply;
    assert ([step] + rest)[1..] == rest;
  }

  lemma RunNothing(w: Setup, s: Sys)
    ensures Run(w, s, []) == Some(s)
  {
  }

  lemma {:induction false} RunAppend(w: Setup, s: Sys, xs: seq<Step>, ys: seq<Step>)
    requires Run(w, s, xs).Some?
    ensures Run(w, s, xs + ys) == Run(w, Run(w, s, xs).value, ys)
    decreases |xs|
  {
    hide Apply;
    if xs == [] {
      assert xs + ys == ys;
    } else {
      assert (xs + ys)[1..] == xs[1..] + ys;
      RunAppend(w, Apply(w, s, xs[0]).value, xs[1..], ys);
    }
  }

  // The first caller, at each stage of its call.
  function Caller(cfg: R.Config, req: R.Req, pc: R.Pc, writer: R.Writer): R.Core {
    R.InitCore(cfg).(calls := map[0 := R.Call(req, 0, pc, writer)])
  }

  // The request is on its way, and its call in flight.
  function Asked(cfg: R.Config, req: R.Req): R.Core {
    Caller(cfg, req, R.Waiting, R.InFlight).(inFlight := [0], sent := [0])
  }

  lemma LocalStep(w: Setup, s: Sys, step: R.Step, core: R.Core)
    requires !s.h.panicked && !s.h.overLimit && OfClient(step) && R.ClientStep(s.core, step) == Some(core)
    requires !step.ClientProduce? && !step.ServerAbort?
    ensures Apply(w, s, Local(step)) == Some(s.(core := core))
  {
    hide R.ClientStep, Down;
  }

  lemma Overwrites(req: R.Req, pc: R.Pc, writer: R.Writer, pc': R.Pc, writer': R.Writer)
    ensures map[0 := R.Call(req, 0, pc, writer)][0 := R.Call(req, 0, pc', writer')]
            == map[0 := R.Call(req, 0, pc', writer')]
  {
  }

  // A request is made and leaves the client.
  lemma Asks(w: Setup, req: R.Req) returns (steps: seq<Step>, t: Sys)
    ensures Run(w, Start(w), steps) == Some(t) && t == Sys(Asked(w.cfg, req), [req], H.Start)
  {
    var s := Start(w);
    var s1 := s.(core := Caller(w.cfg, req, R.Starting, R.WithCaller));
    var s2 := s.(core := Caller(w.cfg, req, R.Holding, R.WithCaller));
    var s3 := s.(core := Caller(w.cfg, req, R.Pushed, R.Queued).(queue := [0]));
    var s4 := s.(core := Caller(w.cfg, req, R.Waiting, R.Queued).(queue := [0]));
    t := Sys(Asked(w.cfg, req), [req], H.Start);
    assert [] + [0] == [0];
    Overwrites(req, R.Starting, R.WithCaller, R.Holding, R.WithCaller);
    Overwrites(req, R.Holding, R.WithCaller, R.Pushed, R.Queued);
    Overwrites(req, R.Pushed, R.Queued, R.Waiting, R.Queued);
    assert map[][0 := R.Call(req, 0, R.Starting, R.WithCaller)] == map[0 := R.Call(req, 0, R.Starting, R.WithCaller)];
    LocalStep(w, s, R.NewCall(0, 0, req), s1.core);
    LocalStep(w, s1, R.Upgrade(0), s2.core);
    LocalStep(w, s2, R.Push(0), s3.core);
    LocalStep(w, s3, R.Release(0), s4.core);
    Leaves(w, s4, t, req);
    hide Apply, Run, Caller, Asked;
    steps := [Local(R.NewCall(0, 0, req))] + ([Local(R.Upgrade(0))] + ([Local(R.Push(0))]
             + ([Local(R.Release(0))] + ([Local(R.ClientProduce(true))] + []))));
    RunNothing(w, t);
    RunStep(w, s4, Local(R.ClientProduce(true)), t, []);
    RunStep(w, s3, Local(R.Release(0)), s4, [Local(R.ClientProduce(true))] + []);
    RunStep(w, s2, Local(R.Push(0)), s3, [Local(R.Release(0))] + ([Local(R.ClientProduce(true))] + []));
    RunStep(w, s1, Local(R.Upgrade(0)), s2,
        [Local(R.Push(0))] + ([Local(R.Release(0))] + ([Local(R.ClientProduce(true))] + [])));
    RunStep(w, s, Local(R.NewCall(0, 0, req)), s1, [Local(R.Upgrade(0))] + ([Local(R.Push(0))]
        + ([Local(R.Release(0))] + ([Local(R.ClientProduce(true))] + []))));
  }

  lemma Leaves(w: Setup, s: Sys, t: Sys, req: R.Req)
    requires s.core == Caller(w.cfg, req, R.Waiting, R.Queued).(queue := [0]) && s.up == [] && s.h == H.Start
    requires t == Sys(Asked(w.cfg, req), [req], H.Start)
    ensures Apply(w, s, Local(R.ClientProduce(true))) == Some(t)
  {
    hide Down;
    assert [] + [0] == [0] && [] + [req] == [req] && [0][1..] == [];
    assert map[0 := R.Call(req, 0, R.Waiting, R.Queued)][0 := R.Call(req, 0, R.Waiting, R.InFlight)]
           == map[0 := R.Call(req, 0, R.Waiting, R.InFlight)];
  }

  // The answer the server gives, and what it is made of.
  function FirstAnswer(w: Setup, req: R.Req): R.Resp {
    w.cfg.process(w.cfg.init, req).1
  }

  // The steps of the handle machine that carry the answer, one by one.
  lemma Carried(w: Setup, body: H.Body, fd: H.Fd) returns (h1: H.Sys, h2: H.Sys, h3: H.Sys, h4: H.Sys, h5: H.Sys)
    requires w.Valid() && w.sd.ser(HF.Stripped(body)).Some?
    ensures var n := |FrameOf(w.sd.ser(HF.Stripped(body)).value)|;
            && H.Apply(w.sd, H.Start, H.Produce(body, Some(fd))) == Some(h1) && H.Apply(w.sd, h1, H.Flush) == Some(h2)
            && H.Apply(w.sd, h2, H.Send(n)) == Some(h3) && H.Apply(w.sd, h3, H.Recv(n)) == Some(h4)
            && H.Apply(w.sd, h4, H.Decode) == Some(h5)
    ensures h1.tx.produced == [H.Msg(body, Some(H.Owned(fd, true)))]
    ensures h5.rx.inbox == [H.Msg(body, Some(H.Owned(H.Got(0, fd), false)))] && !h5.panicked && !h5.overLimit
  {
    var n := |FrameOf(w.sd.ser(HF.Stripped(body)).value)|;
    h5 := HF.ExchangeRuns(w.sd, H.Start, body, fd, false);
    assert HF.Exchange(w.sd, body, fd, false) == [H.Produce(body, Some(fd)), H.Flush, H.Send(n), H.Recv(n), H.Decode];
    hide H.Apply, H.Run, HF.Exchange;
    h1, h2, h3, h4 := Unrolled(w.sd, H.Start, [H.Produce(body, Some(fd)), H.Flush, H.Send(n), H.Recv(n), H.Decode], h5);
    Produced(w.sd, body, fd, h1);
  }

  lemma Unrolled(sd: Serde<H.WireMsg>, s: H.Sys, steps: seq<H.Step>, t: H.Sys)
    returns (h1: H.Sys, h2: H.Sys, h3: H.Sys, h4: H.Sys)
    requires |steps| == 5 && H.Run(sd, s, steps) == Some(t)
    ensures H.Apply(sd, s, steps[0]) == Some(h1) && H.Apply(sd, h1, steps[1]) == Some(h2)
    ensures H.Apply(sd, h2, steps[2]) == Some(h3) && H.Apply(sd, h3, steps[3]) == Some(h4)
    ensures H.Apply(sd, h4, steps[4]) == Some(t)
  {
    hide H.Apply;
    h1 := H.Apply(sd, s, steps[0]).value;
    assert H.Run(sd, h1, steps[1..]) == Some(t);
    h2 := H.Apply(sd, h1, steps[1..][0]).value;
    assert steps[1..][1..] == steps[2..] && H.Run(sd, h2, steps[2..]) == Some(t);
    h3 := H.Apply(sd, h2, steps[2..][0]).value;
    assert steps[2..][1..] == steps[3..] && H.Run(sd, h3, steps[3..]) == Some(t);
    h4 := H.Apply(sd, h3, steps[3..][0]).value;
    assert steps[3..][1..] == steps[4..] && H.Run(sd, h4, steps[4..]) == Some(t);
    var h5 := H.Apply(sd, h4, steps[4..][0]).value;
    assert steps[4..][1..] == [] && H.Run(sd, h5, []) == Some(h5);
  }

  lemma Produced(sd: Serde<H.WireMsg>, body: H.Body, fd: H.Fd, h: H.Sys)
    requires H.Apply(sd, H.Start, H.Produce(body, Some(fd))) == Some(h)
    ensures h.tx.produced == [H.Msg(body, Some(H.Owned(fd, true)))]
  {
  }

  // The server processes the request and encodes its answer.
  lemma Serves(w: Setup, s: Sys, req: R.Req, fd: H.Fd, h1: H.Sys, h2: H.Sys) returns (core: R.Core)
    requires w.Valid() && s == Sys(Asked(w.cfg, req), [req], H.Start)
             && w.format.split(FirstAnswer(w, req)).1 == Some(fd)
    requires H.Apply(w.sd, H.Start, H.Produce(w.format.split(FirstAnswer(w, req)).0, Some(fd))) == Some(h1)
    requires H.Apply(w.sd, h1, H.Flush) == Some(h2) && !h2.panicked && !h2.overLimit && !h1.panicked && !h1.overLimit
    requires h1.tx.produced != [] && w.sd.ser(H.Serialized(h1.tx.produced[0])).Some?
    ensures Run(w, s, [Serve] + ([Encode] + [])) == Some(Sys(core, [], h2))
    ensures core.calls == s.core.calls && core.inFlight == [0] && core.handlerAlive && core.queue == []
  {
    assert !H.Start.panicked && !H.Start.overLimit;
    hide H.Apply, H.Start;
    var k1 := R.Serve(w.cfg, s.core, req);
    assert k1.responses == [] + [FirstAnswer(w, req)];
    var t := Sys(k1, [], h1);
    assert [req][1..] == [];
    assert Apply(w, s, Serve) == Some(t);
    core := R.Reply(k1, true).core;
    assert Apply(w, t, Encode) == Some(Sys(core, [], h2));
    hide Apply;
    RunNothing(w, Sys(core, [], h2));
    RunStep(w, t, Encode, Sys(core, [], h2), []);
    RunStep(w, s, Serve, t, [Encode] + []);
  }

  // The bytes and the handle cross the pipe, and the call returns.
  lemma Returns(w: Setup, s: Sys, req: R.Req, n: nat, resp: R.Resp, h3: H.Sys, h4: H.Sys, h5: H.Sys) returns (t: Sys)
    requires s.core.calls == Asked(w.cfg, req).calls && s.core.inFlight == [0] && s.core.handlerAlive
             && s.core.queue == []
    requires H.Apply(w.sd, s.h, H.Send(n)) == Some(h3) && H.Apply(w.sd, h3, H.Recv(n)) == Some(h4)
    requires H.Apply(w.sd, h4, H.Decode) == Some(h5) && !h5.panicked && !h5.overLimit
    requires |h4.rx.inbox| < |h5.rx.inbox| && AtClient(w.format, h5.rx.inbox[|h5.rx.inbox| - 1]) == resp
    ensures Run(w, s, [Wire(H.Send(n))] + ([Wire(H.Recv(n))] + ([Decode] + ([Local(R.Return(0))] + [])))) == Some(t)
    ensures 0 in t.core.calls && t.core.calls[0].pc == R.Returned(Some(resp))
  {
    hide H.Apply, AtClient, R.Consume, R.SetCall, Apply, Run;
    var s3, s4 := s.(h := h3), s.(h := h4);
    WireStep(w, s, H.Send(n), h3);
    WireStep(w, s3, H.Recv(n), h4);
    var s5 := s.(core := R.Consume(s.core, resp), h := h5);
    ConsumeStep(w, s4, h5, resp);
    var core := LastStep(w.cfg, s.core, req, resp);
    t := s5.(core := core);
    LocalStep(w, s5, R.Return(0), core);
    RunNothing(w, t);
    RunStep(w, s5, Local(R.Return(0)), t, []);
    RunStep(w, s4, Decode, s5, [Local(R.Return(0))] + []);
    RunStep(w, s3, Wire(H.Recv(n)), s4, [Decode] + ([Local(R.Return(0))] + []));
    RunStep(w, s, Wire(H.Send(n)), s3, [Wire(H.Recv(n))] + ([Decode] + ([Local(R.Return(0))] + [])));
  }

  // A machine that makes a step has not stopped.
  lemma WireStep(w: Setup, s: Sys, step: H.Step, h: H.Sys)
    requires OfWire(step) && H.Apply(w.sd, s.h, step) == Some(h)
    ensures Apply(w, s, Wire(step)) == Some(s.(h := h))
  {
    assert !s.h.panicked && !s.h.overLimit;
    hide H.Apply;
  }

  lemma ConsumeStep(w: Setup, s: Sys, h: H.Sys, resp: R.Resp)
    requires s.core.handlerAlive && H.Apply(w.sd, s.h, H.Decode) == Some(h) && |s.h.rx.inbox| < |h.rx.inbox|
    requires AtClient(w.format, h.rx.inbox[|h.rx.inbox| - 1]) == resp
    ensures Apply(w, s, Decode) == Some(s.(core := R.Consume(s.core, resp), h := h))
  {
    assert !s.h.panicked && !s.h.overLimit;
    hide H.Apply, R.Consume, AtClient;
  }

  // The response is set and the caller returns it.
  lemma LastStep(cfg: R.Config, k: R.Core, req: R.Req, resp: R.Resp) returns (core: R.Core)
    requires k.calls == Asked(cfg, req).calls && k.inFlight == [0]
    ensures R.ClientStep(R.Consume(k, resp), R.Return(0)) == Some(core)
    ensures 0 in core.calls && core.calls[0].pc == R.Returned(Some(resp))
  {
    var k1 := R.Consume(k, resp);
    assert k1.calls[0].pc == R.Waiting && k1.calls[0].writer == R.Finished(Some(resp));
    hide R.Consume;
    core := R.SetCall(k1, 0, R.Returned(Some(resp)), R.Finished(Some(resp)));
  }

  /** From the start, a call whose answer has a handle and can be serialized returns that
      answer, handle included. */
  lemma FirstAnswerArrives(w: Setup, req: R.Req) returns (steps: seq<Step>, t: Sys)
    requires w.Valid() && w.format.split(FirstAnswer(w, req)).1.Some?
    requires w.sd.ser(HF.Stripped(w.format.split(FirstAnswer(w, req)).0)).Some?
    ensures Run(w, Start(w), steps) == Some(t)
    ensures 0 in t.core.calls && t.core.calls[0].pc == R.Returned(Some(FirstAnswer(w, req)))
  {
    var resp := FirstAnswer(w, req);
    var body, fd := w.format.split(resp).0, w.format.split(resp).1.value;
    var n := |FrameOf(w.sd.ser(HF.Stripped(body)).value)|;
    var h1, h2, h3, h4, h5 := Carried(w, body, fd);
    Fine(w.sd, h1, h2, h3, h4, h5, n);
    assert AtClient(w.format, h5.rx.inbox[0]) == w.format.join(body, Some(fd)) == resp;
    hide Run, FirstAnswer, FrameOf, AtClient;
    var xs, a := Asks(w, req);
    var core := Serves(w, a, req, fd, h1, h2);
    var b := Sys(core, [], h2);
    t := Returns(w, b, req, n, resp, h3, h4, h5);
    var ys := [Serve] + ([Encode] + []);
    var zs := [Wire(H.Send(n))] + ([Wire(H.Recv(n))] + ([Decode] + ([Local(R.Return(0))] + [])));
    RunAppend(w, Start(w), xs, ys);
    RunAppend(w, Start(w), xs + ys, zs);
    steps := (xs + ys) + zs;
  }

  // A machine that goes on has not stopped.
  lemma Fine(sd: Serde<H.WireMsg>, h1: H.Sys, h2: H.Sys, h3: H.Sys, h4: H.Sys, h5: H.Sys, n: nat)
    requires H.Apply(sd, h1, H.Flush) == Some(h2) && H.Apply(sd, h2, H.Send(n)) == Some(h3)
    requires H.Apply(sd, h3, H.Recv(n)) == Some(h4) && H.Apply(sd, h4, H.Decode) == Some(h5)
    ensures !h1.panicked && !h1.overLimit && !h2.panicked && !h2.overLimit
    ensures |h5.rx.inbox| <= |h4.rx.inbox| + 1
  {
    hide H.FlushOne, H.SendOk, H.RecvOk, DecodeOnce, H.Paid, H.Rest;
  }
}
