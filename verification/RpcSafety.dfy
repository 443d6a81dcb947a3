/** What every run of the RPC machine keeps, and what callers may conclude. */
module RpcSafety {
  import opened Wire
  import opened Rpc

  // --- The invariant -------------------------------------------------------------------

  // The queue and the in-flight list hold exactly the writers marked so, once each.
  ghost predicate Places(k: Core) {
    && NoDup(k.queue) && NoDup(k.inFlight)
    && |k.queue| <= QUEUE_CAPACITY
    && (forall c :: c in k.queue <==> c in k.calls && k.calls[c].writer == Queued)
    && (forall c :: c in k.inFlight <==> c in k.calls && k.calls[c].writer == InFlight)
  }

  ghost predicate CallOk(k: Core, c: CallId)
    requires c in k.calls
  {
    var call := k.calls[c];
    && (call.writer == WithCaller <==> call.pc == Starting || call.pc == Holding)
    && (call.pc.Returned? ==> call.writer == Finished(call.pc.result))
    && (!call.pc.Returned? ==> call.proxy in k.proxies)
  }

  ghost predicate CallsOk(k: Core) {
    forall c <- k.calls.Keys :: CallOk(k, c)
  }

  ghost predicate DroppedIsEmpty(k: Core) {
    && (!k.handlerAlive ==> k.inFlight == [])
    && (!StrongLive(k) ==> k.queue == [])
  }

  // The calls on the wire, in the order they left the queue.
  ghost predicate Sent(k: Core) {
    && NoDup(k.sent)
    && (forall c <- k.sent :: c in k.calls && (k.calls[c].writer == InFlight || k.calls[c].writer.Finished?))
    && k.done <= |k.answers| == |k.handled| <= |k.sent|
    && (k.handlerAlive ==> k.inFlight == k.sent[k.done..])
    && !k.mismatch
  }

  ghost predicate Completed(k: Core)
    requires Sent(k)
  {
    && (forall i :: 0 <= i < k.done ==> k.calls[k.sent[i]].writer == Finished(Some(k.answers[i])))
    && (forall c <- k.calls.Keys ::
          k.calls[c].writer.Finished? && k.calls[c].writer.value.Some? ==> c in k.sent[..k.done])
  }

  ghost predicate Answers(cfg: Config, k: Core)
    requires Sent(k)
  {
    && k.server == ServerAfter(cfg, k.handled)
    && (forall i :: 0 <= i < |k.handled| ==> k.handled[i] == k.calls[k.sent[i]].req)
    && (forall i :: 0 <= i < |k.handled| ==> k.answers[i] == Answer(cfg, k.handled[..i], k.handled[i]))
  }

  // The FIFOs hold what was sent and not yet processed, in order.
  ghost predicate Wires(k: Core, up: seq<Req>, down: seq<Resp>)
    requires Sent(k)
  {
    && |k.handled| + |up| == |k.sent|
    && (forall i :: 0 <= i < |up| ==> up[i] == k.calls[k.sent[|k.handled| + i]].req)
    && k.done + |down| + |k.responses| <= |k.answers|
    && (k.serverAlive ==> k.done + |down| + |k.responses| == |k.answers|)
    && down == k.answers[k.done..k.done + |down|]
    && k.responses == k.answers[k.done + |down|..k.done + |down| + |k.responses|]
  }

  // Two halves: where the writers are, and what has been said so far.
  ghost predicate Shape(k: Core) {
    Places(k) && CallsOk(k) && DroppedIsEmpty(k)
  }

  ghost predicate History(cfg: Config, k: Core, up: seq<Req>, down: seq<Resp>) {
    Sent(k) && Completed(k) && Answers(cfg, k) && Wires(k, up, down)
  }

  ghost predicate Inv(cfg: Config, s: Sys) {
    Shape(s.core) && History(cfg, s.core, s.up, s.down)
  }

  // --- Framing the history --------------------------------------------------------------

  // A step that adds no message: writers are queued or dropped unset, calls begin.
  ghost predicate WriterMoves(w: Writer, w': Writer) {
    w' == w || (w == WithCaller && w' == Queued) || (!w.Finished? && w' == Finished(None))
  }

  ghost predicate Quiet(k: Core, k': Core) {
    && (forall c <- k.calls.Keys ::
          c in k'.calls && k'.calls[c].req == k.calls[c].req && WriterMoves(k.calls[c].writer, k'.calls[c].writer))
    && (forall c <- k'.calls.Keys :: c in k.calls || k'.calls[c].writer == WithCaller)
    && k'.mismatch == k.mismatch
    && k'.serverAlive == k.serverAlive && k'.server == k.server && k'.responses == k.responses
    && k'.sent == k.sent && k'.done == k.done && k'.handled == k.handled && k'.answers == k.answers
    && (k'.handlerAlive ==> k.handlerAlive && k'.inFlight == k.inFlight)
  }

  lemma QuietKeepsHistory(cfg: Config, k: Core, k': Core, up: seq<Req>, down: seq<Resp>)
    requires History(cfg, k, up, down) && Quiet(k, k')
    ensures History(cfg, k', up, down)
  {
    hide ServerAfter, Answer;
    assert Sent(k');
    assert Completed(k') by { hide Answers, Wires; }
    assert Answers(cfg, k') by { hide Completed, Wires; }
    assert Wires(k', up, down) by { hide Completed, Answers; }
  }

  // --- Dropping references --------------------------------------------------------------

  lemma FreeQueueShape(k: Core)
    requires Places(k) && CallsOk(k)
    requires !k.handlerAlive ==> k.inFlight == []
    ensures Shape(FreeQueue(k)) && Quiet(k, FreeQueue(k))
    ensures FreeQueue(k).handlerAlive == k.handlerAlive
  {
    var k' := FreeQueue(k);
    if !StrongLive(k) {
      assert forall c <- k'.calls.Keys :: k'.calls[c].pc == k.calls[c].pc;
      assert !StrongLive(k');
    }
  }

  lemma DropHandlerShape(k: Core)
    requires Places(k) && CallsOk(k)
    ensures Shape(DropHandler(k)) && Quiet(k, DropHandler(k)) && !DropHandler(k).handlerAlive
  {
    var k1 := k.(handlerAlive := false, calls := Cancel(k.calls, k.inFlight), inFlight := []);
    assert Places(k1) && CallsOk(k1) && Quiet(k, k1);
    FreeQueueShape(k1);
  }

  // --- Steps of the callers -------------------------------------------------------------

  lemma StillStrong(k: Core, k': Core)
    requires k.handlerAlive ==> k'.handlerAlive
    requires forall c <- k.calls.Keys :: c in k'.calls && (k.calls[c].HoldsQueue() ==> k'.calls[c].HoldsQueue())
    ensures StrongLive(k) ==> StrongLive(k')
  {
    if !k.handlerAlive && StrongLive(k) {
      var c :| c in k.calls && k.calls[c].HoldsQueue();
      assert k'.calls[c].HoldsQueue();
    }
  }

  lemma NewCallShape(k: Core, step: Step)
    requires step.NewCall? && Shape(k) && ClientStep(k, step).Some?
    ensures Shape(ClientStep(k, step).value) && Quiet(k, ClientStep(k, step).value)
  {
    var k' := ClientStep(k, step).value;
    StillStrong(k, k');
    assert step.c !in k.queue && step.c !in k.inFlight;
  }

  lemma ProxyShape(k: Core, step: Step)
    requires step.CloneProxy? || step.DropProxy?
    requires Shape(k) && ClientStep(k, step).Some?
    ensures Shape(ClientStep(k, step).value) && Quiet(k, ClientStep(k, step).value)
  {
    StillStrong(k, ClientStep(k, step).value);
  }

  lemma UpgradeShape(k: Core, c: CallId)
    requires Shape(k) && ClientStep(k, Upgrade(c)).Some?
    ensures Shape(ClientStep(k, Upgrade(c)).value) && Quiet(k, ClientStep(k, Upgrade(c)).value)
  {
    assert c in k.calls && CallOk(k, c);
    var k' := ClientStep(k, Upgrade(c)).value;
    hide CallsOk, DroppedIsEmpty, Places;
    if StrongLive(k) {
      BeginsShape(k, c, Holding, WithCaller, k');
    } else {
      assert k.queue == [] by { assert DroppedIsEmpty(k); }
      BeginsShape(k, c, Waiting, Finished(None), k');
    }
  }

  // A call leaves `Starting`, with its writer or without one.
  lemma BeginsShape(k: Core, c: CallId, pc: Pc, w: Writer, k': Core)
    requires Shape(k) && c in k.calls && k.calls[c].writer == WithCaller && k.calls[c].pc == Starting
    requires (pc == Holding && w == WithCaller) || (pc == Waiting && w == Finished(None) && k.queue == [])
    requires k' == SetCall(k, c, pc, w)
    ensures Shape(k') && Quiet(k, k')
  {
    assert c !in k.queue && c !in k.inFlight by { hide CallsOk, DroppedIsEmpty; }
    assert Places(k') by { hide CallsOk, DroppedIsEmpty, StrongLive; }
    assert CallsOk(k') by { hide Places, DroppedIsEmpty, StrongLive; }
    assert Quiet(k, k') by { hide Places, CallsOk, DroppedIsEmpty, StrongLive; }
    StillStrong(k, k') by { hide Places, CallsOk, DroppedIsEmpty, StrongLive; }
    hide Places, CallsOk, SetCall;
  }

  lemma ReturnShape(k: Core, c: CallId)
    requires Shape(k) && ClientStep(k, Return(c)).Some?
    ensures Shape(ClientStep(k, Return(c)).value) && Quiet(k, ClientStep(k, Return(c)).value)
  {
    StillStrong(k, ClientStep(k, Return(c)).value);
  }

  lemma PushAccepted(k: Core, c: CallId)
    requires Shape(k) && c in k.calls && k.calls[c].pc == Holding && |k.queue| < QUEUE_CAPACITY
    ensures Shape(SetCall(k, c, Pushed, Queued).(queue := k.queue + [c]))
  {
    var k' := SetCall(k, c, Pushed, Queued).(queue := k.queue + [c]);
    assert k'.calls[c].HoldsQueue();
    assert c !in k.queue && c !in k.inFlight;
    assert forall x :: x in k'.queue <==> x in k.queue || x == c;
    assert NoDup(k'.queue);
    assert Places(k') by { hide CallsOk; }
  }

  lemma PushRefused(k: Core, c: CallId)
    requires Shape(k) && c in k.calls && k.calls[c].pc == Holding
    ensures Shape(SetCall(k, c, Pushed, Finished(None)))
  {
    assert SetCall(k, c, Pushed, Finished(None)).calls[c].HoldsQueue();
    assert c !in k.queue && c !in k.inFlight;
  }

  // One call moves, with its writer, and nothing is said.
  lemma QuietSet(k: Core, c: CallId, pc: Pc, w: Writer, queue: seq<CallId>)
    requires c in k.calls && WriterMoves(k.calls[c].writer, w)
    ensures Quiet(k, SetCall(k, c, pc, w).(queue := queue))
  {
  }

  lemma PushShape(k: Core, c: CallId)
    requires Shape(k) && ClientStep(k, Push(c)).Some?
    ensures Shape(ClientStep(k, Push(c)).value) && Quiet(k, ClientStep(k, Push(c)).value)
  {
    assert CallOk(k, c);
    hide Shape, Quiet, StrongLive, FreeQueue, SetCall;
    if |k.queue| < QUEUE_CAPACITY {
      PushAccepted(k, c);
      QuietSet(k, c, Pushed, Queued, k.queue + [c]);
    } else {
      PushRefused(k, c);
      QuietSet(k, c, Pushed, Finished(None), k.queue);
      assert SetCall(k, c, Pushed, Finished(None)).queue == k.queue by { SetLeavesQueue(k, c, Pushed, Finished(None)); }
    }
  }

  lemma SetLeavesQueue(k: Core, c: CallId, pc: Pc, w: Writer)
    requires c in k.calls
    ensures SetCall(k, c, pc, w).queue == k.queue
  {
  }

  lemma ReleasePlaces(k: Core, c: CallId)
    requires Shape(k) && c in k.calls && k.calls[c].pc == Pushed
    ensures var k1 := SetCall(k, c, Waiting, k.calls[c].writer);
            Places(k1) && CallsOk(k1) && (!k1.handlerAlive ==> k1.inFlight == [])
  {
    hide StrongLive;
    assert CallOk(k, c);
  }

  lemma ReleaseShape(k: Core, c: CallId)
    requires Shape(k) && ClientStep(k, Release(c)).Some?
    ensures Shape(ClientStep(k, Release(c)).value) && Quiet(k, ClientStep(k, Release(c)).value)
  {
    var k1 := SetCall(k, c, Waiting, k.calls[c].writer);
    ReleasePlaces(k, c);
    QuietSet(k, c, Waiting, k.calls[c].writer, k.queue);
    SetLeavesQueue(k, c, Waiting, k.calls[c].writer);
    assert k1.calls.Keys == k.calls.Keys;
    hide Places, CallsOk, DroppedIsEmpty, StrongLive, FreeQueue, SetCall, Quiet;
    FreeQueueShape(k1);
    QuietTwice(k, k1, FreeQueue(k1));
  }

  lemma QuietTwice(k: Core, k1: Core, k2: Core)
    requires Quiet(k, k1) && Quiet(k1, k2)
    requires forall c <- k1.calls.Keys :: c in k.calls
    ensures Quiet(k, k2)
  {
  }

  lemma ClientStepShape(k: Core, step: Step)
    requires Shape(k) && ClientStep(k, step).Some?
    ensures Shape(ClientStep(k, step).value) && Quiet(k, ClientStep(k, step).value)
  {
    match step
    case NewCall(_, _, _) => NewCallShape(k, step);
    case Upgrade(c) => UpgradeShape(k, c);
    case Push(c) => PushShape(k, c);
    case Release(c) => ReleaseShape(k, c);
    case Return(c) => ReturnShape(k, c);
    case ClientAbort => DropHandlerShape(k);
    case _ => ProxyShape(k, step);
  }

  lemma ClientStepKeeps(cfg: Config, s: Sys, step: Step)
    requires Inv(cfg, s) && ClientStep(s.core, step).Some?
    ensures Inv(cfg, s.(core := ClientStep(s.core, step).value))
  {
    hide Shape, History, ClientStep;
    ClientStepShape(s.core, step);
    QuietKeepsHistory(cfg, s.core, ClientStep(s.core, step).value, s.up, s.down);
  }

  // --- Steps that move messages ---------------------------------------------------------

  function Popped(k: Core): Core
    requires k.queue != [] && k.queue[0] in k.calls
  {
    var c := k.queue[0];
    SetCall(k, c, k.calls[c].pc, InFlight).(queue := k.queue[1..], inFlight := k.inFlight + [c])
  }

  lemma PoppedShape(k: Core)
    requires Shape(k) && k.handlerAlive && k.queue != []
    ensures k.queue[0] in k.calls && k.calls[k.queue[0]].writer == Queued && Shape(Popped(k))
  {
    var c := k.queue[0];
    assert c in k.queue;
    assert forall x :: x in k.queue <==> x == c || x in k.queue[1..];
    assert c !in k.queue[1..];
    var k' := Popped(k);
    assert forall x :: x in k'.inFlight <==> x == c || x in k.inFlight;
    assert NoDup(k'.inFlight);
  }

  lemma PoppedHistory(cfg: Config, s: Sys)
    requires Inv(cfg, s) && s.core.handlerAlive && s.core.queue != []
    ensures var k := s.core; var c := k.queue[0];
            c in k.calls && History(cfg, Popped(k).(sent := k.sent + [c]), s.up + [k.calls[c].req], s.down)
  {
    hide ServerAfter, Answer;
    var k := s.core;
    var c := k.queue[0];
    assert c in k.queue && c !in k.sent by { hide Completed, Answers, Wires, CallsOk, DroppedIsEmpty; }
    var k' := Popped(k).(sent := k.sent + [c]);
    assert k.calls[c].writer == Queued && k'.calls == k.calls[c := k.calls[c].(writer := InFlight)];
    hide Shape, Popped;
    PoppedSent(k, c, k') by { hide Completed, Answers, Wires; }
    PoppedCompleted(k, c, k') by { hide Answers, Wires; }
    PoppedAnswers(cfg, k, c, k') by { hide Completed, Wires; }
    PoppedWires(k, c, k', s.up, s.down) by { hide Completed, Answers; }
  }

  // The oldest queued call goes on the wire.
  ghost predicate Pops(k: Core, c: CallId, k': Core) {
    && c in k.calls && k.calls[c].writer == Queued && c !in k.sent
    && k' == k.(calls := k.calls[c := k.calls[c].(writer := InFlight)], queue := k'.queue,
                inFlight := k.inFlight + [c], sent := k.sent + [c])
  }

  lemma PoppedSent(k: Core, c: CallId, k': Core)
    requires Sent(k) && Pops(k, c, k') && k.handlerAlive
    ensures Sent(k')
  {
    assert k'.inFlight == k'.sent[k'.done..];
  }

  lemma PoppedCompleted(k: Core, c: CallId, k': Core)
    requires Sent(k) && Sent(k') && Completed(k) && Pops(k, c, k')
    ensures Completed(k')
  {
    assert k'.sent[..k'.done] == k.sent[..k.done];
  }

  lemma PoppedAnswers(cfg: Config, k: Core, c: CallId, k': Core)
    requires Sent(k) && Sent(k') && Answers(cfg, k) && Pops(k, c, k')
    ensures Answers(cfg, k')
  {
    hide ServerAfter, Answer;
  }

  lemma PoppedWires(k: Core, c: CallId, k': Core, up: seq<Req>, down: seq<Resp>)
    requires Sent(k) && Sent(k') && Wires(k, up, down) && Pops(k, c, k')
    ensures Wires(k', up + [k.calls[c].req], down)
  {
  }

  lemma AbandonedHistory(cfg: Config, s: Sys)
    requires Inv(cfg, s) && s.core.handlerAlive && s.core.queue != []
    ensures s.core.queue[0] in s.core.calls && History(cfg, DropHandler(Popped(s.core)), s.up, s.down)
  {
    hide ServerAfter, Answer;
    PoppedShape(s.core);
    var k, p := s.core, Popped(s.core);
    DropHandlerShape(p);
    var k' := DropHandler(p);
    var c := k.queue[0];
    assert c !in k.inFlight && c in p.inFlight && k'.inFlight == [];
    assert k'.calls[c].writer == Finished(None);
    assert Quiet(k, k');
    QuietKeepsHistory(cfg, k, k', s.up, s.down);
  }

  // Nothing but the callers, the proxies and the two lists matters to Shape.
  lemma ShapeFrame(k: Core, k': Core)
    requires Shape(k) && k'.calls == k.calls && k'.proxies == k.proxies
    requires k'.handlerAlive == k.handlerAlive && k'.queue == k.queue && k'.inFlight == k.inFlight
    ensures Shape(k')
  {
    StillStrong(k, k');
  }

  lemma ProduceKeeps(cfg: Config, s: Sys, encodes: bool)
    requires Inv(cfg, s) && Apply(cfg, s, ClientProduce(encodes)).Some?
    ensures Inv(cfg, Apply(cfg, s, ClientProduce(encodes)).value)
  {
    hide History;
    var k := s.core;
    assert s.up + [] == s.up;
    if k.proxies == {} {
      ClientStepKeeps(cfg, s, ClientAbort);
    } else if k.queue != [] {
      PoppedShape(k);
      if encodes {
        PoppedHistory(cfg, s);
        ShapeFrame(Popped(k), Popped(k).(sent := k.sent + [k.queue[0]]));
      } else {
        AbandonedHistory(cfg, s);
        DropHandlerShape(Popped(k));
      }
    }
  }

  lemma ConsumedShape(k: Core, resp: Resp)
    requires Shape(k) && k.handlerAlive && k.inFlight != []
    ensures k.inFlight[0] in k.calls && Shape(Consume(k, resp))
  {
    var c := k.inFlight[0];
    assert c in k.inFlight;
    assert forall x :: x in k.inFlight <==> x == c || x in k.inFlight[1..];
    assert c !in k.inFlight[1..];
  }

  lemma ConsumedCompleted(k: Core, resp: Resp)
    requires Sent(k) && Completed(k) && k.handlerAlive && k.done < |k.answers| && resp == k.answers[k.done]
    ensures Sent(Consume(k, resp)) && Completed(Consume(k, resp))
  {
    var k', c := Consume(k, resp), k.sent[k.done];
    assert c in k.sent && k.inFlight[0] == c;
    assert k'.inFlight == k.sent[k'.done..];
    assert Sent(k') by { hide Completed; }
    assert k.sent[..k'.done] == k.sent[..k.done] + [c];
  }

  lemma ConsumedWires(k: Core, up: seq<Req>, down: seq<Resp>)
    requires Sent(k) && Wires(k, up, down) && k.handlerAlive && down != []
    requires Sent(Consume(k, down[0])) && k.inFlight[0] in k.calls
    ensures Wires(Consume(k, down[0]), up, down[1..])
  {
    var k' := Consume(k, down[0]);
    assert forall c <- k.calls.Keys :: c in k'.calls && k'.calls[c].req == k.calls[c].req;
    assert k'.done == k.done + 1 && k'.sent == k.sent && k'.handled == k.handled && k'.answers == k.answers;
    assert k'.responses == k.responses && k'.serverAlive == k.serverAlive;
    hide Consume;
    assert down[1..] == k.answers[k'.done..k'.done + |down| - 1];
  }

  lemma ConsumedHistory(cfg: Config, s: Sys)
    requires History(cfg, s.core, s.up, s.down) && s.core.handlerAlive && s.down != []
    ensures s.core.inFlight != [] && s.core.inFlight[0] == s.core.sent[s.core.done]
    ensures History(cfg, Consume(s.core, s.down[0]), s.up, s.down[1..])
  {
    hide ServerAfter, Answer;
    var k := s.core;
    assert k.done < |k.answers| && s.down[0] == k.answers[k.done] by { hide Completed, Answers; }
    var c := k.inFlight[0];
    assert c == k.sent[k.done] && c in k.sent by { hide Completed, Answers, Wires; }
    ConsumedCompleted(k, s.down[0]) by { hide Answers, Wires; }
    ConsumedWires(k, s.up, s.down) by { hide Completed, Answers; }
    assert Answers(cfg, Consume(k, s.down[0])) by { hide Completed, Wires; }
  }

  lemma ConsumeKeeps(cfg: Config, s: Sys)
    requires Inv(cfg, s) && Apply(cfg, s, ClientConsume).Some?
    ensures Inv(cfg, Apply(cfg, s, ClientConsume).value)
    // a response always finds the call it answers
    ensures s.core.inFlight != [] && s.core.inFlight[0] == s.core.sent[s.core.done]
  {
    ConsumedHistory(cfg, s);
    ConsumedShape(s.core, s.down[0]) by { hide History; }
  }

  lemma ServeKeeps(cfg: Config, s: Sys)
    requires Inv(cfg, s) && Apply(cfg, s, ServerConsume).Some?
    ensures Inv(cfg, Apply(cfg, s, ServerConsume).value)
  {
    ShapeFrame(s.core, Serve(cfg, s.core, s.up[0])) by { hide History; }
    ServedHistory(cfg, s);
  }

  lemma ServedHistory(cfg: Config, s: Sys)
    requires History(cfg, s.core, s.up, s.down) && s.core.serverAlive && s.up != []
    ensures History(cfg, Serve(cfg, s.core, s.up[0]), s.up[1..], s.down)
  {
    hide ServerAfter, Answer;
    var k, req := s.core, s.up[0];
    var k' := Serve(cfg, k, req);
    assert req == k.calls[k.sent[|k.handled|]].req;
    assert Sent(k') by { hide Completed, Answers, Wires; }
    assert Completed(k') by { hide Answers, Wires; }
    AnswersGrow(cfg, k, req);
    assert s.down == k'.answers[k'.done..k'.done + |s.down|];
    assert k'.responses == k'.answers[k'.done + |s.down|..k'.done + |s.down| + |k'.responses|];
    assert Wires(k', s.up[1..], s.down) by { hide Completed, Answers; }
  }

  lemma AnswersGrow(cfg: Config, k: Core, req: Req)
    requires Sent(k) && Answers(cfg, k) && Sent(Serve(cfg, k, req))
    requires |k.handled| < |k.sent| && req == k.calls[k.sent[|k.handled|]].req
    ensures Answers(cfg, Serve(cfg, k, req))
  {
    ServerAfterOne(cfg, k.handled, req);
    assert Serve(cfg, k, req).server == cfg.process(k.server, req).0;
    assert Serve(cfg, k, req).answers == k.answers + [cfg.process(k.server, req).1];
    hide ServerAfter, Answer;
    var k' := Serve(cfg, k, req);
    forall i | 0 <= i < |k'.handled|
      ensures k'.handled[i] == k'.calls[k'.sent[i]].req && k'.answers[i] == Answer(cfg, k'.handled[..i], k'.handled[i])
    {
      assert k'.handled[..i] == k.handled[..i];
      assert i == |k.handled| ==> k.handled[..i] == k.handled;
    }
  }

  lemma ServerAfterOne(cfg: Config, reqs: seq<Req>, req: Req)
    ensures cfg.process(ServerAfter(cfg, reqs), req) == (ServerAfter(cfg, reqs + [req]), Answer(cfg, reqs, req))
  {
    assert (reqs + [req])[..|reqs|] == reqs;
  }

  lemma ReplyKeeps(cfg: Config, s: Sys, step: Step)
    requires step.ServerProduce? || step.ServerAbort?
    requires Inv(cfg, s) && Apply(cfg, s, step).Some?
    ensures Inv(cfg, Apply(cfg, s, step).value)
  {
    hide Shape, History;
    ShapeFrame(s.core, Apply(cfg, s, step).value.core);
    RepliedHistory(cfg, s, step);
  }

  lemma SpokenFrame(cfg: Config, k: Core, alive: bool, responses: seq<Resp>)
    requires Sent(k) && Completed(k) && Answers(cfg, k)
    ensures var k' := k.(serverAlive := alive, responses := responses);
            Sent(k') && Completed(k') && Answers(cfg, k')
  {
  }

  lemma RepliedWires(k: Core, up: seq<Req>, down: seq<Resp>)
    requires Sent(k) && Wires(k, up, down) && k.responses != []
    requires Sent(k.(responses := k.responses[1..]))
    ensures Wires(k.(responses := k.responses[1..]), up, down + [k.responses[0]])
  {
    assert down + [k.responses[0]] == k.answers[k.done..k.done + |down| + 1];
  }

  lemma SilencedWires(k: Core, up: seq<Req>, down: seq<Resp>)
    requires Sent(k) && Wires(k, up, down)
    ensures Sent(k.(serverAlive := false, responses := []))
            && Wires(k.(serverAlive := false, responses := []), up, down)
  {
  }

  lemma RepliedHistory(cfg: Config, s: Sys, step: Step)
    requires step.ServerProduce? || step.ServerAbort?
    requires History(cfg, s.core, s.up, s.down) && Apply(cfg, s, step).Some?
    ensures var s' := Apply(cfg, s, step).value; History(cfg, s'.core, s'.up, s'.down)
  {
    hide Sent, Completed, Answers, Wires;
    var k, s' := s.core, Apply(cfg, s, step).value;
    assert s.down + [] == s.down;
    SpokenFrame(cfg, k, s'.core.serverAlive, s'.core.responses);
    SilencedWires(k, s.up, s.down);
    if k.responses != [] {
      SpokenFrame(cfg, k, k.serverAlive, k.responses[1..]);
      RepliedWires(k, s.up, s.down);
    }
  }

  lemma StepKeeps(cfg: Config, s: Sys, step: Step)
    requires Inv(cfg, s) && Apply(cfg, s, step).Some?
    ensures Inv(cfg, Apply(cfg, s, step).value)
  {
    hide Inv;
    match step
    case ClientProduce(e) => ProduceKeeps(cfg, s, e);
    case ClientConsume => ConsumeKeeps(cfg, s);
    case ServerConsume => ServeKeeps(cfg, s);
    case ServerProduce(_) => ReplyKeeps(cfg, s, step);
    case ServerAbort => ReplyKeeps(cfg, s, step);
    case _ => ClientStepKeeps(cfg, s, step);
  }

  lemma {:induction false} RunKeeps(cfg: Config, s: Sys, steps: seq<Step>)
    requires Inv(cfg, s) && Run(cfg, s, steps).Some?
    ensures Inv(cfg, Run(cfg, s, steps).value)
    decreases |steps|
  {
    if steps != [] {
      StepKeeps(cfg, s, steps[0]);
      RunKeeps(cfg, Apply(cfg, s, steps[0]).value, steps[1..]);
    }
  }

  lemma {:induction false} RunAppend(cfg: Config, s: Sys, a: seq<Step>, b: seq<Step>)
    requires Run(cfg, s, a).Some?
    ensures Run(cfg, s, a + b) == Run(cfg, Run(cfg, s, a).value, b)
    decreases |a|
  {
    hide Apply;
    if a == [] {
      assert a + b == b;
    } else {
      assert (a + b)[1..] == a[1..] + b;
      RunAppend(cfg, Apply(cfg, s, a[0]).value, a[1..], b);
    }
  }

  lemma Reachable(cfg: Config, steps: seq<Step>)
    requires RunFromStart(cfg, steps).Some?
    ensures Inv(cfg, RunFromStart(cfg, steps).value)
  {
    RunKeeps(cfg, Sys(InitCore(cfg), [], []), steps);
  }
}
