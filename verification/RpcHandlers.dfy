/** ClientHandler, RequestQueueSender and ServerHandler of audioipc/src/rpccore.rs
    as the handlers that the driver runs, and as objects with deques that are pushed
    and popped in place.  Each method is proved to do what the handler does, or to
    perform a transition of the Rpc machine; `k` is the machine state the object
    shows. */
module RpcHandlers {
  import opened Wire
  import opened Rpc
  import D = Driver

  datatype Handled<+T> = Item(value: T) | Nothing | Aborted

  // --- The Handler trait objects ---------------------------------------------------------------

  // ClientHandler::consume and ::produce, as the driver sees them.
  function ClientConsume(k: Core, resp: Resp): Option<Core> {
    if k.inFlight == [] || k.inFlight[0] !in k.calls then None else Some(Rpc.Consume(k, resp))
  }

  function ClientProduce(k: Core): D.Produced<Core, Req> {
    if k.proxies == {} then D.Abort(k)
    else if k.queue == [] || k.queue[0] !in k.calls then D.Produced.Nothing(k)
    else D.Produced.Item(Rpc.Produce(k, true).core, k.calls[k.queue[0]].req)
  }

  function Client(): D.Handler<Core, Resp, Req> {
    D.Handler(ClientConsume, ClientProduce, (k: Core) => |k.queue|)
  }

  // ServerHandler::consume and ::produce
  function ServerProduce(k: Core): D.Produced<Core, Resp> {
    if k.responses == [] then D.Produced.Nothing(k) else D.Produced.Item(Reply(k, true).core, k.responses[0])
  }

  function Server(cfg: Config): D.Handler<Core, Req, Resp> {
    D.Handler((k: Core, req: Req) => Some(Serve(cfg, k, req)), ServerProduce, (k: Core) => |k.responses|)
  }

  /** Each item produced leaves one less to produce, so the flush loop ends. */
  lemma HandlersTerminate(cfg: Config)
    ensures Client().Valid() && Server(cfg).Valid()
  {
    assert forall k: Core :: ClientProduce(k).Item? ==> |ClientProduce(k).h.queue| < |k.queue|;
    assert forall k: Core :: ServerProduce(k).Item? ==> |ServerProduce(k).h.responses| < |k.responses|;
  }

  // --- The objects -------------------------------------------------------------------------------

  // Dropping one more writer.
  lemma CancelOne(calls: Calls, ids: seq<CallId>, c: CallId)
    requires c in calls
    ensures Cancel(calls, ids)[c := calls[c].(writer := Finished(None))] == Cancel(calls, ids + [c])
  {
  }

  lemma CancelNone(calls: Calls)
    ensures Cancel(calls, []) == calls
  {
  }

  class ClientHandler {
    var calls: Calls             // the completions that the writers point to
    var proxies: set<ProxyId>    // holders of weak references
    var alive: bool              // the handler's own strong reference
    var queue: seq<CallId>
    var inFlight: seq<CallId>

    constructor ()
      ensures calls == map[] && proxies == {0} && alive && queue == [] && inFlight == []
    { calls, proxies, alive, queue, inFlight := map[], {0}, true, [], []; }

    ghost predicate Shows(k: Core)
      reads this
    {
      calls == k.calls && proxies == k.proxies && alive == k.handlerAlive && queue == k.queue && inFlight == k.inFlight
    }

    // The drop of a writer that was not set.
    method DropWriter(c: CallId)
      modifies this`calls
      ensures calls == if c in old(calls) then old(calls)[c := old(calls)[c].(writer := Finished(None))] else old(calls)
    {
      if c in calls {
        calls := calls[c := calls[c].(writer := Finished(None))];
      }
    }

    // Drops every queued request when no strong reference is left.
    method FreeIfUnreferenced(ghost k: Core)
      requires Shows(k) && forall c <- k.queue :: c in k.calls
      modifies this`calls, this`queue
      ensures Shows(FreeQueue(k))
    {
      if alive || exists c <- calls.Keys :: calls[c].HoldsQueue() { return; }
      ghost var dropped: seq<CallId> := [];
      CancelNone(k.calls);
      while queue != []
        invariant dropped + queue == k.queue
        invariant calls == Cancel(k.calls, dropped)
      {
        var c := queue[0];
        assert c in k.queue;
        CancelOne(k.calls, dropped, c);
        DropWriter(c);
        assert dropped + queue == (dropped + [c]) + queue[1..];
        queue := queue[1..];
        dropped := dropped + [c];
      }
      assert dropped == k.queue;
    }

    // Drop of the handler: every writer in flight, then its reference to the queue.
    method Drop(ghost k: Core)
      requires Shows(k) && forall c <- k.queue + k.inFlight :: c in k.calls
      modifies this
      ensures Shows(DropHandler(k))
    {
      ghost var dropped: seq<CallId> := [];
      CancelNone(k.calls);
      while inFlight != []
        invariant dropped + inFlight == k.inFlight
        invariant calls == Cancel(k.calls, dropped)
        invariant proxies == k.proxies && alive == k.handlerAlive && queue == k.queue
      {
        var c := inFlight[0];
        assert c in k.inFlight;
        CancelOne(k.calls, dropped, c);
        DropWriter(c);
        assert dropped + inFlight == (dropped + [c]) + inFlight[1..];
        inFlight := inFlight[1..];
        dropped := dropped + [c];
      }
      assert dropped == k.inFlight;
      alive := false;
      FreeIfUnreferenced(k.(handlerAlive := false, calls := Cancel(k.calls, k.inFlight), inFlight := []));
    }

    // RequestQueueSender::push, once upgraded.
    method Push(c: CallId, ghost k: Core) returns (ok: bool)
      requires Shows(k) && c in k.calls && k.calls[c].pc == Holding
      modifies this`calls, this`queue
      ensures ClientStep(k, Rpc.Push(c)).Some? && Shows(ClientStep(k, Rpc.Push(c)).value)
      ensures ok <==> |k.queue| < QUEUE_CAPACITY
    {
      ok := |queue| < QUEUE_CAPACITY;
      if ok {
        queue := queue + [c];
      }
      calls := calls[c := calls[c].(pc := Pushed, writer := if ok then Queued else Finished(None))];
    }

    // A request to send, if proxies are left and one is queued.
    method Produce(ghost k: Core) returns (r: Handled<Req>)
      requires Shows(k) && alive && forall c <- k.queue :: c in k.calls
      modifies this`calls, this`queue, this`inFlight
      ensures Shows(Client().produce(k).h)
      ensures r == if Client().produce(k).Abort? then Aborted else if Client().produce(k).Nothing? then Nothing
              else Item(Client().produce(k).out)
      ensures r == Aborted <==> k.proxies == {}
    {
      if proxies == {} { return Aborted; }
      if queue == [] { return Nothing; }
      var c := queue[0];
      assert c in k.queue;
      queue := queue[1..];
      inFlight := inFlight + [c];
      calls := calls[c := calls[c].(writer := InFlight)];
      r := Item(calls[c].req);
    }

    // A response: hand it to the oldest call in flight.
    method Consume(resp: Resp, ghost k: Core) returns (ok: bool)
      requires Shows(k) && forall c <- k.inFlight :: c in k.calls
      modifies this`calls, this`inFlight
      ensures ok <==> Client().consume(k, resp).Some?
      ensures ok <==> k.inFlight != []
      ensures Shows(if ok then Client().consume(k, resp).value else k)
    {
      if inFlight == [] { return false; }
      var c := inFlight[0];
      assert c in k.inFlight;
      inFlight := inFlight[1..];
      calls := calls[c := calls[c].(writer := Finished(Some(resp)))];
      ok := true;
    }
  }

  class ServerHandler {
    const cfg: Config
    var server: ServerState
    var inFlight: seq<Resp>

    constructor (cfg: Config)
      ensures this.cfg == cfg && server == cfg.init && inFlight == []
    { this.cfg, server, inFlight := cfg, cfg.init, []; }

    ghost predicate Shows(k: Core)
      reads this
    {
      server == k.server && inFlight == k.responses
    }

    method Consume(req: Req, ghost k: Core)
      requires Shows(k)
      modifies this
      ensures Server(cfg).consume(k, req).Some? && Shows(Server(cfg).consume(k, req).value)
    {
      var (next, resp) := cfg.process(server, req);
      server := next;
      inFlight := inFlight + [resp];
    }

    method Produce(ghost k: Core) returns (r: Handled<Resp>)
      requires Shows(k)
      modifies this`inFlight
      ensures Shows(Server(cfg).produce(k).h)
      ensures r == if Server(cfg).produce(k).Nothing? then Nothing else Item(Server(cfg).produce(k).out)
    {
      if inFlight == [] { return Nothing; }
      r := Item(inFlight[0]);
      inFlight := inFlight[1..];
    }
  }
}
