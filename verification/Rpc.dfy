/** The RPC layer of audioipc/src/rpccore.rs as message queues: any number of
    callers share one client connection, requests and responses travel through
    FIFOs, and no message carries an identifier.

    A state machine: `Apply` performs one atomic step of one thread, a run is a
    sequence of steps, and every claim is about every run. */
module Rpc {
  import opened Wire

  type Req(!new, ==)
  type Resp(!new, ==)
  type ServerState(!new, ==)

  type CallId = nat
  type ProxyId = nat

  const QUEUE_CAPACITY := 32

  // `Server::process`, a stateful function of the requests it has seen.
  datatype Config = Config(process: (ServerState, Req) -> (ServerState, Resp), init: ServerState)

  // Where the CompletionWriter of a call is.
  datatype Writer = WithCaller | Queued | InFlight | Finished(value: Option<Resp>)

  // Where the calling thread is inside `Proxy::call`.  Between `upgrade` and
  // the end of `push` it holds a temporary strong reference to the queue.
  datatype Pc = Starting | Holding | Pushed | Waiting | Returned(result: Option<Resp>)

  datatype Call = Call(req: Req, proxy: ProxyId, pc: Pc, writer: Writer) {
    predicate HoldsQueue() { pc == Holding || pc == Pushed }
  }

  type Calls = map<CallId, Call>

  datatype Core = Core(
    calls: Calls,
    proxies: set<ProxyId>,
    handlerAlive: bool,
    queue: seq<CallId>,
    inFlight: seq<CallId>,
    mismatch: bool,            // "request/response mismatch" was reported
    serverAlive: bool,
    server: ServerState,
    responses: seq<Resp>,      // ServerHandler::in_flight
    // history
    sent: seq<CallId>,         // calls in the order they left the queue for the wire
    done: nat,                 // responses consumed by the client
    handled: seq<Req>,         // requests in the order the server processed them
    answers: seq<Resp>)        // what `process` returned for each

  datatype Sys = Sys(core: Core, up: seq<Req>, down: seq<Resp>)

  datatype Step =
    | NewCall(c: CallId, p: ProxyId, req: Req)
    | Upgrade(c: CallId)
    | Push(c: CallId)
    | Release(c: CallId)
    | Return(c: CallId)
    | CloneProxy(p: ProxyId, q: ProxyId)
    | DropProxy(p: ProxyId)
    | ClientAbort              // EventLoop removes the connection or exits
    | ClientProduce(encodes: bool)
    | ClientConsume
    | ServerConsume
    | ServerProduce(encodes: bool)
    | ServerAbort

  // --- Client side -----------------------------------------------------------------

  // The strong count of the queue is not zero.
  predicate StrongLive(k: Core) {
    k.handlerAlive || exists c <- k.calls.Keys :: k.calls[c].HoldsQueue()
  }

  // Drop the writers of `ids` unset: their waiters receive None.
  function Cancel(calls: Calls, ids: seq<CallId>): Calls {
    map c <- calls.Keys :: if c in ids then calls[c].(writer := Finished(None)) else calls[c]
  }

  // The queue is freed, with everything in it, when its strong count is zero.
  function FreeQueue(k: Core): Core {
    if StrongLive(k) then k else k.(calls := Cancel(k.calls, k.queue), queue := [])
  }

  function DropHandler(k: Core): Core {
    FreeQueue(k.(handlerAlive := false, calls := Cancel(k.calls, k.inFlight), inFlight := []))
  }

  function SetCall(k: Core, c: CallId, pc: Pc, w: Writer): Core
    requires c in k.calls
  {
    k.(calls := k.calls[c := k.calls[c].(pc := pc, writer := w)])
  }

  // A step that involves only the client process; None if it is not enabled.
  function ClientStep(k: Core, step: Step): Option<Core> {
    match step
    case NewCall(c, p, req) =>
      if c !in k.calls && p in k.proxies
      then Some(k.(calls := k.calls[c := Call(req, p, Starting, WithCaller)])) else None
    case Upgrade(c) =>
      if c !in k.calls || k.calls[c].pc != Starting then None
      else if StrongLive(k) then Some(SetCall(k, c, Holding, WithCaller))
      else Some(SetCall(k, c, Waiting, Finished(None)))
    case Push(c) =>
      if c !in k.calls || k.calls[c].pc != Holding then None
      else if |k.queue| < QUEUE_CAPACITY
      then Some(SetCall(k, c, Pushed, Queued).(queue := k.queue + [c]))
      else Some(SetCall(k, c, Pushed, Finished(None)))
    case Release(c) =>
      if c !in k.calls || k.calls[c].pc != Pushed then None
      else Some(FreeQueue(SetCall(k, c, Waiting, k.calls[c].writer)))
    case Return(c) =>
      if c in k.calls && k.calls[c].pc == Waiting && k.calls[c].writer.Finished?
      then Some(SetCall(k, c, Returned(k.calls[c].writer.value), k.calls[c].writer)) else None
    case CloneProxy(p, q) =>
      if p in k.proxies && q !in k.proxies then Some(k.(proxies := k.proxies + {q})) else None
    case DropProxy(p) =>
      // `call` borrows its proxy, so a proxy with a call outstanding is not dropped.
      if p in k.proxies && forall c <- k.calls.Keys :: k.calls[c].proxy == p ==> k.calls[c].pc.Returned?
      then Some(k.(proxies := k.proxies - {p})) else None
    case ClientAbort =>
      if k.handlerAlive then Some(DropHandler(k)) else None
    case _ => None
  }

  // ClientHandler::produce followed by the encoding of the request.  (Queue and
  // in-flight entries always name calls; the membership tests make the functions total.)
  datatype Produced<+T> = Produced(core: Core, msg: Option<T>)

  function Produce(k: Core, encodes: bool): Produced<Req> {
    if k.proxies == {} then Produced(DropHandler(k), None)
    else if k.queue == [] || k.queue[0] !in k.calls then Produced(k, None)
    else
      var c := k.queue[0];
      var popped := SetCall(k, c, k.calls[c].pc, InFlight).(queue := k.queue[1..], inFlight := k.inFlight + [c]);
      if encodes then Produced(popped.(sent := k.sent + [c]), Some(k.calls[c].req))
      else Produced(DropHandler(popped), None)
  }

  // ClientHandler::consume
  function Consume(k: Core, resp: Resp): Core {
    if k.inFlight == [] || k.inFlight[0] !in k.calls then DropHandler(k).(mismatch := true)
    else
      var c := k.inFlight[0];
      SetCall(k, c, k.calls[c].pc, Finished(Some(resp))).(inFlight := k.inFlight[1..], done := k.done + 1)
  }

  // --- Server side -----------------------------------------------------------------

  // ServerHandler::consume
  function Serve(cfg: Config, k: Core, req: Req): Core {
    var (server, resp) := cfg.process(k.server, req);
    k.(server := server, responses := k.responses + [resp],
       handled := k.handled + [req], answers := k.answers + [resp])
  }

  // ServerHandler::produce followed by the encoding of the response.
  function Reply(k: Core, encodes: bool): Produced<Resp> {
    if k.responses == [] then Produced(k, None)
    else if encodes then Produced(k.(responses := k.responses[1..]), Some(k.responses[0]))
    else Produced(k.(serverAlive := false, responses := []), None)
  }

  // --- The whole system ----------------------------------------------------------------

  function Opt<T>(m: Option<T>): seq<T> {
    if m.Some? then [m.value] else []
  }

  function Apply(cfg: Config, s: Sys, step: Step): Option<Sys> {
    match step
    case ClientProduce(encodes) =>
      if !s.core.handlerAlive then None
      else var p := Produce(s.core, encodes); Some(s.(core := p.core, up := s.up + Opt(p.msg)))
    case ClientConsume =>
      if !s.core.handlerAlive || s.down == [] then None
      else Some(s.(core := Consume(s.core, s.down[0]), down := s.down[1..]))
    case ServerConsume =>
      if !s.core.serverAlive || s.up == [] then None
      else Some(s.(core := Serve(cfg, s.core, s.up[0]), up := s.up[1..]))
    case ServerProduce(encodes) =>
      if !s.core.serverAlive then None
      else var p := Reply(s.core, encodes); Some(s.(core := p.core, down := s.down + Opt(p.msg)))
    case ServerAbort =>
      if s.core.serverAlive then Some(s.(core := s.core.(serverAlive := false, responses := []))) else None
    case _ =>
      var k := ClientStep(s.core, step);
      if k.Some? then Some(s.(core := k.value)) else None
  }

  // make_client: one proxy, an empty queue.
  function InitCore(cfg: Config): Core {
    Core(map[], {0}, true, [], [], false, true, cfg.init, [], [], 0, [], [])
  }

  function Run(cfg: Config, s: Sys, steps: seq<Step>): Option<Sys>
    decreases |steps|
  {
    if steps == [] then Some(s)
    else match Apply(cfg, s, steps[0])
         case None => None
         case Some(t) => Run(cfg, t, steps[1..])
  }

  function RunFromStart(cfg: Config, steps: seq<Step>): Option<Sys> {
    Run(cfg, Sys(InitCore(cfg), [], []), steps)
  }

  // --- Reference: what the server answers, defined without the machine --------------------

  function ServerAfter(cfg: Config, reqs: seq<Req>): ServerState {
    if reqs == [] then cfg.init
    else cfg.process(ServerAfter(cfg, reqs[..|reqs| - 1]), reqs[|reqs| - 1]).0
  }

  // The response to `req` of a server that has handled `before`, in that order.
  function Answer(cfg: Config, before: seq<Req>, req: Req): Resp {
    cfg.process(ServerAfter(cfg, before), req).1
  }
}
