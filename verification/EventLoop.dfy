/** The event loop of audioipc/src/ipccore.rs and the threads that talk to it:
    callers that queue a request for a connection and then ask the loop to wake
    it, threads that bind connections, and the thread that shuts the loop down.

    Every one of them pushes one request on the loop's bounded queue (taking a
    temporary strong reference to it) and then signals the waker.  The loop
    blocks in poll, handles readiness events, drains the queue and blocks again.
    `Waker::wake` is assumed not to fail. */
module EventLoop {
  import opened Wire

  type Id = nat       // a thread performing one operation; also names the connection it binds
  type Token = nat

  // What the thread asks for.  Its request in the queue is the Id itself.
  datatype Kind =
    | Call(conn: Id, token: Token)  // WakeConnection(token), after queueing a message for conn
    | Bind(blocking: bool)          // AddConnection(.., Some(tx)) or AddConnection(.., None)
    | Stop                          // Shutdown

  datatype Pc =
    | ToUpgrade
    | Holding            // holds a strong reference, about to push
    | PushedHolding      // pushed, reference not yet released
    | RefusedHolding     // the queue was full
    | ToWake
    | Sent               // woke the loop; a blocking binder waits for its reply
    | Failed             // push refused, or the loop is gone
    | Returned           // a blocking binder that has received its reply

  datatype Reply = NoReply | Ok(token: Token) | Err | Disconnected

  datatype Actor = Actor(kind: Kind, pc: Pc, reply: Reply) {
    predicate HoldsQueue() { pc == Holding || pc == PushedHolding || pc == RefusedHolding }
    predicate Settled() { pc == Sent || pc == Failed || pc == Returned }
  }

  datatype LoopPc =
    | Blocked
    | Events
    | Draining
    | Flushing(token: Token, draining: bool)  // inside handle_wake or handle_event
    | Exiting
    | Exited

  datatype Sys = Sys(
    actors: map<Id, Actor>,
    queue: seq<Id>,
    wakePending: bool,
    loop: LoopPc,
    conns: map<Token, Id>,          // the slab
    inbox: map<Id, seq<Id>>,        // per live connection, the messages callers have queued
    panicked: bool,
    // history
    starved: set<Id>,               // a push was refused, its message left behind, and nothing accepted since
    installed: map<Id, Token>,
    pushed: seq<Id>,
    served: seq<Id>)

  datatype Step =
    | BeginCall(a: Id, conn: Id)
    | BeginBind(a: Id, blocking: bool)
    | BeginStop(a: Id)
    | Upgrade(a: Id)
    | Push(a: Id)
    | Release(a: Id)
    | Wake(a: Id)
    | Receive(a: Id)
    | PollReturns(consumesWake: bool)
    | PollFails
    | FlushForEvent(token: Token)
    | StartDraining
    | Pop(vacant: Token, registers: bool)
    | TakeMessage
    | EndFlush
    | ConnectionDies(token: Token)
    | DropLoop

  predicate StrongLive(s: Sys) {
    s.loop != Exited || exists a <- s.actors.Keys :: s.actors[a].HoldsQueue()
  }

  // Freeing the queue drops every `tx` in it: a waiting `rx.recv()` fails.
  function FreeQueue(s: Sys): Sys {
    if StrongLive(s) then s
    else s.(queue := [], actors := map a <- s.actors.Keys ::
              if a in s.queue && s.actors[a].kind == Bind(true)
              then s.actors[a].(reply := Disconnected) else s.actors[a])
  }

  function SetPc(s: Sys, a: Id, pc: Pc): Sys
    requires a in s.actors
  {
    s.(actors := s.actors[a := s.actors[a].(pc := pc)])
  }

  function Begin(s: Sys, a: Id, kind: Kind): Sys {
    s.(actors := s.actors[a := Actor(kind, ToUpgrade, NoReply)])
  }

  // History: a push accepted for a connection will have it flushed;
  function Fed(s: Sys, kind: Kind): set<Id> {
    if kind.Call? then s.starved - {kind.conn} else s.starved
  }

  // a push refused while its message waits may leave it behind;
  predicate LeftBehind(s: Sys, a: Id)
    requires a in s.actors
  {
    var kind := s.actors[a].kind;
    kind.Call? && kind.conn in s.inbox && a in s.inbox[kind.conn]
  }

  // and a flush that ends has left nothing.
  function Flushed(s: Sys, token: Token): set<Id> {
    if token in s.conns then s.starved - {s.conns[token]} else s.starved
  }

  // --- The pushing threads ---------------------------------------------------------------

  function ActorStep(cap: nat, s: Sys, step: Step): Option<Sys>
    requires step.Upgrade? || step.Push? || step.Release? || step.Wake? || step.Receive?
  {
    var a := step.a;
    if a !in s.actors then None
    else
      var me := s.actors[a];
      match step
      case Upgrade(_) =>
        if me.pc == ToUpgrade then Some(SetPc(s, a, if StrongLive(s) then Holding else Failed)) else None
      case Push(_) =>
        if me.pc != Holding then None
        else if |s.queue| < cap
        then Some(SetPc(s, a, PushedHolding).(queue := s.queue + [a], pushed := s.pushed + [a],
            starved := Fed(s, me.kind)))
        else Some(SetPc(s, a, RefusedHolding).(
                    starved := if LeftBehind(s, a) then s.starved + {me.kind.conn} else s.starved))
      case Release(_) =>
        if me.pc == PushedHolding then Some(FreeQueue(SetPc(s, a, ToWake)))
        else if me.pc == RefusedHolding then Some(FreeQueue(SetPc(s, a, Failed)))
        else None
      case Wake(_) =>
        if me.pc == ToWake then Some(SetPc(s, a, Sent).(wakePending := true)) else None
      case Receive(_) =>
        if me.pc == Sent && me.kind == Bind(true) && me.reply != NoReply then Some(SetPc(s, a, Returned)) else None
  }

  // --- The loop ----------------------------------------------------------------------------

  // Register the connection of binder `a` and tell the binder, if it waits.
  function AddConnection(s: Sys, a: Id, blocking: bool, vacant: Token, registers: bool): Sys
    requires a in s.actors
  {
    var reply := if !blocking then NoReply else if registers then Ok(vacant) else Err;
    // tx.send(r).expect(..): the receiver must still be there
    var gone := blocking && (s.actors[a].pc == Returned || s.actors[a].pc == Failed);
    var told := s.(actors := s.actors[a := s.actors[a].(reply := reply)], panicked := s.panicked || gone);
    if !registers then told
    else told.(conns := s.conns[vacant := a], inbox := s.inbox[a := []], installed := s.installed[a := vacant])
  }

  // A request taken from the queue.  `vacant` is the key the slab offers.
  function Serve(s: Sys, a: Id, vacant: Token, registers: bool): Option<Sys> {
    if a !in s.actors then None
    else
      match s.actors[a].kind
      case Call(_, token) => Some(if token in s.conns then s.(loop := Flushing(token, true)) else s)
      case Stop => Some(s.(loop := Exiting))
      case Bind(blocking) =>
        if registers && vacant in s.conns then None else Some(AddConnection(s, a, blocking, vacant, registers))
  }

  function Remove(s: Sys, token: Token): Sys
    requires token in s.conns
  {
    s.(conns := s.conns - {token}, inbox := s.inbox - {s.conns[token]})
  }

  function LoopStep(s: Sys, step: Step): Option<Sys> {
    match step
    case PollReturns(consumesWake) =>
      if s.loop == Blocked then Some(s.(loop := Events, wakePending := s.wakePending && !consumesWake)) else None
    case PollFails => if s.loop == Blocked then Some(s.(loop := Exiting)) else None
    case FlushForEvent(token) =>
      if s.loop == Events && token in s.conns then Some(s.(loop := Flushing(token, false))) else None
    case StartDraining => if s.loop == Events then Some(s.(loop := Draining)) else None
    case Pop(vacant, registers) =>
      if s.loop != Draining then None
      else if s.queue == [] then Some(s.(loop := Blocked))
      else Serve(s.(queue := s.queue[1..], served := s.served + [s.queue[0]]), s.queue[0], vacant, registers)
    case TakeMessage =>
      if !s.loop.Flushing? || s.loop.token !in s.conns || s.conns[s.loop.token] !in s.inbox then None
      else
        var conn := s.conns[s.loop.token];
        if s.inbox[conn] == [] then None else Some(s.(inbox := s.inbox[conn := s.inbox[conn][1..]]))
    case EndFlush =>
      // `produce` has returned None
      if !s.loop.Flushing? then None
      else if s.loop.token in s.conns && s.conns[s.loop.token] in s.inbox
          && s.inbox[s.conns[s.loop.token]] != [] then None
      else Some(s.(loop := if s.loop.draining then Draining else Events, starved := Flushed(s, s.loop.token)))
    case ConnectionDies(token) =>
      if token in s.conns && (s.loop == Events || (s.loop.Flushing? && s.loop.token == token))
      then Some(Remove(s, token)) else None
    case DropLoop =>
      if s.loop == Exiting then Some(FreeQueue(s.(loop := Exited, conns := map[], inbox := map[]))) else None
    case _ => None
  }

  function Apply(cap: nat, s: Sys, step: Step): Option<Sys> {
    match step
    case BeginCall(a, conn) =>
      // the proxy of a bound connection queues its message, then wakes the loop
      if a !in s.actors && conn in s.installed && conn in s.inbox
      then Some(Begin(s, a, Call(conn, s.installed[conn])).(inbox := s.inbox[conn := s.inbox[conn] + [a]])) else None
    case BeginBind(a, blocking) => if a !in s.actors then Some(Begin(s, a, Bind(blocking))) else None
    case BeginStop(a) => if a !in s.actors then Some(Begin(s, a, Stop)) else None
    case Upgrade(_) => ActorStep(cap, s, step)
    case Push(_) => ActorStep(cap, s, step)
    case Release(_) => ActorStep(cap, s, step)
    case Wake(_) => ActorStep(cap, s, step)
    case Receive(_) => ActorStep(cap, s, step)
    case _ => LoopStep(s, step)
  }

  function Run(cap: nat, s: Sys, steps: seq<Step>): Option<Sys>
    decreases |steps|
  {
    if steps == [] then Some(s)
    else match Apply(cap, s, steps[0])
         case None => None
         case Some(t) => Run(cap, t, steps[1..])
  }

  const Start := Sys(map[], [], false, Blocked, map[], map[], false, {}, map[], [], [])
}
