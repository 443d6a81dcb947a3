/** Passing platform handles beside the byte stream on the Unix path:
    audioipc/src/messages.rs, audioipc/src/sys/mod.rs and audioipc/src/sys/unix/.

    A message that carries a handle is serialized without it.  The handle waits
    in a bounded queue next to the outbound bytes, travels as ancillary data
    attached to the first byte of some send, and is paired with its message
    again by order alone.

    Only ClientMessage carries handles, so they travel one way.  But the sender's
    pipe has one control-message scratch for both directions, and what a failed
    send leaves in it is found by whichever call comes next. */
module Handles {
  import opened Wire
  import opened Codec
  import L = Link

  type Body(!new, ==)
  type Fd = nat        // a descriptor of the sender, and the open file it refers to

  const HANDLE_QUEUE_LIMIT := 16
  const INVALID_HANDLE_VALUE := -1

  // A descriptor of the receiver: its own number for what the sender's referred to.
  datatype Got = Got(num: nat, what: Fd)

  // --- SerializableHandle ----------------------------------------------------------------------

  datatype Slot<+H> = Owned(fd: H, forTarget: bool) | SerializableValue(value: int) | Empty

  // None is a panic ("called in invalid state", or the failed assertion).
  function TakeHandle<H>(s: Slot<H>): Option<H> {
    if s.Owned? && !s.forTarget then Some(s.fd) else None
  }

  function TakeHandleForSend<H>(s: Slot<H>): Option<H> {
    if s.Owned? && s.forTarget then Some(s.fd) else None
  }

  function GetSerializableValue<H>(s: Slot<H>): Option<int> {
    match s
    case SerializableValue(v) => Some(v)
    case Empty => Some(INVALID_HANDLE_VALUE)
    case Owned(_, _) => None
  }

  // A message in a process, and what bincode sees of it.
  datatype Msg<+H> = Msg(body: Body, slot: Option<Slot<H>>)
  datatype WireMsg = WireMsg(body: Body, handle: Option<int>)

  // A message as bincode sees it once its handle has been taken.
  function Serialized<H>(m: Msg<H>): WireMsg {
    WireMsg(m.body, if m.slot.Some? then GetSerializableValue(Slot<H>.Empty) else None)
  }

  // The descriptor a message owns, and those of several messages.
  function FdOf<H>(m: Msg<H>): seq<H> {
    if m.slot.Some? && m.slot.value.Owned? then [m.slot.value.fd] else []
  }

  function Fds<H>(msgs: seq<Msg<H>>): seq<H> {
    if msgs == [] then [] else FdOf(msgs[0]) + Fds(msgs[1..])
  }

  // --- The two ends and the pipe between them ------------------------------------------------------

  // Whether closing all of `fds`, in order, closes something that is not open.
  predicate ClosesTwice<H(==)>(open: set<H>, fds: seq<H>) {
    fds != [] && (fds[0] !in open || ClosesTwice(open - {fds[0]}, fds[1..]))
  }

  function Elems<H(==)>(s: seq<H>): set<H> {
    set x <- s
  }

  datatype Sender = Sender(
    produced: seq<Msg<Fd>>,    // waiting in the handler
    outHandles: seq<Fd>,       // outbound.handles
    scratch: seq<seq<Fd>>,     // Pipe::cmsg: the headers encoded and not cleared
    stale: seq<Fd>,            // inbound.handles: no message from the peer ever takes one
    open: set<Fd>,             // descriptors open in the process
    used: set<Fd>,
    gone: bool,
    badClose: bool)            // a descriptor was closed twice
  {
    function Close(fds: seq<Fd>): Sender {
      this.(open := open - Elems(fds), badClose := badClose || ClosesTwice(open, fds))
    }
  }

  datatype Receiver = Receiver(
    inHandles: seq<Got>,       // inbound.handles
    inbox: seq<Msg<Got>>,      // decoded, not yet looked at
    app: seq<Got>,             // handles the application owns
    open: set<Got>,
    taken: nat,                // descriptors received so far; names the next one
    gone: bool,
    badClose: bool)
  {
    function Close(fds: seq<Got>): Receiver {
      this.(open := open - Elems(fds), badClose := badClose || ClosesTwice(open, fds))
    }
  }

  // Ancillary data in the pipe, attached to the byte at an absolute offset.
  datatype Mark = Mark(pos: nat, fd: Fd)

  // History: a message between encoder and decoder, its own handle, and the
  // absolute offset of its frame.
  datatype Record = Record(msg: WireMsg, own: Option<Fd>, start: nat)

  datatype Net = Net(
    link: L.Link,
    marks: seq<Mark>,
    sent: nat,                 // bytes handed to the pipe
    received: nat,             // bytes taken from it
    transit: seq<Record>)

  datatype Delivery = Delivery(own: Fd, got: Fd)

  datatype Sys = Sys(
    tx: Sender,
    net: Net,
    rx: Receiver,
    delivered: seq<Delivery>,
    doubled: bool,             // history: a send shipped what an earlier one had left in the scratch
    adopted: bool,             // history: a receive took it for handles from the peer
    panicked: bool,            // an invalid-state panic, or a missing inbound handle
    overLimit: bool)           // a handle queue would exceed HANDLE_QUEUE_LIMIT

  const Start := Sys(
    Sender([], [], [], [], {}, {}, false, false), Net(L.EmptyLink, [], 0, 0, []),
    Receiver([], [], [], {}, 0, false, false), [], false, false, false, false)

  datatype Step =
    | Produce(body: Body, fd: Option<Fd>)   // the server answers, perhaps with a new handle
    | Flush
    | Send(n: nat)
    | SendFails
    | SenderRecv                            // the sender's pipe receives something from the peer
    | Recv(n: nat)
    | Decode
    | AppTake
    | AppClose
    | DropSender
    | DropReceiver

  function MarksAt(pos: nat, fds: seq<Fd>): seq<Mark> {
    seq(|fds|, i requires 0 <= i < |fds| => Mark(pos, fds[i]))
  }

  function MarkFds(marks: seq<Mark>): seq<Fd> {
    seq(|marks|, i requires 0 <= i < |marks| => marks[i].fd)
  }

  // How many of the leading marks belong to bytes before `pos`.
  function Arrived(marks: seq<Mark>, pos: nat): (k: nat)
    ensures k <= |marks|
    ensures forall i :: 0 <= i < k ==> marks[i].pos < pos
    ensures k < |marks| ==> marks[k].pos >= pos
  {
    if marks == [] || marks[0].pos >= pos then 0 else 1 + Arrived(marks[1..], pos)
  }

  // New descriptors for what the marks refer to.
  function Install(taken: nat, marks: seq<Mark>): seq<Got> {
    seq(|marks|, i requires 0 <= i < |marks| => Got(taken + i, marks[i].fd))
  }

  // --- Steps of the sender ----------------------------------------------------------------------------

  function Append(net: Net, w: WireMsg, fd: Option<Fd>, payload: seq<byte>): Net {
    net.(transit := net.transit + [Record(w, fd, net.sent + |net.link.outbound|)], link := L.Encode(net.link, payload))
  }

  // FramedDriver::flush_outbound, one item.  When encoding fails the handle just
  // taken is dropped, and closed.
  function FlushOne(sd: Serde<WireMsg>, s: Sys): Sys
    requires s.tx.produced != []
  {
    var m := s.tx.produced[0];
    var tx := s.tx.(produced := s.tx.produced[1..]);
    var fd := if m.slot.Some? then TakeHandleForSend(m.slot.value) else None;
    if m.slot.Some? && fd.None? then s.(panicked := true)
    else
      var w := Serialized(m);
      var payload := sd.ser(w);
      if payload.None? then s.(tx := tx.Close(FdOf(m)))
      else if fd.Some? && |tx.outHandles| >= HANDLE_QUEUE_LIMIT then s.(overLimit := true)
      else s.(tx := tx.(outHandles := tx.outHandles + FdOf(m)), net := Append(s.net, w, fd, payload.value))
  }

  // Pipe::send_msg encodes the queue as one more header behind whatever the
  // scratch still holds.
  function Headers(tx: Sender): seq<seq<Fd>> {
    tx.scratch + if tx.outHandles == [] then [] else [tx.outHandles]
  }

  // A send that succeeds ships every header, clears scratch and queue and closes our copies.
  function Shipped(net: Net, n: nat, fds: seq<Fd>): Net
    requires n <= |net.link.outbound|
  {
    net.(link := L.Send(net.link, n), sent := net.sent + n, marks := net.marks + MarksAt(net.sent, fds))
  }

  function SendOk(s: Sys, n: nat): Sys
    requires n <= |s.net.link.outbound|
  {
    s.(net := Shipped(s.net, n, Flatten(Headers(s.tx))),
       tx := s.tx.(scratch := [], outHandles := []).Close(s.tx.outHandles),
       doubled := s.doubled || s.tx.scratch != [])
  }

  // A send that fails clears nothing.
  function SendError(s: Sys): Sys {
    s.(tx := s.tx.(scratch := Headers(s.tx)))
  }

  // Pipe::recv_msg on the sender's pipe: decode_handles reads the first header of
  // the scratch, and then the scratch is cleared.
  function SenderRecvOk(s: Sys): Sys {
    if s.tx.scratch == [] then s
    else
      s.(tx := s.tx.(stale := s.tx.stale + s.tx.scratch[0], scratch := []), adopted := true,
         overLimit := s.overLimit || |s.tx.stale| + |s.tx.scratch[0]| > HANDLE_QUEUE_LIMIT)
  }

  // --- Steps of the receiver --------------------------------------------------------------------------

  // Pipe::recv_msg: ancillary data arrives with the byte it is attached to.
  function RecvOk(s: Sys, n: nat): Sys
    requires n <= |s.net.link.pipe|
  {
    var k := Arrived(s.net.marks, s.net.received + n);
    var gots := Install(s.rx.taken, s.net.marks[..k]);
    s.(net := s.net.(link := L.Recv(s.net.link, n), received := s.net.received + n, marks := s.net.marks[k..]),
       rx := s.rx.(inHandles := s.rx.inHandles + gots, open := s.rx.open + Elems(gots), taken := s.rx.taken + k),
       overLimit := s.overLimit || |s.rx.inHandles| + k > HANDLE_QUEUE_LIMIT)
  }

  // What pairing the front message with `got` adds to the history.
  function Paid(transit: seq<Record>, got: Fd): seq<Delivery> {
    if transit != [] && transit[0].own.Some? then [Delivery(transit[0].own.value, got)] else []
  }

  function Rest(transit: seq<Record>): seq<Record> {
    if transit == [] then [] else transit[1..]
  }

  // A decoded message: pair it with the oldest handle if it carries one.  The
  // deserialized slot is SerializableValue(-1); set_local_handle replaces it.
  function Deliver(s: Sys, w: WireMsg): Sys {
    var net := s.net.(transit := Rest(s.net.transit));
    if w.handle.None? then s.(net := net, rx := s.rx.(inbox := s.rx.inbox + [Msg(w.body, None)]))
    else if s.rx.inHandles == [] then s.(net := net, panicked := true)
    else
      var got := s.rx.inHandles[0];
      s.(net := net, rx := s.rx.(inHandles := s.rx.inHandles[1..],
          inbox := s.rx.inbox + [Msg(w.body, Some(Owned(got, false)))]),
         delivered := s.delivered + Paid(s.net.transit, got.what))
  }

  // FramedDriver::process_inbound, one item.
  function DecodeOne(sd: Serde<WireMsg>, s: Sys): Sys {
    var d := DecodeOnce(sd, s.net.link.state, s.net.link.inbound);
    var s1 := s.(net := s.net.(link := L.AfterDecode(s.net.link, d)));
    match d.outcome
    case More => s1
    case Fail(_) => s1.(panicked := true)
    case Item(w) => Deliver(s1, w)
  }

  // --- The machine ------------------------------------------------------------------------------------

  // What a Connection being dropped closes: inbound, outbound, and then the driver.
  function SenderHeld(tx: Sender): seq<Fd> {
    tx.stale + (tx.outHandles + Fds(tx.produced))
  }

  function SenderDrops(tx: Sender): Sender {
    tx.(produced := [], outHandles := [], stale := [], scratch := [], gone := true).Close(SenderHeld(tx))
  }

  function ReceiverDrops(rx: Receiver): Receiver {
    rx.(inHandles := [], inbox := [], gone := true).Close(rx.inHandles + Fds(rx.inbox))
  }

  function SenderStep(sd: Serde<WireMsg>, s: Sys, step: Step): Option<Sys> {
    match step
    case Produce(body, fd) =>
      if fd.None? then Some(s.(tx := s.tx.(produced := s.tx.produced + [Msg(body, None)])))
      else if fd.value in s.tx.used then None
      else Some(s.(tx := s.tx.(produced := s.tx.produced + [Msg(body, Some(Owned(fd.value, true)))],
                               used := s.tx.used + {fd.value}, open := s.tx.open + {fd.value})))
    case Flush => if s.tx.produced == [] then None else Some(FlushOne(sd, s))
    case Send(n) => if 1 <= n <= |s.net.link.outbound| then Some(SendOk(s, n)) else None
    case SendFails => if s.net.link.outbound != [] then Some(SendError(s)) else None
    case SenderRecv => Some(SenderRecvOk(s))
    case DropSender => Some(s.(tx := SenderDrops(s.tx)))
    case _ => None
  }

  function ReceiverStep(sd: Serde<WireMsg>, s: Sys, step: Step): Option<Sys> {
    match step
    case Recv(n) => if !s.rx.gone && 1 <= n <= |s.net.link.pipe| then Some(RecvOk(s, n)) else None
    case Decode => if s.rx.gone then None else Some(DecodeOne(sd, s))
    case AppTake =>
      if s.rx.inbox == [] then None
      else if s.rx.inbox[0].slot.None? then Some(s.(rx := s.rx.(inbox := s.rx.inbox[1..])))
      else
        var fd := TakeHandle(s.rx.inbox[0].slot.value);
        if fd.None? then Some(s.(panicked := true))
        else Some(s.(rx := s.rx.(inbox := s.rx.inbox[1..], app := s.rx.app + [fd.value])))
    case AppClose =>
      if s.rx.app == [] then None
      else Some(s.(rx := s.rx.(app := s.rx.app[1..]).Close([s.rx.app[0]])))
    case DropReceiver => if s.rx.gone then None else Some(s.(rx := ReceiverDrops(s.rx)))
    case _ => None
  }

  predicate OfSender(step: Step) {
    step.Produce? || step.Flush? || step.Send? || step.SendFails? || step.SenderRecv? || step.DropSender?
  }

  function Apply(sd: Serde<WireMsg>, s: Sys, step: Step): Option<Sys> {
    if s.panicked || s.overLimit then None
    else if OfSender(step) then (if s.tx.gone then None else SenderStep(sd, s, step))
    else ReceiverStep(sd, s, step)
  }

  function Run(sd: Serde<WireMsg>, s: Sys, steps: seq<Step>): Option<Sys>
    decreases |steps|
  {
    if steps == [] then Some(s)
    else match Apply(sd, s, steps[0])
         case None => None
         case Some(t) => Run(sd, t, steps[1..])
  }
}
