/** Pairing handles with their messages: handles reach the receiver no later than
    their messages in every run, and in the order of the messages in every run
    that ships no handle twice. */
module HandlesSafety {
  import opened Wire
  import opened Codec
  import L = Link
  import opened Handles

  // --- Where frames and handles are, by absolute byte offset -----------------------------------

  function Msgs(transit: seq<Record>): seq<WireMsg> {
    if transit == [] then [] else [transit[0].msg] + Msgs(transit[1..])
  }

  function FrameLen(sd: Serde<WireMsg>, m: WireMsg): nat {
    HEADER_LEN + if sd.ser(m).Some? then |sd.ser(m).value| else 0
  }

  // The frames in transit start at `at` and follow each other.
  ghost predicate Starts(sd: Serde<WireMsg>, transit: seq<Record>, at: int) {
    transit == [] || (transit[0].start == at && Starts(sd, transit[1..], at + FrameLen(sd, transit[0].msg)))
  }

  function End(sd: Serde<WireMsg>, transit: seq<Record>, at: int): int {
    if transit == [] then at else End(sd, transit[1..], at + FrameLen(sd, transit[0].msg))
  }

  // The handle-bearing messages in transit, in order.
  datatype Own = Own(start: nat, fd: Fd)

  function Owns(transit: seq<Record>): seq<Own> {
    if transit == [] then []
    else (if transit[0].own.Some? then [Own(transit[0].start, transit[0].own.value)] else []) + Owns(transit[1..])
  }

  lemma {:induction false} TransitAppend(sd: Serde<WireMsg>, transit: seq<Record>, r: Record, at: int)
    ensures Msgs(transit + [r]) == Msgs(transit) + [r.msg]
    ensures Starts(sd, transit, at) && r.start == End(sd, transit, at) ==> Starts(sd, transit + [r], at)
  {
    if transit == [] {
      assert transit + [r] == [r] && [r][1..] == [];
    } else {
      assert (transit + [r])[1..] == transit[1..] + [r];
      TransitAppend(sd, transit[1..], r, at + FrameLen(sd, transit[0].msg));
    }
  }

  // Where the frame at the front of the link starts.
  function Front(net: Net): int {
    net.received - |net.link.inbound| - if net.link.state.Data? then HEADER_LEN else 0
  }

  lemma FramesCons(sd: Serde<WireMsg>, x: WireMsg, tail: seq<WireMsg>)
    requires forall m <- [x] + tail :: sd.ser(m).Some?
    ensures forall m <- tail :: sd.ser(m).Some?
    ensures |L.Frames(sd, [x] + tail)| == FrameLen(sd, x) + |L.Frames(sd, tail)|
  {
    hide FrameOf;
    assert forall m <- tail :: m in [x] + tail;
    assert ([x] + tail)[0] == x && ([x] + tail)[1..] == tail && x in [x] + tail;
  }

  lemma {:induction false} FramesEnd(sd: Serde<WireMsg>, transit: seq<Record>, at: int)
    requires forall m <- Msgs(transit) :: sd.ser(m).Some?
    ensures End(sd, transit, at) == at + |L.Frames(sd, Msgs(transit))|
    decreases |transit|
  {
    if transit != [] {
      var x, tail := transit[0].msg, Msgs(transit[1..]);
      assert Msgs(transit) == [x] + tail;
      assert End(sd, transit, at) == End(sd, transit[1..], at + FrameLen(sd, x));
      hide End, Msgs, L.Frames, FrameLen;
      FramesCons(sd, x, tail);
      FramesEnd(sd, transit[1..], at + FrameLen(sd, x));
    }
  }

  // --- The bytes --------------------------------------------------------------------------------

  // The link carries exactly the messages in transit, frame after frame.
  ghost predicate Framed(sd: Serde<WireMsg>, net: Net) {
    && L.Carries(sd, net.link, Msgs(net.transit))
    && net.sent == net.received + |net.link.pipe|
    && Starts(sd, net.transit, Front(net))
    && (forall r <- net.transit :: r.msg.handle.Some? <==> r.own.Some?)
  }

  // The bytes of a link, plus a header already consumed, are its frames.
  lemma LinkLength(sd: Serde<WireMsg>, l: L.Link, msgs: seq<WireMsg>)
    requires L.Carries(sd, l, msgs)
    ensures |l.Bytes()| + (if l.state.Data? then HEADER_LEN else 0) == |L.Frames(sd, msgs)|
    ensures msgs != [] ==> |L.Frames(sd, msgs)| == FrameLen(sd, msgs[0]) + |L.Frames(sd, msgs[1..])|
  {
    hide FrameOf;
  }

  lemma EndOfLink(sd: Serde<WireMsg>, net: Net)
    requires Framed(sd, net)
    ensures End(sd, net.transit, Front(net)) == net.sent + |net.link.outbound|
  {
    FramesEnd(sd, net.transit, Front(net));
    LinkLength(sd, net.link, Msgs(net.transit));
  }

  lemma AppendFramed(sd: Serde<WireMsg>, net: Net, w: WireMsg, fd: Option<Fd>)
    requires Framed(sd, net) && sd.ser(w).Some? && (w.handle.Some? <==> fd.Some?)
    ensures Framed(sd, Append(net, w, fd, sd.ser(w).value))
  {
    EndOfLink(sd, net);
    TransitAppend(sd, net.transit, Record(w, fd, net.sent + |net.link.outbound|), Front(net));
    L.EncodeAppends(sd, net.link, Msgs(net.transit), w);
    hide FrameOf, Starts, Msgs, L.Carries;
  }

  lemma ShipFramed(sd: Serde<WireMsg>, net: Net, n: nat, fds: seq<Fd>)
    requires Framed(sd, net) && n <= |net.link.outbound|
    ensures Framed(sd, Shipped(net, n, fds))
  {
    hide L.Carries, Starts;
    L.TransferKeeps(sd, net.link, Msgs(net.transit), n);
  }

  lemma RecvFramed(sd: Serde<WireMsg>, net: Net, n: nat, marks: seq<Mark>)
    requires Framed(sd, net) && n <= |net.link.pipe|
    ensures Framed(sd, net.(link := L.Recv(net.link, n), received := net.received + n, marks := marks))
  {
    L.TransferKeeps(sd, net.link, Msgs(net.transit), n);
    hide L.Carries, Starts;
  }

  // What a decode does to the frames, and how far an item's frame reached.
  lemma DecodeFrames(sd: Serde<WireMsg>, net: Net)
    requires Sound(sd) && Framed(sd, net)
    ensures var d := DecodeOnce(sd, net.link.state, net.link.inbound);
            var net1 := net.(link := L.AfterDecode(net.link, d));
            && !d.outcome.Fail?
            && (d.outcome.More? ==> Framed(sd, net1))
            && (d.outcome.Item? ==>
                 && net.transit != [] && d.outcome.item == net.transit[0].msg
                 && net.transit[0].start + HEADER_LEN <= net.received
                 && Framed(sd, net1.(transit := net.transit[1..])))
  {
    hide L.Carries, L.Frames;
    var d := DecodeOnce(sd, net.link.state, net.link.inbound);
    assert d.outcome.Item? ==> d.state == Length by { hide Starts, Msgs; }
    hide DecodeOnce;
    var ms := Msgs(net.transit);
    L.DecodeIsPop(sd, net.link, ms);
    LinkLength(sd, net.link, ms);
    var l' := L.AfterDecode(net.link, d);
    if d.outcome.More? {
      LinkLength(sd, l', ms);
    } else if d.outcome.Item? {
      assert ms[1..] == Msgs(net.transit[1..]);
      LinkLength(sd, l', ms[1..]);
    }
  }

  // --- No handle is late, in any run ----------------------------------------------------------------

  // `arrived` handles received, then the marks, then `queued` handles: enough for
  // the messages `own`, and none further back in the stream than its message.
  ghost predicate Timed(own: seq<Own>, arrived: nat, marks: seq<Mark>, queued: nat, net: Net, gone: bool) {
    var m := |marks|;
    && (!gone ==> arrived + m + queued >= |own|)
    && (forall i :: 0 <= i < m ==> net.received <= marks[i].pos <= net.sent)
    && (forall i :: 0 <= i < m && arrived + i < |own| ==> marks[i].pos <= own[arrived + i].start)
    && (forall i, j :: 0 <= i < j < m ==> marks[i].pos <= marks[j].pos)
    && (forall j :: arrived + m <= j < |own| ==> net.sent <= own[j].start)
  }

  ghost predicate OnTime(s: Sys) {
    Timed(Owns(s.net.transit), |s.rx.inHandles|, s.net.marks, |s.tx.outHandles|, s.net, s.tx.gone)
  }

  lemma AppendTimed(own: seq<Own>, more: seq<Own>, arrived: nat, marks: seq<Mark>, queued: nat, net: Net, net': Net)
    requires Timed(own, arrived, marks, queued, net, false) && net'.sent == net.sent && net'.received == net.received
    requires forall o <- more :: net.sent <= o.start
    ensures Timed(own + more, arrived, marks, queued + |more|, net', false)
  {
  }

  lemma ShipTimed(own: seq<Own>, arrived: nat, marks: seq<Mark>, fds: seq<Fd>, queued: nat, net: Net, net': Net)
    requires Timed(own, arrived, marks, queued, net, false) && |fds| >= queued && net.received <= net.sent <= net'.sent
    requires net'.received == net.received
    ensures Timed(own, arrived, marks + MarksAt(net.sent, fds), 0, net', false)
  {
  }

  lemma RecvTimed(own: seq<Own>, arrived: nat, marks: seq<Mark>, queued: nat, net: Net, net': Net, gone: bool)
    requires Timed(own, arrived, marks, queued, net, gone) && net.received <= net'.received <= net.sent == net'.sent
    ensures var k := Arrived(marks, net'.received);
            Timed(own, arrived + k, marks[k..], queued, net', gone)
  {
    hide Arrived;
    TakeTimed(own, arrived, marks, queued, net, net', gone, Arrived(marks, net'.received));
  }

  lemma TakeTimed(own: seq<Own>, arrived: nat, marks: seq<Mark>, queued: nat, net: Net, net': Net, gone: bool, k: nat)
    requires Timed(own, arrived, marks, queued, net, gone) && net'.sent == net.sent
    requires k <= |marks| && (k < |marks| ==> marks[k].pos >= net'.received)
    ensures Timed(own, arrived + k, marks[k..], queued, net', gone)
  {
    var rest := marks[k..];
    forall i | 0 <= i < |rest|
      ensures net'.received <= rest[i].pos <= net.sent
      ensures arrived + k + i < |own| ==> rest[i].pos <= own[arrived + k + i].start
    {
      var j := k + i;
      assert rest[i] == marks[j] && (j > k ==> marks[k].pos <= marks[j].pos);
      assert arrived + j == arrived + k + i;
    }
  }

  // A handle is never behind the frame it belongs to.
  lemma HandleHasArrived(own: seq<Own>, arrived: nat, marks: seq<Mark>, queued: nat, net: Net, gone: bool)
    requires Timed(own, arrived, marks, queued, net, gone) && net.received <= net.sent
    requires own != [] && own[0].start < net.received
    ensures arrived > 0 && Timed(own[1..], arrived - 1, marks, queued, net, gone)
  {
    assert |marks| > 0 ==> net.received <= marks[0].pos;
  }

  lemma TimedNet(own: seq<Own>, arrived: nat, marks: seq<Mark>, queued: nat, net: Net, net': Net, gone: bool)
    requires Timed(own, arrived, marks, queued, net, gone) && net'.sent == net.sent && net'.received == net.received
    ensures Timed(own, arrived, marks, queued, net', gone) && Timed(own, arrived, marks, 0, net', true)
  {
  }

  // --- In step: the same handles in the same order ----------------------------------------------------

  function Whats(gots: seq<Got>): seq<Fd> {
    seq(|gots|, i requires 0 <= i < |gots| => gots[i].what)
  }

  // The handles between encoder and decoder, and those of the messages there.
  function OnTheWire(s: Sys): seq<Fd> {
    Whats(s.rx.inHandles) + MarkFds(s.net.marks) + s.tx.outHandles
  }

  function Expected(own: seq<Own>): seq<Fd> {
    seq(|own|, i requires 0 <= i < |own| => own[i].fd)
  }

  // Every message on its way has its own handle on its way, in the same place.
  // When the sender is gone, its last messages will never be decoded.
  ghost predicate InStep(s: Sys) {
    if s.tx.gone then OnTheWire(s) <= Expected(Owns(s.net.transit))
    else OnTheWire(s) == Expected(Owns(s.net.transit))
  }

  // In step until something is shipped twice; from then on there are too many handles.
  ghost predicate Stepped(s: Sys) {
    && (!s.doubled ==> InStep(s))
    && (s.doubled && !s.tx.gone ==> |OnTheWire(s)| > |Expected(Owns(s.net.transit))|)
  }

  lemma MarkFdsAppend(marks: seq<Mark>, pos: nat, fds: seq<Fd>)
    ensures MarkFds(marks + MarksAt(pos, fds)) == MarkFds(marks) + fds
  {
  }

  lemma InstallWhats(gots: seq<Got>, taken: nat, marks: seq<Mark>, k: nat)
    requires k <= |marks|
    ensures Whats(gots + Install(taken, marks[..k])) + MarkFds(marks[k..]) == Whats(gots) + MarkFds(marks)
  {
  }

  lemma FlattenAppend(a: seq<seq<Fd>>, x: seq<Fd>)
    ensures Flatten(a + [x]) == Flatten(a) + x
  {
    if a == [] {
      assert [] + [x] == [x] && [x][1..] == [] && Flatten([x]) == x + [];
    } else {
      assert (a + [x])[1..] == a[1..] + [x];
      FlattenAppend(a[1..], x);
    }
  }

  lemma HeadersFlat(tx: Sender)
    ensures Flatten(Headers(tx)) == Flatten(tx.scratch) + tx.outHandles
  {
    if tx.outHandles == [] {
      assert tx.scratch + [] == tx.scratch;
    } else {
      FlattenAppend(tx.scratch, tx.outHandles);
    }
  }

  // --- The invariant: pairing ------------------------------------------------------------------

  ghost predicate Groups(tx: Sender) {
    forall g <- tx.scratch :: g != []
  }

  ghost predicate Right(s: Sys) {
    !s.doubled ==> forall d <- s.delivered :: d.got == d.own
  }

  ghost predicate Paired(sd: Serde<WireMsg>, s: Sys) {
    Framed(sd, s.net) && OnTime(s) && Stepped(s)
  }

  ghost predicate PairInv(sd: Serde<WireMsg>, s: Sys) {
    Groups(s.tx) && Right(s) && (!s.rx.gone ==> Paired(sd, s))
  }

  // --- Steps of the sender --------------------------------------------------------------------------

  // Pairing looks at part of the state only.
  ghost predicate SameWire(s: Sys, s': Sys) {
    && s'.net == s.net && s'.rx.inHandles == s.rx.inHandles && s'.rx.gone == s.rx.gone
    && s'.tx.outHandles == s.tx.outHandles && s'.tx.gone == s.tx.gone && Groups(s'.tx)
    && s'.doubled == s.doubled && s'.delivered == s.delivered
  }

  lemma PairFrame(sd: Serde<WireMsg>, s: Sys, s': Sys)
    requires PairInv(sd, s) && SameWire(s, s')
    ensures PairInv(sd, s')
  {
    hide Framed, Owns;
  }

  lemma QueueStepped(s: Sys, w: WireMsg, fd: Option<Fd>, payload: seq<byte>, tx: Sender)
    requires Stepped(s) && !s.tx.gone && !tx.gone
    requires tx.outHandles == s.tx.outHandles + if fd.Some? then [fd.value] else []
    ensures Stepped(s.(tx := tx, net := Append(s.net, w, fd, payload)))
  {
    var r := Record(w, fd, s.net.sent + |s.net.link.outbound|);
    OwnsAppend(s.net.transit, r);
    var more := if fd.Some? then [fd.value] else [];
    var own := Owns(s.net.transit);
    assert Expected(Owns(s.net.transit + [r])) == Expected(own) + more;
    hide Owns, Expected, L.Encode;
    assert OnTheWire(s.(tx := tx, net := Append(s.net, w, fd, payload))) == OnTheWire(s) + more;
  }

  lemma {:induction false} OwnsAppend(transit: seq<Record>, r: Record)
    ensures Owns(transit + [r]) == Owns(transit) + if r.own.Some? then [Own(r.start, r.own.value)] else []
  {
    if transit == [] {
      assert transit + [r] == [r] && [r][1..] == [];
    } else {
      var t := transit + [r];
      assert t[1..] == transit[1..] + [r] && t[0] == transit[0];
      OwnsAppend(transit[1..], r);
      var first := if t[0].own.Some? then [Own(t[0].start, t[0].own.value)] else [];
      var last := if r.own.Some? then [Own(r.start, r.own.value)] else [];
      assert Owns(t) == first + Owns(t[1..]) && Owns(transit) == first + Owns(transit[1..]);
      hide Owns;
      assert first + (Owns(transit[1..]) + last) == first + Owns(transit[1..]) + last;
    }
  }

  lemma QueueOnTime(s: Sys, w: WireMsg, fd: Option<Fd>, payload: seq<byte>, tx: Sender)
    requires OnTime(s) && !s.tx.gone && !tx.gone
    requires tx.outHandles == s.tx.outHandles + if fd.Some? then [fd.value] else []
    ensures OnTime(s.(tx := tx, net := Append(s.net, w, fd, payload)))
  {
    var r := Record(w, fd, s.net.sent + |s.net.link.outbound|);
    var net', own := Append(s.net, w, fd, payload), Owns(s.net.transit);
    var more := if fd.Some? then [Own(r.start, fd.value)] else [];
    assert Owns(net'.transit) == own + more by { OwnsAppend(s.net.transit, r); hide Owns, L.Encode; }
    assert net'.marks == s.net.marks && net'.sent == s.net.sent && net'.received == s.net.received by { hide L.Encode; }
    assert forall o <- more :: s.net.sent <= o.start;
    hide Owns, Append, Timed;
    AppendTimed(own, more, |s.rx.inHandles|, s.net.marks, |s.tx.outHandles|, s.net, net');
  }

  lemma QueuePairs(sd: Serde<WireMsg>, s: Sys, w: WireMsg, fd: Option<Fd>, tx: Sender)
    requires PairInv(sd, s) && !s.tx.gone && !tx.gone && Groups(tx) && sd.ser(w).Some? && (w.handle.Some? <==> fd.Some?)
    requires tx.outHandles == s.tx.outHandles + if fd.Some? then [fd.value] else []
    ensures PairInv(sd, s.(tx := tx, net := Append(s.net, w, fd, sd.ser(w).value)))
  {
    hide Framed, OnTime, Stepped, Groups, Append;
    if !s.rx.gone {
      AppendFramed(sd, s.net, w, fd);
      QueueOnTime(s, w, fd, sd.ser(w).value, tx);
      QueueStepped(s, w, fd, sd.ser(w).value, tx);
    }
  }

  // What one flushed item comes to.
  lemma FlushCases(sd: Serde<WireMsg>, s: Sys)
    requires s.tx.produced != []
    ensures var s', m := FlushOne(sd, s), s.tx.produced[0];
            var fd := if m.slot.Some? then TakeHandleForSend(m.slot.value) else None;
            && s'.tx.scratch == s.tx.scratch && s'.tx.gone == s.tx.gone
            && (|| (s'.net == s.net && s'.tx.outHandles == s.tx.outHandles)
                || (&& sd.ser(Serialized(m)).Some? && (m.slot.Some? <==> fd.Some?)
                    && s' == s.(tx := s'.tx, net := Append(s.net, Serialized(m), fd, sd.ser(Serialized(m)).value))
                    && s'.tx.outHandles == s.tx.outHandles + if fd.Some? then [fd.value] else []))
            && s'.rx == s.rx && s'.doubled == s.doubled && s'.delivered == s.delivered
  {
    hide Append, ClosesTwice, Elems;
    assert s.tx.outHandles + [] == s.tx.outHandles;
  }

  lemma FlushPairs(sd: Serde<WireMsg>, s: Sys)
    requires PairInv(sd, s) && !s.tx.gone && s.tx.produced != []
    ensures PairInv(sd, FlushOne(sd, s))
  {
    var m, s' := s.tx.produced[0], FlushOne(sd, s);
    var fd := if m.slot.Some? then TakeHandleForSend(m.slot.value) else None;
    FlushCases(sd, s);
    hide FlushOne, Append, Paired;
    if s'.net == s.net && s'.tx.outHandles == s.tx.outHandles {
      PairFrame(sd, s, s');
    } else {
      QueuePairs(sd, s, Serialized(m), fd, s'.tx);
    }
  }

  // A send ships the headers in the scratch, and after them the queue.
  lemma SendWire(s: Sys, n: nat)
    requires n <= |s.net.link.outbound|
    ensures var s' := SendOk(s, n);
            OnTheWire(s') == Whats(s.rx.inHandles) + MarkFds(s.net.marks) + Flatten(s.tx.scratch) + s.tx.outHandles
  {
    var fds := Flatten(Headers(s.tx));
    HeadersFlat(s.tx);
    MarkFdsAppend(s.net.marks, s.net.sent, fds);
    hide L.Send, ClosesTwice, Elems, Headers, Flatten, MarkFds, MarksAt, Whats;
    assert Whats(s.rx.inHandles) + (MarkFds(s.net.marks) + (Flatten(s.tx.scratch) + s.tx.outHandles)) + [] ==
           Whats(s.rx.inHandles) + MarkFds(s.net.marks) + Flatten(s.tx.scratch) + s.tx.outHandles;
  }

  lemma FlattenGroups(tx: Sender)
    requires Groups(tx)
    ensures tx.scratch == [] <==> Flatten(tx.scratch) == []
  {
    if tx.scratch != [] {
      assert tx.scratch[0] in tx.scratch;
    }
  }

  /** A send keeps handles and messages in step if and only if the scratch is
      empty: whatever was left in it goes out in front of the queue. */
  lemma SendStepped(s: Sys, n: nat)
    requires Stepped(s) && Groups(s.tx) && !s.tx.gone && n <= |s.net.link.outbound|
    ensures Stepped(SendOk(s, n))
    ensures InStep(s) && !s.doubled ==> (InStep(SendOk(s, n)) <==> s.tx.scratch == [])
  {
    var s' := SendOk(s, n);
    SendWire(s, n);
    FlattenGroups(s.tx);
    assert s'.net.transit == s.net.transit && s'.doubled == (s.doubled || s.tx.scratch != [])
           && s'.tx.gone == s.tx.gone by {
      hide ClosesTwice, Elems, L.Send, Flatten;
    }
    var a, x, q := Whats(s.rx.inHandles) + MarkFds(s.net.marks), Flatten(s.tx.scratch), s.tx.outHandles;
    hide SendOk, Whats, MarkFds, Flatten, Owns, Expected;
    assert OnTheWire(s) == a + q && OnTheWire(s') == a + x + q;
    assert |a + x + q| == |a + q| + |x|;
    assert x == [] ==> a + x + q == a + q;
  }

  lemma SendOnTime(s: Sys, n: nat)
    requires OnTime(s) && !s.tx.gone && n <= |s.net.link.outbound| && s.net.received <= s.net.sent
    ensures OnTime(SendOk(s, n))
  {
    HeadersFlat(s.tx);
    hide Owns, Timed, ClosesTwice, Elems, L.Send, Headers, Flatten, MarksAt;
    var fds := Flatten(Headers(s.tx));
    ShipTimed(Owns(s.net.transit), |s.rx.inHandles|, s.net.marks, fds, |s.tx.outHandles|, s.net,
        Shipped(s.net, n, fds));
  }

  lemma SendPairs(sd: Serde<WireMsg>, s: Sys, n: nat)
    requires PairInv(sd, s) && !s.tx.gone && n <= |s.net.link.outbound|
    ensures PairInv(sd, SendOk(s, n))
  {
    if !s.rx.gone {
      ShipFramed(sd, s.net, n, Flatten(Headers(s.tx)));
      assert s.net.received <= s.net.sent;
      hide Framed, OnTime, Stepped, Shipped, ClosesTwice, Elems;
      SendOnTime(s, n);
      SendStepped(s, n);
    }
    hide Paired, Shipped, ClosesTwice, Elems;
  }

  lemma SendErrorPairs(sd: Serde<WireMsg>, s: Sys)
    requires PairInv(sd, s)
    ensures PairInv(sd, SendError(s)) && PairInv(sd, SenderRecvOk(s))
  {
    hide Paired;
    PairFrame(sd, s, SendError(s));
    PairFrame(sd, s, SenderRecvOk(s));
  }

  lemma DropSenderPairs(sd: Serde<WireMsg>, s: Sys)
    requires PairInv(sd, s) && !s.tx.gone
    ensures PairInv(sd, s.(tx := SenderDrops(s.tx)))
  {
    var s' := s.(tx := SenderDrops(s.tx));
    assert s'.tx.gone && s'.tx.outHandles == [] && s'.tx.scratch == [] by { hide ClosesTwice, Elems, SenderHeld; }
    hide SenderDrops, Framed, Owns;
    if !s.rx.gone {
      assert OnTheWire(s) == OnTheWire(s') + s.tx.outHandles;
      TimedNet(Owns(s.net.transit), |s.rx.inHandles|, s.net.marks, |s.tx.outHandles|, s.net, s.net, s.tx.gone);
    }
  }

  // --- Steps of the receiver --------------------------------------------------------------------------

  lemma InstallLength(taken: nat, marks: seq<Mark>)
    ensures |Install(taken, marks)| == |marks|
  {
  }

  lemma RecvOnTime(s: Sys, n: nat)
    requires OnTime(s) && n <= |s.net.link.pipe| && s.net.received + n <= s.net.sent
    ensures OnTime(RecvOk(s, n))
  {
    hide Owns, Timed, Install, Elems, L.Recv, Arrived;
    var s' := RecvOk(s, n);
    var k := Arrived(s.net.marks, s.net.received + n);
    InstallLength(s.rx.taken, s.net.marks[..k]);
    assert |s'.rx.inHandles| == |s.rx.inHandles| + k;
    RecvTimed(Owns(s.net.transit), |s.rx.inHandles|, s.net.marks, |s.tx.outHandles|, s.net, s'.net, s.tx.gone);
  }

  lemma RecvStepped(s: Sys, n: nat)
    requires Stepped(s) && n <= |s.net.link.pipe|
    ensures Stepped(RecvOk(s, n))
  {
    var s' := RecvOk(s, n);
    InstallWhats(s.rx.inHandles, s.rx.taken, s.net.marks, Arrived(s.net.marks, s.net.received + n));
    hide Owns, Whats, MarkFds, Install, Elems, L.Recv, Expected;
    assert OnTheWire(s') == OnTheWire(s);
  }

  lemma RecvPairs(sd: Serde<WireMsg>, s: Sys, n: nat)
    requires PairInv(sd, s) && !s.rx.gone && n <= |s.net.link.pipe|
    ensures PairInv(sd, RecvOk(s, n))
  {
    RecvFramed(sd, s.net, n, RecvOk(s, n).net.marks);
    assert s.net.received + n <= s.net.sent;
    hide Framed, OnTime, Stepped;
    RecvOnTime(s, n);
    RecvStepped(s, n);
    hide Install, Elems, L.Recv;
  }

  // The front message leaves, with the oldest handle if it has one.
  lemma OwnsFront(transit: seq<Record>)
    requires transit != []
    ensures transit[0].own.Some? ==> Owns(transit) == [Own(transit[0].start, transit[0].own.value)] + Owns(transit[1..])
    ensures transit[0].own.None? ==> Owns(transit) == Owns(transit[1..])
    ensures transit[0].own.Some? ==> Expected(Owns(transit)) == [transit[0].own.value] + Expected(Owns(transit[1..]))
  {
    var rest := Owns(transit[1..]);
    if transit[0].own.Some? {
      var first := Own(transit[0].start, transit[0].own.value);
      assert Owns(transit) == [first] + rest;
      hide Owns, Expected;
      ExpectedFront(first, rest);
    } else {
      assert [] + rest == rest;
    }
  }

  lemma ExpectedFront(first: Own, rest: seq<Own>)
    ensures Expected([first] + rest) == [first.fd] + Expected(rest)
  {
  }

  lemma WhatsFront(gots: seq<Got>)
    requires gots != []
    ensures Whats(gots) == [gots[0].what] + Whats(gots[1..])
  {
  }

  lemma DeliverStepped(s: Sys, w: WireMsg)
    requires Stepped(s) && Right(s) && s.net.transit != [] && (w.handle.Some? <==> s.net.transit[0].own.Some?)
    requires w.handle.Some? ==> s.rx.inHandles != []
    ensures Stepped(Deliver(s, w)) && Right(Deliver(s, w))
  {
    var s' := Deliver(s, w);
    OwnsFront(s.net.transit);
    assert s'.net.transit == s.net.transit[1..];
    hide Owns, Expected, MarkFds;
    if w.handle.Some? {
      WhatsFront(s.rx.inHandles);
      var mine, got := s.net.transit[0].own.value, s.rx.inHandles[0].what;
      assert s'.delivered == s.delivered + [Delivery(mine, got)];
      hide Whats;
      assert OnTheWire(s) == [got] + OnTheWire(s');
      PopBoth(got, mine, OnTheWire(s'), Expected(Owns(s'.net.transit)));
    } else {
      hide Whats;
      assert OnTheWire(s) == OnTheWire(s');
    }
  }

  lemma PopBoth(a: Fd, b: Fd, x: seq<Fd>, y: seq<Fd>)
    ensures [a] + x == [b] + y <==> a == b && x == y
    ensures [a] + x <= [b] + y <==> a == b && x <= y
  {
    assert [a] + x == [b] + y ==> ([a] + x)[1..] == ([b] + y)[1..] && ([a] + x)[0] == ([b] + y)[0];
    assert ([a] + x)[1..] == x && ([b] + y)[1..] == y;
    var p, q := [a] + x, [b] + y;
    if p <= q {
      assert p[0] == q[0] && forall i :: 0 <= i < |x| ==> x[i] == p[i + 1] && p[i + 1] == q[i + 1] && q[i + 1] == y[i];
    }
    if a == b && x <= y {
      assert forall i :: 0 <= i < |p| ==> p[i] == q[i];
    }
  }

  lemma DeliverOnTime(s: Sys, w: WireMsg)
    requires OnTime(s) && s.net.received <= s.net.sent && s.net.transit != [] && s.net.transit[0].start < s.net.received
    requires w.handle.Some? <==> s.net.transit[0].own.Some?
    ensures OnTime(Deliver(s, w)) && (w.handle.Some? ==> s.rx.inHandles != [])
  {
    var s' := Deliver(s, w);
    var own := Owns(s.net.transit);
    OwnsFront(s.net.transit);
    if w.handle.Some? {
      assert own[1..] == Owns(s.net.transit[1..]);
      hide Owns, Timed, Deliver, Expected;
      HandleHasArrived(own, |s.rx.inHandles|, s.net.marks, |s.tx.outHandles|, s.net, s.tx.gone);
      DeliverLeaves(s, w);
      TimedNet(own[1..], |s.rx.inHandles| - 1, s.net.marks, |s.tx.outHandles|, s.net, s'.net, s.tx.gone);
    } else {
      hide Owns, Timed, Deliver, Expected;
      DeliverLeaves(s, w);
      TimedNet(own, |s.rx.inHandles|, s.net.marks, |s.tx.outHandles|, s.net, s'.net, s.tx.gone);
    }
  }

  /** A handle-bearing message that has been decoded finds a handle waiting, in
      every run; and its own, unless something was shipped twice. */
  lemma DecodePairs(sd: Serde<WireMsg>, s: Sys)
    requires Sound(sd) && PairInv(sd, s) && !s.rx.gone
    ensures PairInv(sd, DecodeOne(sd, s)) && DecodeOne(sd, s).panicked == s.panicked
    ensures var d := DecodeOnce(sd, s.net.link.state, s.net.link.inbound);
            d.outcome.Item? && d.outcome.item.handle.Some? ==> s.rx.inHandles != []
  {
    DecodeFrames(sd, s.net);
    hide DecodeOnce;
    var d := DecodeOnce(sd, s.net.link.state, s.net.link.inbound);
    var s1 := s.(net := s.net.(link := L.AfterDecode(s.net.link, d)));
    hide Framed, OnTime, Stepped, Groups, Deliver, L.AfterDecode;
    LinkIsAside(s, s1);
    if d.outcome.Item? {
      FrontRecord(sd, s.net);
      ItemPairs(sd, s1, d.outcome.item);
    }
  }

  lemma FrontRecord(sd: Serde<WireMsg>, net: Net)
    requires Framed(sd, net) && net.transit != []
    ensures net.received <= net.sent && (net.transit[0].msg.handle.Some? <==> net.transit[0].own.Some?)
  {
    assert net.transit[0] in net.transit;
  }

  lemma ItemPairs(sd: Serde<WireMsg>, s: Sys, w: WireMsg)
    requires Groups(s.tx) && Right(s) && OnTime(s) && Stepped(s) && !s.rx.gone
    requires s.net.received <= s.net.sent && s.net.transit != [] && s.net.transit[0].start < s.net.received
    requires (w.handle.Some? <==> s.net.transit[0].own.Some?) && Framed(sd, s.net.(transit := s.net.transit[1..]))
    ensures PairInv(sd, Deliver(s, w)) && Deliver(s, w).panicked == s.panicked
            && (w.handle.Some? ==> s.rx.inHandles != [])
  {
    hide Framed, OnTime, Stepped, Groups, Deliver, Right;
    DeliverOnTime(s, w);
    DeliverStepped(s, w);
    DeliverLeaves(s, w);
  }

  lemma LinkIsAside(s: Sys, s1: Sys)
    requires s1 == s.(net := s.net.(link := s1.net.link))
    ensures OnTime(s) ==> OnTime(s1)
    ensures Stepped(s) ==> Stepped(s1)
  {
    hide Owns;
  }

  lemma DeliverLeaves(s: Sys, w: WireMsg)
    requires s.net.transit != [] && (w.handle.Some? ==> s.rx.inHandles != [])
    ensures var s' := Deliver(s, w);
            && s'.net == s.net.(transit := s.net.transit[1..]) && s'.tx == s.tx && s'.rx.gone == s.rx.gone
               && s'.panicked == s.panicked
            && s'.rx.inHandles == (if w.handle.Some? then s.rx.inHandles[1..] else s.rx.inHandles)
  {
    hide Paid;
  }
}
