/** The two things a send that fails with a handle queued can lead to, as concrete
    runs: a message decoded with the handle of another, and a descriptor closed
    twice. */
module HandlesFailedSend {
  import opened Wire
  import opened Codec
  import L = Link
  import opened Handles

  // Nothing is on its way, except perhaps handles already received.
  predicate Quiet(s: Sys) {
    && s.net.link == L.EmptyLink && s.net.transit == [] && s.net.marks == [] && s.net.sent == s.net.received
    && s.tx.produced == [] && s.tx.outHandles == [] && s.tx.scratch == []
    && !s.panicked && !s.overLimit && !s.tx.gone && !s.rx.gone
  }

  // A handle-bearing message as bincode sees it: without its handle.
  function Stripped(body: Body): WireMsg {
    WireMsg(body, Some(INVALID_HANDLE_VALUE))
  }

  // One handle-bearing message goes all the way; the first attempt to send it may fail.
  function Exchange(sd: Serde<WireMsg>, body: Body, fd: Fd, fails: bool): seq<Step>
    requires sd.ser(Stripped(body)).Some?
  {
    var n := |FrameOf(sd.ser(Stripped(body)).value)|;
    [Produce(body, Some(fd)), Flush] + ((if fails then [SendFails] else [])
        + ([Send(n)] + ([Recv(n)] + ([Decode] + []))))
  }

  lemma RunStep(sd: Serde<WireMsg>, s: Sys, step: Step, t: Sys, rest: seq<Step>)
    requires Apply(sd, s, step) == Some(t)
    ensures Run(sd, s, [step] + rest) == Run(sd, t, rest)
  {
    hide Apply;
    assert ([step] + rest)[1..] == rest;
  }

  lemma {:induction false} RunTwo(sd: Serde<WireMsg>, s: Sys, a: seq<Step>, b: seq<Step>)
    requires Run(sd, s, a).Some?
    ensures Run(sd, s, a + b) == Run(sd, Run(sd, s, a).value, b)
    decreases |a|
  {
    hide Apply;
    if a == [] {
      assert a + b == b;
    } else {
      assert (a + b)[1..] == a[1..] + b;
      RunTwo(sd, Apply(sd, s, a[0]).value, a[1..], b);
    }
  }

  // The state with one message and its handle queued.
  function Waiting(sd: Serde<WireMsg>, s: Sys, body: Body, fd: Fd): Sys
    requires sd.ser(Stripped(body)).Some?
  {
    var net := s.net.(link := L.Encode(L.EmptyLink, sd.ser(Stripped(body)).value),
                      transit := [Record(Stripped(body), Some(fd), s.net.sent)]);
    s.(net := net, tx := s.tx.(outHandles := [fd], used := s.tx.used + {fd}, open := s.tx.open + {fd}))
  }

  lemma FlushQueues(sd: Serde<WireMsg>, s: Sys, body: Body, fd: Fd)
    requires Quiet(s) && sd.ser(Stripped(body)).Some?
    ensures var m: Msg<Fd> := Msg(body, Some(Owned(fd, true)));
            var s1 := s.(tx := s.tx.(produced := [m], used := s.tx.used + {fd}, open := s.tx.open + {fd}));
            FlushOne(sd, s1) == Waiting(sd, s, body, fd)
  {
    hide L.Encode, ClosesTwice, Elems;
    var m: Msg<Fd> := Msg(body, Some(Owned(fd, true)));
    var none: seq<Msg<Fd>> := [];
    assert [m][1..] == none && [] + [fd] == [fd] && Serialized(m) == Stripped(body);
    assert [] + [Record(Stripped(body), Some(fd), s.net.sent)] == [Record(Stripped(body), Some(fd), s.net.sent)];
  }

  lemma Queued(sd: Serde<WireMsg>, s: Sys, body: Body, fd: Fd, rest: seq<Step>)
    requires Quiet(s) && fd !in s.tx.used && sd.ser(Stripped(body)).Some?
    ensures Run(sd, s, [Produce(body, Some(fd)), Flush] + rest) == Run(sd, Waiting(sd, s, body, fd), rest)
  {
    var m: Msg<Fd> := Msg(body, Some(Owned(fd, true)));
    var s1 := s.(tx := s.tx.(produced := [m], used := s.tx.used + {fd}, open := s.tx.open + {fd}));
    var t := Waiting(sd, s, body, fd);
    assert [] + [m] == [m];
    assert Apply(sd, s, Produce(body, Some(fd))) == Some(s1);
    FlushQueues(sd, s, body, fd);
    hide FlushOne, Waiting;
    assert Apply(sd, s1, Flush) == Some(t);
    RunStep(sd, s, Produce(body, Some(fd)), s1, [Flush] + rest);
    RunStep(sd, s1, Flush, t, rest);
    assert [Produce(body, Some(fd)), Flush] + rest == [Produce(body, Some(fd))] + ([Flush] + rest);
  }

  // --- The handle of another ------------------------------------------------------------------------

  lemma AllArrive(pos: nat, fds: seq<Fd>, n: nat, taken: nat)
    requires n >= 1
    ensures var marks := MarksAt(pos, fds);
            Arrived(marks, pos + n) == |fds| && marks[..|fds|] == marks && marks[|fds|..] == []
    ensures |Install(taken, MarksAt(pos, fds))| == |fds|
    ensures forall i :: 0 <= i < |fds| ==> Install(taken, MarksAt(pos, fds))[i].what == fds[i]
  {
    var marks := MarksAt(pos, fds);
    assert forall i :: 0 <= i < |marks| ==> marks[i].pos == pos;
    assert Arrived(marks, pos + n) == |marks|;
  }

  // A frame queued on an idle link, and whatever handles go with it, are sent.
  lemma Sent(s: Sys, frame: seq<byte>, fds: seq<Fd>, u: Sys)
    requires s.net.link == L.Link(frame, [], [], Length) && s.net.marks == [] && Flatten(Headers(s.tx)) == fds
    requires u == SendOk(s, |frame|)
    ensures u.net == s.net.(link := L.Link([], frame, [], Length), marks := MarksAt(s.net.sent, fds),
            sent := s.net.sent + |frame|)
    ensures u.tx == s.tx.(scratch := [], outHandles := []).Close(s.tx.outHandles)
    ensures u == s.(net := u.net, tx := u.tx, doubled := u.doubled)
  {
    hide ClosesTwice, Elems, MarksAt, Flatten, Headers;
    assert [] + frame == frame && frame[|frame|..] == [] && frame[..|frame|] == frame;
    assert [] + MarksAt(s.net.sent, fds) == MarksAt(s.net.sent, fds);
  }

  lemma Received(u: Sys, frame: seq<byte>, fds: seq<Fd>, pos: nat, t: Sys)
    requires frame != [] && u.net.link == L.Link([], frame, [], Length) && u.net.marks == MarksAt(pos, fds)
             && u.net.received == pos
    requires t == RecvOk(u, |frame|) && |u.rx.inHandles| + |fds| <= HANDLE_QUEUE_LIMIT && !u.overLimit
    ensures t.net == u.net.(link := L.Link([], [], frame, Length), marks := [], received := pos + |frame|)
    ensures t.rx.inHandles == u.rx.inHandles + Install(u.rx.taken, MarksAt(pos, fds)) && t.rx.gone == u.rx.gone
    ensures t == u.(net := t.net, rx := t.rx) && !t.overLimit
    ensures t.rx.inbox == u.rx.inbox && t.rx.app == u.rx.app
    ensures t.rx.open == u.rx.open + Elems(Install(u.rx.taken, MarksAt(pos, fds)))
  {
    AllArrive(pos, fds, |frame|, u.rx.taken);
    hide Elems, MarksAt, Install, Arrived;
    assert [] + frame == frame && frame[|frame|..] == [] && frame[..|frame|] == frame;
  }

  lemma DecodesTo(sd: Serde<WireMsg>, w: WireMsg)
    requires Sound(sd) && sd.ser(w).Some?
    ensures DecodeOnce(sd, Length, FrameOf(sd.ser(w).value)) == Decoded(Length, [], Item(w))
  {
    hide FrameOf;
    var f := FrameOf(sd.ser(w).value);
    var l := L.Link([], [], f, Length);
    assert forall m <- [w] :: sd.ser(m).Some?;
    assert L.Frames(sd, [w]) == f + L.Frames(sd, []);
    assert l.Bytes() == f && L.Frames(sd, []) == [] && f + [] == f;
    L.DecodeWhole(sd, l, [w]);
    assert [w][1..] == [];
  }

  // The message takes the oldest handle there is.
  lemma Delivered(sd: Serde<WireMsg>, s: Sys, w: WireMsg, fd: Fd)
    requires Sound(sd) && sd.ser(w).Some? && w.handle.Some? && s.rx.inHandles != []
    requires s.net.link == L.Link([], [], FrameOf(sd.ser(w).value), Length) && |s.net.transit| == 1
             && s.net.transit[0].own == Some(fd)
    ensures var t := DecodeOne(sd, s);
            && t.net == s.net.(link := L.EmptyLink, transit := []) && t.rx.inHandles == s.rx.inHandles[1..]
               && t.rx.gone == s.rx.gone
            && t.delivered == s.delivered + [Delivery(fd, s.rx.inHandles[0].what)]
            && t.rx == s.rx.(inHandles := s.rx.inHandles[1..],
                             inbox := s.rx.inbox + [Msg(w.body, Some(Owned(s.rx.inHandles[0], false)))])
            && t == s.(net := t.net, rx := t.rx, delivered := t.delivered)
  {
    DecodesTo(sd, w);
    hide DecodeOnce, FrameOf;
  }

  lemma EncodeEmpty(payload: seq<byte>)
    ensures L.Encode(L.EmptyLink, payload) == L.Link(FrameOf(payload), [], [], Length) && |FrameOf(payload)| >= 1
  {
    assert [] + FrameOf(payload) == FrameOf(payload);
  }

  // What the receiver has waiting when `fds` have arrived behind `before`.
  function Front(before: seq<Got>, fds: seq<Fd>): Fd
    requires fds != []
  {
    if before == [] then fds[0] else before[0].what
  }

  // The queued frame and its handles reach the receiver.
  lemma Arrives(sd: Serde<WireMsg>, s: Sys, frame: seq<byte>, fds: seq<Fd>, rest: seq<Step>) returns (v: Sys)
    requires frame != [] && s.net.link == L.Link(frame, [], [], Length) && Flatten(Headers(s.tx)) == fds
    requires s.net.marks == [] && s.net.sent == s.net.received && |s.rx.inHandles| + |fds| <= HANDLE_QUEUE_LIMIT
    requires !s.panicked && !s.overLimit && !s.tx.gone && !s.rx.gone
    ensures Run(sd, s, [Send(|frame|)] + ([Recv(|frame|)] + rest)) == Run(sd, v, rest)
    ensures v.net.link == L.Link([], [], frame, Length) && v.net.transit == s.net.transit && v.net.marks == []
            && v.net.sent == v.net.received
    ensures v.rx.inHandles == s.rx.inHandles + Install(s.rx.taken, MarksAt(s.net.sent, fds)) && !v.rx.gone
    ensures v.tx == s.tx.(scratch := [], outHandles := []).Close(s.tx.outHandles)
    ensures v.delivered == s.delivered && !v.panicked && !v.overLimit
    ensures v.rx.inbox == s.rx.inbox && v.rx.app == s.rx.app
    ensures v.rx.open == s.rx.open + Elems(Install(s.rx.taken, MarksAt(s.net.sent, fds)))
  {
    hide ClosesTwice, Elems, MarksAt, Install, Flatten, Headers, Arrived, Run;
    var u := SendOk(s, |frame|);
    assert Apply(sd, s, Send(|frame|)) == Some(u);
    Sent(s, frame, fds, u);
    RunStep(sd, s, Send(|frame|), u, [Recv(|frame|)] + rest);
    hide SendOk;
    v := RecvOk(u, |frame|);
    assert Apply(sd, u, Recv(|frame|)) == Some(v);
    Received(u, frame, fds, s.net.sent, v);
    RunStep(sd, u, Recv(|frame|), v, rest);
  }

  // From the queued frame to the decoded message.
  lemma Travels(sd: Serde<WireMsg>, s: Sys, w: WireMsg, fd: Fd, fds: seq<Fd>) returns (t: Sys)
    requires Sound(sd) && sd.ser(w).Some? && w.handle.Some?
    requires s.net.link == L.Encode(L.EmptyLink, sd.ser(w).value) && s.net.transit == [Record(w, Some(fd), s.net.sent)]
    requires Flatten(Headers(s.tx)) == fds && fds != [] && |s.rx.inHandles| + |fds| <= HANDLE_QUEUE_LIMIT
    requires s.tx.produced == [] && s.net.marks == [] && s.net.sent == s.net.received
    requires !s.panicked && !s.overLimit && !s.tx.gone && !s.rx.gone
    ensures var n := |FrameOf(sd.ser(w).value)|;
            Run(sd, s, [Send(n)] + ([Recv(n)] + ([Decode] + []))) == Some(t)
    ensures Quiet(t) && t.tx.used == s.tx.used && |t.rx.inHandles| == |s.rx.inHandles| + |fds| - 1
    ensures s.rx.inHandles == [] && |fds| > 1 ==> t.rx.inHandles[0].what == fds[1]
    ensures t.delivered == s.delivered + [Delivery(fd, Front(s.rx.inHandles, fds))]
    ensures var came := Install(s.rx.taken, MarksAt(s.net.sent, fds));
            && t.rx.app == s.rx.app && t.rx.open == s.rx.open + Elems(came)
            && t.rx.inbox == s.rx.inbox + [Msg(w.body, Some(Owned((s.rx.inHandles + came)[0], false)))]
  {
    var f := FrameOf(sd.ser(w).value);
    EncodeEmpty(sd.ser(w).value);
    AllArrive(s.net.sent, fds, 1, s.rx.taken);
    hide L.Encode, FrameOf, ClosesTwice, Elems, MarksAt, Install, Flatten, Headers, Arrived, Run;
    var v := Arrives(sd, s, f, fds, [Decode] + []);
    Delivered(sd, v, w, fd);
    hide DecodeOne;
    t := DecodeOne(sd, v);
    assert Apply(sd, v, Decode) == Some(t);
    RunStep(sd, v, Decode, t, []);
    RunNothing(sd, t);
  }

  lemma TwoHeaders(x: Fd)
    ensures Flatten([[x], [x]]) == [x, x] && Flatten([[x]]) == [x]
  {
    assert [[x], [x]][1..] == [[x]] && [[x]][1..] == [] && Flatten<Fd>([]) == [];
    assert [x] + [] == [x];
  }

  /** One exchange.  The message is paired with the oldest handle received; when
      the first attempt failed, its handle arrives twice. */
  lemma ExchangeRuns(sd: Serde<WireMsg>, s: Sys, body: Body, fd: Fd, fails: bool) returns (t: Sys)
    requires Sound(sd) && Quiet(s) && fd !in s.tx.used && sd.ser(Stripped(body)).Some? && |s.rx.inHandles| <= 1
    ensures Run(sd, s, Exchange(sd, body, fd, fails)) == Some(t) && Quiet(t) && t.tx.used == s.tx.used + {fd}
    ensures |t.rx.inHandles| == |s.rx.inHandles| + if fails then 1 else 0
    ensures s.rx.inHandles == [] && fails ==> t.rx.inHandles[0].what == fd
    ensures t.delivered == s.delivered + [Delivery(fd, Front(s.rx.inHandles, [fd]))]
    ensures s.rx.inHandles == [] && !fails ==>
              var got := Got(s.rx.taken, fd);
              && t.rx.inbox == s.rx.inbox + [Msg(body, Some(Owned(got, false)))]
              && t.rx.app == s.rx.app && t.rx.open == s.rx.open + {got} && t.rx.inHandles == []
  {
    var w, s1 := Stripped(body), Waiting(sd, s, body, fd);
    var n := |FrameOf(sd.ser(w).value)|;
    var rest := [Send(n)] + ([Recv(n)] + ([Decode] + []));
    EncodeEmpty(sd.ser(w).value);
    TwoHeaders(fd);
    if fails {
      Queued(sd, s, body, fd, [SendFails] + rest);
      var s2 := SendError(s1);
      assert s2.tx.scratch == [] + [[fd]] == [[fd]];
      assert Headers(s2.tx) == [[fd]] + [[fd]] == [[fd], [fd]];
      hide FrameOf, L.Encode, Run, Headers, Flatten;
      assert Apply(sd, s1, SendFails) == Some(s2);
      RunStep(sd, s1, SendFails, s2, rest);
      t := Travels(sd, s2, w, fd, [fd, fd]);
      assert Exchange(sd, body, fd, true) == [Produce(body, Some(fd)), Flush] + ([SendFails] + rest);
    } else {
      Queued(sd, s, body, fd, rest);
      assert Headers(s1.tx) == [] + [[fd]] == [[fd]];
      assert [] + rest == rest;
      hide FrameOf, L.Encode, Run, Headers, Flatten;
      assert s.rx.inHandles == [] ==> [] + Install(s.rx.taken, MarksAt(s.net.sent, [fd])) == [Got(s.rx.taken, fd)];
      assert Elems(Install(s.rx.taken, MarksAt(s.net.sent, [fd]))) == {Got(s.rx.taken, fd)} by {
        assert Install(s.rx.taken, MarksAt(s.net.sent, [fd])) == [Got(s.rx.taken, fd)];
      }
      hide Install, MarksAt, Elems;
      t := Travels(sd, s1, w, fd, [fd]);
    }
  }

  /** With any serializer, two messages and two handles suffice: after one failed
      send and a retry, the second message is decoded with the handle of the first. */
  lemma FailedSendMispairs(sd: Serde<WireMsg>, b0: Body, b1: Body, fd0: Fd, fd1: Fd)
    requires Sound(sd) && sd.ser(Stripped(b0)).Some? && sd.ser(Stripped(b1)).Some? && fd0 != fd1
    ensures var steps := Exchange(sd, b0, fd0, true) + Exchange(sd, b1, fd1, false);
            var s := Run(sd, Start, steps);
            s.Some? && s.value.delivered == [Delivery(fd0, fd0), Delivery(fd1, fd0)]
  {
    hide Exchange, Run;
    var s := ExchangeRuns(sd, Start, b0, fd0, true);
    var t := ExchangeRuns(sd, s, b1, fd1, false);
    RunTwo(sd, Start, Exchange(sd, b0, fd0, true), Exchange(sd, b1, fd1, false));
  }

  // --- Closed twice -----------------------------------------------------------------------------------

  /** With any serializer, one message and one handle suffice: when the pipe receives
      something between the failed send and the end of the connection, the sender
      closes the descriptor twice. */
  lemma FailedSendClosesTwice(sd: Serde<WireMsg>, body: Body, fd: Fd)
    requires Sound(sd) && sd.ser(Stripped(body)).Some?
    ensures var s := Run(sd, Start, [Produce(body, Some(fd)), Flush]
            + ([SendFails] + ([SenderRecv] + ([DropSender] + []))));
            s.Some? && s.value.tx.badClose
  {
    var s1 := Waiting(sd, Start, body, fd);
    EncodeEmpty(sd.ser(Stripped(body)).value);
    Queued(sd, Start, body, fd, [SendFails] + ([SenderRecv] + ([DropSender] + [])));
    assert s1.tx.outHandles == [fd] && s1.tx.stale == [] && s1.tx.scratch == [] && s1.net.link.outbound != [];
    assert !s1.tx.gone && !s1.panicked && !s1.overLimit;
    hide L.Encode, FrameOf, Waiting, Run, Apply;
    var s3 := FailsAndReceives(sd, s1, fd, [DropSender] + []);
    var s4 := Drops(sd, s3);
    DropsTwice(s3.tx, fd);
    RunStep(sd, s3, DropSender, s4, []);
    RunNothing(sd, s4);
  }

  lemma FailsAndReceives(sd: Serde<WireMsg>, s: Sys, fd: Fd, rest: seq<Step>) returns (t: Sys)
    requires s.tx.outHandles == [fd] && s.tx.stale == [] && s.tx.scratch == [] && s.net.link.outbound != []
    requires !s.tx.gone && !s.panicked && !s.overLimit
    ensures Run(sd, s, [SendFails] + ([SenderRecv] + rest)) == Run(sd, t, rest)
    ensures t.tx == s.tx.(stale := [fd]) && !t.panicked && !t.overLimit
  {
    hide Run;
    var u := s.(tx := s.tx.(scratch := [[fd]]));
    t := s.(tx := s.tx.(stale := [fd]), adopted := true);
    assert [] + [[fd]] == [[fd]] && [] + [fd] == [fd];
    assert Apply(sd, s, SendFails) == Some(u);
    assert Apply(sd, u, SenderRecv) == Some(t);
    hide Apply;
    RunStep(sd, s, SendFails, u, [SenderRecv] + rest);
    RunStep(sd, u, SenderRecv, t, rest);
  }

  lemma Drops(sd: Serde<WireMsg>, s: Sys) returns (t: Sys)
    requires !s.tx.gone && !s.panicked && !s.overLimit
    ensures Apply(sd, s, DropSender) == Some(t) && t.tx == SenderDrops(s.tx)
  {
    hide SenderHeld, ClosesTwice, Elems;
    t := s.(tx := SenderDrops(s.tx));
  }

  lemma DropsTwice(tx: Sender, fd: Fd)
    requires tx.stale == [fd] && tx.outHandles == [fd]
    ensures SenderDrops(tx).badClose
  {
    var rest := Fds(tx.produced);
    assert SenderHeld(tx) == [fd] + ([fd] + rest);
    var once, twice := [fd] + rest, [fd] + ([fd] + rest);
    assert twice[0] == fd && twice[1..] == once && once[0] == fd;
    assert ClosesTwice(tx.open - {fd}, once);
    assert ClosesTwice(tx.open, twice);
  }

  lemma RunNothing(sd: Serde<WireMsg>, s: Sys)
    ensures Run(sd, s, []) == Some(s)
  {
  }
}
