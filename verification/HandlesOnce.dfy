/** Until something is shipped twice, every handle the server has made is in exactly
    one place, with the sender, in the pipe or with the receiver, until it is closed
    there.  None is lost. */
module HandlesOnce {
  import opened Wire
  import opened Codec
  import L = Link
  import opened Handles
  import opened HandlesSafety
  import opened HandlesOwnership
  import opened HandlesResults

  // Every descriptor on its way, oldest first, by what it refers to.
  function Line(s: Sys): seq<Fd> {
    Whats(ReceiverHeld(s.rx)) + MarkFds(s.net.marks) + Live(s.tx)
  }

  // What a step closes for good.  A send closes descriptors too, but ships the handles.
  function Closes(s: Sys, step: Step, s': Sys): set<Fd> {
    (if step.Send? then {} else s.tx.open - s'.tx.open) + set g <- s.rx.open - s'.rx.open :: g.what
  }

  // What a run from `s` closes for good.
  function ClosedBy(sd: Serde<WireMsg>, s: Sys, steps: seq<Step>): set<Fd>
    decreases |steps|
  {
    if steps == [] then {}
    else
      match Apply(sd, s, steps[0])
      case None => {}
      case Some(t) => Closes(s, steps[0], t) + ClosedBy(sd, t, steps[1..])
  }

  // Each handle made is in one place or closed, until one is shipped twice.
  ghost predicate Once(s: Sys, closed: set<Fd>) {
    !s.doubled ==> NoDup(Line(s)) && Elems(Line(s)) !! closed && s.tx.used == Elems(Line(s)) + closed
  }

  lemma OnceFrame(s: Sys, closed: set<Fd>, s': Sys)
    requires Once(s, closed) && Line(s') == Line(s) && s'.tx.used == s.tx.used && (s'.doubled <==> s.doubled)
    ensures Once(s', closed)
  {
  }

  // A piece leaves the line: it was closed.
  lemma OnceCut(s: Sys, closed: set<Fd>, s': Sys, a: seq<Fd>, b: seq<Fd>, c: seq<Fd>)
    requires Once(s, closed) && Line(s) == a + b + c && Line(s') == a + c
    requires s'.tx.used == s.tx.used && (s'.doubled <==> s.doubled)
    ensures Once(s', closed + Elems(b))
  {
    hide Line;
    Cut(a, b, c);
    InEither(a, c);
  }

  lemma WhatsJoin(a: seq<Got>, b: seq<Got>)
    ensures Whats(a + b) == Whats(a) + Whats(b)
  {
  }

  lemma ProduceOnce(sd: Serde<WireMsg>, s: Sys, closed: set<Fd>, body: Body, fd: Option<Fd>, s': Sys)
    requires Once(s, closed) && SenderStep(sd, s, Produce(body, fd)) == Some(s')
    ensures Once(s', closed)
  {
    var m: Msg<Fd> := Msg(body, if fd.None? then None else Some(Owned(fd.value, true)));
    FdsAppend(s.tx.produced, m);
    var rest := Whats(ReceiverHeld(s.rx)) + MarkFds(s.net.marks);
    hide Fds, ReceiverHeld, MarkFds, Whats;
    assert Line(s) == rest + (s.tx.outHandles + Fds(s.tx.produced));
    assert Line(s') == Line(s) + FdOf(m);
    hide Line;
    if fd.Some? {
      assert FdOf(m) == [fd.value];
      OnceSnoc(s, closed, s', fd.value);
    } else {
      assert Line(s) + [] == Line(s);
    }
  }

  lemma OnceSnoc(s: Sys, closed: set<Fd>, s': Sys, x: Fd)
    requires Once(s, closed) && Line(s') == Line(s) + [x] && x !in s.tx.used
    requires s'.tx.used == s.tx.used + {x} && s'.doubled == s.doubled
    ensures Once(s', closed)
  {
    hide Line;
    InEither(Line(s), [x]);
    if !s.doubled {
      Snoc(Line(s), x);
    }
  }

  lemma Snoc(xs: seq<Fd>, x: Fd)
    requires NoDup(xs) && x !in xs
    ensures NoDup(xs + [x])
  {
  }

  // What a flush does to the sender: nothing, or the front message goes on or goes.
  lemma FlushSender(sd: Serde<WireMsg>, s: Sys)
    requires s.tx.produced != []
    ensures var s', fds := FlushOne(sd, s), FdOf(s.tx.produced[0]);
            var tx := s.tx.(produced := s.tx.produced[1..]);
            && s'.net.marks == s.net.marks && s'.rx == s.rx && s'.doubled == s.doubled
            && (s'.tx == s.tx || s'.tx == tx.Close(fds) || s'.tx == tx.(outHandles := tx.outHandles + fds))
  {
    hide FdOf, ClosesTwice, Elems, L.Encode;
  }

  // `gone` is closed by a step of the sender.
  ghost predicate SenderCloses(s: Sys, s': Sys, gone: set<Fd>) {
    s'.tx.open == s.tx.open - gone && gone <= Elems(Live(s.tx)) && s'.rx.open == s.rx.open
  }

  lemma FlushOnce(sd: Serde<WireMsg>, s: Sys, closed: set<Fd>) returns (gone: set<Fd>)
    requires Once(s, closed) && s.tx.produced != []
    ensures Once(FlushOne(sd, s), closed + gone) && SenderCloses(s, FlushOne(sd, s), gone)
  {
    gone := {};
    var s', fds, rest := FlushOne(sd, s), FdOf(s.tx.produced[0]), Fds(s.tx.produced[1..]);
    var tx := s.tx.(produced := s.tx.produced[1..]);
    FlushSender(sd, s);
    assert Fds(s.tx.produced) == fds + rest;
    hide FlushOne, Fds, FdOf, ReceiverHeld, ClosesTwice, Elems, MarkFds, Whats, Once;
    if s'.tx == s.tx {
      OnceFrame(s, closed, s');
    } else if s'.tx == tx.(outHandles := tx.outHandles + fds) {
      Regroup(s.tx.outHandles, fds, rest);
      OnceFrame(s, closed, s');
    } else {
      gone := Elems(fds);
      PartOf(s.tx.outHandles, fds, rest);
      var a := Whats(ReceiverHeld(s.rx)) + MarkFds(s.net.marks);
      Regroup(a + s.tx.outHandles, fds, rest);
      Regroup(a, s.tx.outHandles, fds + rest);
      Regroup(a, s.tx.outHandles, rest);
      OnceCut(s, closed, s', a + s.tx.outHandles, fds, rest);
    }
  }

  lemma PartOf(a: seq<Fd>, b: seq<Fd>, c: seq<Fd>)
    ensures Elems(b) <= Elems(a + (b + c))
  {
    InEither(b, c);
    InEither(a, b + c);
  }

  lemma Regroup<T>(a: seq<T>, b: seq<T>, c: seq<T>)
    ensures a + b + c == a + (b + c)
  {
  }

  lemma SendOnce(s: Sys, closed: set<Fd>, n: nat)
    requires Once(s, closed) && n <= |s.net.link.outbound|
    ensures Once(SendOk(s, n), closed)
  {
    if s.tx.scratch == [] {
      var s' := SendOk(s, n);
      HeadersFlat(s.tx);
      var fds := Flatten(Headers(s.tx));
      assert fds == s.tx.outHandles;
      MarkFdsAppend(s.net.marks, s.net.sent, fds);
      var a, rest := Whats(ReceiverHeld(s.rx)), Fds(s.tx.produced);
      hide Headers, Flatten, MarksAt, MarkFds, ClosesTwice, Elems, Fds, ReceiverHeld, L.Send, Whats, Once;
      assert Line(s') == a + (MarkFds(s.net.marks) + s.tx.outHandles) + ([] + rest);
      assert Line(s) == a + MarkFds(s.net.marks) + (s.tx.outHandles + rest);
      OnceFrame(s, closed, s');
    }
  }

  lemma DropSenderOnce(s: Sys, closed: set<Fd>)
    requires Once(s, closed)
    ensures Once(s.(tx := SenderDrops(s.tx)), closed + Elems(Live(s.tx)))
  {
    var s' := s.(tx := SenderDrops(s.tx));
    assert Live(s'.tx) == [] && s'.tx.used == s.tx.used by { hide ClosesTwice, Elems, SenderHeld; }
    hide SenderDrops, Live, Once, MarkFds, ReceiverHeld, Whats;
    assert Line(s') + Live(s.tx) + [] == Line(s) && Line(s') + [] == Line(s');
    OnceCut(s, closed, s', Line(s'), Live(s.tx), []);
  }

  lemma RecvOnce(s: Sys, closed: set<Fd>, n: nat)
    requires Once(s, closed) && n <= |s.net.link.pipe|
    ensures Once(RecvOk(s, n), closed)
  {
    var s' := RecvOk(s, n);
    var k := Arrived(s.net.marks, s.net.received + n);
    RecvHeld(s, n);
    InstallWhats(ReceiverHeld(s.rx), s.rx.taken, s.net.marks, k);
    hide Install, Arrived, ReceiverHeld, RecvOk, Whats, MarkFds, Fds, Once;
    assert Line(s') == Line(s);
    OnceFrame(s, closed, s');
  }

  lemma RecvHeld(s: Sys, n: nat)
    requires n <= |s.net.link.pipe|
    ensures var s', k := RecvOk(s, n), Arrived(s.net.marks, s.net.received + n);
            && ReceiverHeld(s'.rx) == ReceiverHeld(s.rx) + Install(s.rx.taken, s.net.marks[..k])
            && s'.net.marks == s.net.marks[k..] && s'.tx == s.tx && s'.doubled == s.doubled
  {
    hide Install, Fds, Elems, L.Recv, Arrived;
    var k := Arrived(s.net.marks, s.net.received + n);
    var a, b, c, d := s.rx.app, Fds(s.rx.inbox), s.rx.inHandles, Install(s.rx.taken, s.net.marks[..k]);
    assert a + (b + (c + d)) == a + (b + c) + d;
  }

  lemma DeliverHeld(s: Sys, w: WireMsg)
    requires w.handle.Some? ==> s.rx.inHandles != []
    ensures var s' := Deliver(s, w);
            ReceiverHeld(s'.rx) == ReceiverHeld(s.rx) && s'.tx == s.tx && s'.net.marks == s.net.marks
                && s'.doubled == s.doubled
  {
    var m: Msg<Got> := if w.handle.None? then Msg(w.body, None) else Msg(w.body, Some(Owned(s.rx.inHandles[0], false)));
    FdsAppend(s.rx.inbox, m);
    hide Paid, Rest, Fds;
    var s' := Deliver(s, w);
    assert FdOf(m) + s'.rx.inHandles == s.rx.inHandles && s'.rx.inbox == s.rx.inbox + [m] && s'.rx.app == s.rx.app;
    hide FdOf;
    Regroup(Fds(s.rx.inbox), FdOf(m), s'.rx.inHandles);
  }

  lemma DeliverOnce(s: Sys, closed: set<Fd>, w: WireMsg)
    requires Once(s, closed) && (w.handle.Some? ==> s.rx.inHandles != [])
    ensures Once(Deliver(s, w), closed)
  {
    DeliverHeld(s, w);
    hide Deliver, ReceiverHeld, Whats, MarkFds, Live, Once;
    OnceFrame(s, closed, Deliver(s, w));
  }

  lemma DecodeOnceKeeps(sd: Serde<WireMsg>, s: Sys, closed: set<Fd>)
    requires Sound(sd) && PairInv(sd, s) && !s.rx.gone && Once(s, closed)
    ensures Once(DecodeOne(sd, s), closed)
  {
    hide PairInv, DecodeOnce, Deliver, Once;
    DecodePairs(sd, s);
    var d := DecodeOnce(sd, s.net.link.state, s.net.link.inbound);
    var s1 := s.(net := s.net.(link := L.AfterDecode(s.net.link, d)));
    OnceFrame(s, closed, s1) by { hide ReceiverHeld, Whats, MarkFds, Live; }
    if d.outcome.Item? {
      DeliverOnce(s1, closed, d.outcome.item);
    }
  }

  lemma TakeOnce(s: Sys, closed: set<Fd>, rx': Receiver)
    requires Once(s, closed) && s.rx.inbox != []
    requires rx' == s.rx.(inbox := s.rx.inbox[1..], app := s.rx.app + FdOf(s.rx.inbox[0]))
    ensures Once(s.(rx := rx'), closed)
  {
    var fd, rest := FdOf(s.rx.inbox[0]), Fds(s.rx.inbox[1..]);
    assert Fds(s.rx.inbox) == fd + rest;
    hide Fds, FdOf, Whats, MarkFds, Once;
    assert s.rx.app + (fd + rest + s.rx.inHandles) == s.rx.app + fd + (rest + s.rx.inHandles);
    assert ReceiverHeld(rx') == ReceiverHeld(s.rx);
    OnceFrame(s, closed, s.(rx := rx'));
  }

  // The receiver closes part of what it holds.
  lemma ReceiverClosesOnce(s: Sys, closed: set<Fd>, rx': Receiver, a: seq<Got>, b: seq<Got>, c: seq<Got>)
    requires Once(s, closed) && ReceiverHeld(s.rx) == a + b + c && ReceiverHeld(rx') == a + c
    ensures Once(s.(rx := rx'), closed + Elems(Whats(b)))
  {
    var s' := s.(rx := rx');
    WhatsJoin(a + b, c);
    WhatsJoin(a, b);
    WhatsJoin(a, c);
    var rest := MarkFds(s.net.marks) + Live(s.tx);
    hide ReceiverHeld, Whats, MarkFds, Live, Once;
    assert Line(s) == Whats(a) + Whats(b) + (Whats(c) + rest);
    assert Line(s') == Whats(a) + (Whats(c) + rest);
    OnceCut(s, closed, s', Whats(a), Whats(b), Whats(c) + rest);
  }

  // `gone` is closed by a step of the receiver, all of it open until then.
  ghost predicate ReceiverCloses(s: Sys, s': Sys, gone: seq<Got>) {
    s'.rx.open == s.rx.open - Elems(gone) && (forall g <- gone :: g in ReceiverHeld(s.rx)) && s'.tx == s.tx
  }

  lemma AppCloseOnce(s: Sys, closed: set<Fd>, s': Sys) returns (gone: seq<Got>)
    requires Once(s, closed) && s.rx.app != [] && s' == s.(rx := s.rx.(app := s.rx.app[1..]).Close([s.rx.app[0]]))
    ensures Once(s', closed + Elems(Whats(gone))) && ReceiverCloses(s, s', gone)
  {
    hide ClosesTwice, Elems, Once;
    gone := [s.rx.app[0]];
    HeldFront(s.rx, s'.rx);
    hide ReceiverHeld;
    var rest := ReceiverHeld(s'.rx);
    assert [] + gone + rest == gone + rest && [] + rest == rest;
    InEither(gone, rest);
    ReceiverClosesOnce(s, closed, s'.rx, [], gone, rest);
  }

  lemma DropReceiverOnce(s: Sys, closed: set<Fd>, s': Sys) returns (gone: seq<Got>)
    requires Once(s, closed) && s' == s.(rx := ReceiverDrops(s.rx))
    ensures Once(s', closed + Elems(Whats(gone))) && ReceiverCloses(s, s', gone)
  {
    gone := Fds(s.rx.inbox) + s.rx.inHandles;
    DropsHeld(s.rx);
    InEither(s.rx.app, gone);
    hide ReceiverDrops, Elems, Once, Fds;
    assert s.rx.app + gone + [] == ReceiverHeld(s.rx) && s.rx.app + [] == ReceiverHeld(s'.rx);
    ReceiverClosesOnce(s, closed, s'.rx, s.rx.app, gone, []);
  }

  lemma DropsHeld(rx: Receiver)
    ensures ReceiverHeld(ReceiverDrops(rx)) == rx.app
    ensures ReceiverDrops(rx).open == rx.open - Elems(Fds(rx.inbox) + rx.inHandles)
  {
    assert Fds<Got>([]) == [] && rx.app + ([] + []) == rx.app;
    InEither(Fds(rx.inbox), rx.inHandles);
    InEither(rx.inHandles, Fds(rx.inbox));
    hide Fds, ClosesTwice;
    assert Elems(rx.inHandles + Fds(rx.inbox)) == Elems(Fds(rx.inbox) + rx.inHandles);
  }

  // --- What the steps close ---------------------------------------------------------------------------

  // All that the receiver closes was open, and open for what it says it was.
  lemma ReceiverClosed(s: Sys, step: Step, s': Sys, gone: seq<Got>)
    requires ReceiverInv(s.rx) && ReceiverCloses(s, s', gone)
    ensures Closes(s, step, s') == Elems(Whats(gone))
  {
    hide ReceiverHeld;
    assert s.rx.open - s'.rx.open == Elems(gone);
    hide ReceiverInv, ReceiverCloses;
    forall x
      ensures x in Elems(Whats(gone)) <==> exists g :: g in Elems(gone) && g.what == x
    {
      if x in Whats(gone) {
        var i :| 0 <= i < |gone| && Whats(gone)[i] == x;
        assert gone[i] in Elems(gone);
      }
      if g :| g in Elems(gone) && g.what == x {
        var i :| 0 <= i < |gone| && gone[i] == g;
        assert Whats(gone)[i] == x;
      }
    }
  }

  lemma SenderClosed(s: Sys, step: Step, s': Sys, gone: set<Fd>)
    requires SenderInv(s.tx, s.adopted) && SenderCloses(s, s', gone) && !step.Send?
    ensures Closes(s, step, s') == gone
  {
    hide Live, Groups;
  }

  lemma ClosesNothing(s: Sys, step: Step, s': Sys)
    requires (step.Send? || s.tx.open <= s'.tx.open) && s.rx.open <= s'.rx.open
    ensures Closes(s, step, s') == {}
  {
  }

  lemma DropSenderCloses(s: Sys, s': Sys)
    requires SenderInv(s.tx, s.adopted) && s' == s.(tx := SenderDrops(s.tx))
    ensures Closes(s, DropSender, s') == Elems(Live(s.tx))
  {
    InEither(s.tx.stale, Live(s.tx));
    assert SenderHeld(s.tx) == s.tx.stale + Live(s.tx);
    hide Live, SenderHeld, ClosesTwice, Groups;
  }

  // --- Every step -------------------------------------------------------------------------------------

  lemma SenderOnce(sd: Serde<WireMsg>, s: Sys, closed: set<Fd>, step: Step, s': Sys)
    requires Once(s, closed) && SenderInv(s.tx, s.adopted) && OfSender(step) && SenderStep(sd, s, step) == Some(s')
    ensures Once(s', closed + Closes(s, step, s'))
  {
    hide Once, FlushOne, SendOk, SenderInv, Closes;
    assert closed + {} == closed;
    match step
    case Flush =>
      var gone := FlushOnce(sd, s, closed);
      SenderClosed(s, step, s', gone);
    case DropSender =>
      DropSenderOnce(s, closed);
      DropSenderCloses(s, s');
    case Produce(body, fd) =>
      ProduceOnce(sd, s, closed, body, fd, s');
      ClosesNothing(s, step, s');
    case Send(n) =>
      SendOnce(s, closed, n);
      SendOpens(s, n);
      ClosesNothing(s, step, s');
    case SendFails =>
      ScratchOnce(s, closed, s');
      ClosesNothing(s, step, s');
    case SenderRecv =>
      ScratchOnce(s, closed, s');
      ClosesNothing(s, step, s');
  }

  lemma SendOpens(s: Sys, n: nat)
    requires n <= |s.net.link.outbound|
    ensures SendOk(s, n).rx == s.rx
  {
  }

  // A failed send and a receive after it leave every handle where it is.
  lemma ScratchOnce(s: Sys, closed: set<Fd>, s': Sys)
    requires Once(s, closed) && (s' == SendError(s) || s' == SenderRecvOk(s))
    ensures Once(s', closed)
  {
    hide ReceiverHeld, Whats, MarkFds, Fds, Once;
    OnceFrame(s, closed, s');
  }

  lemma ReceiverOnce(sd: Serde<WireMsg>, s: Sys, closed: set<Fd>, step: Step, s': Sys)
    requires Sound(sd) && Inv(sd, s) && Once(s, closed) && !OfSender(step) && ReceiverStep(sd, s, step) == Some(s')
    ensures Once(s', closed + Closes(s, step, s'))
  {
    hide PairInv, SenderInv, Once, DecodeOne, RecvOk, Closes;
    assert closed + {} == closed;
    match step
    case AppClose =>
      var gone := AppCloseOnce(s, closed, s');
      ReceiverClosed(s, step, s', gone);
    case DropReceiver =>
      var gone := DropReceiverOnce(s, closed, s');
      ReceiverClosed(s, step, s', gone);
    case Recv(n) =>
      RecvOnce(s, closed, n);
      RecvOpens(s, n);
      ClosesNothing(s, step, s');
    case Decode =>
      DecodeOnceKeeps(sd, s, closed);
      DecodeOpens(sd, s);
      ClosesNothing(s, step, s');
    case AppTake =>
      assert s.rx.inbox[0] in s.rx.inbox && s.rx.app + [] == s.rx.app;
      TakeOnce(s, closed, s'.rx);
      ClosesNothing(s, step, s');
  }

  lemma RecvOpens(s: Sys, n: nat)
    requires n <= |s.net.link.pipe|
    ensures RecvOk(s, n).tx == s.tx && s.rx.open <= RecvOk(s, n).rx.open
  {
  }

  lemma DecodeOpens(sd: Serde<WireMsg>, s: Sys)
    ensures DecodeOne(sd, s).tx == s.tx && DecodeOne(sd, s).rx.open == s.rx.open
  {
    hide DecodeOnce, L.AfterDecode, Paid, Rest;
  }

  lemma StepOnce(sd: Serde<WireMsg>, s: Sys, closed: set<Fd>, step: Step, s': Sys)
    requires Sound(sd) && Inv(sd, s) && Once(s, closed) && Apply(sd, s, step) == Some(s')
    ensures Once(s', closed + Closes(s, step, s'))
  {
    hide PairInv, SenderInv, ReceiverInv, Once, SenderStep, ReceiverStep, Closes;
    if OfSender(step) {
      SenderOnce(sd, s, closed, step, s');
    } else {
      ReceiverOnce(sd, s, closed, step, s');
    }
  }

  lemma {:induction false} RunOnce(sd: Serde<WireMsg>, s: Sys, closed: set<Fd>, steps: seq<Step>, s': Sys)
    requires Sound(sd) && Inv(sd, s) && Once(s, closed) && Run(sd, s, steps) == Some(s')
    ensures Once(s', closed + ClosedBy(sd, s, steps))
    decreases |steps|
  {
    hide Apply, Inv, Once, Closes;
    if steps == [] {
      assert closed + {} == closed;
    } else {
      var t := Apply(sd, s, steps[0]).value;
      var more := Closes(s, steps[0], t);
      StepOnce(sd, s, closed, steps[0], t);
      StepKeeps(sd, s, steps[0], t);
      RunOnce(sd, t, closed + more, steps[1..], s');
      assert closed + more + ClosedBy(sd, t, steps[1..]) == closed + (more + ClosedBy(sd, t, steps[1..]));
    }
  }

  /** In every run that ships nothing twice, the handles made are those on their way, in
      exactly one place each between the server and the receiving application, and those
      that have been closed; no handle is both. */
  lemma HandlesAreInOnePlace(sd: Serde<WireMsg>, steps: seq<Step>, s: Sys)
    requires Sound(sd) && Run(sd, Start, steps) == Some(s) && !s.doubled
    ensures var line := Whats(ReceiverHeld(s.rx)) + MarkFds(s.net.marks) + Live(s.tx);
            var closed := ClosedBy(sd, Start, steps);
            NoDup(line) && Elems(line) !! closed && s.tx.used == Elems(line) + closed
  {
    hide Run, Inv;
    StartInv(sd);
    assert Line(Start) == [];
    assert {} + ClosedBy(sd, Start, steps) == ClosedBy(sd, Start, steps);
    RunOnce(sd, Start, {}, steps, s);
  }
}
