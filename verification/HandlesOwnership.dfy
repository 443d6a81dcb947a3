/** Who owns which descriptor: on the receiver's side always exactly one owner, on
    the sender's side exactly as long as no receive has adopted what a failed send
    left in the scratch. */
module HandlesOwnership {
  import opened Wire
  import opened Codec
  import opened Handles
  import opened HandlesSafety

  // --- Closing -----------------------------------------------------------------------------------

  /** Closing a list closes nothing twice if and only if all of it is open and
      nothing in it is repeated. */
  lemma {:induction false} ClosesTwiceIff<H>(open: set<H>, fds: seq<H>)
    ensures !ClosesTwice(open, fds) <==> NoDup(fds) && forall x <- fds :: x in open
    decreases |fds|
  {
    if fds != [] {
      var x, rest := fds[0], fds[1..];
      ClosesTwiceIff(open - {x}, rest);
      NoDupFront(x, rest);
      assert fds == [x] + rest;
      assert forall y :: y in fds <==> y == x || y in rest;
    }
  }

  lemma NoDupFront<H>(x: H, rest: seq<H>)
    ensures NoDup([x] + rest) <==> x !in rest && NoDup(rest)
  {
    var s := [x] + rest;
    assert forall i :: 0 <= i < |rest| ==> rest[i] == s[i + 1];
    if x !in rest && NoDup(rest) {
      forall i, j | 0 <= i < j < |s|
        ensures s[i] != s[j]
      {
        assert s[j] == rest[j - 1] && (i > 0 ==> s[i] == rest[i - 1]);
      }
    }
    if NoDup(s) {
      forall i | 0 <= i < |rest|
        ensures rest[i] != x
      {
        assert s[0] != s[i + 1];
      }
    }
  }

  // Leaving out or adding a piece in the middle of a list.
  lemma Cut<H>(a: seq<H>, b: seq<H>, c: seq<H>)
    ensures NoDup(a + b + c) ==> NoDup(a + c) && NoDup(b) && forall x <- b :: x !in a && x !in c
    ensures forall x :: x in a + b + c <==> x in a || x in b || x in c
  {
    var s, t := a + b + c, a + c;
    assert forall i :: 0 <= i < |t| ==> t[i] == s[if i < |a| then i else i + |b|];
    assert forall i :: 0 <= i < |a| ==> a[i] == s[i];
    assert forall i :: 0 <= i < |b| ==> b[i] == s[|a| + i];
    assert forall i :: 0 <= i < |c| ==> c[i] == s[|a| + |b| + i];
  }

  lemma InEither<H>(a: seq<H>, b: seq<H>)
    ensures forall x :: x in a + b <==> x in a || x in b
  {
  }

  // --- The descriptors of each process -------------------------------------------------------------

  // What the sender is still going to send, and what it has open because of it.
  function Live(tx: Sender): seq<Fd> {
    tx.outHandles + Fds(tx.produced)
  }

  function ReceiverHeld(rx: Receiver): seq<Got> {
    rx.app + (Fds(rx.inbox) + rx.inHandles)
  }

  ghost predicate SenderSlots(tx: Sender) {
    forall m <- tx.produced :: m.slot.Some? ==> m.slot.value.Owned? && m.slot.value.forTarget
  }

  ghost predicate ReceiverSlots(rx: Receiver) {
    forall m <- rx.inbox :: m.slot.Some? ==> m.slot.value.Owned? && !m.slot.value.forTarget
  }

  // The ledger of a process: `held` has no descriptor twice, and exactly those are open.
  ghost predicate Ledger<H>(held: seq<H>, open: set<H>) {
    NoDup(held) && open == Elems(held)
  }

  ghost predicate SenderInv(tx: Sender, adopted: bool) {
    && SenderSlots(tx) && Ledger(Live(tx), tx.open) && (forall x <- Live(tx) :: x in tx.used)
    && (tx.gone ==> tx.produced == [] && tx.outHandles == [] && tx.stale == [])
    && (!tx.gone ==> (tx.stale != [] <==> adopted))
    && (tx.badClose <==> tx.gone && adopted)
    && Groups(tx)
  }

  ghost predicate ReceiverInv(rx: Receiver) {
    && ReceiverSlots(rx) && Ledger(ReceiverHeld(rx), rx.open) && (forall x <- ReceiverHeld(rx) :: x.num < rx.taken)
    && (rx.gone ==> rx.inbox == [] && rx.inHandles == [])
    && !rx.badClose
  }

  // One owner each, all of it open, nothing closed twice.
  ghost predicate SenderSound(tx: Sender) {
    NoDup(SenderHeld(tx)) && tx.open == Elems(SenderHeld(tx)) && !tx.badClose
  }

  /** The sender's descriptors have one owner each, are open and were closed once, if
      and only if nothing was adopted. */
  lemma SoundIff(tx: Sender, adopted: bool)
    requires SenderInv(tx, adopted)
    ensures SenderSound(tx) <==> !adopted
  {
    var live := Live(tx);
    assert SenderHeld(tx) == tx.stale + live;
    hide Live, SenderHeld;
    InEither(tx.stale, live);
    if tx.stale == [] {
      assert tx.stale + live == live;
    } else {
      var x := tx.stale[0];
      assert (tx.stale + live)[0] == x;
      if x in live {
        var i :| 0 <= i < |live| && live[i] == x;
        assert (tx.stale + live)[|tx.stale| + i] == x;
      } else {
        assert x in Elems(tx.stale + live) && x !in tx.open;
      }
    }
  }

  lemma {:induction false} FdsAppend<H>(msgs: seq<Msg<H>>, m: Msg<H>)
    ensures Fds(msgs + [m]) == Fds(msgs) + FdOf(m)
  {
    if msgs == [] {
      assert [] + [m] == [m] && [m][1..] == [];
    } else {
      assert (msgs + [m])[1..] == msgs[1..] + [m];
      FdsAppend(msgs[1..], m);
      hide FdOf;
      assert FdOf(msgs[0]) + (Fds(msgs[1..]) + FdOf(m)) == FdOf(msgs[0]) + Fds(msgs[1..]) + FdOf(m);
    }
  }

  // --- Ledgers ------------------------------------------------------------------------------------------

  lemma LedgerAdds<H>(held: seq<H>, open: set<H>, more: seq<H>)
    requires Ledger(held, open) && NoDup(more) && forall x <- more :: x !in held
    ensures Ledger(held + more, open + Elems(more))
  {
    var s := held + more;
    assert forall i :: 0 <= i < |s| ==> s[i] == if i < |held| then held[i] else more[i - |held|];
    assert forall i :: 0 <= i < |more| ==> more[i] in more;
    assert forall i :: 0 <= i < |held| ==> held[i] in held;
    InEither(held, more);
  }

  // Closing part of what is held.
  lemma LedgerCloses<H>(a: seq<H>, b: seq<H>, c: seq<H>, open: set<H>)
    requires Ledger(a + b + c, open)
    ensures Ledger(a + c, open - Elems(b)) && !ClosesTwice(open, b)
  {
    Cut(a, b, c);
    InEither(a, c);
    ClosesTwiceIff(open, b);
  }

  lemma Swap<H>(a: seq<H>, b: seq<H>)
    requires NoDup(a + b)
    ensures NoDup(b + a) && forall x :: x in b + a <==> x in a + b
  {
    var s, t := a + b, b + a;
    assert forall i :: 0 <= i < |t| ==> t[i] == s[if i < |b| then |a| + i else i - |b|];
    assert forall i :: 0 <= i < |s| ==> s[i] == t[if i < |a| then |b| + i else i - |a|];
  }

  // --- Steps of the sender ---------------------------------------------------------------------------

  lemma ProduceOwns(tx: Sender, adopted: bool, m: Msg<Fd>, tx': Sender)
    requires SenderInv(tx, adopted) && !tx.gone
    requires m.slot.Some? ==> m.slot.value.Owned? && m.slot.value.forTarget && m.slot.value.fd !in tx.used
    requires tx' == tx.(produced := tx.produced + [m], used := tx.used + Elems(FdOf(m)),
             open := tx.open + Elems(FdOf(m)))
    ensures SenderInv(tx', adopted)
  {
    FdsAppend(tx.produced, m);
    assert forall x <- FdOf(m) :: x !in Live(tx);
    assert NoDup(FdOf(m));
    hide Fds;
    assert Live(tx') == Live(tx) + FdOf(m);
    LedgerAdds(Live(tx), tx.open, FdOf(m));
    InEither(Live(tx), FdOf(m));
    hide Ledger, FdOf;
  }

  // The head of `produced` moves its handle to the queue.
  lemma FlushMoves(tx: Sender, adopted: bool, tx': Sender)
    requires SenderInv(tx, adopted) && !tx.gone && tx.produced != []
    requires tx' == tx.(produced := tx.produced[1..], outHandles := tx.outHandles + FdOf(tx.produced[0]))
    ensures SenderInv(tx', adopted)
  {
    assert tx.outHandles + (FdOf(tx.produced[0]) + Fds(tx.produced[1..]))
           == tx.outHandles + FdOf(tx.produced[0]) + Fds(tx.produced[1..]);
    assert Live(tx') == Live(tx);
    hide Ledger, Fds, FdOf, Live;
  }

  // The head of `produced` is dropped, with its handle.
  lemma FlushDrops(tx: Sender, adopted: bool, tx': Sender)
    requires SenderInv(tx, adopted) && !tx.gone && tx.produced != []
    requires tx' == tx.(produced := tx.produced[1..]).Close(FdOf(tx.produced[0]))
    ensures SenderInv(tx', adopted)
  {
    var out, fds, rest := tx.outHandles, FdOf(tx.produced[0]), Fds(tx.produced[1..]);
    assert Fds(tx.produced) == fds + rest;
    hide Fds, FdOf, ClosesTwice;
    assert Live(tx) == out + fds + rest && Live(tx') == out + rest;
    LedgerCloses(out, fds, rest, tx.open);
    Cut(out, fds, rest);
    InEither(out, rest);
    hide Ledger;
  }

  lemma FlushOwns(sd: Serde<WireMsg>, s: Sys)
    requires SenderInv(s.tx, s.adopted) && !s.tx.gone && s.tx.produced != []
    ensures SenderInv(FlushOne(sd, s).tx, s.adopted) && FlushOne(sd, s).panicked == s.panicked
  {
    var s', m := FlushOne(sd, s), s.tx.produced[0];
    assert m in s.tx.produced && (m.slot.Some? ==> m.slot.value.Owned? && m.slot.value.forTarget);
    hide SenderInv, Fds, ClosesTwice, Elems, FdOf, Append;
    if s'.tx.produced == s.tx.produced {
      assert s'.tx == s.tx;
    } else if sd.ser(Serialized(m)).None? {
      FlushDrops(s.tx, s.adopted, s'.tx);
    } else {
      FlushMoves(s.tx, s.adopted, s'.tx);
    }
  }

  lemma SendOwns(tx: Sender, adopted: bool)
    requires SenderInv(tx, adopted) && !tx.gone
    ensures SenderInv(tx.(scratch := [], outHandles := []).Close(tx.outHandles), adopted)
  {
    var tx' := tx.(scratch := [], outHandles := []).Close(tx.outHandles);
    var rest := Fds(tx.produced);
    hide Fds, ClosesTwice;
    assert [] + tx.outHandles + rest == Live(tx) && [] + rest == rest && Live(tx') == rest;
    LedgerCloses([], tx.outHandles, rest, tx.open);
    InEither(tx.outHandles, rest);
    hide Ledger;
  }

  lemma SendErrorOwns(tx: Sender, adopted: bool)
    requires SenderInv(tx, adopted)
    ensures SenderInv(tx.(scratch := Headers(tx)), adopted)
  {
    assert Live(tx.(scratch := Headers(tx))) == Live(tx);
    hide Ledger, Live;
  }

  // What was left in the scratch is queued again, as if the peer had sent it.
  lemma AdoptOwns(tx: Sender, adopted: bool)
    requires SenderInv(tx, adopted) && !tx.gone && tx.scratch != []
    ensures SenderInv(tx.(stale := tx.stale + tx.scratch[0], scratch := []), true)
  {
    assert tx.scratch[0] in tx.scratch;
    hide Ledger, Live;
  }

  lemma DropSenderOwns(tx: Sender, adopted: bool)
    requires SenderInv(tx, adopted) && !tx.gone
    ensures SenderInv(SenderDrops(tx), adopted)
  {
    var tx', held, live := SenderDrops(tx), SenderHeld(tx), Live(tx);
    SoundIff(tx, adopted);
    ClosesTwiceIff(tx.open, held);
    InEither(tx.stale, live);
    assert held == tx.stale + live && Fds<Fd>([]) == [];
    assert Live(tx') == [];
    hide ClosesTwice, Fds;
    assert tx'.badClose == ClosesTwice(tx.open, held);
    assert (forall x <- held :: x in tx.open) <==> tx.open == Elems(held);
    assert ClosesTwice(tx.open, held) <==> adopted;
  }

  // --- Steps of the receiver -------------------------------------------------------------------------

  lemma InstallFresh(rx: Receiver, marks: seq<Mark>)
    requires forall x <- ReceiverHeld(rx) :: x.num < rx.taken
    ensures NoDup(Install(rx.taken, marks))
    ensures forall x <- Install(rx.taken, marks) :: x !in ReceiverHeld(rx) && x.num < rx.taken + |marks|
  {
    hide ReceiverHeld;
  }

  lemma RecvOwns(rx: Receiver, marks: seq<Mark>)
    requires ReceiverInv(rx) && !rx.gone
    ensures var gots := Install(rx.taken, marks);
            ReceiverInv(rx.(inHandles := rx.inHandles + gots, open := rx.open + Elems(gots),
                taken := rx.taken + |marks|))
  {
    var gots := Install(rx.taken, marks);
    var rx' := rx.(inHandles := rx.inHandles + gots, open := rx.open + Elems(gots), taken := rx.taken + |marks|);
    InstallFresh(rx, marks);
    hide Install, Fds;
    assert ReceiverHeld(rx') == ReceiverHeld(rx) + gots;
    LedgerAdds(ReceiverHeld(rx), rx.open, gots);
    InEither(ReceiverHeld(rx), gots);
    hide Ledger, ReceiverHeld;
  }

  // The oldest handle becomes the slot of the newest message in the inbox.
  lemma InboxOwns(rx: Receiver, m: Msg<Got>, rx': Receiver)
    requires ReceiverInv(rx) && !rx.gone && (m.slot.Some? ==> m.slot.value.Owned? && !m.slot.value.forTarget)
    requires rx' == rx.(inbox := rx.inbox + [m], inHandles := rx'.inHandles) && FdOf(m) + rx'.inHandles == rx.inHandles
    ensures ReceiverInv(rx')
  {
    FdsAppend(rx.inbox, m);
    hide Fds, FdOf;
    assert Fds(rx.inbox) + FdOf(m) + rx'.inHandles == Fds(rx.inbox) + rx.inHandles;
    assert ReceiverHeld(rx') == ReceiverHeld(rx);
    hide Ledger, ReceiverHeld;
  }

  lemma DeliverOwns(s: Sys, w: WireMsg)
    requires ReceiverInv(s.rx) && !s.rx.gone && (w.handle.Some? ==> s.rx.inHandles != [])
    ensures ReceiverInv(Deliver(s, w).rx) && Deliver(s, w).tx == s.tx && Deliver(s, w).adopted == s.adopted
  {
    var m: Msg<Got> := if w.handle.None? then Msg(w.body, None) else Msg(w.body, Some(Owned(s.rx.inHandles[0], false)));
    hide ReceiverInv, Paid, Rest;
    var rx' := Deliver(s, w).rx;
    assert FdOf(m) + rx'.inHandles == s.rx.inHandles;
    InboxOwns(s.rx, m, rx');
  }

  lemma AppTakeOwns(rx: Receiver, rx': Receiver)
    requires ReceiverInv(rx) && rx.inbox != [] && rx' == rx.(inbox := rx.inbox[1..], app := rx.app + FdOf(rx.inbox[0]))
    ensures ReceiverInv(rx')
  {
    var fd, rest := FdOf(rx.inbox[0]), Fds(rx.inbox[1..]);
    assert Fds(rx.inbox) == fd + rest;
    hide Fds, FdOf;
    assert rx.app + (fd + rest + rx.inHandles) == rx.app + fd + (rest + rx.inHandles);
    assert ReceiverHeld(rx') == ReceiverHeld(rx);
    hide Ledger, ReceiverHeld;
  }

  lemma CloseFirst<H>(x: H, rest: seq<H>, open: set<H>)
    requires Ledger([x] + rest, open)
    ensures Ledger(rest, open - Elems([x])) && !ClosesTwice(open, [x])
    ensures forall y <- rest :: y in [x] + rest
  {
    assert [] + [x] + rest == [x] + rest && [] + rest == rest;
    hide Ledger, ClosesTwice;
    LedgerCloses([], [x], rest, open);
    InEither([x], rest);
  }

  lemma HeldFront(rx: Receiver, rx': Receiver)
    requires rx.app != [] && rx'.app == rx.app[1..] && rx'.inbox == rx.inbox && rx'.inHandles == rx.inHandles
    ensures ReceiverHeld(rx) == [rx.app[0]] + ReceiverHeld(rx')
  {
    var held := Fds(rx.inbox) + rx.inHandles;
    hide Fds;
    assert rx.app + held == [rx.app[0]] + (rx.app[1..] + held);
  }

  lemma AppCloseOwns(rx: Receiver)
    requires ReceiverInv(rx) && rx.app != []
    ensures ReceiverInv(rx.(app := rx.app[1..]).Close([rx.app[0]]))
  {
    var rx' := rx.(app := rx.app[1..]).Close([rx.app[0]]);
    HeldFront(rx, rx');
    hide ReceiverHeld, Ledger, ClosesTwice, Elems;
    CloseFirst(rx.app[0], ReceiverHeld(rx'), rx.open);
  }

  lemma DropReceiverOwns(rx: Receiver)
    requires ReceiverInv(rx) && !rx.gone
    ensures ReceiverInv(ReceiverDrops(rx))
  {
    var rx', held, fds := ReceiverDrops(rx), Fds(rx.inbox) + rx.inHandles, rx.inHandles + Fds(rx.inbox);
    assert Fds<Got>([]) == [];
    hide Fds, ClosesTwice;
    assert rx.app + held + [] == ReceiverHeld(rx) && rx.app + [] == rx.app && ReceiverHeld(rx') == rx.app;
    Cut(rx.app, held, []);
    Swap(Fds(rx.inbox), rx.inHandles);
    LedgerCloses(rx.app, held, [], rx.open);
    ClosesTwiceIff(rx.open, held);
    ClosesTwiceIff(rx.open, fds);
    assert Elems(fds) == Elems(held);
    InEither(rx.app, held);
  }
}
