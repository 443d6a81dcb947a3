/** The results about handle passing, over every run: what holds whatever happens,
    and exactly what a failed send costs. */
module HandlesResults {
  import opened Wire
  import opened Codec
  import L = Link
  import opened Handles
  import opened HandlesSafety
  import opened HandlesOwnership

  // --- The invariant ---------------------------------------------------------------------------

  ghost predicate Inv(sd: Serde<WireMsg>, s: Sys) {
    PairInv(sd, s) && SenderInv(s.tx, s.adopted) && ReceiverInv(s.rx) && !s.panicked
  }

  // --- Every step keeps it ------------------------------------------------------------------------

  lemma ProduceKeeps(sd: Serde<WireMsg>, s: Sys, body: Body, fd: Option<Fd>, s': Sys)
    requires Inv(sd, s) && !s.tx.gone && SenderStep(sd, s, Produce(body, fd)) == Some(s')
    ensures Inv(sd, s')
  {
    var m: Msg<Fd> := Msg(body, if fd.None? then None else Some(Owned(fd.value, true)));
    assert Elems<Fd>([]) == {} && s.tx.used + {} == s.tx.used && s.tx.open + {} == s.tx.open;
    assert fd.Some? ==> Elems([fd.value]) == {fd.value};
    ProduceOwns(s.tx, s.adopted, m, s'.tx) by { hide SenderInv, PairInv, ReceiverInv; }
    assert Groups(s'.tx) by { hide PairInv, ReceiverInv; }
    PairFrame(sd, s, s') by { hide SenderInv, PairInv, ReceiverInv, Groups; }
  }

  lemma SenderKeeps(sd: Serde<WireMsg>, s: Sys, step: Step, s': Sys)
    requires Inv(sd, s) && OfSender(step) && !s.tx.gone && SenderStep(sd, s, step) == Some(s')
    ensures Inv(sd, s')
  {
    hide PairInv, SenderInv, ReceiverInv, ClosesTwice, Elems, Shipped, SenderHeld;
    match step
    case Produce(body, fd) => ProduceKeeps(sd, s, body, fd, s');
    case Flush =>
      FlushOwns(sd, s);
      FlushPairs(sd, s);
      FlushCases(sd, s);
      hide FlushOne;
    case Send(n) =>
      SendOwns(s.tx, s.adopted);
      SendPairs(sd, s, n);
    case SendFails =>
      SendErrorOwns(s.tx, s.adopted);
      SendErrorPairs(sd, s);
    case SenderRecv =>
      SendErrorPairs(sd, s);
      if s.tx.scratch != [] { AdoptOwns(s.tx, s.adopted); }
    case DropSender =>
      DropSenderOwns(s.tx, s.adopted);
      DropSenderPairs(sd, s);
  }

  lemma DecodeKeeps(sd: Serde<WireMsg>, s: Sys)
    requires Sound(sd) && Inv(sd, s) && !s.rx.gone
    ensures Inv(sd, DecodeOne(sd, s))
  {
    hide PairInv, SenderInv, ReceiverInv, DecodeOnce, Deliver;
    DecodePairs(sd, s);
    var d := DecodeOnce(sd, s.net.link.state, s.net.link.inbound);
    var s1 := s.(net := s.net.(link := L.AfterDecode(s.net.link, d)));
    if d.outcome.Item? {
      DeliverOwns(s1, d.outcome.item);
    }
  }

  lemma RecvKeeps(sd: Serde<WireMsg>, s: Sys, n: nat)
    requires Inv(sd, s) && !s.rx.gone && n <= |s.net.link.pipe|
    ensures Inv(sd, RecvOk(s, n))
  {
    hide PairInv, SenderInv, ReceiverInv, Install, Elems;
    RecvPairs(sd, s, n);
    RecvOwns(s.rx, s.net.marks[..Arrived(s.net.marks, s.net.received + n)]);
  }

  lemma TakeShape(sd: Serde<WireMsg>, s: Sys, s': Sys)
    requires ReceiverStep(sd, s, AppTake) == Some(s')
    requires var slot := s.rx.inbox[0].slot; slot.Some? ==> slot.value.Owned? && !slot.value.forTarget
    ensures s.rx.inbox != [] && s' == s.(rx := s.rx.(inbox := s.rx.inbox[1..], app := s.rx.app + FdOf(s.rx.inbox[0])))
  {
    assert s.rx.app + [] == s.rx.app;
  }

  // The application takes a message; it has the handle it says it has.
  lemma TakeKeeps(sd: Serde<WireMsg>, s: Sys, s': Sys)
    requires Inv(sd, s) && ReceiverStep(sd, s, AppTake) == Some(s')
    ensures Inv(sd, s')
  {
    var m := s.rx.inbox[0];
    assert m in s.rx.inbox && (m.slot.Some? ==> m.slot.value.Owned? && !m.slot.value.forTarget);
    assert Groups(s.tx) by { hide PairInv, ReceiverInv; }
    hide PairInv, SenderInv, ReceiverInv, Groups;
    TakeShape(sd, s, s');
    hide ReceiverStep, FdOf;
    AppTakeOwns(s.rx, s'.rx);
    PairFrame(sd, s, s');
  }

  lemma CloseKeeps(sd: Serde<WireMsg>, s: Sys, s': Sys)
    requires Inv(sd, s) && ReceiverStep(sd, s, AppClose) == Some(s')
    ensures Inv(sd, s')
  {
    assert Groups(s.tx) by { hide PairInv, ReceiverInv; }
    hide PairInv, SenderInv, ReceiverInv, Groups, ClosesTwice, Elems;
    AppCloseOwns(s.rx);
    PairFrame(sd, s, s');
  }

  lemma DropReceiverKeeps(sd: Serde<WireMsg>, s: Sys, s': Sys)
    requires Inv(sd, s) && ReceiverStep(sd, s, DropReceiver) == Some(s')
    ensures Inv(sd, s')
  {
    hide Paired, SenderInv, ReceiverInv, Groups, ClosesTwice, Elems;
    DropReceiverOwns(s.rx);
  }

  lemma StepKeeps(sd: Serde<WireMsg>, s: Sys, step: Step, s': Sys)
    requires Sound(sd) && Inv(sd, s) && Apply(sd, s, step) == Some(s')
    ensures Inv(sd, s')
  {
    hide Inv;
    if OfSender(step) {
      hide SenderStep;
      SenderKeeps(sd, s, step, s');
    } else if step.AppTake? {
      TakeKeeps(sd, s, s') by { hide ReceiverStep; }
    } else if step.AppClose? {
      CloseKeeps(sd, s, s') by { hide ReceiverStep; }
    } else if step.DropReceiver? {
      DropReceiverKeeps(sd, s, s') by { hide ReceiverStep; }
    } else if step.Recv? {
      RecvKeeps(sd, s, step.n) by { hide RecvOk; }
    } else {
      DecodeKeeps(sd, s) by { hide DecodeOne; }
    }
  }

  lemma {:induction false} RunKeeps(sd: Serde<WireMsg>, s: Sys, steps: seq<Step>, s': Sys)
    requires Sound(sd) && Inv(sd, s) && Run(sd, s, steps) == Some(s')
    ensures Inv(sd, s')
    decreases |steps|
  {
    hide Apply, Inv;
    if steps != [] {
      var t := Apply(sd, s, steps[0]).value;
      StepKeeps(sd, s, steps[0], t);
      RunKeeps(sd, t, steps[1..], s');
    }
  }

  lemma StartInv(sd: Serde<WireMsg>)
    ensures Inv(sd, Start)
  {
    assert SenderInv(Start.tx, false) && ReceiverInv(Start.rx);
    hide SenderInv, ReceiverInv;
    assert Framed(sd, Start.net) by { assert L.EmptyLink.Bytes() == []; }
    hide Framed;
    assert OnTime(Start) && Stepped(Start);
  }

  lemma Reachable(sd: Serde<WireMsg>, steps: seq<Step>, s: Sys)
    requires Sound(sd) && Run(sd, Start, steps) == Some(s)
    ensures Inv(sd, s)
  {
    hide Run, Inv;
    StartInv(sd);
    RunKeeps(sd, Start, steps, s);
  }

  // --- Whatever happens --------------------------------------------------------------------------------

  /** In every run, failed sends or not: a handle-bearing message that is decoded finds
      a handle waiting, and no call on a SerializableHandle is in an invalid state. */
  lemma NothingPanics(sd: Serde<WireMsg>, steps: seq<Step>, s: Sys)
    requires Sound(sd) && Run(sd, Start, steps) == Some(s)
    ensures !s.panicked
  {
    hide Run, PairInv, SenderInv, ReceiverInv;
    Reachable(sd, steps, s);
  }

  /** In each of its states a SerializableHandle allows one use and panics on the others: it
      is taken by the application, or for sending, or serialized.  A handle that has been
      taken serializes as -1. */
  lemma SlotsAllowOneUse(slot: Slot<Fd>)
    ensures && (TakeHandle(slot).Some? <==> slot.Owned? && !slot.forTarget)
            && (TakeHandleForSend(slot).Some? <==> slot.Owned? && slot.forTarget)
            && (GetSerializableValue(slot).Some? <==> TakeHandle(slot).None? && TakeHandleForSend(slot).None?)
    ensures slot.Owned? ==> Some(slot.fd) == if slot.forTarget then TakeHandleForSend(slot) else TakeHandle(slot)
    ensures GetSerializableValue(Slot<Fd>.Empty) == Some(-1)
    ensures forall v :: GetSerializableValue(Slot<Fd>.SerializableValue(v)) == Some(v)
  {
  }

  /** A step panics exactly when a handle is taken in the wrong state, a message claims a
      handle and none has arrived, or a frame is bad. */
  lemma PanicsIff(sd: Serde<WireMsg>, s: Sys, step: Step, s': Sys)
    requires Apply(sd, s, step) == Some(s')
    ensures var d := DecodeOnce(sd, s.net.link.state, s.net.link.inbound).outcome;
            s'.panicked <==>
              || (step.Flush? && s.tx.produced[0].slot.Some? && TakeHandleForSend(s.tx.produced[0].slot.value).None?)
              || (step.Decode? && (d.Fail? || (d.Item? && d.item.handle.Some? && s.rx.inHandles == [])))
              || (step.AppTake? && s.rx.inbox[0].slot.Some? && TakeHandle(s.rx.inbox[0].slot.value).None?)
  {
    hide ClosesTwice, Elems, FdOf, SenderHeld, Shipped, Append, Install, Paid, DecodeOnce, Rest, Headers;
    hide ReceiverDrops, SenderDrops;
  }

  /** In every run the receiver has one owner for each descriptor, has open exactly
      those, closes none twice, and is left with what its application took. */
  lemma ReceiverOwnsOnce(sd: Serde<WireMsg>, steps: seq<Step>, s: Sys)
    requires Sound(sd) && Run(sd, Start, steps) == Some(s)
    ensures NoDup(ReceiverHeld(s.rx)) && s.rx.open == Elems(ReceiverHeld(s.rx)) && !s.rx.badClose
    ensures s.rx.gone ==> s.rx.open == Elems(s.rx.app)
  {
    hide Run, PairInv, SenderInv;
    Reachable(sd, steps, s);
    assert s.rx.gone ==> s.rx.app + ([] + []) == s.rx.app;
  }

  // --- Exactly what a failed send costs ------------------------------------------------------------------

  /** Handles reach their own messages until a send ships what an earlier one left in
      the scratch. */
  lemma HandlesStayPaired(sd: Serde<WireMsg>, steps: seq<Step>, s: Sys)
    requires Sound(sd) && Run(sd, Start, steps) == Some(s) && !s.doubled
    ensures forall d <- s.delivered :: d.got == d.own
  {
    hide Run, SenderInv, ReceiverInv, Paired;
    Reachable(sd, steps, s);
  }

  /** While both ends live, handles and messages are in step if and only if that never
      happened. */
  lemma InStepIff(sd: Serde<WireMsg>, steps: seq<Step>, s: Sys)
    requires Sound(sd) && Run(sd, Start, steps) == Some(s) && !s.tx.gone && !s.rx.gone
    ensures InStep(s) <==> !s.doubled
  {
    hide Run, Inv, InStep;
    Reachable(sd, steps, s);
    InvDecides(sd, s);
  }

  /** The sender's descriptors have one owner each, are open, and were closed once, if
      and only if no receive adopted what a failed send had left; and a sender that is
      gone has closed one twice exactly if one did. */
  lemma SenderOwnsOnceIff(sd: Serde<WireMsg>, steps: seq<Step>, s: Sys)
    requires Sound(sd) && Run(sd, Start, steps) == Some(s)
    ensures SenderSound(s.tx) <==> !s.adopted
    ensures s.tx.gone ==> s.tx.open == {} && (s.tx.badClose <==> s.adopted)
  {
    hide Run, PairInv, ReceiverInv, SenderSound;
    Reachable(sd, steps, s);
    InvDecides(sd, s);
    assert s.tx.gone ==> Live(s.tx) == [];
  }

  // A step that neither sends successfully nor fails to, nor ends the connection.
  predicate Between(step: Step) {
    !step.Send? && !step.SendFails? && !step.DropSender? && !step.DropReceiver?
  }

  lemma StepScratch(sd: Serde<WireMsg>, s: Sys, step: Step, s': Sys)
    requires Between(step) && Apply(sd, s, step) == Some(s')
    ensures s'.tx.scratch == if step.SenderRecv? then [] else s.tx.scratch
    ensures s'.doubled == s.doubled && s'.adopted == (s.adopted || (step.SenderRecv? && s.tx.scratch != []))
    ensures s'.tx.gone == s.tx.gone && s'.rx.gone == s.rx.gone
  {
    hide ClosesTwice, Elems, FlushOne, DecodeOne, RecvOk;
    if step.Flush? {
      FlushCases(sd, s);
      FlushAdopts(sd, s);
    } else if step.Decode? {
      DecodeScratch(sd, s);
    } else if step.Recv? {
      RecvScratch(s, step.n);
    }
  }

  lemma FlushAdopts(sd: Serde<WireMsg>, s: Sys)
    requires s.tx.produced != []
    ensures FlushOne(sd, s).adopted == s.adopted
  {
    hide ClosesTwice, Elems, FdOf, Append;
  }

  lemma DecodeScratch(sd: Serde<WireMsg>, s: Sys)
    ensures var s' := DecodeOne(sd, s);
            s'.tx == s.tx && s'.doubled == s.doubled && s'.adopted == s.adopted && s'.rx.gone == s.rx.gone
  {
    hide DecodeOnce, Paid, Rest;
  }

  lemma RecvScratch(s: Sys, n: nat)
    requires n <= |s.net.link.pipe|
    ensures var s' := RecvOk(s, n);
            s'.tx == s.tx && s'.doubled == s.doubled && s'.adopted == s.adopted && s'.rx.gone == s.rx.gone
  {
    hide Install, Arrived, Elems, L.Recv;
  }

  lemma {:induction false} RunScratch(sd: Serde<WireMsg>, s: Sys, mid: seq<Step>, s': Sys)
    requires (forall step <- mid :: Between(step)) && Run(sd, s, mid) == Some(s')
    ensures s'.tx.scratch == if SenderRecv in mid then [] else s.tx.scratch
    ensures s'.doubled == s.doubled && s'.adopted == (s.adopted || (SenderRecv in mid && s.tx.scratch != []))
    ensures s'.tx.gone == s.tx.gone && s'.rx.gone == s.rx.gone
    decreases |mid|
  {
    hide Apply;
    if mid != [] {
      var t := Apply(sd, s, mid[0]).value;
      assert mid == [mid[0]] + mid[1..] && mid[0] in mid;
      StepScratch(sd, s, mid[0], t);
      RunScratch(sd, t, mid[1..], s');
    }
  }

  /** A failed send, anything the two ends may do in between, and a retry that
      succeeds.  With no handle queued at the failure nothing is lost.  With one, the
      retry keeps handles and messages in step if and only if the pipe received
      something in between, and the sender's descriptors keep one owner if and only
      if it did not: one of the two is always lost. */
  lemma FailedSendCosts(sd: Serde<WireMsg>, before: seq<Step>, s: Sys, mid: seq<Step>, u: Sys, n: nat, t: Sys)
    requires Sound(sd) && Run(sd, Start, before) == Some(s) && !s.rx.gone
    requires s.tx.scratch == [] && !s.doubled && !s.adopted
    requires Apply(sd, s, SendFails).Some? && Run(sd, Apply(sd, s, SendFails).value, mid) == Some(u)
    requires (forall step <- mid :: Between(step)) && Apply(sd, u, Send(n)) == Some(t)
    ensures InStep(t) <==> s.tx.outHandles == [] || SenderRecv in mid
    ensures SenderSound(t.tx) <==> s.tx.outHandles == [] || SenderRecv !in mid
    ensures InStep(t) && SenderSound(t.tx) <==> s.tx.outHandles == []
  {
    hide Run, ClosesTwice, Elems, Inv, InStep, SenderSound, Shipped;
    var s1 := SendError(s);
    Reachable(sd, before, s);
    StepKeeps(sd, s, SendFails, s1);
    RunKeeps(sd, s1, mid, u);
    StepKeeps(sd, u, Send(n), t);
    RunScratch(sd, s1, mid, u);
    assert t.doubled == (u.doubled || u.tx.scratch != []) && t.adopted == u.adopted;
    assert !t.tx.gone && !t.rx.gone;
    InvDecides(sd, t);
  }

  lemma InvDecides(sd: Serde<WireMsg>, s: Sys)
    requires Inv(sd, s)
    ensures SenderSound(s.tx) <==> !s.adopted
    ensures !s.tx.gone && !s.rx.gone ==> (InStep(s) <==> !s.doubled)
  {
    hide ReceiverInv, OnTheWire, Expected, Owns, Framed, OnTime, SenderSound, SenderInv;
    SoundIff(s.tx, s.adopted);
  }
}
