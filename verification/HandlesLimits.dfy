/** How much a failed send may leave behind.  The scratch is made with room for one
    header of 16 descriptors, and what receives adopt from it piles up in a queue that
    takes 16. */
module HandlesLimits {
  import opened Wire
  import opened Codec
  import opened Handles
  import opened HandlesSafety
  import opened HandlesOwnership
  import opened HandlesResults

  // CMSG_SPACE for `n` descriptors of four bytes, on a 64-bit Linux.
  function CmsgSpace(n: nat): nat {
    16 + (4 * n + 7) / 8 * 8
  }

  const SCRATCH_CAPACITY := CmsgSpace(HANDLE_QUEUE_LIMIT)

  // The bytes that the headers in the scratch take.
  function Used(headers: seq<seq<Fd>>): nat {
    if headers == [] then 0 else CmsgSpace(|headers[0]|) + Used(headers[1..])
  }

  lemma {:induction false} UsedSnoc(headers: seq<seq<Fd>>, x: seq<Fd>)
    ensures Used(headers + [x]) == Used(headers) + CmsgSpace(|x|)
  {
    hide CmsgSpace;
    if headers == [] {
      assert [] + [x] == [x] && [x][1..] == [];
    } else {
      assert (headers + [x])[1..] == headers[1..] + [x] && (headers + [x])[0] == headers[0];
      UsedSnoc(headers[1..], x);
    }
  }

  lemma {:induction false} UsedAtLeast(headers: seq<seq<Fd>>)
    requires forall h <- headers :: h != []
    ensures Used(headers) >= CmsgSpace(1) * |headers|
  {
    if headers != [] {
      assert headers[0] in headers && forall h <- headers[1..] :: h in headers;
      UsedAtLeast(headers[1..]);
    }
  }

  /** In every run the headers left in the scratch carry descriptors, so more than three
      failed sends in a row with a handle queued never fit. */
  lemma ThreeHeadersAtMost(sd: Serde<WireMsg>, steps: seq<Step>, s: Sys)
    requires Sound(sd) && Run(sd, Start, steps) == Some(s)
    ensures Used(s.tx.scratch) <= SCRATCH_CAPACITY ==> |s.tx.scratch| <= 3
  {
    assert Groups(s.tx) by {
      hide Run, Paired, SenderInv, ReceiverInv;
      Reachable(sd, steps, s);
    }
    UsedAtLeast(s.tx.scratch);
  }

  function Repeat(n: nat, steps: seq<Step>): seq<Step> {
    if n == 0 then [] else steps + Repeat(n - 1, steps)
  }

  // A sender that has something to send, handles included, and has not failed.
  predicate Sending(s: Sys) {
    s.net.link.outbound != [] && !s.tx.gone && !s.panicked && !s.overLimit
        && 1 <= |s.tx.outHandles| <= HANDLE_QUEUE_LIMIT
  }

  // How many failed sends in a row the scratch has room for, with `h` handles queued.
  function FailuresThatFit(h: nat): nat {
    if h <= 2 then 3 else if h <= 6 then 2 else 1
  }

  lemma {:induction false} FailuresAdd(sd: Serde<WireMsg>, s: Sys, m: nat) returns (t: Sys)
    requires Sending(s)
    ensures Run(sd, s, Repeat(m, [SendFails])) == Some(t) && t == s.(tx := s.tx.(scratch := t.tx.scratch))
    ensures Used(t.tx.scratch) == Used(s.tx.scratch) + m * CmsgSpace(|s.tx.outHandles|)
    decreases m
  {
    if m == 0 {
      return s;
    }
    var u := SendError(s);
    assert Apply(sd, s, SendFails) == Some(u);
    UsedSnoc(s.tx.scratch, s.tx.outHandles);
    hide CmsgSpace, Used, Apply;
    t := FailuresAdd(sd, u, m - 1);
    assert ([SendFails] + Repeat(m - 1, [SendFails]))[1..] == Repeat(m - 1, [SendFails]);
    assert (m - 1) * CmsgSpace(|s.tx.outHandles|) + CmsgSpace(|s.tx.outHandles|) == m * CmsgSpace(|s.tx.outHandles|);
  }

  /** From an empty scratch, `m` failed sends in a row fit if and only if there are at
      most three with up to two handles queued, two with up to six, one with more. */
  lemma FailedSendsFitIff(sd: Serde<WireMsg>, s: Sys, m: nat) returns (t: Sys)
    requires Sending(s) && s.tx.scratch == []
    ensures Run(sd, s, Repeat(m, [SendFails])) == Some(t)
    ensures Used(t.tx.scratch) <= SCRATCH_CAPACITY <==> m <= FailuresThatFit(|s.tx.outHandles|)
  {
    var h := |s.tx.outHandles|;
    t := FailuresAdd(sd, s, m);
    hide Run;
    SpaceTimes(h, m);
  }

  lemma SpaceTimes(h: nat, m: nat)
    requires 1 <= h <= HANDLE_QUEUE_LIMIT
    ensures m * CmsgSpace(h) <= SCRATCH_CAPACITY <==> m <= FailuresThatFit(h)
  {
    var c := CmsgSpace(h);
    assert (h <= 2 ==> c == 24) && (3 <= h <= 4 ==> c == 32) && (5 <= h <= 6 ==> c == 40) && (7 <= h ==> 48 <= c <= 80);
    var k := FailuresThatFit(h);
    if m <= k {
      assert m * c <= k * c;
    } else {
      assert m * c >= (k + 1) * c;
    }
  }

  // The send fails and the pipe then receives something, `m` times over.
  function Rounds(m: nat): seq<Step> {
    Repeat(m, [SendFails, SenderRecv])
  }

  lemma OneRound(sd: Serde<WireMsg>, s: Sys, t: Sys, rest: seq<Step>)
    requires Sending(s) && s.tx.scratch == [] && t == SenderRecvOk(SendError(s))
    ensures Run(sd, s, [SendFails, SenderRecv] + rest) == Run(sd, t, rest)
    ensures t.tx == s.tx.(stale := s.tx.stale + s.tx.outHandles)
            && t == s.(tx := t.tx, adopted := true, overLimit := t.overLimit)
    ensures t.overLimit <==> |s.tx.stale| + |s.tx.outHandles| > HANDLE_QUEUE_LIMIT
  {
    var u := SendError(s);
    assert [] + [s.tx.outHandles] == [s.tx.outHandles];
    var xs := [SendFails, SenderRecv] + rest;
    assert xs[1..] == [SenderRecv] + rest && ([SenderRecv] + rest)[1..] == rest;
    assert Apply(sd, s, SendFails) == Some(u) && Apply(sd, u, SenderRecv) == Some(t);
    hide Apply;
  }

  /** Failed sends that alternate with receives run into the assertion on the inbound
      handle queue in exactly the round that brings it past 16. */
  lemma {:induction false} AdoptionOverflowsIff(sd: Serde<WireMsg>, s: Sys, m: nat) returns (t: Sys)
    requires Sending(s) && s.tx.scratch == [] && m >= 1
    requires |s.tx.stale| + (m - 1) * |s.tx.outHandles| <= HANDLE_QUEUE_LIMIT
    ensures Run(sd, s, Rounds(m)) == Some(t)
    ensures t.overLimit <==> |s.tx.stale| + m * |s.tx.outHandles| > HANDLE_QUEUE_LIMIT
    decreases m
  {
    var u := SenderRecvOk(SendError(s));
    OneRound(sd, s, u, Rounds(m - 1));
    hide Run, SenderRecvOk, SendError;
    Multiples(m, |s.tx.outHandles|);
    if m == 1 {
      RunEmpty(sd, u);
      return u;
    }
    t := AdoptionOverflowsIff(sd, u, m - 1);
  }

  lemma Multiples(m: nat, h: nat)
    requires m >= 1
    ensures (m - 1) * h + h == m * h && (m >= 2 ==> h <= (m - 1) * h && (m - 2) * h + h == (m - 1) * h)
  {
    if m >= 2 {
      assert (m - 1) * h == (m - 2) * h + h;
    }
  }

  lemma RunEmpty(sd: Serde<WireMsg>, s: Sys)
    ensures Run(sd, s, []) == Some(s)
  {
  }

  // --- The queues of handles -------------------------------------------------------------------------

  // The handles that come with the next `n` bytes.
  function Coming(s: Sys, n: nat): nat {
    Arrived(s.net.marks, s.net.received + n)
  }

  /** Exactly when an assertion on a queue of handles fires: a seventeenth handle would be
      queued for sending, would have arrived, or would be adopted. */
  lemma LimitReachedIff(sd: Serde<WireMsg>, s: Sys, step: Step, s': Sys)
    requires Apply(sd, s, step) == Some(s')
    ensures s'.overLimit <==>
              || (&& step.Flush? && |s.tx.outHandles| >= 16 && sd.ser(Serialized(s.tx.produced[0])).Some?
                  && s.tx.produced[0].slot.Some? && TakeHandleForSend(s.tx.produced[0].slot.value).Some?)
              || (step.Recv? && |s.rx.inHandles| + Coming(s, step.n) >= 17)
              || (step.SenderRecv? && s.tx.scratch != [] && |s.tx.stale| + |s.tx.scratch[0]| >= 17)
  {
    hide ClosesTwice, Elems, FdOf, SenderHeld, Shipped, Append, Install, Paid, DecodeOnce, Rest, Headers;
    hide ReceiverDrops, SenderDrops;
  }

  ghost predicate Bounded(s: Sys) {
    !s.overLimit ==> |s.tx.outHandles| <= 16 && |s.rx.inHandles| <= 16 && |s.tx.stale| <= 16
  }

  lemma SenderBounded(sd: Serde<WireMsg>, s: Sys, step: Step, s': Sys)
    requires Bounded(s) && OfSender(step) && SenderStep(sd, s, step) == Some(s') && !s.overLimit
    ensures Bounded(s')
  {
    hide ClosesTwice, Elems, SenderHeld, Shipped, Append, Headers;
  }

  lemma ReceiverBounded(sd: Serde<WireMsg>, s: Sys, step: Step, s': Sys)
    requires Bounded(s) && ReceiverStep(sd, s, step) == Some(s') && !s.overLimit
    ensures Bounded(s')
  {
    hide ClosesTwice, Elems, Paid, DecodeOnce, Rest, Fds;
  }

  /** In every run in which no assertion on a queue of handles has fired, none of the
      three queues holds more than 16. */
  lemma {:induction false} QueuesStayBounded(sd: Serde<WireMsg>, s: Sys, steps: seq<Step>, s': Sys)
    requires Bounded(s) && Run(sd, s, steps) == Some(s')
    ensures Bounded(s')
    decreases |steps|
  {
    if steps != [] {
      var t := Apply(sd, s, steps[0]).value;
      hide Bounded, SenderStep, ReceiverStep;
      if OfSender(steps[0]) {
        SenderBounded(sd, s, steps[0], t);
      } else {
        ReceiverBounded(sd, s, steps[0], t);
      }
      hide Apply;
      QueuesStayBounded(sd, t, steps[1..], s');
    }
  }
}
