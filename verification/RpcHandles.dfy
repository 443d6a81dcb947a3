/** Calls whose responses carry handles: the queue machine of Rpc with the responses on
    the path of Handles, where the body of a response is bytes and its handle travels
    beside them.  As long as nothing is shipped twice this is the queue machine, so the
    response a call returns carries the handle that the server made for that call. */
module RpcHandles {
  import opened Wire
  import opened Codec
  import L = Link
  import R = Rpc
  import RS = RpcSafety
  import RT = RpcTheorems
  import H = Handles
  import HS = HandlesSafety
  import HO = HandlesOwnership
  import HR = HandlesResults

  // How a response is taken apart for the pipe and put together again.
  datatype Format = Format(split: R.Resp -> (H.Body, Option<H.Fd>), join: (H.Body, Option<H.Fd>) -> R.Resp) {
    ghost predicate Valid() {
      forall r :: join(split(r).0, split(r).1) == r
    }
  }

  datatype Setup = Setup(cfg: R.Config, sd: Serde<H.WireMsg>, format: Format) {
    ghost predicate Valid() { Sound(sd) && format.Valid() }
  }

  datatype Sys = Sys(core: R.Core, up: seq<R.Req>, h: H.Sys)

  datatype Step =
    | Local(call: R.Step)      // callers, and the client's sending side
    | Serve                    // a request is processed; the response may have a new handle
    | Encode                   // a response is produced and encoded
    | Wire(step: H.Step)       // bytes and handles move, and what the application does with handles
    | Decode                   // a response is decoded, paired with its handle and consumed

  predicate OfClient(step: R.Step) {
    !step.ServerConsume? && !step.ServerProduce? && !step.ClientConsume?
  }

  predicate OfWire(step: H.Step) {
    !step.Produce? && !step.Flush? && !step.Decode?
  }

  // The response that a message is, on either side.
  function FromServer(f: Format, m: H.Msg<H.Fd>): R.Resp {
    f.join(m.body, if m.slot.Some? then H.TakeHandleForSend(m.slot.value) else None)
  }

  function AtClient(f: Format, m: H.Msg<H.Got>): R.Resp {
    f.join(m.body, if m.slot.Some? && H.TakeHandle(m.slot.value).Some?
        then Some(H.TakeHandle(m.slot.value).value.what) else None)
  }

  function OnWire(f: Format, r: H.Record): R.Resp {
    f.join(r.msg.body, r.own)
  }

  function Waiting(f: Format, msgs: seq<H.Msg<H.Fd>>): seq<R.Resp> {
    seq(|msgs|, i requires 0 <= i < |msgs| => FromServer(f, msgs[i]))
  }

  function Down(f: Format, transit: seq<H.Record>): seq<R.Resp> {
    seq(|transit|, i requires 0 <= i < |transit| => OnWire(f, transit[i]))
  }

  // The queues this system amounts to.
  function Queues(w: Setup, s: Sys): R.Sys {
    R.Sys(s.core, s.up, Down(w.format, s.h.net.transit))
  }

  function ServeStep(w: Setup, s: Sys): Option<Sys>
    requires s.up != []
  {
    var core := R.Serve(w.cfg, s.core, s.up[0]);
    var (body, fd) := w.format.split(core.responses[|core.responses| - 1]);
    var h := H.Apply(w.sd, s.h, H.Produce(body, fd));
    if h.None? then None else Some(Sys(core, s.up[1..], h.value))
  }

  // When the message cannot be encoded the server's end is lost; when the handle queue
  // is full the process stops.
  function EncodeStep(w: Setup, s: Sys): Option<Sys>
    requires s.h.tx.produced != []
  {
    var encodes := w.sd.ser(H.Serialized(s.h.tx.produced[0])).Some?;
    match H.Apply(w.sd, s.h, H.Flush)
    case None => None
    case Some(h) =>
      if h.panicked || h.overLimit then Some(s.(h := h))
      else Some(s.(core := R.Reply(s.core, encodes).core, h := h))
  }

  function DecodeStep(w: Setup, s: Sys): Option<Sys> {
    match H.Apply(w.sd, s.h, H.Decode)
    case None => None
    case Some(h) =>
      if |h.rx.inbox| <= |s.h.rx.inbox| then Some(s.(h := h))
      else Some(s.(core := R.Consume(s.core, AtClient(w.format, h.rx.inbox[|h.rx.inbox| - 1])), h := h))
  }

  function Apply(w: Setup, s: Sys, step: Step): Option<Sys> {
    if s.h.panicked || s.h.overLimit then None
    else
      match step
      case Local(t) =>
        var q := if OfClient(t) then R.Apply(w.cfg, Queues(w, s), t) else None;
        if q.None? then None else Some(s.(core := q.value.core, up := q.value.up))
      case Serve => if !s.core.serverAlive || s.up == [] then None else ServeStep(w, s)
      case Encode => if !s.core.serverAlive || s.h.tx.produced == [] then None else EncodeStep(w, s)
      case Wire(t) =>
        var h := if OfWire(t) then H.Apply(w.sd, s.h, t) else None;
        if h.None? then None else Some(s.(h := h.value))
      case Decode => if !s.core.handlerAlive then None else DecodeStep(w, s)
  }

  function Run(w: Setup, s: Sys, steps: seq<Step>): Option<Sys>
    decreases |steps|
  {
    if steps == [] then Some(s)
    else match Apply(w, s, steps[0])
         case None => None
         case Some(t) => Run(w, t, steps[1..])
  }

  function Start(w: Setup): Sys {
    Sys(R.InitCore(w.cfg), [], H.Start)
  }

  // A panic, or an assertion on a queue of handles, is the end.
  lemma StopsForGood(w: Setup, s: Sys, step: Step)
    requires s.h.panicked || s.h.overLimit
    ensures Apply(w, s, step).None?
  {
  }

  // --- The invariant ---------------------------------------------------------------------------------

  // The responses the server has waiting are its messages, handles included.
  ghost predicate Same(w: Setup, s: Sys) {
    s.core.serverAlive && !s.h.tx.gone ==> s.core.responses == Waiting(w.format, s.h.tx.produced)
  }

  ghost predicate Inv(w: Setup, s: Sys) {
    HR.Inv(w.sd, s.h) && Same(w, s) && !s.h.doubled
  }

  // One queue step, or none, that does the same.
  ghost predicate Follows(w: Setup, s: Sys, s': Sys, steps: seq<R.Step>) {
    R.Run(w.cfg, Queues(w, s), steps) == Some(Queues(w, s'))
  }

  lemma FollowsNone(w: Setup, s: Sys, s': Sys)
    requires s'.core == s.core && s'.up == s.up && s'.h.net.transit == s.h.net.transit
    ensures Follows(w, s, s', [])
  {
  }

  lemma FollowsOne(w: Setup, s: Sys, s': Sys, step: R.Step)
    requires R.Apply(w.cfg, Queues(w, s), step) == Some(Queues(w, s'))
    ensures Follows(w, s, s', [step])
  {
    hide R.Apply;
    assert [step][1..] == [];
    assert R.Run(w.cfg, Queues(w, s'), []) == Some(Queues(w, s'));
  }

  // --- The steps ----------------------------------------------------------------------------------------

  lemma WaitingSnoc(f: Format, msgs: seq<H.Msg<H.Fd>>, m: H.Msg<H.Fd>)
    ensures Waiting(f, msgs + [m]) == Waiting(f, msgs) + [FromServer(f, m)]
  {
  }

  lemma ServeFollows(w: Setup, s: Sys, s': Sys)
    requires w.Valid() && Inv(w, s) && s.core.serverAlive && s.up != [] && ServeStep(w, s) == Some(s')
    ensures Inv(w, s') && Follows(w, s, s', [R.ServerConsume])
  {
    var core := R.Serve(w.cfg, s.core, s.up[0]);
    var resp := core.responses[|core.responses| - 1];
    var (body, fd) := w.format.split(resp);
    HR.StepKeeps(w.sd, s.h, H.Produce(body, fd), s'.h);
    hide HR.Inv;
    var m: H.Msg<H.Fd> := H.Msg(body, if fd.None? then None else Some(H.Owned(fd.value, true)));
    assert FromServer(w.format, m) == resp;
    assert s'.h.tx.produced == s.h.tx.produced + [m] && s'.h.net == s.h.net && s'.h.doubled == s.h.doubled
           && s'.h.tx.gone == s.h.tx.gone;
    hide H.Apply;
    WaitingSnoc(w.format, s.h.tx.produced, m);
    assert core.responses == s.core.responses + [resp];
    hide Waiting, Down;
    FollowsOne(w, s, s', R.ServerConsume);
  }

  // What a flush does to the messages and to the frames.
  lemma FlushShape(sd: Serde<H.WireMsg>, h: H.Sys)
    requires h.tx.produced != [] && HO.SenderSlots(h.tx) && !h.overLimit
    ensures var h', m := H.FlushOne(sd, h), h.tx.produced[0];
            && h'.doubled == h.doubled && h'.tx.gone == h.tx.gone && h'.panicked == h.panicked
            && if sd.ser(H.Serialized(m)).None? then
                 h'.net == h.net && h'.tx.produced == h.tx.produced[1..] && h'.overLimit == h.overLimit
               else if h'.overLimit then h' == h.(overLimit := true)
               else
                 var own := if m.slot.Some? then H.TakeHandleForSend(m.slot.value) else None;
                 && h'.tx.produced == h.tx.produced[1..] && |h'.net.transit| == |h.net.transit| + 1
                 && h'.net.transit[..|h.net.transit|] == h.net.transit
                 && h'.net.transit[|h.net.transit|].msg.body == m.body && h'.net.transit[|h.net.transit|].own == own
  {
    assert h.tx.produced[0] in h.tx.produced;
    hide H.FdOf, H.ClosesTwice, H.Elems, L.Encode;
  }

  lemma DownSnoc(f: Format, transit: seq<H.Record>, transit': seq<H.Record>)
    requires |transit'| == |transit| + 1 && transit'[..|transit|] == transit
    ensures Down(f, transit') == Down(f, transit) + [OnWire(f, transit'[|transit|])]
  {
    assert forall i :: 0 <= i < |transit| ==> transit'[i] == transit'[..|transit|][i];
  }

  lemma Fronts(f: Format, msgs: seq<H.Msg<H.Fd>>, transit: seq<H.Record>)
    ensures msgs != [] ==>
              Waiting(f, msgs)[0] == FromServer(f, msgs[0]) && Waiting(f, msgs[1..]) == Waiting(f, msgs)[1..]
    ensures transit != [] ==>
              Down(f, transit)[0] == OnWire(f, transit[0]) && Down(f, transit[1..]) == Down(f, transit)[1..]
  {
  }

  // The flush that is part of an encoding step.
  lemma FlushHappens(w: Setup, s: Sys, s': Sys)
    requires w.Valid() && HR.Inv(w.sd, s.h) && s.h.tx.produced != [] && EncodeStep(w, s) == Some(s')
    ensures !s.h.tx.gone && !s.h.panicked && !s.h.overLimit && s'.h == H.FlushOne(w.sd, s.h) && HR.Inv(w.sd, s'.h)
    ensures HO.SenderSlots(s.h.tx)
  {
    assert H.Apply(w.sd, s.h, H.Flush) == Some(s'.h) by { hide H.FlushOne; }
    assert HO.SenderSlots(s.h.tx) by { hide HS.PairInv, HO.ReceiverInv; }
    HR.StepKeeps(w.sd, s.h, H.Flush, s'.h);
    hide HR.Inv, H.FlushOne;
  }

  lemma EncodeFollows(w: Setup, s: Sys, s': Sys) returns (steps: seq<R.Step>)
    requires w.Valid() && Inv(w, s) && s.core.serverAlive && s.h.tx.produced != [] && EncodeStep(w, s) == Some(s')
    ensures Inv(w, s') && Follows(w, s, s', steps)
  {
    var encodes := w.sd.ser(H.Serialized(s.h.tx.produced[0])).Some?;
    hide HR.Inv, HO.SenderSlots;
    FlushHappens(w, s, s');
    FlushShape(w.sd, s.h);
    Fronts(w.format, s.h.tx.produced, []);
    assert s' == s.(core := if s'.h.overLimit then s.core else R.Reply(s.core, encodes).core, h := s'.h) by {
      hide H.FlushOne, R.Reply;
    }
    hide H.FlushOne, H.Apply, EncodeStep, Follows;
    if encodes && s'.h.overLimit {
      hide Waiting, Down;
      FollowsNone(w, s, s');
      return [];
    }
    if encodes {
      DownSnoc(w.format, s.h.net.transit, s'.h.net.transit);
    }
    hide Waiting, Down;
    assert s.core.responses != [];
    assert Down(w.format, s.h.net.transit) + [] == Down(w.format, s.h.net.transit);
    FollowsOne(w, s, s', R.ServerProduce(encodes));
    steps := [R.ServerProduce(encodes)];
  }

  // An item that is decoded is the oldest message, and finds its handle.
  lemma DecodePops(sd: Serde<H.WireMsg>, h: H.Sys)
    requires Sound(sd) && HR.Inv(sd, h) && !h.rx.gone
    ensures var d := DecodeOnce(sd, h.net.link.state, h.net.link.inbound);
            && !d.outcome.Fail?
            && (d.outcome.Item? ==>
                  && h.net.transit != [] && d.outcome.item == h.net.transit[0].msg
                  && (d.outcome.item.handle.Some? <==> h.net.transit[0].own.Some?)
                  && (d.outcome.item.handle.Some? ==> h.rx.inHandles != []))
  {
    hide HO.SenderInv, HO.ReceiverInv, DecodeOnce;
    HS.DecodeFrames(sd, h.net);
    HS.DecodePairs(sd, h);
    hide HS.OnTime, HS.Stepped, HS.Right, HS.Groups;
    if h.net.transit != [] { HS.FrontRecord(sd, h.net); }
    hide HS.Framed;
  }

  // And decoding keeps what every step keeps.
  lemma DecodeKeeps(sd: Serde<H.WireMsg>, h: H.Sys)
    requires Sound(sd) && HR.Inv(sd, h) && !h.rx.gone && !h.overLimit
    ensures HR.Inv(sd, H.DecodeOne(sd, h)) && HS.Right(H.DecodeOne(sd, h))
  {
    hide HS.PairInv, HO.SenderInv, HO.ReceiverInv, H.DecodeOne;
    HR.DecodeKeeps(sd, h);
    RightOf(sd, H.DecodeOne(sd, h));
  }

  lemma RightOf(sd: Serde<H.WireMsg>, h: H.Sys)
    requires HS.PairInv(sd, h)
    ensures HS.Right(h)
  {
    hide HS.Paired, HS.Groups, HS.Right;
  }

  // What a decode hands to the client is the oldest response on its way.
  lemma DecodeShape(sd: Serde<H.WireMsg>, f: Format, h: H.Sys)
    requires Sound(sd) && HR.Inv(sd, h) && !h.doubled && !h.rx.gone && !h.overLimit
    ensures var h' := H.DecodeOne(sd, h);
            && HR.Inv(sd, h') && !h'.doubled && h'.tx == h.tx
            && if |h'.rx.inbox| <= |h.rx.inbox| then h'.net.transit == h.net.transit
               else
                 && h.net.transit != [] && h'.net.transit == h.net.transit[1..]
                 && AtClient(f, h'.rx.inbox[|h'.rx.inbox| - 1]) == OnWire(f, h.net.transit[0])
  {
    hide HR.Inv, HS.Right, H.DecodeOne, DecodeOnce;
    DecodePops(sd, h);
    DecodeKeeps(sd, h);
    var d := DecodeOnce(sd, h.net.link.state, h.net.link.inbound);
    var h1 := DecodeCases(sd, h);
    hide H.Deliver, AtClient, OnWire;
    if d.outcome.Item? {
      Delivers(f, h1, d.outcome.item);
    }
  }

  lemma DecodeCases(sd: Serde<H.WireMsg>, h: H.Sys) returns (h1: H.Sys)
    ensures h1.net.transit == h.net.transit && h1.rx == h.rx && h1.tx == h.tx && h1.doubled == h.doubled
    ensures var d := DecodeOnce(sd, h.net.link.state, h.net.link.inbound);
            && (d.outcome.Item? ==> H.DecodeOne(sd, h) == H.Deliver(h1, d.outcome.item))
            && (d.outcome.More? ==> H.DecodeOne(sd, h) == h1)
  {
    hide DecodeOnce, L.AfterDecode, H.Deliver;
    h1 := h.(net := h.net.(link := L.AfterDecode(h.net.link, DecodeOnce(sd, h.net.link.state, h.net.link.inbound))));
  }

  lemma Delivers(f: Format, h: H.Sys, m: H.WireMsg)
    requires h.net.transit != [] && m == h.net.transit[0].msg && (m.handle.Some? <==> h.net.transit[0].own.Some?)
    requires m.handle.Some? ==> h.rx.inHandles != []
    requires HS.Right(H.Deliver(h, m)) && !h.doubled
    ensures var h' := H.Deliver(h, m);
            && !h'.doubled && h'.tx == h.tx && |h'.rx.inbox| == |h.rx.inbox| + 1 && h'.net.transit == h.net.transit[1..]
            && AtClient(f, h'.rx.inbox[|h.rx.inbox|]) == OnWire(f, h.net.transit[0])
  {
    var h' := H.Deliver(h, m);
    if m.handle.Some? {
      var got, own := h.rx.inHandles[0], h.net.transit[0].own.value;
      assert h'.delivered == h.delivered + [H.Delivery(own, got.what)];
      assert H.Delivery(own, got.what) in h'.delivered;
    }
  }

  lemma DecodeHappens(w: Setup, s: Sys, s': Sys)
    requires DecodeStep(w, s) == Some(s')
    ensures !s.h.rx.gone && !s.h.overLimit && s'.h == H.DecodeOne(w.sd, s.h) && s'.up == s.up
    ensures s'.core == if |s'.h.rx.inbox| <= |s.h.rx.inbox| then s.core
                       else R.Consume(s.core, AtClient(w.format, s'.h.rx.inbox[|s'.h.rx.inbox| - 1]))
  {
    hide H.DecodeOne, R.Consume, AtClient;
  }

  lemma DecodeFollows(w: Setup, s: Sys, s': Sys) returns (steps: seq<R.Step>)
    requires w.Valid() && Inv(w, s) && s.core.handlerAlive && DecodeStep(w, s) == Some(s')
    ensures Inv(w, s') && Follows(w, s, s', steps)
  {
    hide HR.Inv, H.DecodeOne, AtClient, OnWire, R.Consume;
    DecodeHappens(w, s, s');
    hide DecodeStep;
    DecodeShape(w.sd, w.format, s.h);
    if |s'.h.rx.inbox| <= |s.h.rx.inbox| {
      hide Waiting, Down;
      FollowsNone(w, s, s');
      steps := [];
    } else {
      Fronts(w.format, [], s.h.net.transit);
      ConsumeKeepsServer(s.core, Down(w.format, s.h.net.transit)[0]);
      hide Waiting, Down, Follows;
      FollowsOne(w, s, s', R.ClientConsume);
      steps := [R.ClientConsume];
    }
  }

  lemma ConsumeKeepsServer(k: R.Core, resp: R.Resp)
    ensures R.Consume(k, resp).serverAlive == k.serverAlive && R.Consume(k, resp).responses == k.responses
  {
    hide R.StrongLive, R.Cancel;
  }

  // Moving bytes and handles leaves the messages alone, until the sender is torn down.
  lemma WireShape(sd: Serde<H.WireMsg>, h: H.Sys, step: H.Step, h': H.Sys)
    requires OfWire(step) && H.Apply(sd, h, step) == Some(h')
    ensures h'.net.transit == h.net.transit && (h'.tx.gone || h'.tx.produced == h.tx.produced)
            && (h.tx.gone ==> h'.tx.gone)
  {
    hide H.ClosesTwice, H.Elems, H.SenderHeld, H.Install, H.Arrived, H.MarksAt, H.Headers, L.Send, L.Recv,
        H.ReceiverDrops;
  }

  lemma LocalShape(cfg: R.Config, q: R.Sys, step: R.Step)
    requires OfClient(step) && R.Apply(cfg, q, step).Some?
    ensures var q' := R.Apply(cfg, q, step).value;
            q'.down == q.down && (q'.core.serverAlive ==> q.core.serverAlive && q'.core.responses == q.core.responses)
  {
    hide R.StrongLive, R.Cancel;
  }

  /** Every step that ships nothing twice is a step of the queue machine, or none. */
  lemma StepFollows(w: Setup, s: Sys, step: Step, s': Sys) returns (steps: seq<R.Step>)
    requires w.Valid() && Inv(w, s) && Apply(w, s, step) == Some(s') && !s'.h.doubled
    ensures Inv(w, s') && Follows(w, s, s', steps)
  {
    hide HR.Inv, H.Apply, ServeStep, EncodeStep, DecodeStep, R.Apply, Down, Waiting, Follows;
    match step
    case Local(t) =>
      LocalShape(w.cfg, Queues(w, s), t);
      FollowsOne(w, s, s', t);
      steps := [t];
    case Serve =>
      ServeFollows(w, s, s');
      steps := [R.ServerConsume];
    case Encode => steps := EncodeFollows(w, s, s');
    case Wire(t) =>
      HR.StepKeeps(w.sd, s.h, t, s'.h);
      WireShape(w.sd, s.h, t, s'.h);
      FollowsNone(w, s, s');
      steps := [];
    case Decode => steps := DecodeFollows(w, s, s');
  }

  // Once something has been shipped twice, it has.
  lemma DoubledStays(w: Setup, s: Sys, step: Step, s': Sys)
    requires Apply(w, s, step) == Some(s') && s.h.doubled
    ensures s'.h.doubled
  {
    hide R.Apply, R.Consume, R.Reply, Queues, AtClient, H.Apply;
    match step
    case Local(_) =>
    case Serve =>
      var responses := R.Serve(w.cfg, s.core, s.up[0]).responses;
      var (body, fd) := w.format.split(responses[|responses| - 1]);
      HandleDoubledStays(w.sd, s.h, H.Produce(body, fd));
    case Encode => HandleDoubledStays(w.sd, s.h, H.Flush);
    case Wire(t) => HandleDoubledStays(w.sd, s.h, t);
    case Decode => HandleDoubledStays(w.sd, s.h, H.Decode);
  }

  lemma HandleDoubledStays(sd: Serde<H.WireMsg>, h: H.Sys, step: H.Step)
    requires h.doubled && H.Apply(sd, h, step).Some?
    ensures H.Apply(sd, h, step).value.doubled
  {
    hide H.ClosesTwice, H.Elems, H.SenderHeld, H.Shipped, H.Install, H.Arrived, H.Append, DecodeOnce, H.Paid;
  }

  lemma {:induction false} DoubledThroughout(w: Setup, s: Sys, steps: seq<Step>, s': Sys)
    requires Run(w, s, steps) == Some(s') && !s'.h.doubled
    ensures !s.h.doubled
    decreases |steps|
  {
    hide Apply;
    if steps != [] {
      var t := Apply(w, s, steps[0]).value;
      DoubledThroughout(w, t, steps[1..], s');
      if s.h.doubled { DoubledStays(w, s, steps[0], t); }
    }
  }

  lemma {:induction false} RunFollows(w: Setup, s: Sys, steps: seq<Step>, s': Sys) returns (qs: seq<R.Step>)
    requires w.Valid() && Inv(w, s) && Run(w, s, steps) == Some(s') && !s'.h.doubled
    ensures Inv(w, s') && Follows(w, s, s', qs)
    decreases |steps|
  {
    hide Apply, Inv;
    if steps == [] {
      FollowsNone(w, s, s');
      return [];
    }
    var t := Apply(w, s, steps[0]).value;
    DoubledThroughout(w, t, steps[1..], s');
    var xs := StepFollows(w, s, steps[0], t);
    var ys := RunFollows(w, t, steps[1..], s');
    RS.RunAppend(w.cfg, Queues(w, s), xs, ys);
    qs := xs + ys;
  }

  // --- The result -----------------------------------------------------------------------------------------

  /** Every run that ships nothing twice is a run of the queue machine, whose responses
      are bodies together with their handles. */
  lemma HandlesRefineQueues(w: Setup, steps: seq<Step>, s: Sys) returns (qs: seq<R.Step>)
    requires w.Valid() && Run(w, Start(w), steps) == Some(s) && !s.h.doubled
    ensures R.RunFromStart(w.cfg, qs) == Some(Queues(w, s))
  {
    HR.StartInv(w.sd);
    hide HR.Inv, Run;
    qs := RunFollows(w, Start(w), steps, s);
    assert Queues(w, Start(w)) == R.Sys(R.InitCore(w.cfg), [], []);
  }

  /** A call that returns Ok returns the server's answer to its own request, with the
      handle that the server made for that answer, although neither the bytes nor the
      handles carry an identifier. */
  lemma AnswersCarryTheirHandles(w: Setup, steps: seq<Step>, s: Sys)
    requires w.Valid() && Run(w, Start(w), steps) == Some(s) && !s.h.doubled
    ensures forall c, r :: c in s.core.calls && s.core.calls[c].pc == R.Returned(Some(r)) ==>
            RT.OwnAnswer(w.cfg, s.core, c, r)
    ensures !s.core.mismatch
  {
    hide Run, RT.OwnAnswer, R.RunFromStart;
    var qs := HandlesRefineQueues(w, steps, s);
    RT.CallsGetTheirOwnAnswers(w.cfg, qs);
  }
}
