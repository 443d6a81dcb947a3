/** What callers, maintainers and the connection teardown may rely on, for
    every run of the RPC machine. */
module RpcTheorems {
  import opened Wire
  import opened Rpc
  import opened RpcSafety

  // --- Matching responses to callers -----------------------------------------------------

  // `r` is what the server answered to call `c`'s own request, after handling
  // exactly the requests that left the queue before it.
  ghost predicate OwnAnswer(cfg: Config, k: Core, c: CallId, r: Resp) {
    c in k.calls && exists i ::
      && 0 <= i < |k.handled| && i < |k.sent|
      && k.sent[i] == c && k.handled[i] == k.calls[c].req
      && r == Answer(cfg, k.handled[..i], k.calls[c].req)
  }

  lemma OwnAnswerFromInv(cfg: Config, s: Sys, c: CallId, r: Resp)
    requires Inv(cfg, s) && c in s.core.calls && s.core.calls[c].writer == Finished(Some(r))
    ensures OwnAnswer(cfg, s.core, c, r)
  {
    var k := s.core;
    var i :| 0 <= i < |k.sent[..k.done]| && k.sent[..k.done][i] == c;
    assert k.sent[i] == c && k.answers[i] == Answer(cfg, k.handled[..i], k.handled[i]);
  }

  /** Over every interleaving of any number of callers, a call that returns Ok
      returns the server's answer to its own request, although messages carry
      no identifiers; and requests are processed in the order they left the
      client's queue. */
  lemma CallsGetTheirOwnAnswers(cfg: Config, steps: seq<Step>)
    requires RunFromStart(cfg, steps).Some?
    ensures var k := RunFromStart(cfg, steps).value.core;
            && (forall c, r :: c in k.calls && k.calls[c].pc == Returned(Some(r)) ==> OwnAnswer(cfg, k, c, r))
            && |k.handled| <= |k.sent|
            && (forall i :: 0 <= i < |k.handled| ==> k.sent[i] in k.calls && k.handled[i] == k.calls[k.sent[i]].req)
            && !k.mismatch
  {
    Reachable(cfg, steps);
    var s := RunFromStart(cfg, steps).value;
    forall c, r | c in s.core.calls && s.core.calls[c].pc == Returned(Some(r))
      ensures OwnAnswer(cfg, s.core, c, r)
    {
      assert CallOk(s.core, c);
      OwnAnswerFromInv(cfg, s, c, r);
    }
  }

  /** A response nobody waits for is reported and ends the connection; any other is not. */
  lemma MismatchIff(cfg: Config, steps: seq<Step>, s: Sys, resp: Resp)
    requires RunFromStart(cfg, steps) == Some(s) && s.core.handlerAlive
    ensures Consume(s.core, resp).mismatch <==> s.core.inFlight == []
    ensures Consume(s.core, resp).handlerAlive <==> s.core.inFlight != []
  {
    Reachable(cfg, steps);
    hide RunFromStart;
    assert s.core.inFlight != [] ==> s.core.inFlight[0] in s.core.inFlight;
    hide Completed, Answers, Wires, CallsOk, DroppedIsEmpty, StrongLive, Cancel;
  }

  /** A push that has its reference is accepted, last, unless 32 requests are queued; then
      the call ends with an error and the queue is as it was. */
  lemma PushIsRefusedIff(cfg: Config, s: Sys, c: CallId)
    requires c in s.core.calls && s.core.calls[c].pc == Holding
    ensures var s' := Apply(cfg, s, Push(c));
            && s'.Some? && c in s'.value.core.calls
            && if |s.core.queue| <= 31 then s'.value.core.calls[c].writer == Queued
               && s'.value.core.queue == s.core.queue + [c]
               else s'.value.core.calls[c].writer == Finished(None) && s'.value.core.queue == s.core.queue
  {
  }

  // --- Conservation of completion writers ------------------------------------------------

  lemma {:induction false} NoDupCounts(s: seq<CallId>, c: CallId)
    requires NoDup(s)
    ensures multiset(s)[c] == if c in s then 1 else 0
  {
    if s != [] {
      assert s == [s[0]] + s[1..];
      NoDupCounts(s[1..], c);
    }
  }

  function PlacesOf(k: Core, c: CallId): nat
    requires c in k.calls
  {
    multiset(k.queue)[c] + multiset(k.inFlight)[c] +
    (if k.calls[c].writer == WithCaller then 1 else 0) + (if k.calls[c].writer.Finished? then 1 else 0)
  }

  /** Every started call's writer is in exactly one place: with its caller, in
      the queue, in flight, or finished. */
  lemma WritersConserved(cfg: Config, steps: seq<Step>)
    requires RunFromStart(cfg, steps).Some?
    ensures var k := RunFromStart(cfg, steps).value.core;
            forall c <- k.calls.Keys :: PlacesOf(k, c) == 1
  {
    Reachable(cfg, steps);
    var k := RunFromStart(cfg, steps).value.core;
    forall c <- k.calls.Keys
      ensures PlacesOf(k, c) == 1
    {
      NoDupCounts(k.queue, c);
      NoDupCounts(k.inFlight, c);
    }
  }

  lemma FinishedStep(cfg: Config, s: Sys, step: Step, c: CallId)
    requires Inv(cfg, s) && Apply(cfg, s, step).Some?
    requires c in s.core.calls && s.core.calls[c].writer.Finished?
    ensures var k' := Apply(cfg, s, step).value.core;
            c in k'.calls && k'.calls[c].writer == s.core.calls[c].writer && k'.calls[c].req == s.core.calls[c].req
  {
    var k := s.core;
    assert c !in k.queue && c !in k.inFlight;
    match step
    case ClientConsume =>
      ConsumeKeeps(cfg, s);
      assert k.inFlight[0] in k.inFlight;
    case ClientProduce(encodes) =>
      FinishedProduce(k, encodes, c);
    case ServerConsume =>
    case ServerProduce(_) =>
    case ServerAbort =>
    case _ =>
      hide Shape, History;
      ClientStepShape(k, step);
  }

  lemma FinishedProduce(k: Core, encodes: bool, c: CallId)
    requires Shape(k) && k.handlerAlive && c in k.calls && k.calls[c].writer.Finished?
    ensures var k' := Produce(k, encodes).core;
            c in k'.calls && k'.calls[c].writer == k.calls[c].writer && k'.calls[c].req == k.calls[c].req
  {
    assert c !in k.queue && c !in k.inFlight;
    if k.proxies == {} {
      DropHandlerShape(k);
    } else if k.queue != [] {
      assert k.queue[0] in k.queue;
      PoppedShape(k);
      DropHandlerShape(Popped(k));
    }
  }

  /** No call is completed twice: once a writer is finished its value never changes. */
  lemma {:induction false} FinishedIsFinal(cfg: Config, s: Sys, steps: seq<Step>, c: CallId)
    requires Inv(cfg, s) && Run(cfg, s, steps).Some?
    requires c in s.core.calls && s.core.calls[c].writer.Finished?
    ensures var k' := Run(cfg, s, steps).value.core;
            c in k'.calls && k'.calls[c].writer == s.core.calls[c].writer
    decreases |steps|
  {
    if steps != [] {
      hide Inv;
      FinishedStep(cfg, s, steps[0], c);
      StepKeeps(cfg, s, steps[0]);
      FinishedIsFinal(cfg, Apply(cfg, s, steps[0]).value, steps[1..], c);
    }
  }

  // --- Tearing the connection down --------------------------------------------------------

  /** Once the handler is gone, a writer is unfinished only while its own caller
      has yet to try the push, or sits in the queue while some caller still
      holds the temporary reference taken by `upgrade`.  When every caller has
      reached `wait`, none of them waits forever. */
  lemma DropResolvesEveryone(cfg: Config, steps: seq<Step>)
    requires RunFromStart(cfg, steps).Some? && !RunFromStart(cfg, steps).value.core.handlerAlive
    ensures var k := RunFromStart(cfg, steps).value.core;
            && (forall c <- k.calls.Keys :: !k.calls[c].writer.Finished? ==>
                 || k.calls[c].pc == Starting
                 || exists h <- k.calls.Keys :: k.calls[h].HoldsQueue())
            && ((forall c <- k.calls.Keys :: k.calls[c].pc == Waiting || k.calls[c].pc.Returned?) ==>
                 forall c <- k.calls.Keys :: k.calls[c].writer.Finished?)
  {
    Reachable(cfg, steps);
    var k := RunFromStart(cfg, steps).value.core;
    forall c <- k.calls.Keys | !k.calls[c].writer.Finished?
      ensures k.calls[c].pc == Starting || exists h <- k.calls.Keys :: k.calls[h].HoldsQueue()
    {
      assert CallOk(k, c);
      if k.calls[c].writer == Queued {
        assert c in k.queue && StrongLive(k);
      } else if k.calls[c].writer == WithCaller && k.calls[c].pc != Starting {
        assert k.calls[c].HoldsQueue();
      }
    }
  }

  lemma DeadHandlerStep(cfg: Config, s: Sys, step: Step)
    requires Inv(cfg, s) && !s.core.handlerAlive && Apply(cfg, s, step).Some?
    ensures var k' := Apply(cfg, s, step).value.core;
            !k'.handlerAlive && k'.sent == s.core.sent && k'.done == s.core.done && s.core.calls.Keys <= k'.calls.Keys
  {
    hide Inv;
  }

  lemma {:induction false} DeadHandlerRun(cfg: Config, s: Sys, steps: seq<Step>)
    requires Inv(cfg, s) && !s.core.handlerAlive && Run(cfg, s, steps).Some?
    ensures var k' := Run(cfg, s, steps).value.core;
            k'.sent == s.core.sent && k'.done == s.core.done && s.core.calls.Keys <= k'.calls.Keys
    decreases |steps|
  {
    if steps != [] {
      hide Inv;
      DeadHandlerStep(cfg, s, steps[0]);
      StepKeeps(cfg, s, steps[0]);
      DeadHandlerRun(cfg, Apply(cfg, s, steps[0]).value, steps[1..]);
    }
  }

  /** A call still unanswered when the handler is dropped never returns Ok. */
  lemma DropMeansError(cfg: Config, before: seq<Step>, after: seq<Step>, c: CallId)
    requires RunFromStart(cfg, before).Some? && !RunFromStart(cfg, before).value.core.handlerAlive
    requires Run(cfg, RunFromStart(cfg, before).value, after).Some?
    requires var k := RunFromStart(cfg, before).value.core; c in k.calls && !k.calls[c].writer.Finished?
    ensures var k' := Run(cfg, RunFromStart(cfg, before).value, after).value.core;
            c in k'.calls && (k'.calls[c].writer.Finished? ==> k'.calls[c].writer == Finished(None))
  {
    var s := RunFromStart(cfg, before).value;
    Reachable(cfg, before);
    DeadHandlerRun(cfg, s, after);
    RunKeeps(cfg, s, after);
    var k' := Run(cfg, s, after).value.core;
    assert k'.sent[..k'.done] == s.core.sent[..s.core.done];
  }

  // --- A live connection at rest -------------------------------------------------------

  lemma AllAnswered(cfg: Config, s: Sys)
    requires Inv(cfg, s) && s.core.handlerAlive && s.core.serverAlive
    requires s.up == [] && s.down == [] && s.core.responses == []
    ensures s.core.inFlight == [] && forall c <- s.core.sent :: c in s.core.calls && s.core.calls[c].writer.Finished?
  {
    var k := s.core;
    assert k.done == |k.sent|;
    assert forall c <- k.sent :: c !in k.inFlight;
  }

  // --- Aborting because no proxies are left -----------------------------------------------

  lemma SomeMember(s: seq<CallId>)
    ensures s != [] ==> exists c :: c in s
  {
    if s != [] {
      assert s[0] in s;
    }
  }

  /** `produce` gives up when no proxy is live.  At that moment nobody is
      waiting: the queue and the in-flight list are empty and every call has
      returned. */
  lemma NoProxiesNobodyWaits(cfg: Config, steps: seq<Step>)
    requires RunFromStart(cfg, steps).Some? && RunFromStart(cfg, steps).value.core.proxies == {}
    ensures var k := RunFromStart(cfg, steps).value.core;
            k.queue == [] && k.inFlight == [] && forall c <- k.calls.Keys :: k.calls[c].pc.Returned?
  {
    Reachable(cfg, steps);
    var k := RunFromStart(cfg, steps).value.core;
    assert forall c <- k.calls.Keys :: CallOk(k, c) && k.calls[c].writer.Finished?;
    SomeMember(k.queue);
    SomeMember(k.inFlight);
  }

  /** ... and the proxy count never rises again from zero. */
  lemma {:induction false} ProxiesNeverRevive(cfg: Config, s: Sys, steps: seq<Step>)
    requires s.core.proxies == {} && Run(cfg, s, steps).Some?
    ensures Run(cfg, s, steps).value.core.proxies == {}
    decreases |steps|
  {
    if steps != [] {
      ProxiesNeverRevive(cfg, Apply(cfg, s, steps[0]).value, steps[1..]);
    }
  }
}
