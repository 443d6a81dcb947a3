/** The stream slab of the server: create, init, use and destroy, with the
    callbacks that the backend may fire at any moment (server/src/server.rs).

    The slab is a map whose vacant keys are chosen by its environment.  A panic
    of the server thread is an outcome; nothing runs after it. */
module StreamServer {
  import opened Wire
  import SC = StreamConfig
  import D = Devices

  // The parameters a stream is created with, as far as they matter here.
  datatype Params = Params(config: SC.CreateParams, inputDevice: nat, outputDevice: nat)

  // A ServerStream.  `birth` is history: the number of its creation, which also
  // names the client end of its pipe.
  datatype ServerStream = ServerStream(
    birth: nat, hasStream: bool, clientPipe: Option<nat>, params: Option<Params>, connected: bool)

  // Where process_stream_init is, if it is running: inside the backend's
  // stream_init, or after it with the stream stored.
  datatype Stage = Idle | InBackend(token: nat) | Opened(token: nat)

  datatype Why = Invalid | AlreadyInitialized | MissingParams | Resources | Backend

  datatype Panic = UnknownDevice | UninitializedStream | InvalidState

  datatype Reply = Created(token: nat) | Initialized(pipe: nat) | Destroyed | Used | Refused(why: Why)

  datatype Sys = Sys(
    streams: map<nat, ServerStream>,
    devices: seq<nat>,
    stage: Stage,
    births: nat,
    handed: seq<nat>,        // pipes sent to the client, by birth
    forwarded: seq<nat>,     // births whose callbacks reached the client
    replies: seq<Reply>,
    panic: Option<Panic>)

  const Start := Sys(map[], [0], Idle, 0, [], [], [], None)

  datatype Step =
    | Create(params: Params, key: nat, resources: bool)   // shm, pipe and bind succeed?
    | Init(token: nat)
    | BackendReturns(ok: bool)
    | FinishInit
    | Use(token: nat)                  // StreamStart and every other try_stream! request
    | Destroy(token: nat)
    | Enumerate(devid: nat)
    | Callback(token: nat)             // data, state or device change, from any thread

  function Answer(s: Sys, r: Reply): Sys {
    s.(replies := s.replies + [r])
  }

  function AfterCreate(s: Sys, p: Params, key: nat, resources: bool): Sys {
    if !SC.Validate(p.config) then Answer(s, Refused(Invalid))
    else if !resources then Answer(s, Refused(Resources))
    else
      var entry := ServerStream(s.births, false, Some(s.births), Some(p), false);
      Answer(s.(streams := s.streams[key := entry], births := s.births + 1), Created(key))
  }

  // process_stream_init up to the backend call.
  function AfterInit(s: Sys, token: nat): Sys {
    if token !in s.streams then Answer(s, Refused(Invalid))
    else
      var st := s.streams[token];
      if st.hasStream then Answer(s, Refused(AlreadyInitialized))
      else if st.params.None? then Answer(s, Refused(MissingParams))
      else
        // params.take()
        var s1 := s.(streams := s.streams[token := st.(params := None)]);
        var p := st.params.value;
        if D.HandleToId(s.devices, p.inputDevice).None? || D.HandleToId(s.devices, p.outputDevice).None?
        then s1.(panic := Some(UnknownDevice))
        else s1.(stage := InBackend(token))
  }

  function AfterBackend(s: Sys, token: nat, ok: bool): Sys
    requires token in s.streams
  {
    if ok then s.(streams := s.streams[token := s.streams[token].(hasStream := true)], stage := Opened(token))
    else Answer(s.(streams := s.streams - {token}, stage := Idle), Refused(Backend))
  }

  function AfterFinish(s: Sys, token: nat): Sys
    requires token in s.streams
  {
    var st := s.streams[token];
    if st.clientPipe.None? then s.(panic := Some(InvalidState), stage := Idle)
    else Answer(s.(streams := s.streams[token := st.(clientPipe := None, connected := true)], stage := Idle,
                   handed := s.handed + [st.clientPipe.value]), Initialized(st.clientPipe.value))
  }

  function AfterUse(s: Sys, token: nat): Sys {
    if token !in s.streams then Answer(s, Refused(Invalid))
    else if !s.streams[token].hasStream then s.(panic := Some(UninitializedStream))
    else Answer(s, Used)
  }

  function AfterDestroy(s: Sys, token: nat): Sys {
    if token in s.streams then Answer(s.(streams := s.streams - {token}), Destroyed) else Answer(s, Refused(Invalid))
  }

  // A callback can come only from a stream the backend has, or is making.
  function AfterCallback(s: Sys, token: nat): Option<Sys> {
    if token !in s.streams || !(s.streams[token].hasStream || s.stage == InBackend(token)) then None
    else if !s.streams[token].connected then Some(s)
    else Some(s.(forwarded := s.forwarded + [s.streams[token].birth]))
  }

  function Apply(s: Sys, step: Step): Option<Sys> {
    if s.panic.Some? then None
    else if step.Callback? then AfterCallback(s, step.token)
    else match s.stage
      case InBackend(t) => if step.BackendReturns? && t in s.streams then Some(AfterBackend(s, t, step.ok)) else None
      case Opened(t) => if step.FinishInit? && t in s.streams then Some(AfterFinish(s, t)) else None
      case Idle =>
        match step
        case Create(p, key, resources) => if key in s.streams then None else Some(AfterCreate(s, p, key, resources))
        case Init(t) => Some(AfterInit(s, t))
        case Use(t) => Some(AfterUse(s, t))
        case Destroy(t) => Some(AfterDestroy(s, t))
        case Enumerate(d) => Some(s.(devices := D.MakeHandle(s.devices, d).0))
        case _ => None
  }

  function Run(s: Sys, steps: seq<Step>): Option<Sys>
    decreases |steps|
  {
    if steps == [] then Some(s)
    else match Apply(s, steps[0])
         case None => None
         case Some(t) => Run(t, steps[1..])
  }

  // --- The life of a stream ------------------------------------------------------------------------

  predicate IsCreated(st: ServerStream) {
    !st.hasStream && st.clientPipe == Some(st.birth) && st.params.Some? && SC.Validate(st.params.value.config)
        && !st.connected
  }

  predicate IsReady(st: ServerStream) {
    st.hasStream && st.clientPipe.None? && st.params.None? && st.connected
  }

  // While it is being initialized: params taken, pipe still held.
  predicate IsOpening(st: ServerStream, stored: bool) {
    st.hasStream == stored && st.clientPipe == Some(st.birth) && st.params.None? && !st.connected
  }

  ghost predicate StreamsOk(s: Sys) {
    && (forall t <- s.streams :: t == Current(s.stage) || IsCreated(s.streams[t]) || IsReady(s.streams[t]))
    && (s.stage.Idle? || (s.stage.token in s.streams && IsOpening(s.streams[s.stage.token], s.stage.Opened?)))
  }

  // The token being initialized; -1 if there is none.
  function Current(stage: Stage): int {
    if stage.Idle? then -1 else stage.token
  }

  // Births tell live streams apart, and a pipe is either held or handed out.
  ghost predicate PipesOk(s: Sys) {
    && (forall t <- s.streams :: s.streams[t].birth < s.births)
    && (forall t, u :: t in s.streams && u in s.streams && t != u ==> s.streams[t].birth != s.streams[u].birth)
    && (forall t <- s.streams :: s.streams[t].connected <==> s.streams[t].birth in s.handed)
    && NoDup(s.handed) && (forall b <- s.handed :: b < s.births)
    && (forall b <- s.forwarded :: b in s.handed)
  }

  ghost predicate NeverMissing(s: Sys) {
    s.panic != Some(InvalidState) && Refused(MissingParams) !in s.replies
  }

  // After a panic the slab is as the unwinding left it.
  ghost predicate Inv(s: Sys) {
    (s.panic.None? ==> StreamsOk(s)) && PipesOk(s) && NeverMissing(s)
  }

  // --- Every step keeps it -----------------------------------------------------------------------

  lemma StreamsKept(s: Sys, step: Step, s': Sys)
    requires Inv(s) && Apply(s, step) == Some(s')
    ensures s'.panic.None? ==> StreamsOk(s')
  {
    hide PipesOk, NeverMissing, D.MakeHandle, SC.Validate;
  }

  // Births, connections and what was handed out are untouched.
  lemma PipesFrame(s: Sys, s': Sys)
    requires PipesOk(s) && s'.births == s.births && s'.handed == s.handed && s'.forwarded == s.forwarded
    requires forall t <- s'.streams ::
               && t in s.streams && s'.streams[t].birth == s.streams[t].birth
               && s'.streams[t].connected == s.streams[t].connected
    ensures PipesOk(s')
  {
  }

  lemma CreateKeepsPipes(s: Sys, p: Params, key: nat, resources: bool)
    requires PipesOk(s) && key !in s.streams
    ensures PipesOk(AfterCreate(s, p, key, resources))
  {
    hide SC.Validate;
    var s' := AfterCreate(s, p, key, resources);
    if s'.births == s.births {
      PipesFrame(s, s');
    }
  }

  lemma FinishKeepsPipes(s: Sys, token: nat)
    requires PipesOk(s) && token in s.streams && IsOpening(s.streams[token], true)
    ensures PipesOk(AfterFinish(s, token))
  {
    var s', b := AfterFinish(s, token), s.streams[token].birth;
    assert s'.handed == s.handed + [b] && b !in s.handed;
    assert forall x :: x in s'.handed <==> x in s.handed || x == b;
  }

  lemma PipesKept(s: Sys, step: Step, s': Sys)
    requires Inv(s) && Apply(s, step) == Some(s')
    ensures PipesOk(s')
  {
    hide NeverMissing, D.MakeHandle, SC.Validate, PipesOk;
    match step
    case Create(p, key, resources) => CreateKeepsPipes(s, p, key, resources);
    case FinishInit => FinishKeepsPipes(s, s.stage.token);
    case Callback(t) => CallbackKeepsPipes(s, t, s');
    case _ => PipesFrame(s, s');
  }

  lemma CallbackKeepsPipes(s: Sys, token: nat, s': Sys)
    requires PipesOk(s) && AfterCallback(s, token) == Some(s')
    ensures PipesOk(s')
  {
    assert s' != s ==> forall x :: x in s'.forwarded <==> x in s.forwarded || x == s.streams[token].birth;
  }

  lemma MissingKept(s: Sys, step: Step, s': Sys)
    requires Inv(s) && Apply(s, step) == Some(s')
    ensures NeverMissing(s')
  {
    hide PipesOk, D.MakeHandle, SC.Validate;
  }

  lemma {:induction false} RunKeeps(s: Sys, steps: seq<Step>, s': Sys)
    requires Inv(s) && Run(s, steps) == Some(s')
    ensures Inv(s')
    decreases |steps|
  {
    hide Apply, StreamsOk, PipesOk, NeverMissing;
    if steps != [] {
      var t := Apply(s, steps[0]).value;
      StreamsKept(s, steps[0], t);
      PipesKept(s, steps[0], t);
      MissingKept(s, steps[0], t);
      RunKeeps(t, steps[1..], s');
    }
  }

  lemma StartInv()
    ensures Inv(Start)
  {
  }

  // --- Results --------------------------------------------------------------------------------------

  /** In every run, between two requests each live slot is Created (parameters and
      client pipe held, no stream, not connected) or Ready (stream held, parameters
      and pipe gone, connected). */
  lemma LifecycleHolds(steps: seq<Step>, s: Sys)
    requires Run(Start, steps) == Some(s) && s.panic.None? && s.stage.Idle?
    ensures forall t <- s.streams :: IsCreated(s.streams[t]) != IsReady(s.streams[t])
  {
    hide Run, PipesOk, NeverMissing;
    StartInv();
    RunKeeps(Start, steps, s);
    assert Current(s.stage) == -1;
  }

  /** In every run, even one that ends in a panic: the pipe of a creation is handed
      out at most once, the "missing params" and "invalid state" cases are never
      reached, and no callback is forwarded for a stream whose pipe has not been
      handed out, that is, before it is Ready. */
  lemma PipesHandedOnce(steps: seq<Step>, s: Sys)
    requires Run(Start, steps) == Some(s)
    ensures NoDup(s.handed)
    ensures s.panic != Some(InvalidState) && Refused(MissingParams) !in s.replies
    ensures forall b <- s.forwarded :: b in s.handed
  {
    hide Run;
    StartInv();
    RunKeeps(Start, steps, s);
  }

  /** The only panics, and exactly when: a request on a stream that is still
      Created, or the initialization of one that names an unknown device. */
  lemma PanicsIff(steps: seq<Step>, s: Sys, step: Step, s': Sys)
    requires Run(Start, steps) == Some(s) && Apply(s, step) == Some(s')
    ensures s'.panic == Some(UninitializedStream) <==>
            step.Use? && step.token in s.streams && IsCreated(s.streams[step.token])
    ensures s'.panic == Some(UnknownDevice) <==>
            step.Init? && step.token in s.streams && IsCreated(s.streams[step.token]) &&
            var p := s.streams[step.token].params.value; p.inputDevice >= |s.devices| || p.outputDevice >= |s.devices|
    ensures s'.panic != Some(InvalidState)
  {
    hide Run;
    StartInv();
    RunKeeps(Start, steps, s);
    MissingKept(s, step, s');
    hide PipesOk, NeverMissing, D.MakeHandle, SC.Validate;
  }

  // `s` with one more reply and nothing else.
  function Told(s: Sys, r: Reply): Sys {
    s.(replies := s.replies + [r])
  }

  /** In every run, what a request on a token comes to depends on whether its stream is
      unknown, Created or Ready, and nothing else.  A refused request changes nothing. */
  lemma RequestsAreAnswered(steps: seq<Step>, s: Sys, step: Step) returns (s': Sys)
    requires Run(Start, steps) == Some(s) && s.panic.None? && s.stage.Idle?
    requires step.Init? || step.Use? || step.Destroy?
    ensures Apply(s, step) == Some(s')
    ensures step.token !in s.streams ==> s' == Told(s, Refused(Invalid))
    ensures step.token in s.streams && step.Destroy? ==>
              s' == Told(s, Destroyed).(streams := s'.streams) && s'.streams == s.streams - {step.token}
    ensures step.token in s.streams && IsReady(s.streams[step.token]) && !step.Destroy? ==>
              s' == Told(s, if step.Use? then Used else Refused(AlreadyInitialized))
    ensures step.token in s.streams && IsCreated(s.streams[step.token]) && step.Init? && s'.panic.None? ==>
              && s' == s.(streams := s'.streams, stage := InBackend(step.token))
              && s'.streams.Keys == s.streams.Keys && IsOpening(s'.streams[step.token], false)
  {
    hide Run;
    StartInv();
    RunKeeps(Start, steps, s);
    hide PipesOk, NeverMissing, D.MakeHandle, SC.Validate;
    s' := Apply(s, step).value;
  }

  /** The two cases that no run reaches are told apart from all others: a slot with neither
      a stream nor parameters, and a stream whose pipe has already been handed out. */
  lemma DefensiveCases(s: Sys, token: nat)
    requires s.panic.None? && token in s.streams
    ensures s.stage.Idle? && !s.streams[token].hasStream && s.streams[token].params.None? ==>
              Apply(s, Init(token)) == Some(Told(s, Refused(MissingParams)))
    ensures s.stage == Opened(token) && s.streams[token].clientPipe.None? ==>
              Apply(s, FinishInit) == Some(s.(panic := Some(InvalidState), stage := Idle))
  {
  }

  /** Creation is refused exactly for bad parameters or failed resources, and then
      changes nothing; otherwise the new slot is Created, holds the parameters, and is
      told apart from all others by its birth. */
  lemma CreationIsAnswered(steps: seq<Step>, s: Sys, p: Params, key: nat, resources: bool) returns (s': Sys)
    requires Run(Start, steps) == Some(s) && s.panic.None? && s.stage.Idle? && key !in s.streams
    ensures Apply(s, Create(p, key, resources)) == Some(s')
    ensures !SC.Validate(p.config) ==> s' == Told(s, Refused(Invalid))
    ensures SC.Validate(p.config) && !resources ==> s' == Told(s, Refused(Resources))
    ensures SC.Validate(p.config) && resources ==>
              && s' == Told(s, Created(key)).(streams := s'.streams, births := s.births + 1)
              && s'.streams.Keys == s.streams.Keys + {key} && IsCreated(s'.streams[key])
              && s'.streams[key].params == Some(p)
              && forall t <- s.streams :: s.streams[t].birth != s'.streams[key].birth
  {
    hide Run;
    StartInv();
    RunKeeps(Start, steps, s);
    hide StreamsOk, NeverMissing, D.MakeHandle, SC.Validate;
    s' := Apply(s, Create(p, key, resources)).value;
  }

  /** An enumeration makes the device known and leaves everything else as it is. */
  lemma EnumerationIsKnown(s: Sys, devid: nat) returns (s': Sys)
    requires s.panic.None? && s.stage.Idle?
    ensures Apply(s, Enumerate(devid)) == Some(s') && s' == s.(devices := s'.devices)
    ensures s.devices <= s'.devices && devid in s'.devices
  {
    s' := Apply(s, Enumerate(devid)).value;
  }

  /** No step touches the slot of another stream. */
  lemma OthersUntouched(s: Sys, step: Step, s': Sys, t: nat)
    requires Apply(s, step) == Some(s') && t in s.streams && t != Current(s.stage)
    requires step.Init? || step.Destroy? ==> t != step.token
    ensures t in s'.streams && s'.streams[t] == s.streams[t]
  {
    hide D.MakeHandle, SC.Validate, D.HandleToId;
  }

  /** In every run, a callback on a Ready stream reaches its client, at any moment; one
      on a stream that is being initialized is ignored. */
  lemma CallbacksReachReadyStreams(steps: seq<Step>, s: Sys, t: nat)
    requires Run(Start, steps) == Some(s) && s.panic.None? && t in s.streams
    ensures var s' := Apply(s, Callback(t));
            if IsReady(s.streams[t]) then s' == Some(s.(forwarded := s.forwarded + [s.streams[t].birth]))
            else s'.Some? ==> s' == Some(s)
    ensures IsOpening(s.streams[t], true) || s.stage == InBackend(t) ==> Apply(s, Callback(t)) == Some(s)
  {
    hide Run;
    StartInv();
    RunKeeps(Start, steps, s);
    hide NeverMissing, PipesOk, SC.Validate;
  }

  // The pipes that clients were told of.
  function PipesTold(replies: seq<Reply>): seq<nat> {
    if replies == [] then []
    else PipesTold(replies[..|replies| - 1]) +
         if replies[|replies| - 1].Initialized? then [replies[|replies| - 1].pipe] else []
  }

  lemma OneMoreReply(replies: seq<Reply>, r: Reply)
    ensures PipesTold(replies + [r]) == PipesTold(replies) + if r.Initialized? then [r.pipe] else []
  {
    assert (replies + [r])[..|replies|] == replies;
  }

  // A pipe is handed out exactly with the reply that says so.
  lemma StepReplies(s: Sys, step: Step, s': Sys) returns (r: seq<Reply>)
    requires Apply(s, step) == Some(s')
    ensures s'.replies == s.replies + r && |r| <= 1
    ensures s'.handed == s.handed + if r != [] && r[0].Initialized? then [r[0].pipe] else []
  {
    hide D.MakeHandle, SC.Validate, D.HandleToId;
    r := if |s'.replies| > |s.replies| then [s'.replies[|s.replies|]] else [];
    assert s.replies + [] == s.replies && s.handed + [] == s.handed;
  }

  /** Over every run, the pipes handed out are those the replies speak of, in order. */
  lemma {:induction false} PipesAreTold(s: Sys, steps: seq<Step>, s': Sys)
    requires s.handed == PipesTold(s.replies) && Run(s, steps) == Some(s')
    ensures s'.handed == PipesTold(s'.replies)
    decreases |steps|
  {
    hide Apply;
    if steps != [] {
      var t := Apply(s, steps[0]).value;
      var r := StepReplies(s, steps[0], t);
      if r == [] {
        assert t.replies == s.replies && t.handed == s.handed;
      } else {
        assert r == [r[0]];
        OneMoreReply(s.replies, r[0]);
      }
      PipesAreTold(t, steps[1..], s');
    }
  }

  // One stream from creation to destruction.
  function Life(p: Params, key: nat): seq<Step> {
    [Create(p, key, true), Init(key), BackendReturns(true), FinishInit, Use(key), Init(key), Destroy(key)]
  }

  lemma RunStep(s: Sys, step: Step, t: Sys, rest: seq<Step>)
    requires Apply(s, step) == Some(t)
    ensures Run(s, [step] + rest) == Run(t, rest)
  {
    hide Apply;
    assert ([step] + rest)[1..] == rest;
  }

  // Creation and initialization, up to the backend's answer.
  lemma Opens(s: Sys, p: Params, key: nat, ok: bool, rest: seq<Step>)
    requires s.panic.None? && s.stage.Idle? && key !in s.streams && SC.Validate(p.config)
    requires p.inputDevice < |s.devices| && p.outputDevice < |s.devices|
    ensures var b := s.births;
            var t := s.(births := b + 1, replies := s.replies + [Created(key)],
                        streams := s.streams[key := ServerStream(b, false, Some(b), None, false)],
                            stage := InBackend(key));
            Run(s, [Create(p, key, true), Init(key), BackendReturns(ok)] + rest) == Run(AfterBackend(t, key, ok), rest)
  {
    hide SC.Validate, D.MakeHandle, AfterBackend;
    var b := s.births;
    var s1 := s.(births := b + 1, replies := s.replies + [Created(key)],
                 streams := s.streams[key := ServerStream(b, false, Some(b), Some(p), false)]);
    var s2 := s1.(streams := s.streams[key := ServerStream(b, false, Some(b), None, false)], stage := InBackend(key));
    var c := [Create(p, key, true), Init(key), BackendReturns(ok)] + rest;
    assert c == [Create(p, key, true)] + ([Init(key)] + ([BackendReturns(ok)] + rest));
    assert Apply(s, Create(p, key, true)) == Some(s1);
    RunStep(s, Create(p, key, true), s1, [Init(key)] + ([BackendReturns(ok)] + rest));
    assert s1.streams[key := s1.streams[key].(params := None)] == s2.streams;
    assert Apply(s1, Init(key)) == Some(s2);
    RunStep(s1, Init(key), s2, [BackendReturns(ok)] + rest);
    RunStep(s2, BackendReturns(ok), AfterBackend(s2, key, ok), rest);
  }

  // The rest of the life of a stream the backend has accepted.
  lemma Lives(s: Sys, key: nat)
    requires s.panic.None? && s.stage == Opened(key) && key in s.streams && IsOpening(s.streams[key], true)
    ensures var b := s.streams[key].birth;
            Run(s, [FinishInit] + ([Use(key)] + ([Init(key)] + ([Destroy(key)] + [])))) ==
            Some(s.(streams := s.streams - {key}, stage := Idle, handed := s.handed + [b],
                    replies := s.replies + [Initialized(b)] + [Used] + [Refused(AlreadyInitialized)] + [Destroyed]))
  {
    var b := s.streams[key].birth;
    var s1 := s.(streams := s.streams[key := ServerStream(b, true, None, None, true)], stage := Idle,
                 handed := s.handed + [b], replies := s.replies + [Initialized(b)]);
    var s2 := s1.(replies := s1.replies + [Used]);
    var s3 := s2.(replies := s2.replies + [Refused(AlreadyInitialized)]);
    var s4 := s3.(streams := s.streams - {key}, replies := s3.replies + [Destroyed]);
    assert s3.streams - {key} == s4.streams;
    assert Apply(s, FinishInit) == Some(s1);
    assert Apply(s1, Use(key)) == Some(s2);
    assert Apply(s2, Init(key)) == Some(s3);
    assert Apply(s3, Destroy(key)) == Some(s4);
    assert Run(s4, []) == Some(s4);
    hide Run, Apply;
    RunStep(s, FinishInit, s1, [Use(key)] + ([Init(key)] + ([Destroy(key)] + [])));
    RunStep(s1, Use(key), s2, [Init(key)] + ([Destroy(key)] + []));
    RunStep(s2, Init(key), s3, [Destroy(key)] + []);
    RunStep(s3, Destroy(key), s4, []);
  }

  /** The intended order works, a second init is refused and hands nothing out,
      and destruction leaves the slab as it was. */
  lemma LifeRoundTrip(s: Sys, p: Params, key: nat)
    requires s.panic.None? && s.stage.Idle? && key !in s.streams && SC.Validate(p.config)
    requires p.inputDevice < |s.devices| && p.outputDevice < |s.devices|
    ensures Run(s, Life(p, key)) ==
            Some(s.(births := s.births + 1, handed := s.handed + [s.births],
                    replies := s.replies +
                      [Created(key), Initialized(s.births), Used, Refused(AlreadyInitialized), Destroyed]))
  {
    hide Run, SC.Validate;
    var b := s.births;
    var rest := [FinishInit] + ([Use(key)] + ([Init(key)] + ([Destroy(key)] + [])));
    Opens(s, p, key, true, rest);
    assert Life(p, key) == [Create(p, key, true), Init(key), BackendReturns(true)] + rest;
    var t := s.(births := b + 1, replies := s.replies + [Created(key)],
                streams := s.streams[key := ServerStream(b, true, Some(b), None, false)], stage := Opened(key));
    assert s.streams[key := ServerStream(b, false, Some(b), None, false)]
                    [key := ServerStream(b, true, Some(b), None, false)] == t.streams;
    Lives(t, key);
    assert t.streams - {key} == s.streams;
    assert t.replies + [Initialized(b)] + [Used] + [Refused(AlreadyInitialized)] + [Destroyed] ==
           s.replies + [Created(key), Initialized(b), Used, Refused(AlreadyInitialized), Destroyed];
  }

  lemma RunNothing(s: Sys)
    ensures Run(s, []) == Some(s)
  {
  }

  // The backend refuses, and the client asks again.
  lemma Refusal(s: Sys, key: nat, st: ServerStream)
    requires s.panic.None? && key !in s.streams
    ensures Run(AfterBackend(s.(streams := s.streams[key := st], stage := InBackend(key)), key, false),
            [Init(key)] + []) ==
            Some(s.(stage := Idle, replies := s.replies + [Refused(Backend)] + [Refused(Invalid)]))
  {
    var t := s.(stage := Idle, replies := s.replies + [Refused(Backend)]);
    var u := s.(stage := Idle, replies := s.replies + [Refused(Backend)] + [Refused(Invalid)]);
    assert s.streams[key := st] - {key} == s.streams;
    assert AfterBackend(s.(streams := s.streams[key := st], stage := InBackend(key)), key, false) == t;
    assert Apply(t, Init(key)) == Some(u);
    hide Apply, AfterBackend, Run;
    RunStep(t, Init(key), u, []);
    RunNothing(u);
  }

  /** A backend that refuses the stream takes the slot with it: the client has to
      create a new one, and the pipe is gone with the old. */
  lemma BackendFailureRemoves(s: Sys, p: Params, key: nat)
    requires s.panic.None? && s.stage.Idle? && key !in s.streams && SC.Validate(p.config)
    requires p.inputDevice < |s.devices| && p.outputDevice < |s.devices|
    ensures Run(s, [Create(p, key, true), Init(key), BackendReturns(false), Init(key)]) ==
            Some(s.(births := s.births + 1, replies := s.replies + [Created(key), Refused(Backend), Refused(Invalid)]))
  {
    hide Run, SC.Validate, D.MakeHandle, AfterBackend;
    Opens(s, p, key, false, [Init(key)] + []);
    Refusal(s.(births := s.births + 1, replies := s.replies + [Created(key)]), key,
        ServerStream(s.births, false, Some(s.births), None, false));
    assert [Create(p, key, true), Init(key), BackendReturns(false), Init(key)] ==
           [Create(p, key, true), Init(key), BackendReturns(false)] + ([Init(key)] + []);
    assert s.replies + [Created(key)] + [Refused(Backend)] + [Refused(Invalid)] ==
           s.replies + [Created(key), Refused(Backend), Refused(Invalid)];
  }
}
