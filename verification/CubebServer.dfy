/** The server object that owns the stream slab, with its methods updating slots
    in place (server/src/server.rs).  Each is proved against the state machine in
    StreamServer. */
module CubebServer {
  import opened Wire
  import SC = StreamConfig
  import D = Devices
  import opened StreamServer

  // process_stream_init as one call: no other request comes between its parts.
  function AfterWholeInit(s: Sys, token: nat, ok: bool): Sys {
    var s1 := AfterInit(s, token);
    if s1.stage == InBackend(token) && token in s1.streams then
      var s2 := AfterBackend(s1, token, ok);
      if ok then AfterFinish(s2, token) else s2
    else s1
  }

  function InitSteps(s: Sys, token: nat, ok: bool): seq<Step> {
    if AfterInit(s, token).stage != InBackend(token) then [Init(token)]
    else if ok then [Init(token), BackendReturns(true), FinishInit]
    else [Init(token), BackendReturns(false)]
  }

  /** One call of process_stream_init is a run of the machine. */
  lemma WholeInitIsRun(s: Sys, token: nat, ok: bool)
    requires s.panic.None? && s.stage.Idle?
    ensures Run(s, InitSteps(s, token, ok)) == Some(AfterWholeInit(s, token, ok))
  {
    hide D.HandleToId, SC.Validate, D.MakeHandle;
    var s1 := AfterInit(s, token);
    assert Apply(s, Init(token)) == Some(s1);
    if s1.stage == InBackend(token) {
      assert s1.panic.None? && token in s1.streams;
      hide AfterInit;
      var s2 := AfterBackend(s1, token, ok);
      assert Apply(s1, BackendReturns(ok)) == Some(s2);
      if ok {
        assert Apply(s2, FinishInit) == Some(AfterFinish(s2, token));
        hide Apply, AfterBackend, AfterFinish;
        RunNothing(AfterFinish(s2, token));
        RunStep(s2, FinishInit, AfterFinish(s2, token), []);
        RunStep(s1, BackendReturns(ok), s2, [FinishInit] + []);
        RunStep(s, Init(token), s1, [BackendReturns(ok)] + ([FinishInit] + []));
        assert [Init(token)] + ([BackendReturns(ok)] + ([FinishInit] + []))
               == [Init(token), BackendReturns(ok), FinishInit];
      } else {
        hide Apply, AfterBackend, AfterFinish;
        RunNothing(s2);
        RunStep(s1, BackendReturns(ok), s2, []);
        RunStep(s, Init(token), s1, [BackendReturns(ok)] + []);
        assert [Init(token)] + ([BackendReturns(ok)] + []) == [Init(token), BackendReturns(ok)];
      }
    } else {
      hide Apply, AfterInit;
      RunNothing(s1);
      RunStep(s, Init(token), s1, []);
      assert [Init(token)] + [] == [Init(token)];
    }
  }

  class CubebServer {
    var streams: map<nat, ServerStream>
    var devices: seq<nat>
    var panic: Option<Panic>
    var births: nat
    ghost var handed: seq<nat>
    ghost var forwarded: seq<nat>
    ghost var replies: seq<Reply>

    // The machine state between two requests.
    ghost function State(): Sys
      reads this
    {
      Sys(streams, devices, Idle, births, handed, forwarded, replies, panic)
    }

    constructor ()
      ensures State() == Start
    {
      streams, devices, panic, births := map[], [0], None, 0;
      handed, forwarded, replies := [], [], [];
    }

    method StreamCreate(p: Params, key: nat, resources: bool) returns (reply: Reply)
      requires key !in streams
      modifies this
      ensures State() == AfterCreate(old(State()), p, key, resources) && replies == old(replies) + [reply]
    {
      if !SC.Validate(p.config) {
        reply := Refused(Invalid);
      } else if !resources {
        reply := Refused(Resources);
      } else {
        streams := streams[key := ServerStream(births, false, Some(births), Some(p), false)];
        births := births + 1;
        reply := Created(key);
      }
      replies := replies + [reply];
    }

    // The parameters are taken before the devices are looked up.
    method StreamInit(token: nat, ok: bool) returns (reply: Option<Reply>)
      requires panic.None?
      modifies this
      ensures State() == AfterWholeInit(old(State()), token, ok)
      ensures panic.None? ==> reply.Some? && replies == old(replies) + [reply.value]
    {
      if token !in streams {
        replies := replies + [Refused(Invalid)];
        return Some(Refused(Invalid));
      }
      var st := streams[token];
      if st.hasStream {
        replies := replies + [Refused(AlreadyInitialized)];
        return Some(Refused(AlreadyInitialized));
      }
      if st.params.None? {
        replies := replies + [Refused(MissingParams)];
        return Some(Refused(MissingParams));
      }
      var p := st.params.value;
      streams := streams[token := st.(params := None)];
      if p.inputDevice >= |devices| || p.outputDevice >= |devices| {
        panic := Some(UnknownDevice);
        return None;
      }
      if !ok {
        streams := streams - {token};
        replies := replies + [Refused(Backend)];
        return Some(Refused(Backend));
      }
      streams := streams[token := streams[token].(hasStream := true)];
      if st.clientPipe.None? {
        panic := Some(InvalidState);
        return None;
      }
      var pipe := st.clientPipe.value;
      streams := streams[token := streams[token].(clientPipe := None, connected := true)];
      handed := handed + [pipe];
      replies := replies + [Initialized(pipe)];
      return Some(Initialized(pipe));
    }

    method StreamUse(token: nat) returns (reply: Option<Reply>)
      requires panic.None?
      modifies this
      ensures State() == AfterUse(old(State()), token)
      ensures panic.None? ==> reply.Some? && replies == old(replies) + [reply.value]
    {
      if token !in streams {
        replies := replies + [Refused(Invalid)];
        return Some(Refused(Invalid));
      }
      if !streams[token].hasStream {
        panic := Some(UninitializedStream);
        return None;
      }
      replies := replies + [Used];
      return Some(Used);
    }

    method StreamDestroy(token: nat) returns (reply: Reply)
      modifies this
      ensures State() == AfterDestroy(old(State()), token) && replies == old(replies) + [reply]
    {
      if token in streams {
        streams := streams - {token};
        reply := Destroyed;
      } else {
        reply := Refused(Invalid);
      }
      replies := replies + [reply];
    }
  }
}
