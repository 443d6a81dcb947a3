/** The intended life of a handle, as one run: from the server that makes it to the
    application that receives it and closes it. */
module HandlesDelivery {
  import opened Wire
  import opened Codec
  import opened Handles
  import opened HandlesFailedSend
  import HR = HandlesResults

  /** From any quiet state with nothing waiting, a message can be sent with a new handle;
      the application then owns exactly one descriptor more, open and standing for that
      handle, and closing it closes nothing else and nothing twice. */
  lemma HandleIsDelivered(sd: Serde<WireMsg>, s: Sys, body: Body, fd: Fd) returns (t: Sys, u: Sys)
    requires Sound(sd) && Quiet(s) && fd !in s.tx.used && sd.ser(Stripped(body)).Some?
    requires s.rx.inHandles == [] && s.rx.inbox == [] && s.rx.app == []
    requires Got(s.rx.taken, fd) !in s.rx.open
    ensures Run(sd, s, Exchange(sd, body, fd, false) + [AppTake]) == Some(t)
    ensures t.rx.app == [Got(s.rx.taken, fd)] && t.rx.open == s.rx.open + {Got(s.rx.taken, fd)} && t.rx.inbox == []
    ensures t.delivered == s.delivered + [Delivery(fd, fd)]
    ensures Run(sd, t, [AppClose]) == Some(u) && u.rx.app == [] && u.rx.open == s.rx.open
            && u.rx.badClose == t.rx.badClose
  {
    hide Exchange, Run, Front;
    var got := Got(s.rx.taken, fd);
    var e := ExchangeRuns(sd, s, body, fd, false);
    assert Front(s.rx.inHandles, [fd]) == fd by { FrontOfNothing(s.rx.inHandles, fd); }
    assert e.rx.inbox == [Msg(body, Some(Owned(got, false)))];
    hide Quiet;
    t := Takes(sd, e, got);
    RunTwo(sd, s, Exchange(sd, body, fd, false), [AppTake]);
    u := Closes(sd, t, got);
    assert s.rx.open + {got} - {got} == s.rx.open;
  }

  lemma FrontOfNothing(before: seq<Got>, fd: Fd)
    ensures before == [] ==> Front(before, [fd]) == fd
  {
  }

  lemma Takes(sd: Serde<WireMsg>, s: Sys, got: Got) returns (t: Sys)
    requires !s.panicked && !s.overLimit && |s.rx.inbox| == 1 && s.rx.app == []
    requires s.rx.inbox[0].slot == Some(Owned(got, false))
    ensures Run(sd, s, [AppTake]) == Some(t) && t == s.(rx := s.rx.(inbox := [], app := [got]))
  {
    t := s.(rx := s.rx.(inbox := [], app := [got]));
    assert [] + [got] == [got] && s.rx.inbox[1..] == [];
    assert Apply(sd, s, AppTake) == Some(t);
    hide Apply;
    assert [AppTake] == [AppTake] + [];
    RunStep(sd, s, AppTake, t, []);
    RunNothing(sd, t);
  }

  lemma Closes(sd: Serde<WireMsg>, s: Sys, got: Got) returns (t: Sys)
    requires !s.panicked && !s.overLimit && s.rx.app == [got] && got in s.rx.open
    ensures Run(sd, s, [AppClose]) == Some(t)
    ensures t.rx.app == [] && t.rx.open == s.rx.open - {got} && t.rx.badClose == s.rx.badClose
  {
    t := s.(rx := s.rx.(app := []).Close([got]));
    assert s.rx.app[1..] == [] && [got][1..] == [];
    assert Elems([got]) == {got};
    assert Apply(sd, s, AppClose) == Some(t);
    assert !ClosesTwice(s.rx.open, [got]);
    hide Apply;
    assert [AppClose] == [AppClose] + [];
    RunStep(sd, s, AppClose, t, []);
    RunNothing(sd, t);
  }

  /** Each end can be torn down whenever it is still there, and then has nothing open but
      what the application had taken. */
  lemma EndsCanGo(sd: Serde<WireMsg>, before: seq<Step>, s: Sys)
    requires Sound(sd) && Run(sd, Start, before) == Some(s) && !s.panicked && !s.overLimit
    ensures !s.tx.gone ==> var t := Apply(sd, s, DropSender); t.Some? && t.value.tx.gone && t.value.tx.open == {}
    ensures !s.rx.gone ==>
              var t := Apply(sd, s, DropReceiver); t.Some? && t.value.rx.gone && t.value.rx.open == Elems(s.rx.app)
  {
    hide SenderHeld, ClosesTwice, Elems, Run;
    if !s.tx.gone {
      var t := s.(tx := SenderDrops(s.tx));
      assert Apply(sd, s, DropSender) == Some(t);
      RunOneMore(sd, before, s, DropSender, t);
      HR.SenderOwnsOnceIff(sd, before + ([DropSender] + []), t);
    }
    if !s.rx.gone {
      var t := s.(rx := ReceiverDrops(s.rx));
      assert Apply(sd, s, DropReceiver) == Some(t);
      RunOneMore(sd, before, s, DropReceiver, t);
      HR.ReceiverOwnsOnce(sd, before + ([DropReceiver] + []), t);
    }
  }

  lemma RunOneMore(sd: Serde<WireMsg>, before: seq<Step>, s: Sys, step: Step, t: Sys)
    requires Run(sd, Start, before) == Some(s) && Apply(sd, s, step) == Some(t)
    ensures Run(sd, Start, before + ([step] + [])) == Some(t)
  {
    hide Apply;
    RunNothing(sd, t);
    hide Run;
    RunStep(sd, s, step, t, []);
    RunTwo(sd, Start, before, [step] + []);
  }
}
