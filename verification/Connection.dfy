/** Connection of audioipc/src/ipccore.rs: the read and write loops around the
    pipe and the readiness registration.

    The operating system is a script: each read or write takes its next answer,
    and an exhausted script answers WouldBlock. */
module Connection {
  import opened Wire
  import opened Codec
  import opened Driver

  type Token = nat

  // mio::Interest is never empty; "no interest" is None.
  datatype Interest = Interest(readable: bool, writable: bool)

  const READABLE := Interest(true, false)
  const WRITABLE := Interest(false, true)

  function Add(i: Interest, j: Interest): Interest {
    Interest(i.readable || j.readable, i.writable || j.writable)
  }

  function Remove(i: Interest, j: Interest): Option<Interest> {
    var r := Interest(i.readable && !j.readable, i.writable && !j.writable);
    if r.readable || r.writable then Some(r) else None
  }

  datatype Io = Ready(n: nat) | WouldBlock | Interrupted | Broken

  datatype IoResult = Bytes(n: nat) | Blocked | Retry | Error

  // Result<bool> of the connection's handlers: stay, finished, or an error.
  datatype Verdict = Keep | Done | Failed

  // A history has grown, and this is its last entry.
  ghost predicate Latest<T>(log: seq<T>, before: seq<T>, last: T) {
    before < log && log[|log| - 1] == last
  }

  // Since `before`, none of the answers was `bad`.
  ghost predicate Never<T>(log: seq<T>, before: seq<T>, bad: T) {
    before <= log && forall i :: |before| <= i < |log| ==> log[i] != bad
  }

  lemma LogGrows<T>(log: seq<T>, before: seq<T>, r: T, bad: T)
    requires before <= log
    ensures Latest(log + [r], before, r) && before <= log + [r]
    ensures Never(log, before, bad) && r != bad ==> Never(log + [r], before, bad)
    ensures Never(log, log, bad)
  {
  }

  // What the poll registry knows about each token; its calls may fail.
  class Registry {
    var interests: map<Token, Interest>
    var failures: seq<bool>
    ghost var answers: seq<bool>    // history: what each call answered

    constructor ()
      ensures interests == map[] && failures == []
    { interests, failures, answers := map[], [], []; }

    method Reregister(token: Token, i: Interest) returns (ok: bool)
      modifies this
      ensures interests == if ok then old(interests)[token := i] else old(interests)
      ensures answers == old(answers) + [ok] && ok == (old(failures) == [] || !old(failures)[0])
      ensures failures == if old(failures) == [] then [] else old(failures)[1..]
    {
      ok := failures == [] || !failures[0];
      if failures != [] { failures := failures[1..]; }
      if ok { interests := interests[token := i]; }
      answers := answers + [ok];
    }

    method Deregister(token: Token) returns (ok: bool)
      modifies this
      ensures interests == if ok then old(interests) - {token} else old(interests)
      ensures answers == old(answers) + [ok] && ok == (old(failures) == [] || !old(failures)[0])
      ensures failures == if old(failures) == [] then [] else old(failures)[1..]
    {
      ok := failures == [] || !failures[0];
      if failures != [] { failures := failures[1..]; }
      if ok { interests := interests - {token}; }
      answers := answers + [ok];
    }
  }

  // One end of the connection: what has arrived, what has been accepted for sending.
  class Pipe {
    var rx: seq<byte>
    var closed: bool
    var tx: seq<byte>
    var readScript: seq<Io>
    var writeScript: seq<Io>
    ghost var readLog: seq<IoResult>    // history: what each call answered
    ghost var writeLog: seq<IoResult>

    constructor (rx: seq<byte>, closed: bool, readScript: seq<Io>, writeScript: seq<Io>)
      ensures this.rx == rx && this.closed == closed && tx == [] && this.readScript == readScript
              && this.writeScript == writeScript
    {
      this.rx, this.closed, tx, this.readScript, this.writeScript := rx, closed, [], readScript, writeScript;
      readLog, writeLog := [], [];
    }

    method RecvMsg(buf: BytesMut) returns (r: IoResult)
      modifies this`rx, this`readScript, this`readLog, buf
      ensures readLog == old(readLog) + [r]
      ensures readScript == if old(readScript) == [] then [] else old(readScript)[1..]
      ensures old(readScript) != [] ==>
                && (r == Retry <==> old(readScript)[0] == Interrupted)
                && (r == Error <==> old(readScript)[0] == Broken)
                && (r == Bytes(0) <==> old(readScript)[0].Ready? && old(rx) == [] && closed)
                && (r.Bytes? && r.n > 0 <==> old(readScript)[0].Ready? && old(rx) != [])
                && (r.Bytes? && r.n > 0 ==> r.n == |old(rx)| || r.n == old(readScript)[0].n || r.n == 1)
      ensures r.Bytes? && r.n > 0 ==>
                r.n <= |old(rx)| && rx == old(rx)[r.n..] && buf.data == old(buf.data) + old(rx)[..r.n]
      ensures !(r.Bytes? && r.n > 0) ==> rx == old(rx) && buf.data == old(buf.data)
      ensures r == Bytes(0) ==> rx == [] && closed
      ensures |readScript| < |old(readScript)| || (r == Blocked && readScript == old(readScript))
    {
      r := Blocked;
      if readScript != [] {
        var io := readScript[0];
        readScript := readScript[1..];
        match io {
          case WouldBlock =>
          case Interrupted => r := Retry;
          case Broken => r := Error;
          case Ready(m) =>
            if rx != [] {
              var k := if m == 0 then 1 else if m <= |rx| then m else |rx|;
              buf.data := buf.data + rx[..k];
              rx := rx[k..];
              r := Bytes(k);
            } else if closed {
              r := Bytes(0);
            }
        }
      }
      readLog := readLog + [r];
    }

    method SendMsg(buf: BytesMut) returns (r: IoResult)
      requires buf.data != []   // assert!(!buf.buf.is_empty())
      modifies this`tx, this`writeScript, this`writeLog, buf
      ensures writeLog == old(writeLog) + [r]
      ensures writeScript == if old(writeScript) == [] then [] else old(writeScript)[1..]
      ensures old(writeScript) != [] ==>
                && (r == Retry <==> old(writeScript)[0] == Interrupted)
                && (r == Error <==> old(writeScript)[0] == Broken)
                && (r.Bytes? <==> old(writeScript)[0].Ready?)
                && (r.Bytes? ==> r.n == old(writeScript)[0].n || r.n == |old(buf.data)| < old(writeScript)[0].n)
      ensures r.Bytes? ==>
                r.n <= |old(buf.data)| && tx == old(tx) + old(buf.data)[..r.n] && buf.data == old(buf.data)[r.n..]
      ensures !r.Bytes? ==> tx == old(tx) && buf.data == old(buf.data)
      ensures |writeScript| < |old(writeScript)| || (r == Blocked && writeScript == old(writeScript))
    {
      r := Blocked;
      if writeScript != [] {
        var io := writeScript[0];
        writeScript := writeScript[1..];
        match io {
          case WouldBlock =>
          case Interrupted => r := Retry;
          case Broken => r := Error;
          case Ready(m) =>
            var k := if m <= |buf.data| then m else |buf.data|;
            tx := tx + buf.data[..k];
            buf.data := buf.data[k..];
            r := Bytes(k);
        }
      }
      writeLog := writeLog + [r];
    }
  }

  lemma IdleReceivesNothing<H(!new), In, Out>(f: Handler<H, In, Out>, dec: Serde<In>, r: Receiver<H>)
    requires Idle(r.state, r.buf)
    ensures Receive(f, dec, r, []) == Some(r)
  {
    assert r.buf + [] == r.buf;
  }

  // One more piece: as if the driver had all of it in its buffer.
  lemma PieceJoins<H(!new), In, Out>(f: Handler<H, In, Out>, dec: Serde<In>, start: Receiver<H>, taken: seq<byte>,
      piece: seq<byte>, at: Receiver<H>)
    requires Receive(f, dec, start, taken) == Some(at)
    ensures var whole := at.(buf := at.buf + piece);
            && Receive(f, dec, start, taken + piece) == Receive(f, dec, whole, [])
            && AfterReceiving(f, dec, start, taken + piece) == AfterReceiving(f, dec, whole, [])
  {
    ReceiveSplit(f, dec, start, taken, piece);
    AfterSplit(f, dec, start, taken, piece);
    assert (at.buf + piece) + [] == at.buf + piece;
    hide ConsumeAll, Consumed, DecodeAll;
  }

  lemma ReceiveLeavesIdle<H(!new), In, Out>(f: Handler<H, In, Out>, dec: Serde<In>, r: Receiver<H>, bs: seq<byte>)
    requires Receive(f, dec, r, bs).Some?
    ensures Idle(Receive(f, dec, r, bs).value.state, Receive(f, dec, r, bs).value.buf)
  {
    DecodeAllIdle(dec, r.state, r.buf + bs);
  }

  class Connection<!H(!new), !In, !Out> {
    const io: Pipe
    const token: Token
    const inbound: BytesMut
    const outbound: BytesMut
    const driver: FramedDriver<H, In, Out>
    var interest: Option<Interest>

    constructor (io: Pipe, token: Token, driver: FramedDriver<H, In, Out>)
      ensures this.io == io && this.token == token && this.driver == driver && interest == Some(READABLE)
      ensures fresh(inbound) && fresh(outbound) && inbound != outbound && inbound.data == [] && outbound.data == []
    {
      this.io, this.token, this.driver, interest := io, token, driver, Some(READABLE);
      var i := new BytesMut();
      var o := new BytesMut();
      inbound, outbound := i, o;
    }

    // Connection::new: register for reading, then build the connection.
    static method New(io: Pipe, token: Token, driver: FramedDriver<H, In, Out>, registry: Registry)
        returns (c: Option<Connection<H, In, Out>>)
      requires driver.f.Valid() && driver.codec.state == Length
      modifies registry
      ensures c.Some? ==> fresh(c.value) && c.value.Valid() && c.value.Settled(registry)
      ensures c.Some? ==> c.value.token == token && c.value.io == io && c.value.driver == driver
      ensures c.None? ==> registry.interests == old(registry.interests)
      ensures c.None? ==> Latest(registry.answers, old(registry.answers), false)
    {
      var ok := registry.Reregister(token, READABLE);
      if !ok { return None; }
      var conn := new Connection(io, token, driver);
      c := Some(conn);
    }

    // Nothing is shared between the two directions, and no frame is waiting.
    ghost predicate Valid()
      reads this, inbound, driver.codec`state
    {
      inbound != outbound && driver.f.Valid() && Idle(driver.codec.state, inbound.data)
    }

    // Registered as the connection believes, and at least for reading.
    ghost predicate Registered(registry: Registry)
      reads this, registry
    {
      && interest.Some? && interest.value.readable
      && token in registry.interests && registry.interests[token] == interest.value
    }

    // The invariant between events: WRITABLE exactly while output is queued.
    ghost predicate Settled(registry: Registry)
      reads this, registry, outbound
    {
      Registered(registry) && (interest.value.writable <==> outbound.data != [])
    }

    ghost function Receiving(): Receiver<H>
      reads driver, driver.codec`state, inbound
    {
      Receiver(driver.h, driver.codec.state, inbound.data)
    }

    // The handler and all bytes as they are when `taken` has been received, what the
    // handler then produced has been flushed, and, unless that failed, some has been sent.
    ghost predicate FlushedTo(start: Receiver<H>, taken: seq<byte>, tx: seq<byte>, queued: seq<byte>)
      reads driver, driver.codec, io, inbound, outbound
    {
      var got := Receive(driver.f, driver.codec.dec, start, taken);
      got.Some? &&
      var out := Flush(driver.f, driver.codec.enc, got.value.h);
      && driver.h == out.h && driver.codec.state == got.value.state && inbound.data == got.value.buf
      && io.tx + outbound.data == tx + queued + out.bytes && tx <= io.tx && (!out.ok ==> io.tx == tx)
    }

    // No frame was bad, no message refused, and everything produced could be encoded.
    ghost predicate AllWent(start: Receiver<H>, taken: seq<byte>)
      reads driver, driver.codec
    {
      var got := Receive(driver.f, driver.codec.dec, start, taken);
      got.Some? && Flush(driver.f, driver.codec.enc, got.value.h).ok
    }

    method UpdateRegistration(registry: Registry, next: Option<Interest>) returns (ok: bool)
      requires Registered(registry)
      modifies this`interest, registry
      ensures interest == next
      ensures ok && next.Some? ==> registry.interests == old(registry.interests)[token := next.value]
      ensures ok && next.None? ==> token !in registry.interests
      ensures old(registry.answers) <= registry.answers
      ensures if ok then Never(registry.answers, old(registry.answers), false)
              else Latest(registry.answers, old(registry.answers), false)
    {
      ok := true;
      if next != interest {
        interest := next;
        if next.Some? {
          ok := registry.Reregister(token, next.value);
        } else {
          ok := registry.Deregister(token);
        }
      }
    }

    // The pipe has broken, or the registry has refused a call.
    ghost predicate SendFailed(registry: Registry, writes: seq<IoResult>, answers: seq<bool>)
      reads io, registry
    {
      Latest(io.writeLog, writes, Error) || Latest(registry.answers, answers, false)
    }

    // Write until the buffer is empty or the pipe would block, and ask for
    // WRITABLE exactly in the second case: an edge-triggered event will come.
    // No byte is lost, duplicated or reordered.
    method SendOutbound(registry: Registry) returns (v: Verdict)
      requires Registered(registry)
      modifies this`interest, registry, io`tx, io`writeScript, io`writeLog, outbound
      ensures io.tx + outbound.data == old(io.tx) + old(outbound.data) && old(io.tx) <= io.tx
      ensures old(io.writeLog) <= io.writeLog && old(registry.answers) <= registry.answers
      ensures v == Keep ==> Settled(registry)
      ensures v == Keep && outbound.data != [] ==> Latest(io.writeLog, old(io.writeLog), Blocked)
      ensures v == Done ==> Latest(io.writeLog, old(io.writeLog), Bytes(0))
      ensures v == Failed ==> SendFailed(registry, old(io.writeLog), old(registry.answers))
      ensures v != Failed ==>
                Never(io.writeLog, old(io.writeLog), Error) && Never(registry.answers, old(registry.answers), false)
    {
      var blocked := false;
      LogGrows(io.writeLog, io.writeLog, Retry, Error);
      LogGrows(registry.answers, registry.answers, true, false);
      hide Never, Latest;
      while outbound.data != [] && !blocked
        invariant Never(io.writeLog, old(io.writeLog), Error) && Never(registry.answers, old(registry.answers), false)
        invariant io.tx + outbound.data == old(io.tx) + old(outbound.data) && old(io.tx) <= io.tx
        invariant Registered(registry) && old(io.writeLog) <= io.writeLog && old(registry.answers) <= registry.answers
        invariant blocked ==> interest.value.writable && Latest(io.writeLog, old(io.writeLog), Blocked)
        decreases |io.writeScript|, if blocked then 0 else 1
      {
        ghost var tx, buf, log := io.tx, outbound.data, io.writeLog;
        var r := io.SendMsg(outbound);
        LogGrows(log, old(io.writeLog), r, Error);
        match r {
          case Bytes(n) =>
            assert tx + buf == (tx + buf[..n]) + buf[n..];
            if n == 0 { return Done; }
          case Blocked =>
            var ok := UpdateRegistration(registry, Some(Add(interest.value, WRITABLE)));
            if !ok { return Failed; }
            blocked := true;
          case Retry =>
          case Error => return Failed;
        }
      }
      if outbound.data == [] {
        var ok := UpdateRegistration(registry, Remove(interest.value, WRITABLE));
        if !ok { return Failed; }
      }
      v := Keep;
    }

    // Read and process until the pipe has no more.  Whatever the pieces, the
    // effect is that of receiving all the bytes taken at once.
    method RecvInbound() returns (v: Verdict, ghost taken: seq<byte>)
      requires Valid()
      modifies io`rx, io`readScript, io`readLog, inbound, driver`h, driver.codec`state
      ensures old(io.rx) == taken + io.rx
      ensures v != Failed ==>
                Valid() && Receive(driver.f, driver.codec.dec, old(Receiving()), taken) == Some(Receiving())
      ensures v == Keep ==> Latest(io.readLog, old(io.readLog), Blocked)
      ensures v == Done ==> io.rx == [] && io.closed && Latest(io.readLog, old(io.readLog), Bytes(0))
      ensures v == Failed ==>
                || Latest(io.readLog, old(io.readLog), Error)
                || Receive(driver.f, driver.codec.dec, old(Receiving()), taken).None?
      ensures v != Failed ==> Never(io.readLog, old(io.readLog), Error)
      ensures driver.h == AfterReceiving(driver.f, driver.codec.dec, old(Receiving()), taken)
    {
      taken := [];
      ghost var f, dec, start := driver.f, driver.codec.dec, Receiving();
      LogGrows(io.readLog, io.readLog, Retry, Error);
      hide Receive, AfterReceiving, Idle, Never, Latest;
      IdleReceivesNothing(f, dec, start);
      while true
        invariant Valid()
        invariant old(io.rx) == taken + io.rx
        invariant Receive(f, dec, start, taken) == Some(Receiving())
        invariant old(io.readLog) <= io.readLog && Never(io.readLog, old(io.readLog), Error)
        decreases |io.readScript|
      {
        ghost var rx, at, log := io.rx, Receiving(), io.readLog;
        ReceiveLeaves(f, dec, start, taken);
        var r := io.RecvMsg(inbound);
        LogGrows(log, old(io.readLog), r, Error);
        match r {
          case Bytes(n) =>
            if n == 0 { return Done, taken; }
            Joins(taken, rx[..n], rx[n..]);
            PieceJoins(f, dec, start, taken, rx[..n], at);
            taken := taken + rx[..n];
            var ok := driver.ProcessInbound(inbound);
            if !ok { return Failed, taken; }
            ReceiveLeavesIdle(f, dec, start, taken);
          case Blocked => return Keep, taken;
          case Retry =>
          case Error => return Failed, taken;
        }
      }
    }

    /** A readiness event.  If the connection is kept, it is registered READABLE,
        and WRITABLE exactly while output is queued; every byte taken from the
        pipe was decoded and consumed as one stream, and the pipe has been
        offered exactly the frames the handler then produced, behind what was
        queued before.  It reads and writes until the pipe would block, so the
        next readiness event is not missed.  An event fails only for a reason: the
        pipe or the registry did, or a message was bad, refused or too large.  It has
        then stopped while receiving, with nothing produced, or later, with what a
        flush leaves. */
    method HandleEvent(registry: Registry, readable: bool) returns (v: Verdict, ghost taken: seq<byte>)
      requires Valid() && Settled(registry)
      modifies this`interest, registry, io`rx, io`readScript, io`readLog, io`tx, io`writeScript, io`writeLog,
               inbound, outbound, driver`h, driver.codec`state, driver.codec`encodeBuf
      ensures v == Keep ==> Valid() && Settled(registry)
      ensures v == Keep && readable ==>
                || Latest(io.readLog, old(io.readLog), Blocked)
                || (Latest(io.readLog, old(io.readLog), Bytes(0)) && io.rx == [] && io.closed && outbound.data != [])
      ensures v == Keep && outbound.data != [] ==> Latest(io.writeLog, old(io.writeLog), Blocked)
      ensures v == Done ==>
                || Latest(io.writeLog, old(io.writeLog), Bytes(0))
                || (&& readable && Latest(io.readLog, old(io.readLog), Bytes(0))
                    && io.rx == [] && io.closed && outbound.data == [])
      ensures v == Done && !Latest(io.writeLog, old(io.writeLog), Bytes(0)) ==>
                interest == None && token !in registry.interests
      ensures old(io.rx) == taken + io.rx && (!readable ==> taken == [])
      ensures v != Failed ==>
                AllWent(old(Receiving()), taken) && FlushedTo(old(Receiving()), taken, old(io.tx), old(outbound.data))
      ensures v == Failed ==>
                || (&& driver.h == AfterReceiving(driver.f, driver.codec.dec, old(Receiving()), taken)
                    && io.tx == old(io.tx) && outbound.data == old(outbound.data))
                || FlushedTo(old(Receiving()), taken, old(io.tx), old(outbound.data))
      ensures v == Failed ==>
                || (readable && Latest(io.readLog, old(io.readLog), Error))
                || !AllWent(old(Receiving()), taken)
                || SendFailed(registry, old(io.writeLog), old(registry.answers))
      ensures v != Failed ==>
                && Never(io.readLog, old(io.readLog), Error) && Never(io.writeLog, old(io.writeLog), Error)
                && Never(registry.answers, old(registry.answers), false)
    {
      var done := Keep;
      taken := [];
      ghost var f, dec, start := driver.f, driver.codec.dec, Receiving();
      hide Receive, Flush, Idle;
      IdleReceivesNothing(f, dec, start);
      if readable {
        done, taken := RecvInbound();
        if done == Failed { return Failed, taken; }
      }
      assert Receive(f, dec, start, taken) == Some(Receiving());
      ghost var bytes := Flush(f, driver.codec.enc, driver.h).bytes;
      var ok := driver.FlushOutbound(outbound);
      Joins(old(io.tx), old(outbound.data), bytes);
      assert FlushedTo(start, taken, old(io.tx), old(outbound.data));
      if !ok { return Failed, taken; }
      v := SendOutbound(registry);
      if v != Keep { return; }
      if done == Done && outbound.data == [] {
        var cleared := UpdateRegistration(registry, Remove(interest.value, READABLE));
        if !cleared { return Failed, taken; }
        v := Done;
      }
    }

    /** A wakeup: as for an event, but nothing is read and the connection is
        finished only if the pipe reports EOF on sending. */
    method HandleWake(registry: Registry) returns (v: Verdict)
      requires Valid() && Settled(registry)
      modifies this`interest, registry, io`tx, io`writeScript, io`writeLog, outbound, driver`h, driver.codec`encodeBuf
      ensures v == Keep ==> Valid() && Settled(registry)
      ensures v == Keep && outbound.data != [] ==> Latest(io.writeLog, old(io.writeLog), Blocked)
      ensures v == Done ==> Latest(io.writeLog, old(io.writeLog), Bytes(0))
      ensures v == Failed ==>
                !AllWent(old(Receiving()), []) || SendFailed(registry, old(io.writeLog), old(registry.answers))
      ensures v != Failed ==>
                Never(io.writeLog, old(io.writeLog), Error) && Never(registry.answers, old(registry.answers), false)
      ensures FlushedTo(old(Receiving()), [], old(io.tx), old(outbound.data))
              && (v != Failed ==> AllWent(old(Receiving()), []))
    {
      hide Receive, Flush, Idle;
      IdleReceivesNothing(driver.f, driver.codec.dec, Receiving());
      ghost var bytes := Flush(driver.f, driver.codec.enc, driver.h).bytes;
      var ok := driver.FlushOutbound(outbound);
      Joins(old(io.tx), old(outbound.data), bytes);
      if !ok { return Failed; }
      v := SendOutbound(registry);
    }

    // The pipe itself is closed by the caller; registration failures are only logged.
    method Shutdown(registry: Registry) returns (ok: bool)
      modifies this`interest, registry
      ensures interest == None
      ensures ok ==> registry.interests == old(registry.interests) - {token}
    {
      interest := None;
      ok := registry.Deregister(token);
    }
  }
}
