/** Whole readiness events and wakeups of a connection: what HandleEvent and
    HandleWake do to a client's or a server's connection, whether they succeed or fail,
    is a run of the byte machine, so its guarantees hold for the objects. */
module RpcEvents {
  import opened Wire
  import opened Codec
  import L = Link
  import R = Rpc
  import B = RpcBytes
  import opened Driver
  import opened RpcHandlers
  import opened RpcDriver
  import opened Connection

  lemma RunSnoc(w: B.Setup, b: B.ByteSys, steps: seq<B.ByteStep>, b1: B.ByteSys, last: B.ByteStep, b2: B.ByteSys)
    requires B.Run(w, b, steps) == Some(b1) && B.Apply(w, b1, last) == Some(b2)
    ensures B.Run(w, b, steps + [last]) == Some(b2)
  {
    assert B.Run(w, b2, []) == Some(b2);
    assert [last] == [last] + [];
    hide B.Apply, B.Run;
    B.ByteRunAppend(w, b, steps, [last]);
    B.ByteRunCons(w, b1, last, b2, []);
  }

  // How much of `queued` has gone when `sent` has grown to `sent'` and `left` is left.
  ghost function Sent(sent: seq<byte>, queued: seq<byte>, sent': seq<byte>, left: seq<byte>): nat
    requires sent' + left == sent + queued && sent <= sent'
  {
    |sent'| - |sent|
  }

  lemma SentParts(sent: seq<byte>, queued: seq<byte>, sent': seq<byte>, left: seq<byte>)
    requires sent' + left == sent + queued && sent <= sent'
    ensures var n := Sent(sent, queued, sent', left);
            n <= |queued| && sent' == sent + queued[..n] && left == queued[n..]
  {
    var n := |sent'| - |sent|;
    assert |sent'| + |left| == |sent| + |queued|;
    var all := sent + queued;
    assert sent' == all[..|sent'|] && left == all[|sent'|..];
    assert all[..|sent'|] == sent + queued[..n] && all[|sent'|..] == queued[n..];
  }

  // --- The client ---------------------------------------------------------------------------------------

  // The client after it has received `taken`, flushed, and sent `n` bytes.
  function ClientAfter(b: B.ByteSys, taken: seq<byte>, got: Receiver<R.Core>, out: Sender<R.Core>, n: nat): B.ByteSys
    requires |taken| <= |b.down.pipe| && n <= |b.up.outbound + out.bytes|
  {
    var queued := b.up.outbound + out.bytes;
    b.(core := out.h,
       down := b.down.(pipe := b.down.pipe[|taken|..], inbound := got.buf, state := got.state),
       up := b.up.(outbound := queued[n..], pipe := b.up.pipe + queued[..n]))
  }

  // The bytes taken, and what the client makes of them.
  lemma ClientReceives(w: B.Setup, b: B.ByteSys, taken: seq<byte>) returns (steps: seq<B.ByteStep>, b': B.ByteSys)
    requires b.core.handlerAlive && taken <= b.down.pipe
    ensures B.Run(w, b, steps) == Some(b')
    ensures var start := Receiver(b.core, b.down.state, b.down.inbound);
            var got, at := Receive(Client(), w.resps, start, taken), b.(down := L.Recv(b.down, |taken|));
            if got.Some? then b' == ClientReceived(at, got.value) && b'.core.handlerAlive
            else ClientGone(at.(core := AfterReceiving(Client(), w.resps, start, taken)), b')
  {
    var b1 := b.(down := L.Recv(b.down, |taken|));
    assert B.Apply(w, b, B.ClientRecv(|taken|)) == Some(b1) && b.down.pipe[..|taken|] == taken;
    assert b.down.inbound + taken + [] == b.down.inbound + taken;
    var ds;
    ds, b' := ClientInboundIsRun(w, b1);
    hide B.Apply, B.Run;
    B.ByteRunCons(w, b, B.ClientRecv(|taken|), b1, ds);
    steps := [B.ClientRecv(|taken|)] + ds;
  }

  // An event whose bytes are received, seen as what is flushed and sent.
  lemma ClientAnswers(w: B.Setup, b: B.ByteSys, out: Sender<R.Core>, n: nat)
      returns (steps: seq<B.ByteStep>, b': B.ByteSys)
    requires w.Valid() && b.core.handlerAlive && Flush(Client(), w.reqs, b.core) == out
    requires n <= |b.up.outbound + out.bytes| && (!out.ok ==> n == 0)
    ensures B.Run(w, b, steps) == Some(b')
    ensures var u := ClientFlushed(b, out);
            if out.ok then b' == u.(up := L.Send(u.up, n)) && b'.core.handlerAlive else ClientGone(u, b')
  {
    var es;
    es, b' := ClientFlushIsRun(w, b);
    steps := es;
    if out.ok {
      var b1 := b'.(up := L.Send(b'.up, n));
      assert B.Apply(w, b', B.ClientSend(n)) == Some(b1);
      hide B.Apply, B.Run, Flush;
      RunSnoc(w, b, es, b', B.ClientSend(n), b1);
      steps, b' := es + [B.ClientSend(n)], b1;
    }
  }

  /** An event on the client's connection, seen as bytes taken, messages handled and
      produced, and bytes sent, is a run of the byte machine; when something cannot be
      encoded, or no proxy is left, the run ends with the handler dropped. */
  lemma ClientEventIsRun(w: B.Setup, b: B.ByteSys, taken: seq<byte>, got: Receiver<R.Core>, out: Sender<R.Core>, n: nat)
    returns (steps: seq<B.ByteStep>, b': B.ByteSys)
    requires w.Valid() && b.core.handlerAlive && taken <= b.down.pipe
    requires Receive(Client(), w.resps, Receiver(b.core, b.down.state, b.down.inbound), taken) == Some(got)
    requires Flush(Client(), w.reqs, got.h) == out && n <= |b.up.outbound + out.bytes| && (!out.ok ==> n == 0)
    ensures B.Run(w, b, steps) == Some(b')
    ensures var u := ClientAfter(b, taken, got, out, n);
            if out.ok then b' == u && b'.core.handlerAlive else ClientGone(u, b')
  {
    hide Receive, Flush;
    var xs, b1 := ClientReceives(w, b, taken);
    var ys;
    ys, b' := ClientAnswers(w, b1, out, n);
    hide B.Run;
    B.ByteRunAppend(w, b, xs, ys);
    steps := xs + ys;
    if n == 0 {
      Joins(b.up.pipe, [], []);
    }
  }

  // A run after which the connection is removed.
  lemma ClientDrops(w: B.Setup, b: B.ByteSys, steps: seq<B.ByteStep>, b1: B.ByteSys)
      returns (steps': seq<B.ByteStep>, b': B.ByteSys)
    requires B.Run(w, b, steps) == Some(b1) && b1.core.handlerAlive
    ensures B.Run(w, b, steps') == Some(b') && ClientGone(b1, b')
  {
    b' := b1.(core := R.DropHandler(b1.core));
    assert B.Apply(w, b1, B.Local(R.ClientAbort)) == Some(b');
    hide B.Apply, B.Run;
    RunSnoc(w, b, steps, b1, B.Local(R.ClientAbort), b');
    steps' := steps + [B.Local(R.ClientAbort)];
  }

  // An event that fails while receiving.
  lemma ClientStops(w: B.Setup, b: B.ByteSys, taken: seq<byte>) returns (steps: seq<B.ByteStep>, b': B.ByteSys)
    requires b.core.handlerAlive && taken <= b.down.pipe
    ensures B.Run(w, b, steps) == Some(b')
    ensures var start := Receiver(b.core, b.down.state, b.down.inbound);
            ClientGone(b.(core := AfterReceiving(Client(), w.resps, start, taken), down := L.Recv(b.down, |taken|)), b')
  {
    var start := Receiver(b.core, b.down.state, b.down.inbound);
    hide Receive, AfterReceiving, B.Run;
    steps, b' := ClientReceives(w, b, taken);
    if Receive(Client(), w.resps, start, taken).Some? {
      ReceiveLeaves(Client(), w.resps, start, taken);
      steps, b' := ClientDrops(w, b, steps, b');
    }
  }

  // The connection of the client in machine state `b`; `read` is what the peer has
  // already taken of the bytes sent.
  ghost predicate ClientShows(c: Connection<R.Core, R.Resp, R.Req>, w: B.Setup, b: B.ByteSys, read: seq<byte>)
    reads c, c.io, c.inbound, c.outbound, c.driver, c.driver.codec
  {
    && c.driver.f == Client() && c.driver.codec.enc == w.reqs && c.driver.codec.dec == w.resps
    && c.driver.h == b.core && c.driver.codec.state == b.down.state
    && c.inbound.data == b.down.inbound && c.io.rx == b.down.pipe
    && c.outbound.data == b.up.outbound && c.io.tx == read + b.up.pipe
  }

  // The connection of the client when it has failed, and is removed in machine state
  // `b`: the bytes are where the machine has them, and dropping the handler as it
  // stands gives the machine's.
  ghost predicate ClientFailed(c: Connection<R.Core, R.Resp, R.Req>, b: B.ByteSys, read: seq<byte>)
    reads c, c.io, c.outbound, c.driver
  {
    && c.outbound.data == b.up.outbound && c.io.tx == read + b.up.pipe && c.io.rx == b.down.pipe
    && ClientGone(b.(core := c.driver.h), b)
  }

  // What a flush left and some bytes sent come to; `tx0` was sent before.
  lemma ClientFlushes(w: B.Setup, b: B.ByteSys, taken: seq<byte>, tx0: seq<byte>, tx: seq<byte>, left: seq<byte>,
      failed: bool)
    returns (steps: seq<B.ByteStep>, b': B.ByteSys)
    requires w.Valid() && b.core.handlerAlive && taken <= b.down.pipe
    requires Receive(Client(), w.resps, Receiver(b.core, b.down.state, b.down.inbound), taken).Some?
    requires var got := Receive(Client(), w.resps, Receiver(b.core, b.down.state, b.down.inbound), taken).value;
             var out := Flush(Client(), w.reqs, got.h);
             && tx + left == tx0 + b.up.pipe + b.up.outbound + out.bytes && tx0 + b.up.pipe <= tx
             && (!out.ok ==> failed && tx == tx0 + b.up.pipe)
    ensures B.Run(w, b, steps) == Some(b')
    ensures var got := Receive(Client(), w.resps, Receiver(b.core, b.down.state, b.down.inbound), taken).value;
            var out := Flush(Client(), w.reqs, got.h);
            && b'.up.outbound == left && tx == tx0 + b'.up.pipe && b'.down.pipe == b.down.pipe[|taken|..]
            && (if failed then ClientGone(b'.(core := out.h), b') else b'.core == out.h && b'.core.handlerAlive)
            && (!failed ==> b'.down.inbound == got.buf && b'.down.state == got.state)
  {
    hide Receive, Flush, B.Run;
    var got := Receive(Client(), w.resps, Receiver(b.core, b.down.state, b.down.inbound), taken).value;
    var out := Flush(Client(), w.reqs, got.h);
    var queued := b.up.outbound + out.bytes;
    Joins(tx0 + b.up.pipe, b.up.outbound, out.bytes);
    var n := Sent(tx0 + b.up.pipe, queued, tx, left);
    SentParts(tx0 + b.up.pipe, queued, tx, left);
    Joins(tx0, b.up.pipe, queued[..n]);
    steps, b' := ClientEventIsRun(w, b, taken, got, out, n);
    if failed && out.ok {
      steps, b' := ClientDrops(w, b, steps, b');
    }
  }

  // handle_event on the connection is a run of the machine; when it fails, the run ends
  // with the connection removed, the handler having done what it did before.
  method ClientEvent(c: Connection<R.Core, R.Resp, R.Req>, registry: Registry, readable: bool,
      ghost w: B.Setup, ghost b: B.ByteSys, ghost read: seq<byte>)
    returns (v: Verdict, ghost steps: seq<B.ByteStep>, ghost b': B.ByteSys)
    requires w.Valid() && ClientShows(c, w, b, read) && b.core.handlerAlive && c.Valid() && c.Settled(registry)
    modifies c`interest, registry, c.io`rx, c.io`readScript, c.io`readLog, c.io`tx, c.io`writeScript, c.io`writeLog,
             c.inbound, c.outbound, c.driver`h, c.driver.codec`state, c.driver.codec`encodeBuf
    ensures B.Run(w, b, steps) == Some(b')
    ensures if v == Failed then ClientFailed(c, b', read) else ClientShows(c, w, b', read) && b'.core.handlerAlive
    ensures v == Keep ==> c.Valid() && c.Settled(registry)
  {
    hide Receive, Flush, AfterReceiving, B.Run, ClientGone;
    ghost var start, tx := c.Receiving(), c.io.tx;
    ghost var taken: seq<byte>;
    v, taken := c.HandleEvent(registry, readable);
    assert b.down.pipe[|taken|..] == c.io.rx;
    if c.FlushedTo(start, taken, tx, b.up.outbound) {
      steps, b' := ClientFlushes(w, b, taken, read, c.io.tx, c.outbound.data, v == Failed);
    } else {
      steps, b' := ClientStops(w, b, taken);
      ClientGoneFrame(b.(core := c.driver.h, down := L.Recv(b.down, |taken|)), b'.(core := c.driver.h), b');
    }
  }

  lemma ClientGoneFrame(b: B.ByteSys, b1: B.ByteSys, b': B.ByteSys)
    requires ClientGone(b, b') && b1 == b'.(core := b.core)
    ensures ClientGone(b1, b') && b'.up == b.up && b'.down.pipe == b.down.pipe
  {
  }

  // handle_wake, the same without reading.
  method ClientWake(c: Connection<R.Core, R.Resp, R.Req>, registry: Registry,
      ghost w: B.Setup, ghost b: B.ByteSys, ghost read: seq<byte>)
    returns (v: Verdict, ghost steps: seq<B.ByteStep>, ghost b': B.ByteSys)
    requires w.Valid() && ClientShows(c, w, b, read) && b.core.handlerAlive && c.Valid() && c.Settled(registry)
    modifies c`interest, registry, c.io`tx, c.io`writeScript, c.io`writeLog, c.outbound, c.driver`h,
             c.driver.codec`encodeBuf
    ensures B.Run(w, b, steps) == Some(b')
    ensures if v == Failed then ClientFailed(c, b', read) else ClientShows(c, w, b', read) && b'.core.handlerAlive
    ensures v == Keep ==> c.Valid() && c.Settled(registry)
  {
    hide Receive, Flush, B.Run, ClientGone;
    v := c.HandleWake(registry);
    assert b.down.pipe[0..] == b.down.pipe;
    steps, b' := ClientFlushes(w, b, [], read, c.io.tx, c.outbound.data, v == Failed);
  }

  // --- The server ---------------------------------------------------------------------------------------

  // The server after it has received `taken`, flushed, and sent `n` bytes.
  function ServerAfter(b: B.ByteSys, taken: seq<byte>, got: Receiver<R.Core>, out: Sender<R.Core>, n: nat): B.ByteSys
    requires |taken| <= |b.up.pipe| && n <= |b.down.outbound + out.bytes|
  {
    var queued := b.down.outbound + out.bytes;
    b.(core := out.h,
       up := b.up.(pipe := b.up.pipe[|taken|..], inbound := got.buf, state := got.state),
       down := b.down.(outbound := queued[n..], pipe := b.down.pipe + queued[..n]))
  }

  // The bytes taken, and what the server makes of them.
  lemma ServerReceives(w: B.Setup, b: B.ByteSys, taken: seq<byte>) returns (steps: seq<B.ByteStep>, b': B.ByteSys)
    requires b.core.serverAlive && taken <= b.up.pipe
    ensures B.Run(w, b, steps) == Some(b')
    ensures var start := Receiver(b.core, b.up.state, b.up.inbound);
            var got, at := Receive(Server(w.cfg), w.reqs, start, taken), b.(up := L.Recv(b.up, |taken|));
            if got.Some? then b' == ServerReceived(at, got.value) && b'.core.serverAlive
            else ServerGone(at.(core := AfterReceiving(Server(w.cfg), w.reqs, start, taken)), b')
  {
    var b1 := b.(up := L.Recv(b.up, |taken|));
    assert B.Apply(w, b, B.ServerRecv(|taken|)) == Some(b1) && b.up.pipe[..|taken|] == taken;
    assert b.up.inbound + taken + [] == b.up.inbound + taken;
    var ds;
    ds, b' := ServerInboundIsRun(w, b1);
    hide B.Apply, B.Run;
    B.ByteRunCons(w, b, B.ServerRecv(|taken|), b1, ds);
    steps := [B.ServerRecv(|taken|)] + ds;
  }

  // An event whose bytes are received, seen as what is flushed and sent.
  lemma ServerAnswers(w: B.Setup, b: B.ByteSys, out: Sender<R.Core>, n: nat)
      returns (steps: seq<B.ByteStep>, b': B.ByteSys)
    requires w.Valid() && b.core.serverAlive && Flush(Server(w.cfg), w.resps, b.core) == out
    requires n <= |b.down.outbound + out.bytes| && (!out.ok ==> n == 0)
    ensures B.Run(w, b, steps) == Some(b')
    ensures var u := ServerFlushed(b, out);
            if out.ok then b' == u.(down := L.Send(u.down, n)) && b'.core.serverAlive else ServerGone(u, b')
  {
    var es;
    es, b' := ServerFlushIsRun(w, b);
    steps := es;
    if out.ok {
      var b1 := b'.(down := L.Send(b'.down, n));
      assert B.Apply(w, b', B.ServerSend(n)) == Some(b1);
      hide B.Apply, B.Run, Flush;
      RunSnoc(w, b, es, b', B.ServerSend(n), b1);
      steps, b' := es + [B.ServerSend(n)], b1;
    }
  }

  /** An event on the server's connection, seen as bytes taken, messages handled and
      produced, and bytes sent, is a run of the byte machine; when something cannot be
      encoded, the run ends with the handler dropped. */
  lemma ServerEventIsRun(w: B.Setup, b: B.ByteSys, taken: seq<byte>, got: Receiver<R.Core>, out: Sender<R.Core>, n: nat)
    returns (steps: seq<B.ByteStep>, b': B.ByteSys)
    requires w.Valid() && b.core.serverAlive && taken <= b.up.pipe
    requires Receive(Server(w.cfg), w.reqs, Receiver(b.core, b.up.state, b.up.inbound), taken) == Some(got)
    requires Flush(Server(w.cfg), w.resps, got.h) == out && n <= |b.down.outbound + out.bytes| && (!out.ok ==> n == 0)
    ensures B.Run(w, b, steps) == Some(b')
    ensures var u := ServerAfter(b, taken, got, out, n);
            if out.ok then b' == u && b'.core.serverAlive else ServerGone(u, b')
  {
    hide Receive, Flush;
    var xs, b1 := ServerReceives(w, b, taken);
    var ys;
    ys, b' := ServerAnswers(w, b1, out, n);
    hide B.Run;
    B.ByteRunAppend(w, b, xs, ys);
    steps := xs + ys;
    if n == 0 {
      Joins(b.down.pipe, [], []);
    }
  }

  // A run after which the connection is removed.
  lemma ServerDrops(w: B.Setup, b: B.ByteSys, steps: seq<B.ByteStep>, b1: B.ByteSys)
      returns (steps': seq<B.ByteStep>, b': B.ByteSys)
    requires B.Run(w, b, steps) == Some(b1) && b1.core.serverAlive
    ensures B.Run(w, b, steps') == Some(b') && ServerGone(b1, b')
  {
    b' := b1.(core := b1.core.(serverAlive := false, responses := []));
    assert B.Apply(w, b1, B.ServerDown) == Some(b');
    hide B.Apply, B.Run;
    RunSnoc(w, b, steps, b1, B.ServerDown, b');
    steps' := steps + [B.ServerDown];
  }

  // An event that fails while receiving.
  lemma ServerStops(w: B.Setup, b: B.ByteSys, taken: seq<byte>) returns (steps: seq<B.ByteStep>, b': B.ByteSys)
    requires b.core.serverAlive && taken <= b.up.pipe
    ensures B.Run(w, b, steps) == Some(b')
    ensures var start := Receiver(b.core, b.up.state, b.up.inbound);
            ServerGone(b.(core := AfterReceiving(Server(w.cfg), w.reqs, start, taken), up := L.Recv(b.up, |taken|)), b')
  {
    var start := Receiver(b.core, b.up.state, b.up.inbound);
    hide Receive, AfterReceiving, B.Run;
    steps, b' := ServerReceives(w, b, taken);
    if Receive(Server(w.cfg), w.reqs, start, taken).Some? {
      ReceiveLeaves(Server(w.cfg), w.reqs, start, taken);
      steps, b' := ServerDrops(w, b, steps, b');
    }
  }

  // The connection of the server in machine state `b`; `read` is what the peer has
  // already taken of the bytes sent.
  ghost predicate ServerShows(c: Connection<R.Core, R.Req, R.Resp>, w: B.Setup, b: B.ByteSys, read: seq<byte>)
    reads c, c.io, c.inbound, c.outbound, c.driver, c.driver.codec
  {
    && c.driver.f == Server(w.cfg) && c.driver.codec.enc == w.resps && c.driver.codec.dec == w.reqs
    && c.driver.h == b.core && c.driver.codec.state == b.up.state
    && c.inbound.data == b.up.inbound && c.io.rx == b.up.pipe
    && c.outbound.data == b.down.outbound && c.io.tx == read + b.down.pipe
  }

  // The connection of the server when it has failed, and is removed in machine state
  // `b`: the bytes are where the machine has them, and dropping the handler as it
  // stands gives the machine's.
  ghost predicate ServerFailed(c: Connection<R.Core, R.Req, R.Resp>, b: B.ByteSys, read: seq<byte>)
    reads c, c.io, c.outbound, c.driver
  {
    && c.outbound.data == b.down.outbound && c.io.tx == read + b.down.pipe && c.io.rx == b.up.pipe
    && ServerGone(b.(core := c.driver.h), b)
  }

  // What a flush left and some bytes sent come to; `tx0` was sent before.
  lemma ServerFlushes(w: B.Setup, b: B.ByteSys, taken: seq<byte>, tx0: seq<byte>, tx: seq<byte>, left: seq<byte>,
      failed: bool)
    returns (steps: seq<B.ByteStep>, b': B.ByteSys)
    requires w.Valid() && b.core.serverAlive && taken <= b.up.pipe
    requires Receive(Server(w.cfg), w.reqs, Receiver(b.core, b.up.state, b.up.inbound), taken).Some?
    requires var got := Receive(Server(w.cfg), w.reqs, Receiver(b.core, b.up.state, b.up.inbound), taken).value;
             var out := Flush(Server(w.cfg), w.resps, got.h);
             && tx + left == tx0 + b.down.pipe + b.down.outbound + out.bytes && tx0 + b.down.pipe <= tx
             && (!out.ok ==> failed && tx == tx0 + b.down.pipe)
    ensures B.Run(w, b, steps) == Some(b')
    ensures var got := Receive(Server(w.cfg), w.reqs, Receiver(b.core, b.up.state, b.up.inbound), taken).value;
            var out := Flush(Server(w.cfg), w.resps, got.h);
            && b'.down.outbound == left && tx == tx0 + b'.down.pipe && b'.up.pipe == b.up.pipe[|taken|..]
            && (if failed then ServerGone(b'.(core := out.h), b') else b'.core == out.h && b'.core.serverAlive)
            && (!failed ==> b'.up.inbound == got.buf && b'.up.state == got.state)
  {
    hide Receive, Flush, B.Run;
    var got := Receive(Server(w.cfg), w.reqs, Receiver(b.core, b.up.state, b.up.inbound), taken).value;
    var out := Flush(Server(w.cfg), w.resps, got.h);
    var queued := b.down.outbound + out.bytes;
    Joins(tx0 + b.down.pipe, b.down.outbound, out.bytes);
    var n := Sent(tx0 + b.down.pipe, queued, tx, left);
    SentParts(tx0 + b.down.pipe, queued, tx, left);
    Joins(tx0, b.down.pipe, queued[..n]);
    steps, b' := ServerEventIsRun(w, b, taken, got, out, n);
    if failed && out.ok {
      steps, b' := ServerDrops(w, b, steps, b');
    }
  }

  // handle_event on the connection is a run of the machine; when it fails, the run ends
  // with the connection removed, the handler having done what it did before.
  method ServerEvent(c: Connection<R.Core, R.Req, R.Resp>, registry: Registry, readable: bool,
      ghost w: B.Setup, ghost b: B.ByteSys, ghost read: seq<byte>)
    returns (v: Verdict, ghost steps: seq<B.ByteStep>, ghost b': B.ByteSys)
    requires w.Valid() && ServerShows(c, w, b, read) && b.core.serverAlive && c.Valid() && c.Settled(registry)
    modifies c`interest, registry, c.io`rx, c.io`readScript, c.io`readLog, c.io`tx, c.io`writeScript, c.io`writeLog,
             c.inbound, c.outbound, c.driver`h, c.driver.codec`state, c.driver.codec`encodeBuf
    ensures B.Run(w, b, steps) == Some(b')
    ensures if v == Failed then ServerFailed(c, b', read) else ServerShows(c, w, b', read) && b'.core.serverAlive
    ensures v == Keep ==> c.Valid() && c.Settled(registry)
  {
    hide Receive, Flush, AfterReceiving, B.Run, ServerGone;
    ghost var start, tx := c.Receiving(), c.io.tx;
    ghost var taken: seq<byte>;
    v, taken := c.HandleEvent(registry, readable);
    assert b.up.pipe[|taken|..] == c.io.rx;
    if c.FlushedTo(start, taken, tx, b.down.outbound) {
      steps, b' := ServerFlushes(w, b, taken, read, c.io.tx, c.outbound.data, v == Failed);
    } else {
      steps, b' := ServerStops(w, b, taken);
      ServerGoneFrame(b.(core := c.driver.h, up := L.Recv(b.up, |taken|)), b'.(core := c.driver.h), b');
    }
  }

  lemma ServerGoneFrame(b: B.ByteSys, b1: B.ByteSys, b': B.ByteSys)
    requires ServerGone(b, b') && b1 == b'.(core := b.core)
    ensures ServerGone(b1, b') && b'.down == b.down && b'.up.pipe == b.up.pipe
  {
  }

  // handle_wake, the same without reading.
  method ServerWake(c: Connection<R.Core, R.Req, R.Resp>, registry: Registry,
      ghost w: B.Setup, ghost b: B.ByteSys, ghost read: seq<byte>)
    returns (v: Verdict, ghost steps: seq<B.ByteStep>, ghost b': B.ByteSys)
    requires w.Valid() && ServerShows(c, w, b, read) && b.core.serverAlive && c.Valid() && c.Settled(registry)
    modifies c`interest, registry, c.io`tx, c.io`writeScript, c.io`writeLog, c.outbound, c.driver`h,
             c.driver.codec`encodeBuf
    ensures B.Run(w, b, steps) == Some(b')
    ensures if v == Failed then ServerFailed(c, b', read) else ServerShows(c, w, b', read) && b'.core.serverAlive
    ensures v == Keep ==> c.Valid() && c.Settled(registry)
  {
    hide Receive, Flush, B.Run, ServerGone;
    v := c.HandleWake(registry);
    assert b.up.pipe[0..] == b.up.pipe;
    steps, b' := ServerFlushes(w, b, [], read, c.io.tx, c.outbound.data, v == Failed);
  }
}
