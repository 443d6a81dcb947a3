/** The two handlers of audioipc/src/rpccore.rs plugged into the driver: what the
    loops of FramedDriver do in one call, whether it succeeds or not, is a run of
    single steps of the byte machine, so its guarantees hold for the loops as well. */
module RpcDriver {
  import opened Wire
  import opened Codec
  import L = Link
  import R = Rpc
  import B = RpcBytes
  import opened Driver
  import opened RpcHandlers

  // The client after it has processed what was in its inbound buffer.
  function ClientReceived(b: B.ByteSys, r: Receiver<R.Core>): B.ByteSys {
    b.(core := r.h, down := b.down.(inbound := r.buf, state := r.state))
  }

  function ServerReceived(b: B.ByteSys, r: Receiver<R.Core>): B.ByteSys {
    b.(core := r.h, up := b.up.(inbound := r.buf, state := r.state))
  }

  // The client in `b'` is the one in `b` with its handler dropped and its connection
  // gone.  The drop does not touch the history of what was sent, and a mismatch is noted.
  ghost predicate ClientGone(b: B.ByteSys, b': B.ByteSys) {
    && !b'.core.handlerAlive
    && b'.core == R.DropHandler(b.core).(sent := b'.core.sent, mismatch := b'.core.mismatch)
    && b'.up == b.up && b'.down.pipe == b.down.pipe && b'.down.outbound == b.down.outbound
  }

  ghost predicate ServerGone(b: B.ByteSys, b': B.ByteSys) {
    && b'.core == b.core.(serverAlive := false, responses := [])
    && b'.down == b.down && b'.up.pipe == b.up.pipe && b'.up.outbound == b.up.outbound
  }

  /** `process_inbound` on the client is a run of ClientDecode steps.  When it fails, on
      a bad frame or a response nobody waits for, the run ends with the handler
      dropped, after it has consumed what came before. */
  lemma {:induction false} ClientInboundIsRun(w: B.Setup, b: B.ByteSys) returns (steps: seq<B.ByteStep>, b': B.ByteSys)
    requires b.core.handlerAlive
    ensures forall s <- steps :: s == B.ClientDecode
    ensures B.Run(w, b, steps) == Some(b')
    ensures var r := Receive(Client(), w.resps, Receiver(b.core, b.down.state, b.down.inbound), []);
            if r.Some? then b' == ClientReceived(b, r.value) && r.value.h.handlerAlive
            else ClientGone(b.(core := AfterReceiving(Client(), w.resps,
                Receiver(b.core, b.down.state, b.down.inbound), [])), b')
    decreases |b.down.inbound|, if b.down.state.Data? then 1 else 0
  {
    ReceiveUnfolds(Client(), w.resps, Receiver(b.core, b.down.state, b.down.inbound));
    var d := DecodeOnce(w.resps, b.down.state, b.down.inbound);
    var down := L.AfterDecode(b.down, d);
    hide DecodeOnce, Receive, AfterReceiving;
    var b1 := B.Apply(w, b, B.ClientDecode).value;
    if d.outcome.Item? && ClientConsume(b.core, d.outcome.item).Some? {
      assert b1 == b.(core := R.Consume(b.core, d.outcome.item), down := down) && b1.core.handlerAlive;
      var rest;
      rest, b' := ClientInboundIsRun(w, b1);
      B.ByteRunCons(w, b, B.ClientDecode, b1, rest);
      return [B.ClientDecode] + rest, b';
    }
    B.ByteRunCons(w, b, B.ClientDecode, b1, []);
    return [B.ClientDecode] + [], b1;
  }

  /** `process_inbound` on the server is a run of ServerDecode steps.  When it fails, on
      a bad frame, the run ends with the handler dropped, after it has processed the
      requests before. */
  lemma {:induction false} ServerInboundIsRun(w: B.Setup, b: B.ByteSys) returns (steps: seq<B.ByteStep>, b': B.ByteSys)
    requires b.core.serverAlive
    ensures forall s <- steps :: s == B.ServerDecode
    ensures B.Run(w, b, steps) == Some(b')
    ensures var r := Receive(Server(w.cfg), w.reqs, Receiver(b.core, b.up.state, b.up.inbound), []);
            if r.Some? then b' == ServerReceived(b, r.value) && r.value.h.serverAlive
            else ServerGone(b.(core := AfterReceiving(Server(w.cfg), w.reqs,
                Receiver(b.core, b.up.state, b.up.inbound), [])), b')
    decreases |b.up.inbound|, if b.up.state.Data? then 1 else 0
  {
    ReceiveUnfolds(Server(w.cfg), w.reqs, Receiver(b.core, b.up.state, b.up.inbound));
    var d := DecodeOnce(w.reqs, b.up.state, b.up.inbound);
    var up := L.AfterDecode(b.up, d);
    hide DecodeOnce, Receive, AfterReceiving;
    var b1 := B.Apply(w, b, B.ServerDecode).value;
    if d.outcome.Item? {
      assert b1 == b.(core := R.Serve(w.cfg, b.core, d.outcome.item), up := up) && b1.core.serverAlive;
      hide R.Serve;
      var rest;
      rest, b' := ServerInboundIsRun(w, b1);
      B.ByteRunCons(w, b, B.ServerDecode, b1, rest);
      return [B.ServerDecode] + rest, b';
    }
    B.ByteRunCons(w, b, B.ServerDecode, b1, []);
    return [B.ServerDecode] + [], b1;
  }

  lemma ClientEncodes(w: B.Setup, b: B.ByteSys)
    requires b.core.handlerAlive && ClientProduce(b.core).Item? && w.reqs.ser(ClientProduce(b.core).out).Some?
    ensures var p := ClientProduce(b.core);
            && B.Apply(w, b, B.ClientEncode) == Some(b.(core := p.h, up := L.Encode(b.up, w.reqs.ser(p.out).value)))
            && p.h.handlerAlive
  {
    hide L.Encode;
  }

  lemma ServerEncodes(w: B.Setup, b: B.ByteSys)
    requires b.core.serverAlive && ServerProduce(b.core).Item? && w.resps.ser(ServerProduce(b.core).out).Some?
    ensures var p := ServerProduce(b.core);
            && B.Apply(w, b, B.ServerEncode)
               == Some(b.(core := p.h, down := L.Encode(b.down, w.resps.ser(p.out).value)))
            && p.h.serverAlive
  {
    hide L.Encode;
  }

  // Giving up, or an item that cannot be encoded, drops the handler.
  lemma ClientGivesUp(w: B.Setup, b: B.ByteSys)
    requires b.core.handlerAlive
    requires var p := ClientProduce(b.core); p.Abort? || (p.Item? && w.reqs.ser(p.out).None?)
    ensures var b1 := B.Apply(w, b, B.ClientEncode);
            b1.Some? && ClientGone(b.(core := ClientProduce(b.core).h), b1.value)
  {
    hide L.Encode, R.Cancel;
  }

  lemma ServerGivesUp(w: B.Setup, b: B.ByteSys)
    requires b.core.serverAlive
    requires var p := ServerProduce(b.core); p.Item? && w.resps.ser(p.out).None?
    ensures var b1 := B.Apply(w, b, B.ServerEncode);
            b1.Some? && ServerGone(b.(core := ServerProduce(b.core).h), b1.value)
  {
    hide L.Encode;
  }

  // Unfolding the flush by one item.
  lemma FlushUnfolds<H(!new), In, Out(!new)>(f: Handler<H, In, Out>, enc: Serde<Out>, h: H)
    requires f.Valid() && Sound(enc)
    ensures var p, out := f.produce(h), Flush(f, enc, h);
            && (p.Item? && enc.ser(p.out).Some? ==>
                  var rest := Flush(f, enc, p.h);
                  f.pending(p.h) < f.pending(h) && out == rest.(bytes := FrameOf(enc.ser(p.out).value) + rest.bytes))
            && (!(p.Item? && enc.ser(p.out).Some?) ==> out == Sender(p.h, [], p.Nothing?))
  {
    hide FrameOf;
  }

  lemma ClientIdles(k: R.Core)
    ensures ClientProduce(k).Nothing? ==> ClientProduce(k).h == k
    ensures ServerProduce(k).Nothing? ==> ServerProduce(k).h == k
  {
  }

  // What a flush leaves.
  function ClientFlushed(b: B.ByteSys, out: Sender<R.Core>): B.ByteSys {
    b.(core := out.h, up := b.up.(outbound := b.up.outbound + out.bytes))
  }

  function ServerFlushed(b: B.ByteSys, out: Sender<R.Core>): B.ByteSys {
    b.(core := out.h, down := b.down.(outbound := b.down.outbound + out.bytes))
  }

  lemma ClientFlushedMore(b: B.ByteSys, k: R.Core, payload: seq<byte>, tail: Sender<R.Core>)
    ensures ClientFlushed(b.(core := k, up := L.Encode(b.up, payload)), tail)
         == ClientFlushed(b, tail.(bytes := FrameOf(payload) + tail.bytes))
  {
    hide FrameOf;
    Joins(b.up.outbound, FrameOf(payload), tail.bytes);
  }

  lemma ServerFlushedMore(b: B.ByteSys, k: R.Core, payload: seq<byte>, tail: Sender<R.Core>)
    ensures ServerFlushed(b.(core := k, down := L.Encode(b.down, payload)), tail)
         == ServerFlushed(b, tail.(bytes := FrameOf(payload) + tail.bytes))
  {
    hide FrameOf;
    Joins(b.down.outbound, FrameOf(payload), tail.bytes);
  }

  /** `flush_outbound` on the client is a run of ClientEncode steps.  When it fails, with
      no proxy left or on a request that cannot be encoded, the run ends with the
      handler dropped. */
  lemma {:induction false} ClientFlushIsRun(w: B.Setup, b: B.ByteSys) returns (steps: seq<B.ByteStep>, b': B.ByteSys)
    requires w.Valid() && b.core.handlerAlive
    ensures forall s <- steps :: s == B.ClientEncode
    ensures B.Run(w, b, steps) == Some(b')
    ensures var out := Flush(Client(), w.reqs, b.core);
            if out.ok then b' == ClientFlushed(b, out) && out.h.handlerAlive else ClientGone(ClientFlushed(b, out), b')
    decreases |b.core.queue|
  {
    HandlersTerminate(w.cfg);
    FlushUnfolds(Client(), w.reqs, b.core);
    var p := ClientProduce(b.core);
    assert p == Client().produce(b.core);
    if p.Item? && w.reqs.ser(p.out).Some? {
      ClientEncodes(w, b);
      assert |p.h.queue| < |b.core.queue|;
      hide FrameOf, Flush, ClientProduce, B.Apply, ClientFlushed, L.Encode;
      var payload := w.reqs.ser(p.out).value;
      var b1 := b.(core := p.h, up := L.Encode(b.up, payload));
      var rest;
      rest, b' := ClientFlushIsRun(w, b1);
      B.ByteRunCons(w, b, B.ClientEncode, b1, rest);
      steps := [B.ClientEncode] + rest;
      ClientFlushedMore(b, p.h, payload, Flush(Client(), w.reqs, p.h));
    } else if p.Nothing? {
      ClientIdles(b.core);
      hide Flush, ClientProduce;
      assert b.up.outbound + [] == b.up.outbound;
      return [], b;
    } else {
      ClientGivesUp(w, b);
      assert b.up.outbound + [] == b.up.outbound;
      hide Flush, ClientProduce, B.Apply;
      b' := B.Apply(w, b, B.ClientEncode).value;
      B.ByteRunCons(w, b, B.ClientEncode, b', []);
      return [B.ClientEncode] + [], b';
    }
  }

  /** `flush_outbound` on the server is a run of ServerEncode steps.  When it fails, on a
      response that cannot be encoded, the run ends with the handler dropped. */
  lemma {:induction false} ServerFlushIsRun(w: B.Setup, b: B.ByteSys) returns (steps: seq<B.ByteStep>, b': B.ByteSys)
    requires w.Valid() && b.core.serverAlive
    ensures forall s <- steps :: s == B.ServerEncode
    ensures B.Run(w, b, steps) == Some(b')
    ensures var out := Flush(Server(w.cfg), w.resps, b.core);
            if out.ok then b' == ServerFlushed(b, out) && out.h.serverAlive else ServerGone(ServerFlushed(b, out), b')
    decreases |b.core.responses|
  {
    HandlersTerminate(w.cfg);
    FlushUnfolds(Server(w.cfg), w.resps, b.core);
    var p := ServerProduce(b.core);
    assert p == Server(w.cfg).produce(b.core);
    if p.Item? && w.resps.ser(p.out).Some? {
      ServerEncodes(w, b);
      assert |p.h.responses| < |b.core.responses|;
      hide FrameOf, Flush, ServerProduce, B.Apply, ServerFlushed, L.Encode;
      var payload := w.resps.ser(p.out).value;
      var b1 := b.(core := p.h, down := L.Encode(b.down, payload));
      var rest;
      rest, b' := ServerFlushIsRun(w, b1);
      B.ByteRunCons(w, b, B.ServerEncode, b1, rest);
      steps := [B.ServerEncode] + rest;
      ServerFlushedMore(b, p.h, payload, Flush(Server(w.cfg), w.resps, p.h));
    } else if p.Nothing? {
      ClientIdles(b.core);
      hide Flush, ServerProduce;
      assert b.down.outbound + [] == b.down.outbound;
      return [], b;
    } else {
      ServerGivesUp(w, b);
      assert b.down.outbound + [] == b.down.outbound;
      hide Flush, ServerProduce, B.Apply;
      b' := B.Apply(w, b, B.ServerEncode).value;
      B.ByteRunCons(w, b, B.ServerEncode, b', []);
      return [B.ServerEncode] + [], b';
    }
  }
}
