/** FramedDriver of audioipc/src/ipccore.rs: the loops that decode messages and
    hand them to a handler, and that encode whatever the handler produces. */
module Driver {
  import opened Wire
  import opened Codec

  // `Handler::produce`: an item, nothing to send, or an error.
  datatype Produced<+H, +Out> = Item(h: H, out: Out) | Nothing(h: H) | Abort(h: H)

  // The Handler trait object, over the handler's own state H; `pending` bounds the items still to be produced.
  datatype Handler<!H(!new), !In, !Out> = Handler(consume: (H, In) -> Option<H>, produce: H -> Produced<H, Out>,
      pending: H -> nat)
  {
    ghost predicate Valid() {
      forall h {:trigger produce(h)} :: produce(h).Item? ==> pending(produce(h).h) < pending(h)
    }
  }

  // --- What the loops compute --------------------------------------------------------------

  function ConsumeAll<H(!new), In, Out>(f: Handler<H, In, Out>, h: H, msgs: seq<In>): Option<H> {
    if msgs == [] then Some(h)
    else match f.consume(h, msgs[0])
         case None => None
         case Some(h1) => ConsumeAll(f, h1, msgs[1..])
  }

  lemma {:induction false} ConsumeAppend<H(!new), In, Out>(f: Handler<H, In, Out>, h: H, xs: seq<In>, ys: seq<In>)
    ensures ConsumeAll(f, h, xs + ys) == if ConsumeAll(f, h, xs).None? then None
            else ConsumeAll(f, ConsumeAll(f, h, xs).value, ys)
    decreases |xs|
  {
    if xs == [] {
      assert xs + ys == ys;
    } else {
      assert (xs + ys)[1..] == xs[1..] + ys;
      if f.consume(h, xs[0]).Some? {
        ConsumeAppend(f, f.consume(h, xs[0]).value, xs[1..], ys);
      }
    }
  }

  // The handler when it has consumed the messages it accepts, up to the first it does not.
  function Consumed<H(!new), In, Out>(f: Handler<H, In, Out>, h: H, msgs: seq<In>): H {
    if msgs == [] then h
    else match f.consume(h, msgs[0])
         case None => h
         case Some(h1) => Consumed(f, h1, msgs[1..])
  }

  lemma {:induction false} ConsumedAppend<H(!new), In, Out>(f: Handler<H, In, Out>, h: H, xs: seq<In>, ys: seq<In>)
    requires ConsumeAll(f, h, xs).Some?
    ensures Consumed(f, h, xs) == ConsumeAll(f, h, xs).value
    ensures Consumed(f, h, xs + ys) == Consumed(f, ConsumeAll(f, h, xs).value, ys)
    decreases |xs|
  {
    if xs == [] {
      assert xs + ys == ys;
    } else {
      assert (xs + ys)[1..] == xs[1..] + ys && (xs + ys)[0] == xs[0];
      ConsumedAppend(f, f.consume(h, xs[0]).value, xs[1..], ys);
    }
  }

  // A connection seen from the receiving side.
  datatype Receiver<+H> = Receiver(h: H, state: State, buf: seq<byte>)

  // The effect of receiving the bytes `bs` all at once: decode everything and
  // consume it.  None if a frame is bad or a message is refused.
  function Receive<H(!new), In, Out>(f: Handler<H, In, Out>, dec: Serde<In>, r: Receiver<H>,
      bs: seq<byte>): Option<Receiver<H>> {
    var d := DecodeAll(dec, r.state, r.buf + bs);
    var h := ConsumeAll(f, r.h, d.msgs);
    if d.failure.Some? || h.None? then None else Some(Receiver(h.value, d.state, d.buf))
  }

  // The handler after receiving `bs`, whether that succeeds or not: it has consumed
  // what came before the first bad frame and the first message it refuses.
  function AfterReceiving<H(!new), In, Out>(f: Handler<H, In, Out>, dec: Serde<In>, r: Receiver<H>, bs: seq<byte>): H {
    Consumed(f, r.h, DecodeAll(dec, r.state, r.buf + bs).msgs)
  }

  lemma ReceiveLeaves<H(!new), In, Out>(f: Handler<H, In, Out>, dec: Serde<In>, r: Receiver<H>, bs: seq<byte>)
    requires Receive(f, dec, r, bs).Some?
    ensures Receive(f, dec, r, bs).value.h == AfterReceiving(f, dec, r, bs)
  {
    var msgs := DecodeAll(dec, r.state, r.buf + bs).msgs;
    ConsumedAppend(f, r.h, msgs, []);
  }

  lemma AfterSplit<H(!new), In, Out>(f: Handler<H, In, Out>, dec: Serde<In>, r: Receiver<H>, xs: seq<byte>,
      ys: seq<byte>)
    requires Receive(f, dec, r, xs).Some?
    ensures AfterReceiving(f, dec, r, xs + ys) == AfterReceiving(f, dec, Receive(f, dec, r, xs).value, ys)
  {
    assert r.buf + (xs + ys) == (r.buf + xs) + ys;
    DecodeAllSplit(dec, r.state, r.buf + xs, ys);
    var d := DecodeAll(dec, r.state, r.buf + xs);
    ConsumedAppend(f, r.h, d.msgs, DecodeAll(dec, d.state, d.buf + ys).msgs);
  }

  /** Receiving in two pieces is receiving the whole. */
  lemma ReceiveSplit<H(!new), In, Out>(f: Handler<H, In, Out>, dec: Serde<In>, r: Receiver<H>, xs: seq<byte>,
      ys: seq<byte>)
    requires Receive(f, dec, r, xs).Some?
    ensures Receive(f, dec, r, xs + ys) == Receive(f, dec, Receive(f, dec, r, xs).value, ys)
  {
    assert r.buf + (xs + ys) == (r.buf + xs) + ys;
    DecodeAllSplit(dec, r.state, r.buf + xs, ys);
    var d := DecodeAll(dec, r.state, r.buf + xs);
    ConsumeAppend(f, r.h, d.msgs, DecodeAll(dec, d.state, d.buf + ys).msgs);
  }

  // Unfolding the inbound loop by one decode.
  lemma ReceiveUnfolds<H(!new), In, Out>(f: Handler<H, In, Out>, dec: Serde<In>, r: Receiver<H>)
    ensures var d := DecodeOnce(dec, r.state, r.buf);
            var got, after := Receive(f, dec, r, []), AfterReceiving(f, dec, r, []);
            match d.outcome
            case More => got == Some(Receiver(r.h, d.state, d.buf)) && after == r.h
            case Fail(_) => got.None? && after == r.h
            case Item(m) =>
              if f.consume(r.h, m).None? then got.None? && after == r.h
              else
                var r1 := Receiver(f.consume(r.h, m).value, d.state, d.buf);
                got == Receive(f, dec, r1, []) && after == AfterReceiving(f, dec, r1, [])
  {
    var d := DecodeOnce(dec, r.state, r.buf);
    assert r.buf + [] == r.buf && d.buf + [] == d.buf;
    hide DecodeOnce;
  }

  // What `flush_outbound` leaves: the handler, the frames appended, and whether it succeeded.
  datatype Sender<+H> = Sender(h: H, bytes: seq<byte>, ok: bool)

  predicate CanEncode<Out>(enc: Serde<Out>, out: Out) {
    enc.ser(out).Some? && |enc.ser(out).value| <= MAX_MESSAGE_LEN
  }

  // The effect of `flush_outbound`: the frames of every item produced, up to where the
  // handler gives up or an item cannot be encoded; that item is lost.
  function Flush<H(!new), In, Out>(f: Handler<H, In, Out>, enc: Serde<Out>, h: H): Sender<H>
    decreases f.pending(h)
  {
    match f.produce(h)
    case Abort(h1) => Sender(h1, [], false)
    case Nothing(h1) => Sender(h1, [], true)
    case Item(h1, out) =>
      if f.pending(h1) >= f.pending(h) || !CanEncode(enc, out) then Sender(h1, [], false)
      else
        var rest := Flush(f, enc, h1);
        rest.(bytes := FrameOf(enc.ser(out).value) + rest.bytes)
  }

  // Part of the way through a flush from `h0`: `done` has been encoded, `h` is left.
  ghost predicate Flushing<H(!new), In, Out>(f: Handler<H, In, Out>, enc: Serde<Out>, h0: H, done: seq<byte>, h: H) {
    var rest := Flush(f, enc, h);
    Flush(f, enc, h0) == rest.(bytes := done + rest.bytes)
  }

  lemma FlushingStarts<H(!new), In, Out>(f: Handler<H, In, Out>, enc: Serde<Out>, h: H)
    ensures Flushing(f, enc, h, [], h)
  {
    assert [] + Flush(f, enc, h).bytes == Flush(f, enc, h).bytes;
  }

  lemma FlushingOne<H(!new), In, Out>(f: Handler<H, In, Out>, enc: Serde<Out>, h0: H, done: seq<byte>, h: H)
    requires f.Valid() && Flushing(f, enc, h0, done, h) && f.produce(h).Item?
    ensures var p := f.produce(h);
            if CanEncode(enc, p.out) then Flushing(f, enc, h0, done + FrameOf(enc.ser(p.out).value), p.h)
            else Flush(f, enc, h0) == Sender(p.h, done, false)
  {
    hide FrameOf;
    var p := f.produce(h);
    if CanEncode(enc, p.out) {
      Joins(done, FrameOf(enc.ser(p.out).value), Flush(f, enc, p.h).bytes);
    } else {
      Joins(done, [], []);
    }
  }

  lemma FlushingEnds<H(!new), In, Out>(f: Handler<H, In, Out>, enc: Serde<Out>, h0: H, done: seq<byte>, h: H)
    requires Flushing(f, enc, h0, done, h) && !f.produce(h).Item?
    ensures Flush(f, enc, h0) == Sender(f.produce(h).h, done, f.produce(h).Nothing?)
  {
    Joins(done, [], []);
  }

  // --- The driver ----------------------------------------------------------------------------

  class FramedDriver<!H(!new), !In, !Out> {
    const f: Handler<H, In, Out>
    const codec: LengthDelimitedCodec<Out, In>
    var h: H

    constructor (f: Handler<H, In, Out>, enc: Serde<Out>, dec: Serde<In>, h: H)
      ensures fresh(codec) && this.f == f && codec.enc == enc && codec.dec == dec && this.h == h
              && codec.state == Length
    {
      this.f, this.h := f, h;
      codec := new LengthDelimitedCodec(enc, dec);
    }

    // The message loop: `Ok` means that everything decodable was decoded and
    // consumed, in order.
    method ProcessInbound(inbound: BytesMut) returns (ok: bool)
      modifies this`h, codec`state, inbound
      ensures var r := Receiver(old(h), old(codec.state), old(inbound.data));
              var got := Receive(f, codec.dec, r, []);
              && ok == got.Some? && (ok ==> got.value == Receiver(h, codec.state, inbound.data))
              && h == AfterReceiving(f, codec.dec, r, [])
    {
      hide Receive, AfterReceiving, DecodeOnce;
      ghost var dec, start := codec.dec, Receiver(h, codec.state, inbound.data);
      while true
        invariant Receive(f, dec, start, []) == Receive(f, dec, Receiver(h, codec.state, inbound.data), [])
        invariant AfterReceiving(f, dec, start, [])
               == AfterReceiving(f, dec, Receiver(h, codec.state, inbound.data), [])
        decreases |inbound.data|, if codec.state.Data? then 1 else 0
      {
        ReceiveUnfolds(f, dec, Receiver(h, codec.state, inbound.data));
        var r := codec.Decode(inbound);
        match r {
          case More => return true;
          case Fail(_) => return false;
          case Item(item) =>
            var next := f.consume(h, item);
            if next.None? { return false; }
            h := next.value;
        }
      }
    }

    // The sending loop: the handler is left as the last `produce` left it.
    method FlushOutbound(outbound: BytesMut) returns (ok: bool)
      requires f.Valid()
      modifies this`h, codec`encodeBuf, outbound
      ensures var out := Flush(f, codec.enc, old(h));
              h == out.h && outbound.data == old(outbound.data) + out.bytes && ok == out.ok
    {
      hide FrameOf, Flushing, Flush;
      ghost var enc, h0, out0 := codec.enc, h, outbound.data;
      ghost var done: seq<byte> := [];
      FlushingStarts(f, enc, h0);
      Joins(out0, [], []);
      ghost var last := h;
      var p := f.produce(h);
      h := p.h;
      while p.Item?
        invariant p == f.produce(last) && h == p.h
        invariant outbound.data == out0 + done
        invariant Flushing(f, enc, h0, done, last)
        decreases f.pending(last)
      {
        FlushingOne(f, enc, h0, done, last);
        var r := codec.Encode(p.out, outbound);
        if r != Encoded { return false; }
        ghost var frame := FrameOf(enc.ser(p.out).value);
        Joins(out0, done, frame);
        done := done + frame;
        last := h;
        p := f.produce(h);
        h := p.h;
      }
      FlushingEnds(f, enc, h0, done, last);
      ok := p.Nothing?;
    }
  }

  lemma Joins(a: seq<byte>, b: seq<byte>, c: seq<byte>)
    ensures a + b + c == a + (b + c) && a + [] == a
  {
  }
}
