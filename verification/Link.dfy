/** One direction of a connection as bytes: the sender's outbound buffer, the
    pipe, the receiver's inbound buffer and its codec state.  The pipe is a
    reliable byte FIFO that moves any prefix at a time.

    The result of the module is that such a link IS a message FIFO:
    `Carries(sd, l, msgs)` is kept by encoding, sending and receiving, and a
    decode either yields exactly the oldest message or asks for more bytes. */
module Link {
  import opened Wire
  import opened Codec

  datatype Link = Link(outbound: seq<byte>, pipe: seq<byte>, inbound: seq<byte>, state: State) {
    // Everything between the encoder and the decoder, oldest byte first.
    function Bytes(): seq<byte> {
      inbound + pipe + outbound
    }
  }

  const EmptyLink := Link([], [], [], Length)

  function Frames<M>(sd: Serde<M>, msgs: seq<M>): seq<byte>
    requires forall m <- msgs :: sd.ser(m).Some?
  {
    if msgs == [] then [] else FrameOf(sd.ser(msgs[0]).value) + Frames(sd, msgs[1..])
  }

  // The bytes of `l` are exactly the frames of `msgs`, except that the header
  // of the first frame may already have been consumed.
  ghost predicate Carries<M>(sd: Serde<M>, l: Link, msgs: seq<M>) {
    && (forall m <- msgs :: sd.ser(m).Some?)
    && match l.state
       case Length => l.Bytes() == Frames(sd, msgs)
       case Data(n) =>
         && msgs != []
         && n == |sd.ser(msgs[0]).value|
         && l.Bytes() == sd.ser(msgs[0]).value + Frames(sd, msgs[1..])
  }

  // --- The operations of the link ------------------------------------------------

  function Encode(l: Link, payload: seq<byte>): Link {
    l.(outbound := l.outbound + FrameOf(payload))
  }

  function Send(l: Link, n: nat): Link
    requires n <= |l.outbound|
  {
    l.(outbound := l.outbound[n..], pipe := l.pipe + l.outbound[..n])
  }

  function Recv(l: Link, n: nat): Link
    requires n <= |l.pipe|
  {
    l.(pipe := l.pipe[n..], inbound := l.inbound + l.pipe[..n])
  }

  function AfterDecode<M>(l: Link, d: Decoded<M>): Link {
    l.(inbound := d.buf, state := d.state)
  }

  // --- They implement a FIFO of messages -------------------------------------------

  lemma {:induction false} FramesAppend<M>(sd: Serde<M>, msgs: seq<M>, m: M)
    requires forall x <- msgs + [m] :: sd.ser(x).Some?
    ensures Frames(sd, msgs + [m]) == Frames(sd, msgs) + FrameOf(sd.ser(m).value)
  {
    hide FrameOf;
    if msgs == [] {
      assert msgs + [m] == [m] && m in msgs + [m];
      assert Frames(sd, [m]) == FrameOf(sd.ser(m).value) + Frames(sd, []);
    } else {
      assert (msgs + [m])[1..] == msgs[1..] + [m];
      assert forall x <- msgs[1..] + [m] :: x in msgs + [m];
      FramesAppend(sd, msgs[1..], m);
    }
  }

  lemma EncodeAppends<M>(sd: Serde<M>, l: Link, msgs: seq<M>, m: M)
    requires Carries(sd, l, msgs) && sd.ser(m).Some?
    ensures Carries(sd, Encode(l, sd.ser(m).value), msgs + [m])
  {
    hide FrameOf;
    var f := FrameOf(sd.ser(m).value);
    assert Encode(l, sd.ser(m).value).Bytes() == l.Bytes() + f;
    if l.state == Length {
      FramesAppend(sd, msgs, m);
    } else {
      assert (msgs + [m])[1..] == msgs[1..] + [m];
      FramesAppend(sd, msgs[1..], m);
    }
  }

  // Moving bytes along changes neither the messages nor their order.
  lemma TransferKeeps<M>(sd: Serde<M>, l: Link, msgs: seq<M>, n: nat)
    requires Carries(sd, l, msgs)
    ensures n <= |l.outbound| ==> Carries(sd, Send(l, n), msgs)
    ensures n <= |l.pipe| ==> Carries(sd, Recv(l, n), msgs)
  {
    hide Frames;
    if n <= |l.outbound| {
      assert Send(l, n).Bytes() == l.Bytes();
    }
    if n <= |l.pipe| {
      assert Recv(l, n).Bytes() == l.Bytes();
    }
  }

  // With every byte at hand, a decode pops the first message.
  lemma DecodeWhole<M(!new)>(sd: Serde<M>, l: Link, msgs: seq<M>)
    requires Sound(sd) && Carries(sd, l, msgs)
    ensures DecodeOnce(sd, l.state, l.Bytes()) ==
            if msgs == [] then Decoded(Length, [], More)
            else Decoded(Length, Frames(sd, msgs[1..]), Item(msgs[0]))
  {
    if msgs != [] {
      var p, rest := sd.ser(msgs[0]).value, Frames(sd, msgs[1..]);
      assert (p + rest)[..|p|] == p && (p + rest)[|p|..] == rest;
      if l.state == Length {
        WholeFrame(p, rest);
      }
    }
  }

  lemma WholeFrame(p: seq<byte>, rest: seq<byte>)
    requires |p| <= MAX_MESSAGE_LEN
    ensures var s := FrameOf(p) + rest;
            |s| >= 12 && ReadLe(s[..8]) == MAGIC && ReadLe(s[8..12]) == |p| && s[12..] == p + rest
  {
    hide FrameOf, ReadLe;
    FrameHeader(p);
    var f, s := FrameOf(p), FrameOf(p) + rest;
    assert s[..8] == f[..8] && s[8..12] == f[8..12] && s[12..] == f[12..] + rest;
  }

  /** The heart of the refinement.  Whatever part of the bytes has arrived, a
      decode never fails; it yields the oldest message and nothing else, or it
      asks for more and loses nothing. */
  lemma DecodeIsPop<M(!new)>(sd: Serde<M>, l: Link, msgs: seq<M>)
    requires Sound(sd) && Carries(sd, l, msgs)
    ensures var d := DecodeOnce(sd, l.state, l.inbound);
            match d.outcome
            case Fail(_) => false
            case More => Carries(sd, AfterDecode(l, d), msgs)
            case Item(m) => msgs != [] && m == msgs[0] && Carries(sd, AfterDecode(l, d), msgs[1..])
  {
    hide DecodeOnce, Frames, Carries;
    var d := DecodeOnce(sd, l.state, l.inbound);
    var rest := l.pipe + l.outbound;
    assert l.Bytes() == l.inbound + rest;
    DecodeStable(sd, l.state, l.inbound, rest);
    DecodeWhole(sd, l, msgs);
    if d.outcome.Item? {
      ItemPops(sd, l, msgs, d, rest);
    } else if d.outcome.More? {
      MoreKeepsAll(sd, l, msgs);
    }
  }

  // An item: its frame is gone and the others are left.
  lemma ItemPops<M(!new)>(sd: Serde<M>, l: Link, msgs: seq<M>, d: Decoded<M>, rest: seq<byte>)
    requires Carries(sd, l, msgs) && msgs != [] && rest == l.pipe + l.outbound
    requires d.state == Length && d.buf + rest == Frames(sd, msgs[1..])
    ensures Carries(sd, AfterDecode(l, d), msgs[1..])
  {
    hide Frames;
    assert AfterDecode(l, d).Bytes() == d.buf + rest;
  }

  // Asking for more: the state is as it was, or the header of a frame has gone.
  lemma MoreKeepsAll<M(!new)>(sd: Serde<M>, l: Link, msgs: seq<M>)
    requires Sound(sd) && Carries(sd, l, msgs) && DecodeOnce(sd, l.state, l.inbound).outcome.More?
    ensures Carries(sd, AfterDecode(l, DecodeOnce(sd, l.state, l.inbound)), msgs)
  {
    var d := DecodeOnce(sd, l.state, l.inbound);
    if d.state == l.state {
      assert d.buf == l.inbound;
    } else {
      assert d.buf == l.inbound[12..] && d.state == Data(ReadLe(l.inbound[8..12])) && |l.inbound| >= 12
             && l.state == Length;
      HeaderConsumed(sd, l, msgs);
      hide DecodeOnce, Frames, ReadLe;
      assert AfterDecode(l, d).Bytes() == l.inbound[12..] + (l.pipe + l.outbound);
    }
  }

  lemma HeaderConsumed<M(!new)>(sd: Serde<M>, l: Link, msgs: seq<M>)
    requires Sound(sd) && Carries(sd, l, msgs) && l.state == Length && |l.inbound| >= 12
    ensures msgs != [] && ReadLe(l.inbound[8..12]) == |sd.ser(msgs[0]).value|
    ensures l.inbound[12..] + (l.pipe + l.outbound) == sd.ser(msgs[0]).value + Frames(sd, msgs[1..])
  {
    hide ReadLe, FrameOf;
    assert msgs != [];
    var p, tail := sd.ser(msgs[0]).value, Frames(sd, msgs[1..]);
    WholeFrame(p, tail);
    assert l.Bytes()[8..12] == l.inbound[8..12];
    assert l.Bytes()[12..] == l.inbound[12..] + (l.pipe + l.outbound);
  }

  // Once every byte has arrived, a waiting message is decodable: nothing is stuck.
  lemma ArrivedIsDecodable<M(!new)>(sd: Serde<M>, l: Link, msgs: seq<M>)
    requires Sound(sd) && Carries(sd, l, msgs) && msgs != [] && l.pipe == [] && l.outbound == []
    ensures DecodeOnce(sd, l.state, l.inbound).outcome == Item(msgs[0])
  {
    assert l.Bytes() == l.inbound;
    DecodeWhole(sd, l, msgs);
  }

  /** The messages a link carries are determined by its bytes: they are what
      the decode loop would produce from them. */
  lemma {:induction false} CarriedAreDecoded<M(!new)>(sd: Serde<M>, l: Link, msgs: seq<M>)
    requires Sound(sd) && Carries(sd, l, msgs)
    ensures DecodeAll(sd, l.state, l.Bytes()) == Drained(msgs, Length, [], None)
    decreases |msgs|
  {
    DecodeWhole(sd, l, msgs);
    if msgs != [] {
      var l' := Link([], [], Frames(sd, msgs[1..]), Length);
      assert l'.Bytes() == Frames(sd, msgs[1..]);
      CarriedAreDecoded(sd, l', msgs[1..]);
      assert [msgs[0]] + msgs[1..] == msgs;
    }
  }

  /** Round trip: every way of cutting the frames of `msgs` into pieces is
      decoded back into `msgs`, with nothing left over. */
  lemma FramesRoundTrip<M(!new)>(sd: Serde<M>, msgs: seq<M>, pieces: seq<seq<byte>>)
    requires Sound(sd) && (forall m <- msgs :: sd.ser(m).Some?)
    requires Flatten(pieces) == Frames(sd, msgs)
    ensures Feed(sd, Length, [], pieces) == Drained(msgs, Length, [], None)
  {
    var l := Link([], [], Frames(sd, msgs), Length);
    assert l.Bytes() == Frames(sd, msgs);
    CarriedAreDecoded(sd, l, msgs);
    assert [] + Flatten(pieces) == Flatten(pieces);
    ChunkingIrrelevant(sd, Length, [], pieces);
  }
}
