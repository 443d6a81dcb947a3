/** The length-delimited codec of audioipc/src/codec.rs: an 8-byte magic, a
    4-byte little-endian length and a bincode payload.

    bincode is a pair of functions, `ser` and `deser`; a Rust `assert!` that
    fires and an `io::Error` are explicit `Failure` outcomes. */
module Codec {
  import opened Wire

  const MAX_MESSAGE_LEN: nat := 1024 * 1024
  const MAGIC: nat := 0xa4d1_019c_c910_1d4a
  const HEADER_LEN: nat := 12

  // bincode, with the size limit already applied: `None` is a bincode error.
  datatype Serde<!M> = Serde(ser: M -> Option<seq<byte>>, deser: seq<byte> -> Option<M>)

  // What the codec relies on: payloads respect the limit and read back.
  ghost predicate Sound<M(!new)>(sd: Serde<M>) {
    forall m :: sd.ser(m).Some? ==>
      |sd.ser(m).value| <= MAX_MESSAGE_LEN && sd.deser(sd.ser(m).value) == Some(m)
  }

  datatype State = Length | Data(n: nat)

  // BadMagic and TooLong are assertion panics, Malformed is an `io::Error`.
  datatype Failure = BadMagic | TooLong | Malformed

  datatype Outcome<+M> = More | Item(item: M) | Fail(failure: Failure)

  datatype Decoded<+M> = Decoded(state: State, buf: seq<byte>, outcome: Outcome<M>)

  // --- The value semantics of one `decode` and of the decode loop ------------

  function DecodeData<M>(sd: Serde<M>, n: nat, buf: seq<byte>): Decoded<M> {
    if |buf| < n then Decoded(Data(n), buf, More)
    else match sd.deser(buf[..n])
         case None => Decoded(Data(n), buf, Fail(Malformed))
         case Some(m) => Decoded(Length, buf[n..], Item(m))
  }

  function DecodeOnce<M>(sd: Serde<M>, state: State, buf: seq<byte>): (d: Decoded<M>)
    ensures d.outcome.Item? ==>
              d.state == Length && (|d.buf| < |buf| || (state.Data? && |d.buf| == |buf|))
  {
    match state
    case Data(n) => DecodeData(sd, n, buf)
    case Length =>
      if |buf| < HEADER_LEN then Decoded(Length, buf, More)
      else if ReadLe(buf[..8]) != MAGIC then Decoded(Length, buf, Fail(BadMagic))
      else
        var n := ReadLe(buf[8..12]);
        if n > MAX_MESSAGE_LEN then Decoded(Length, buf[12..], Fail(TooLong))
        else DecodeData(sd, n, buf[12..])
  }

  // What the loop `while let Some(item) = decode(buf)?` leaves behind.
  datatype Drained<+M> = Drained(msgs: seq<M>, state: State, buf: seq<byte>, failure: Option<Failure>)

  // Terminates on zero-length payloads too: consuming one leaves the buffer
  // alone but returns the state from Data to Length.
  function DecodeAll<M>(sd: Serde<M>, state: State, buf: seq<byte>): Drained<M>
    decreases |buf|, if state.Data? then 1 else 0
  {
    var d := DecodeOnce(sd, state, buf);
    match d.outcome
    case More => Drained([], d.state, d.buf, None)
    case Fail(f) => Drained([], d.state, d.buf, Some(f))
    case Item(m) =>
      var rest := DecodeAll(sd, d.state, d.buf);
      rest.(msgs := [m] + rest.msgs)
  }

  // The receiver: append each piece to the buffer and run the decode loop,
  // until the pieces end or the loop fails.
  function Feed<M>(sd: Serde<M>, state: State, buf: seq<byte>, pieces: seq<seq<byte>>): Drained<M>
    decreases |pieces|
  {
    if pieces == [] then Drained([], state, buf, None)
    else
      var d := DecodeAll(sd, state, buf + pieces[0]);
      if d.failure.Some? then d
      else
        var rest := Feed(sd, d.state, d.buf, pieces[1..]);
        rest.(msgs := d.msgs + rest.msgs)
  }

  // No complete frame is waiting: true of a fresh codec and after every loop.
  predicate Idle(state: State, buf: seq<byte>) {
    match state
    case Length => |buf| < HEADER_LEN
    case Data(n) => |buf| < n
  }

  function FrameOf(payload: seq<byte>): (s: seq<byte>)
    ensures |s| == HEADER_LEN + |payload|
  {
    MagicBytes() + PutLe(|payload|, 4) + payload
  }

  function MagicBytes(): (s: seq<byte>)
    ensures |s| == 8
  {
    PutLe(MAGIC, 8)
  }

  // --- Chunking ----------------------------------------------------------------

  // One decode sees no further than the frame it works on.
  lemma DecodeStable<M>(sd: Serde<M>, state: State, a: seq<byte>, b: seq<byte>)
    ensures var d := DecodeOnce(sd, state, a);
            DecodeOnce(sd, state, a + b) ==
            if d.outcome.More? then DecodeOnce(sd, d.state, d.buf + b) else d.(buf := d.buf + b)
  {
    if state == Length && |a| >= HEADER_LEN {
      assert (a + b)[..8] == a[..8] && (a + b)[8..12] == a[8..12] && (a + b)[12..] == a[12..] + b;
      var n := ReadLe(a[8..12]);
      if |a| >= 12 + n {
        assert (a[12..] + b)[..n] == a[12..][..n] && (a[12..] + b)[n..] == a[12..][n..] + b;
      }
    } else if state.Data? && |a| >= state.n {
      assert (a + b)[..state.n] == a[..state.n] && (a + b)[state.n..] == a[state.n..] + b;
    }
  }

  lemma {:induction false} DecodeAllSplit<M>(sd: Serde<M>, state: State, a: seq<byte>, b: seq<byte>)
    ensures var da := DecodeAll(sd, state, a);
            var db := DecodeAll(sd, da.state, da.buf + b);
            DecodeAll(sd, state, a + b) ==
            if da.failure.Some? then da.(buf := da.buf + b) else db.(msgs := da.msgs + db.msgs)
    decreases |a|, if state.Data? then 1 else 0
  {
    hide DecodeOnce;
    var d := DecodeOnce(sd, state, a);
    DecodeStable(sd, state, a, b);
    if d.outcome.Item? {
      DecodeAllSplit(sd, d.state, d.buf, b);
      var da := DecodeAll(sd, d.state, d.buf);
      var db := DecodeAll(sd, da.state, da.buf + b);
      assert [d.outcome.item] + (da.msgs + db.msgs) == [d.outcome.item] + da.msgs + db.msgs;
    } else if d.outcome.More? {
      var db := DecodeAll(sd, d.state, d.buf + b);
      assert [] + db.msgs == db.msgs;
    }
  }

  lemma {:induction false} DecodeAllIdle<M>(sd: Serde<M>, state: State, buf: seq<byte>)
    ensures var d := DecodeAll(sd, state, buf);
            d.failure.None? ==> Idle(d.state, d.buf)
    decreases |buf|, if state.Data? then 1 else 0
  {
    var d := DecodeOnce(sd, state, buf);
    if d.outcome.Item? {
      DecodeAllIdle(sd, d.state, d.buf);
    }
  }

  /** However a byte stream is cut, feeding the pieces one by one yields the
      messages, the final state, the leftover bytes and the first failure that
      decoding the whole stream at once yields. */
  lemma {:induction false} ChunkingIrrelevant<M>(sd: Serde<M>, state: State, buf: seq<byte>, pieces: seq<seq<byte>>)
    requires Idle(state, buf)
    ensures var fed, whole := Feed(sd, state, buf, pieces), DecodeAll(sd, state, buf + Flatten(pieces));
            && fed.msgs == whole.msgs
            && fed.state == whole.state
            && fed.failure == whole.failure
            && (if fed.failure.None? then fed.buf == whole.buf else fed.buf <= whole.buf)
    decreases |pieces|
  {
    if pieces == [] {
      assert buf + Flatten(pieces) == buf;
    } else {
      var rest := Flatten(pieces[1..]);
      assert buf + Flatten(pieces) == (buf + pieces[0]) + rest;
      DecodeAllSplit(sd, state, buf + pieces[0], rest);
      var d := DecodeAll(sd, state, buf + pieces[0]);
      if d.failure.None? {
        DecodeAllIdle(sd, state, buf + pieces[0]);
        ChunkingIrrelevant(sd, d.state, d.buf, pieces[1..]);
      }
    }
  }

  // --- Round trip ----------------------------------------------------------------

  lemma FrameHeader(payload: seq<byte>)
    requires |payload| <= MAX_MESSAGE_LEN
    ensures var f := FrameOf(payload);
            && |f| == HEADER_LEN + |payload|
            && ReadLe(f[..8]) == MAGIC && ReadLe(f[8..12]) == |payload| && f[12..] == payload
  {
    var f := FrameOf(payload);
    assert Pow256(4) == 0x1_0000_0000 by {
      assert Pow256(2) == 65536;
    }
    assert Pow256(8) == 0x1_0000_0000_0000_0000 by {
      assert Pow256(6) == 0x1_0000_0000_0000;
    }
    PutThenRead(MAGIC, 8);
    PutThenRead(|payload|, 4);
    assert f[..8] == PutLe(MAGIC, 8);
    assert f[8..12] == PutLe(|payload|, 4);
    assert f[12..] == payload;
  }

  // The first eight bytes of a frame.
  const MAGIC_BYTES: seq<byte> := [0x4a, 0x1d, 0x10, 0xc9, 0x9c, 0x01, 0xd1, 0xa4]

  lemma MagicOnTheWire()
    ensures MagicBytes() == MAGIC_BYTES && ReadLe(MAGIC_BYTES) == MAGIC
  {
    var s := MAGIC_BYTES;
    assert s[8..] == [] && s[0..] == s && ReadLe([]) == 0;
    hide ReadLe;
    var a4 := ByteUp(s, 7, 0);
    var d1 := ByteUp(s, 6, 0xa4);
    var x01 := ByteUp(s, 5, 0xa4d1);
    var x9c := ByteUp(s, 4, 0xa4d1_01);
    var c9 := ByteUp(s, 3, 0xa4d1_019c);
    var x10 := ByteUp(s, 2, 0xa4d1_019c_c9);
    var x1d := ByteUp(s, 1, 0xa4d1_019c_c910);
    var x4a := ByteUp(s, 0, 0xa4d1_019c_c910_1d);
    ReadThenPut(s);
  }

  lemma ByteUp(s: seq<byte>, i: nat, high: nat) returns (n: nat)
    requires i < |s| && ReadLe(s[i + 1..]) == high
    ensures n == s[i] + 256 * high && ReadLe(s[i..]) == n
  {
    assert s[i..][1..] == s[i + 1..];
    n := s[i] + 256 * high;
  }

  /** The frame of a message on the wire: the magic, least significant byte first, the
      length of the payload in four bytes, and the payload. */
  lemma FrameOnTheWire(payload: seq<byte>)
    requires |payload| < 256
    ensures FrameOf(payload) == MAGIC_BYTES + [|payload| as byte, 0, 0, 0] + payload
  {
    MagicOnTheWire();
    hide MagicBytes;
    var n := |payload|;
    assert n / 256 == 0 && n % 256 == n;
    assert PutLe(0, 1) == [0] && PutLe(0, 2) == [0, 0] && PutLe(0, 3) == [0, 0, 0];
    assert PutLe(n, 4) == [n as byte, 0, 0, 0];
  }

  /** When decoding fails, and how: on a frame that does not begin with the magic, on one
      that claims more than a mebibyte, and on a payload bincode does not accept. */
  lemma DecodeFailsIff<M>(sd: Serde<M>, state: State, buf: seq<byte>)
    ensures var d, n := DecodeOnce(sd, state, buf), if |buf| >= 12 then ReadLe(buf[8..12]) else 0;
            && (d.outcome == Fail(BadMagic) <==> state == Length && |buf| >= 12 && buf[..8] != MAGIC_BYTES)
            && (d.outcome == Fail(TooLong) <==>
                  state == Length && |buf| >= 12 && buf[..8] == MAGIC_BYTES && n > 1_048_576)
            && (d.outcome == Fail(Malformed) <==>
                  if state.Data? then |buf| >= state.n && sd.deser(buf[..state.n]).None?
                  else |buf| >= 12 && buf[..8] == MAGIC_BYTES && n <= 1_048_576 && |buf| >= 12 + n
                       && sd.deser(buf[12..12 + n]).None?)
  {
    hide ReadLe, MAGIC_BYTES;
    if state == Length && |buf| >= 12 {
      MagicRead(buf[..8]);
      var n := ReadLe(buf[8..12]);
      Part(buf, 12, n);
    }
  }

  lemma Part<T>(s: seq<T>, i: nat, n: nat)
    requires i <= |s|
    ensures |s| >= i + n ==> s[i..][..n] == s[i..i + n]
  {
  }

  lemma MagicRead(s: seq<byte>)
    requires |s| == 8
    ensures ReadLe(s) == MAGIC <==> s == MAGIC_BYTES
  {
    MagicOnTheWire();
    ReadThenPut(s);
    ReadThenPut(MAGIC_BYTES);
    hide ReadLe, PutLe;
  }

  // --- The codec object ------------------------------------------------------------

  class BytesMut {
    var data: seq<byte>
    constructor ()
      ensures data == []
    { data := []; }
  }

  datatype Encoding = Encoded | EncodeError | EncodePanic

  class LengthDelimitedCodec<!In, !Out> {
    const enc: Serde<In>
    const dec: Serde<Out>
    var state: State
    var encodeBuf: seq<byte>

    constructor (enc: Serde<In>, dec: Serde<Out>)
      ensures state == Length && this.enc == enc && this.dec == dec
    {
      this.enc, this.dec, state, encodeBuf := enc, dec, Length, [];
    }

    // Consumes a header if one is there; leaves the length in `n`.
    method DecodeLength(buf: BytesMut) returns (n: Option<nat>, failed: bool)
      modifies buf
      ensures failed <==> |old(buf.data)| >= HEADER_LEN && ReadLe(old(buf.data)[..8]) != MAGIC
      ensures n.Some? <==> |old(buf.data)| >= HEADER_LEN && !failed
      ensures n.Some? ==> n.value == ReadLe(old(buf.data)[8..12]) && buf.data == old(buf.data)[12..]
      ensures n.None? ==> buf.data == old(buf.data)
    {
      if |buf.data| < HEADER_LEN { return None, false; }
      if ReadLe(buf.data[..8]) != MAGIC { return None, true; }
      n, failed := Some(ReadLe(buf.data[8..12])), false;
      buf.data := buf.data[HEADER_LEN..];
    }

    method Decode(buf: BytesMut) returns (r: Outcome<Out>)
      modifies this`state, buf
      ensures Decoded(state, buf.data, r) == DecodeOnce(dec, old(state), old(buf.data))
    {
      var n: nat;
      match state {
        case Data(m) => n := m;
        case Length =>
          var header, badMagic := DecodeLength(buf);
          if badMagic { return Fail(BadMagic); }
          if header.None? { return More; }
          n := header.value;
          if n > MAX_MESSAGE_LEN { return Fail(TooLong); }
          state := Data(n);
      }
      if |buf.data| < n { return More; }
      var item := dec.deser(buf.data[..n]);
      if item.None? { return Fail(Malformed); }
      buf.data := buf.data[n..];
      state := Length;
      r := Item(item.value);
    }

    // Whatever `encode` appends, the peer's `Decode` turns back into `item`.
    method Encode(item: In, buf: BytesMut) returns (r: Encoding)
      modifies this`encodeBuf, buf
      ensures r == EncodeError <==> enc.ser(item).None?
      ensures r == EncodePanic <==> enc.ser(item).Some? && |enc.ser(item).value| > MAX_MESSAGE_LEN
      ensures buf.data == old(buf.data) + if r == Encoded then FrameOf(enc.ser(item).value) else []
      ensures encodeBuf == if enc.ser(item).Some? then enc.ser(item).value else []
    {
      hide PutLe, MagicBytes;
      var payload := enc.ser(item);
      if payload.None? {
        encodeBuf := [];
        return EncodeError;
      }
      encodeBuf := payload.value;
      if |encodeBuf| > MAX_MESSAGE_LEN { return EncodePanic; }
      buf.data := buf.data + MagicBytes();
      buf.data := buf.data + PutLe(|encodeBuf|, 4);
      buf.data := buf.data + encodeBuf;
      r := Encoded;
      assert buf.data == old(buf.data) + FrameOf(encodeBuf);
    }
  }
}
