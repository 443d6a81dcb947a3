/** The audio data callback over one shared buffer: the server's
    ServerStreamCallbacks::data_callback, the client's CallbackServer::process and
    the bounds checks of SharedMemView.

    The shared memory carries the device input to the client and the output back,
    in the same bytes.  This file is the value-level description; the classes in
    AudioStream work on arrays and are tied to it. */
module AudioCallback {
  import opened Wire

  const CUBEB_ERROR := -1
  const USIZE_LIMIT: nat := 0x1_0000_0000_0000_0000

  // --- The application's callback ---------------------------------------------------------------

  // Any callback that returns: what it does next depends on every byte it has
  // read.  `Read` branches 256 ways on the byte found.
  datatype Program =
    | Return(frames: int)
    | Write(at: nat, b: byte, next: Program)
    | ReadInput(at: nat, branches: seq<Program>)
    | ReadOutput(at: nat, branches: seq<Program>)

  // It stays inside the buffers it is given.
  predicate Behaves(p: Program, inLen: nat, outLen: nat) {
    match p
    case Return(_) => true
    case Write(at, _, next) => at < outLen && Behaves(next, inLen, outLen)
    case ReadInput(at, branches) => at < inLen && |branches| == 256 && forall q <- branches :: Behaves(q, inLen, outLen)
    case ReadOutput(at, branches) =>
      at < outLen && |branches| == 256 && forall q <- branches :: Behaves(q, inLen, outLen)
  }

  // The meaning of a callback: separate buffers, as cubeb specifies it.
  function Meaning(p: Program, input: seq<byte>, output: seq<byte>): (r: (seq<byte>, int))
    requires Behaves(p, |input|, |output|)
    ensures |r.0| == |output|
  {
    match p
    case Return(frames) => (output, frames)
    case Write(at, b, next) => Meaning(next, input, output[at := b])
    case ReadInput(at, branches) => Meaning(branches[input[at]], input, output)
    case ReadOutput(at, branches) => Meaning(branches[output[at]], input, output)
  }

  // --- The memory of the client process ----------------------------------------------------------

  datatype Place = Shared | Private

  // The shared mapping and the duplex_input buffer.
  datatype Memory = Memory(shm: seq<byte>, copy: seq<byte>) {
    function At(p: Place): seq<byte> {
      if p.Shared? then shm else copy
    }
  }

  // The callback run with its input pointer at `input` and its output pointer at
  // the shared mapping.
  function Exec(p: Program, m: Memory, input: Place): (r: (Memory, int))
    requires Behaves(p, |m.At(input)|, |m.shm|)
    ensures |r.0.shm| == |m.shm| && r.0.copy == m.copy
  {
    match p
    case Return(frames) => (m, frames)
    case Write(at, b, next) => Exec(next, m.(shm := m.shm[at := b]), input)
    case ReadInput(at, branches) => Exec(branches[m.At(input)[at]], m, input)
    case ReadOutput(at, branches) => Exec(branches[m.shm[at]], m, input)
  }

  lemma {:induction false} BehavesMore(p: Program, inLen: nat, outLen: nat, inMore: nat, outMore: nat)
    requires Behaves(p, inLen, outLen) && inLen <= inMore && outLen <= outMore
    ensures Behaves(p, inMore, outMore)
  {
    match p
    case Return(_) =>
    case Write(_, _, next) => BehavesMore(next, inLen, outLen, inMore, outMore);
    case ReadInput(_, branches) =>
      forall q <- branches ensures Behaves(q, inMore, outMore) { BehavesMore(q, inLen, outLen, inMore, outMore); }
    case ReadOutput(_, branches) =>
      forall q <- branches ensures Behaves(q, inMore, outMore) { BehavesMore(q, inLen, outLen, inMore, outMore); }
  }

  // What a run leaves in memory when it behaves as on separate buffers.
  ghost predicate RunsAsSeparate(p: Program, m: Memory, input: Place, inLen: nat, outLen: nat)
    requires inLen <= |m.At(input)| && outLen <= |m.shm| && Behaves(p, inLen, outLen)
  {
    BehavesMore(p, inLen, outLen, |m.At(input)|, |m.shm|);
    var r := Meaning(p, m.At(input)[..inLen], m.shm[..outLen]);
    Exec(p, m, input) == (m.(shm := r.0 + m.shm[outLen..]), r.1)
  }

  /** A private copy of the input isolates it from the output: the run is the one
      on separate buffers.  So it is without a copy when there is only one
      direction. */
  lemma {:induction false} Isolated(p: Program, m: Memory, input: Place, inLen: nat, outLen: nat)
    requires inLen <= |m.At(input)| && outLen <= |m.shm| && Behaves(p, inLen, outLen)
    requires input.Private? || inLen == 0 || outLen == 0
    ensures RunsAsSeparate(p, m, input, inLen, outLen)
  {
    BehavesMore(p, inLen, outLen, |m.At(input)|, |m.shm|);
    match p
    case Return(_) => assert m.shm[..outLen] + m.shm[outLen..] == m.shm;
    case Write(at, b, next) =>
      var m' := m.(shm := m.shm[at := b]);
      BehavesMore(next, inLen, outLen, |m.At(input)|, |m.shm|);
      Isolated(next, m', input, inLen, outLen);
      assert m'.shm[..outLen] == m.shm[..outLen][at := b] && m'.shm[outLen..] == m.shm[outLen..];
      assert m'.At(input)[..inLen] == m.At(input)[..inLen];
    case ReadInput(at, branches) => Isolated(branches[m.At(input)[at]], m, input, inLen, outLen);
    case ReadOutput(at, branches) => Isolated(branches[m.shm[at]], m, input, inLen, outLen);
  }

  // A callback that writes before it reads its input.
  function WriteThenRead(b: byte): Program {
    Write(0, b, ReadInput(0, seq(256, i => Return(i))))
  }

  /** Without the copy, every callback runs as on separate buffers if and only if
      one of the directions is absent: duplex_input is made exactly when needed. */
  lemma CopyNeededIffDuplex(m: Memory, inLen: nat, outLen: nat)
    requires inLen <= |m.shm| && outLen <= |m.shm|
    ensures (forall p :: Behaves(p, inLen, outLen) ==> RunsAsSeparate(p, m, Shared, inLen, outLen)) <==>
            inLen == 0 || outLen == 0
  {
    if inLen == 0 || outLen == 0 {
      forall p | Behaves(p, inLen, outLen)
        ensures RunsAsSeparate(p, m, Shared, inLen, outLen)
      {
        Isolated(p, m, Shared, inLen, outLen);
      }
    } else {
      var b: byte := (m.shm[0] as int + 1) % 256;
      var p := WriteThenRead(b);
      var rest := p.next;
      assert Behaves(rest, inLen, outLen) && Behaves(p, inLen, outLen);
      var x: byte := m.shm[0];
      BehavesMore(p, inLen, outLen, |m.shm|, |m.shm|);
      BehavesMore(rest, inLen, outLen, |m.shm|, |m.shm|);
      var m' := m.(shm := m.shm[0 := b]);
      assert Exec(p, m, Shared) == Exec(rest, m', Shared);
      assert Exec(rest, m', Shared).1 == b;
      assert Meaning(p, m.shm[..inLen], m.shm[..outLen]) == Meaning(rest, m.shm[..inLen], m.shm[..outLen][0 := b]);
      assert Meaning(rest, m.shm[..inLen], m.shm[..outLen][0 := b]).1 == x;
      assert !RunsAsSeparate(p, m, Shared, inLen, outLen);
    }
  }

  // --- The two processes --------------------------------------------------------------------------

  // Frame sizes; a direction that is not used has none.
  datatype Frames = Frames(input: Option<nat>, output: Option<nat>)

  function SizeOr0(fs: Option<nat>): nat {
    if fs.Some? then fs.value else 0
  }

  function CheckedMul(a: nat, b: nat): Option<nat> {
    if a * b < USIZE_LIMIT then Some(a * b) else None
  }

  // checked_mul on a 64-bit usize.
  lemma MulOverflowsIff(a: nat, b: nat)
    ensures CheckedMul(a, b).None? <==> a * b > 0xffff_ffff_ffff_ffff
    ensures CheckedMul(a, b).Some? ==> CheckedMul(a, b).value == a * b
  {
  }

  // SharedMemView::get_slice and get_mut_slice: Err beyond the mapping.
  function GetSlice(shm: seq<byte>, size: nat): (r: Option<seq<byte>>)
    ensures r.Some? <==> size <= |shm|
    ensures r.Some? ==> |r.value| == size && r.value <= shm
  {
    if size <= |shm| then Some(shm[..size]) else None
  }

  // CallbackResp as far as the data callback looks at it, and a panic in the client.
  datatype Response = Data(frames: int) | Error(code: int) | OtherResponse | Panicked

  // The server up to the RPC: the shared memory afterwards, and an early result.
  function BeforeCall(fs: Frames, connected: bool, shm: seq<byte>, input: seq<byte>, outLen: nat,
      nframes: int): (seq<byte>, Option<int>) {
    if !connected then (shm, Some(CUBEB_ERROR))
    else if fs.input.Some? && |input| > |shm| then (shm, Some(CUBEB_ERROR))
    else
      var shm' := if fs.input.Some? then input + shm[|input|..] else shm;
      if fs.output.Some? && (outLen == 0 || outLen > |shm|) then (shm', Some(CUBEB_ERROR))
      else if nframes == 0 then (shm', Some(0))
      else (shm', None)
  }

  // The server after the RPC; no response is an RPC error.  `None` is a panic.
  function AfterCall(fs: Frames, shm: seq<byte>, response: Option<Response>, output: seq<byte>,
      nframes: int): Option<(int, seq<byte>)> {
    if response.None? || !response.value.Data? then Some((CUBEB_ERROR, output))
    else
      var frames := response.value.frames;
      if frames < 0 || frames > nframes then Some((CUBEB_ERROR, output))
      else if fs.output.None? then Some((frames, output))
      else
        var nbytes := CheckedMul(frames, fs.output.value);
        if nbytes.None? then Some((CUBEB_ERROR, output))
        else if nbytes.value > |output| || nbytes.value > |shm| then Some((CUBEB_ERROR, output))
        else
          var slice := GetSlice(shm, nbytes.value);
          if slice.None? then None else Some((frames, slice.value + output[nbytes.value..]))
  }

  // Bytes of a buffer if they fit the mapping.
  function Fitting(nframes: nat, frameSize: nat, shmSize: nat): Option<nat> {
    var n := CheckedMul(nframes, frameSize);
    if n.Some? && n.value <= shmSize then n else None
  }

  // CallbackServer::process, the Data arm; `duplex` is the duplex_input buffer.
  function Process(fs: Frames, duplex: Option<seq<byte>>, shm: seq<byte>, nframes: int,
      app: Program): (Memory, Response)
    requires nframes >= 0 ==> Behaves(app, nframes * SizeOr0(fs.input), nframes * SizeOr0(fs.output))
  {
    var m := Memory(shm, if duplex.Some? then duplex.value else []);
    if nframes < 0 then (m, Error(CUBEB_ERROR))
    else
      var inBytes := Fitting(nframes, SizeOr0(fs.input), |shm|);
      if inBytes.None? then (m, Error(CUBEB_ERROR))
      else
        var outBytes := Fitting(nframes, SizeOr0(fs.output), |shm|);
        if outBytes.None? then (m, Error(CUBEB_ERROR))
        else if duplex.Some? && (inBytes.value == 0 || |duplex.value| < inBytes.value) then (m, Panicked)
        else
          var m1 := if duplex.Some? then m.(copy := shm[..inBytes.value] + duplex.value[inBytes.value..]) else m;
          var place := if duplex.Some? then Private else Shared;
          BehavesMore(app, inBytes.value, outBytes.value, |m1.At(place)|, |shm|);
          var r := Exec(app, m1, place);
          (r.0, Data(r.1))
  }

  // --- One callback, end to end ---------------------------------------------------------------------

  datatype Outcome = Outcome(result: int, output: seq<byte>, panicked: bool)

  function DataCallback(fs: Frames, connected: bool, shm: seq<byte>, duplex: Option<seq<byte>>,
                        input: seq<byte>, output: seq<byte>, nframes: int, app: Program): Outcome
    requires nframes >= 0 ==> Behaves(app, nframes * SizeOr0(fs.input), nframes * SizeOr0(fs.output))
  {
    var b := BeforeCall(fs, connected, shm, input, |output|, nframes);
    if b.1.Some? then Outcome(b.1.value, output, false)
    else
      var p := Process(fs, duplex, b.0, nframes, app);
      var a := AfterCall(fs, p.0.shm, if p.1.Panicked? then None else Some(p.1), output, nframes);
      if a.None? then Outcome(CUBEB_ERROR, output, true)
      else Outcome(a.value.0, a.value.1, p.1.Panicked?)
  }

  // What ClientStream::init sets up, for a stream the server has validated: a
  // direction that is used has frames of at least a byte, and there is a duplex
  // buffer of the size of the area exactly for duplex streams.
  predicate SetUp(fs: Frames, shm: seq<byte>, duplex: Option<seq<byte>>) {
    && (fs.input.Some? ==> fs.input.value > 0) && (fs.output.Some? ==> fs.output.value > 0)
    && (duplex.Some? <==> fs.input.Some? && fs.output.Some?)
    && (duplex.Some? ==> |duplex.value| >= |shm|)
    && |shm| < USIZE_LIMIT
  }

  // Buffers sized by the number of frames, as the C entry point makes them.
  predicate Sized(fs: Frames, input: seq<byte>, output: seq<byte>, nframes: nat) {
    |input| == nframes * SizeOr0(fs.input) && |output| == nframes * SizeOr0(fs.output)
  }

  // What the client's output buffer holds when its callback starts.
  function Stale(shm: seq<byte>, input: seq<byte>, outLen: nat): seq<byte>
    requires |input| <= |shm| && outLen <= |shm|
  {
    (input + shm[|input|..])[..outLen]
  }

  lemma MulMonotone(a: nat, b: nat, c: nat)
    requires a <= b
    ensures a * c <= b * c
  {
  }

  // The client side of a callback that fits.
  lemma ProcessMeans(fs: Frames, duplex: Option<seq<byte>>, shm: seq<byte>, input: seq<byte>, output: seq<byte>,
      nframes: nat, app: Program)
    requires SetUp(fs, shm, duplex) && Sized(fs, input, output, nframes) && nframes > 0
    requires Behaves(app, |input|, |output|) && |input| <= |shm| && |output| <= |shm|
    ensures var shm' := input + shm[|input|..];
            var r, m := Process(fs, duplex, shm', nframes, app), Meaning(app, input, Stale(shm, input, |output|));
            r.1 == Data(m.1) && r.0.shm == m.0 + shm'[|output|..]
  {
    var shm' := input + shm[|input|..];
    var copy := if duplex.Some? then input + duplex.value[|input|..] else [];
    assert |shm'| == |shm| && shm'[..|input|] == input;
    assert duplex.Some? ==> |input| > 0 by { if duplex.Some? { MulMonotone(1, nframes, fs.input.value); } }
    var m1 := Memory(shm', copy);
    var place := if duplex.Some? then Private else Shared;
    assert copy[..if duplex.Some? then |input| else 0] == if duplex.Some? then input else [];
    assert m1.At(place)[..|input|] == input;
    Isolated(app, m1, place, |input|, |output|);
    hide Exec, Meaning, Behaves;
  }

  /** The server in front of any peer, honest or not: whatever comes back and
      whatever was done to the shared memory, it never panics and returns an error
      with the output untouched, or a count of frames with exactly those frames
      taken from the shared memory and the rest of the output untouched. */
  lemma AnyPeer(fs: Frames, shm: seq<byte>, response: Option<Response>, output: seq<byte>, nframes: nat)
    ensures var a := AfterCall(fs, shm, response, output, nframes);
            && a.Some? && |a.value.1| == |output|
            && (a.value == (CUBEB_ERROR, output) ||
                var frames, n := a.value.0, a.value.0 * SizeOr0(fs.output);
                && 0 <= frames <= nframes && response == Some(Data(frames)) && 0 <= n <= |output|
                && (fs.output.Some? ==> n <= |shm| && a.value.1[..n] == shm[..n])
                && a.value.1[n..] == output[n..])
  {
  }

  // The server side before and after a callback that fits.
  lemma BeforePasses(fs: Frames, shm: seq<byte>, duplex: Option<seq<byte>>, input: seq<byte>, output: seq<byte>,
      nframes: nat)
    requires SetUp(fs, shm, duplex) && Sized(fs, input, output, nframes) && nframes > 0 && |input| <= |shm|
             && |output| <= |shm|
    ensures BeforeCall(fs, true, shm, input, |output|, nframes) == (input + shm[|input|..], None)
  {
    assert fs.input.None? ==> input + shm[|input|..] == shm;
    if fs.output.Some? { MulMonotone(1, nframes, fs.output.value); }
  }

  lemma AfterCopies(fs: Frames, shm: seq<byte>, filled: seq<byte>, output: seq<byte>, frames: int, nframes: nat)
    requires |filled| == |output| == nframes * SizeOr0(fs.output) && filled <= shm && |shm| < USIZE_LIMIT
    ensures AfterCall(fs, shm, Some(Data(frames)), output, nframes) ==
            if 0 <= frames <= nframes then
              (MulMonotone(frames, nframes, SizeOr0(fs.output));
               var n := frames * SizeOr0(fs.output);
               Some((frames, filled[..n] + output[n..])))
            else Some((CUBEB_ERROR, output))
  {
    if 0 <= frames <= nframes {
      MulMonotone(frames, nframes, SizeOr0(fs.output));
      if fs.output.Some? {
        assert shm[..frames * fs.output.value] == filled[..frames * fs.output.value];
      } else {
        assert filled[..0] + output[0..] == output;
      }
    }
  }

  /** End to end.  For buffers sized by nframes that fit the area, the application
      runs as if it had been given the device input in a buffer of its own; what
      it wrote in the frames it returned, and no more, reaches the device.  The
      client's assertions never fire. */
  lemma CallbackMeans(fs: Frames, shm: seq<byte>, duplex: Option<seq<byte>>, input: seq<byte>, output: seq<byte>,
      nframes: nat, app: Program)
    requires SetUp(fs, shm, duplex) && Sized(fs, input, output, nframes) && nframes > 0
    requires Behaves(app, |input|, |output|) && |input| <= |shm| && |output| <= |shm|
    ensures var m := Meaning(app, input, Stale(shm, input, |output|));
            DataCallback(fs, true, shm, duplex, input, output, nframes, app) ==
            if 0 <= m.1 <= nframes then
              (MulMonotone(m.1, nframes, SizeOr0(fs.output));
               var n := m.1 * SizeOr0(fs.output);
               Outcome(m.1, m.0[..n] + output[n..], false))
            else Outcome(CUBEB_ERROR, output, false)
  {
    var m := Meaning(app, input, Stale(shm, input, |output|));
    if 0 <= m.1 <= nframes { MulMonotone(m.1, nframes, SizeOr0(fs.output)); }
    ProcessMeans(fs, duplex, shm, input, output, nframes, app);
    BeforePasses(fs, shm, duplex, input, output, nframes);
    var after := m.0 + (input + shm[|input|..])[|output|..];
    AfterCopies(fs, after, m.0, output, m.1, nframes);
    hide BeforeCall, AfterCall, Process, Meaning, Behaves, Stale;
  }

  /** Every other case: an error, or nothing to do.  A callback for no frames
      succeeds only on a stream without output, because an empty output is
      rejected before the frames are counted. */
  lemma CallbackRefuses(fs: Frames, connected: bool, shm: seq<byte>, duplex: Option<seq<byte>>, input: seq<byte>,
      output: seq<byte>, nframes: nat, app: Program)
    requires SetUp(fs, shm, duplex) && Sized(fs, input, output, nframes) && Behaves(app, |input|, |output|)
    requires !connected || nframes == 0 || |input| > |shm| || |output| > |shm|
    ensures var r := DataCallback(fs, connected, shm, duplex, input, output, nframes, app);
            && !r.panicked && r.output == output
            && r.result == if connected && nframes == 0 && fs.output.None? then 0 else CUBEB_ERROR
  {
    assert nframes == 0 ==> |input| == 0 && |output| == 0;
  }

  /** An error is told apart from a count of frames: whatever the peer answers, the result
      is below 0 exactly when it is CUBEB_ERROR, which is -1, and otherwise a count up to
      what was asked for. */
  lemma ErrorsAreNoCounts(fs: Frames, connected: bool, shm: seq<byte>, input: seq<byte>, output: seq<byte>,
      nframes: nat, response: Option<Response>)
    ensures var before := BeforeCall(fs, connected, shm, input, |output|, nframes).1;
            var after := AfterCall(fs, shm, response, output, nframes);
            && (before.Some? ==> (before.value == -1 || before.value == 0))
            && after.Some? && (after.value.0 == CUBEB_ERROR == -1 || 0 <= after.value.0 <= nframes)
  {
  }

  /** The client's assertions on their own: on a stream as set up they fire if and
      only if a duplex stream is asked for no frames. */
  lemma AssertionsFireIff(fs: Frames, duplex: Option<seq<byte>>, shm: seq<byte>, nframes: int, app: Program)
    requires SetUp(fs, shm, duplex)
    requires nframes >= 0 ==> Behaves(app, nframes * SizeOr0(fs.input), nframes * SizeOr0(fs.output))
    ensures Process(fs, duplex, shm, nframes, app).1.Panicked? <==> duplex.Some? && nframes == 0
  {
    if duplex.Some? && nframes > 0 {
      MulMonotone(1, nframes, fs.input.value);
    }
    hide Exec, Behaves;
  }
}
