/** The two ends of a stream as objects over one shared array: the server's
    ServerStreamCallbacks and the client's CallbackServer. */
module AudioStream {
  import opened Wire
  import opened AudioCallback
  import SC = StreamConfig

  class ServerStreamCallbacks {
    const fs: Frames
    const shm: array<byte>
    var connected: bool

    constructor (fs: Frames, shm: array<byte>)
      ensures this.fs == fs && this.shm == shm && !connected
    {
      this.fs, this.shm, connected := fs, shm, false;
    }

    // data_callback up to the RPC.
    method BeforeCall(input: array<byte>, output: array<byte>, nframes: int) returns (early: Option<int>)
      requires input != shm
      modifies shm
      ensures (shm[..], early) == AudioCallback.BeforeCall(fs, connected, old(shm[..]), input[..], output.Length,
              nframes)
    {
      if !connected {
        return Some(CUBEB_ERROR);
      }
      if fs.input.Some? {
        if input.Length > shm.Length {
          return Some(CUBEB_ERROR);
        }
        forall i | 0 <= i < input.Length {
          shm[i] := input[i];
        }
      }
      ghost var was := old(shm[..]);
      assert fs.input.Some? ==> shm[..] == input[..] + was[input.Length..];
      if fs.output.Some? && (output.Length == 0 || output.Length > shm.Length) {
        return Some(CUBEB_ERROR);
      }
      if nframes == 0 {
        return Some(0);
      }
      return None;
    }

    // data_callback after the RPC.
    method AfterCall(response: Option<Response>, output: array<byte>, nframes: int) returns (result: int)
      requires output != shm
      modifies output
      ensures AudioCallback.AfterCall(fs, shm[..], response, old(output[..]), nframes) == Some((result, output[..]))
    {
      if response.None? || !response.value.Data? {
        return CUBEB_ERROR;
      }
      var frames := response.value.frames;
      if frames < 0 || frames > nframes {
        return CUBEB_ERROR;
      }
      if fs.output.Some? {
        var nbytes := CheckedMul(frames, fs.output.value);
        if nbytes.None? || nbytes.value > output.Length || nbytes.value > shm.Length {
          return CUBEB_ERROR;
        }
        forall i | 0 <= i < nbytes.value {
          output[i] := shm[i];
        }
        ghost var was := old(output[..]);
        assert output[..] == shm[..][..nbytes.value] + was[nbytes.value..];
      }
      return frames;
    }
  }

  class CallbackServer {
    const fs: Frames
    const shm: array<byte>
    const duplexInput: array?<byte>

    function Duplex(): Option<seq<byte>>
      reads duplexInput
    {
      if duplexInput == null then None else Some(duplexInput[..])
    }

    predicate Valid()
      reads shm, duplexInput
    {
      duplexInput != shm && SetUp(fs, shm[..], Duplex())
    }

    // The part of ClientStream::init that makes the duplex buffer.
    constructor (fs: Frames, shm: array<byte>)
      requires (fs.input.Some? ==> fs.input.value > 0) && (fs.output.Some? ==> fs.output.value > 0)
               && shm.Length < USIZE_LIMIT
      ensures Valid() && this.fs == fs && this.shm == shm && (duplexInput != null ==> fresh(duplexInput))
    {
      this.fs, this.shm := fs, shm;
      if fs.input.Some? && fs.output.Some? {
        duplexInput := new byte[shm.Length](_ => 0);
      } else {
        duplexInput := null;
      }
    }

    // data_cb: the application's callback on real pointers, which may be equal.
    method Call(app: Program, input: array<byte>, output: array<byte>) returns (frames: int)
      requires Behaves(app, input.Length, output.Length)
      modifies output
      ensures var place := if input == output then Shared else Private;
              var m := Memory(old(output[..]), old(input[..]));
              (input == output || input[..] == old(input[..])) &&
              Exec(app, m, place) == (Memory(output[..], m.copy), frames)
    {
      ghost var place := if input == output then Shared else Private;
      ghost var m := Memory(output[..], input[..]);
      var p := app;
      while !p.Return?
        invariant Behaves(p, input.Length, output.Length)
        invariant input == output || input[..] == m.copy
        invariant Exec(p, Memory(output[..], m.copy), place) == Exec(app, m, place)
        decreases p
      {
        match p
        case Write(at, b, next) =>
          assert output[..][at := b] == output[..at] + [b] + output[at + 1..];
          output[at] := b;
          p := next;
        case ReadInput(at, branches) => p := branches[input[at]];
        case ReadOutput(at, branches) => p := branches[output[at]];
      }
      return p.frames;
    }

    // The copy of the input, made before the application can write to the output.
    method CopyInput(n: nat)
      requires duplexInput != null && duplexInput != shm && n <= shm.Length && n <= duplexInput.Length
      modifies duplexInput
      ensures duplexInput[..] == shm[..n] + old(duplexInput[..])[n..]
    {
      ghost var was := duplexInput[..];
      forall i | 0 <= i < n {
        duplexInput[i] := shm[i];
      }
      assert duplexInput[..] == shm[..n] + was[n..];
    }

    // process, the Data arm.
    method Process(nframes: int, app: Program) returns (response: Response)
      requires Valid()
      requires nframes >= 0 ==> Behaves(app, nframes * SizeOr0(fs.input), nframes * SizeOr0(fs.output))
      modifies shm, duplexInput
      ensures var r := AudioCallback.Process(fs, old(Duplex()), old(shm[..]), nframes, app);
              response == r.1 && shm[..] == r.0.shm && (duplexInput != null ==> duplexInput[..] == r.0.copy)
    {
      hide Exec, Behaves;
      if nframes < 0 {
        return Error(CUBEB_ERROR);
      }
      var inBytes := Fitting(nframes, SizeOr0(fs.input), shm.Length);
      if inBytes.None? {
        return Error(CUBEB_ERROR);
      }
      var outBytes := Fitting(nframes, SizeOr0(fs.output), shm.Length);
      if outBytes.None? {
        return Error(CUBEB_ERROR);
      }
      if duplexInput != null && (inBytes.value == 0 || duplexInput.Length < inBytes.value) {
        return Panicked;
      }
      ghost var was := shm[..];
      hide Fitting;
      if duplexInput != null {
        CopyInput(inBytes.value);
        BehavesMore(app, inBytes.value, outBytes.value, duplexInput.Length, shm.Length);
        var frames := Call(app, duplexInput, shm);
        return Data(frames);
      } else {
        BehavesMore(app, inBytes.value, outBytes.value, shm.Length, shm.Length);
        var frames := Call(app, shm, shm);
        SharedIgnoresCopy(app, Memory(was, was), []);
        return Data(frames);
      }
    }
  }

  lemma {:induction false} SharedIgnoresCopy(p: Program, m: Memory, copy: seq<byte>)
    requires Behaves(p, |m.shm|, |m.shm|)
    ensures Exec(p, m.(copy := copy), Shared).0.shm == Exec(p, m, Shared).0.shm
    ensures Exec(p, m.(copy := copy), Shared).1 == Exec(p, m, Shared).1
  {
    match p
    case Return(_) =>
    case Write(at, b, next) => SharedIgnoresCopy(next, m.(shm := m.shm[at := b]), copy);
    case ReadInput(at, branches) => SharedIgnoresCopy(branches[m.shm[at]], m, copy);
    case ReadOutput(at, branches) => SharedIgnoresCopy(branches[m.shm[at]], m, copy);
  }

  /** One data callback through both objects, over the same memory. */
  method RunCallback(server: ServerStreamCallbacks, client: CallbackServer, input: array<byte>, output: array<byte>,
      nframes: nat, app: Program)
    returns (result: int)
    requires client.Valid() && server.shm == client.shm && server.fs == client.fs
    requires input != server.shm && output != server.shm && output != input && output != client.duplexInput
             && input != client.duplexInput
    requires Behaves(app, nframes * SizeOr0(client.fs.input), nframes * SizeOr0(client.fs.output))
    modifies output, server.shm, client.duplexInput
    ensures Sized(client.fs, old(input[..]), old(output[..]), nframes) ==>
              AudioCallback.DataCallback(server.fs, server.connected, old(server.shm[..]), old(client.Duplex()),
                  old(input[..]), old(output[..]), nframes, app)
              == Outcome(result, output[..], false)
  {
    var early := server.BeforeCall(input, output, nframes);
    if early.Some? {
      return early.value;
    }
    ghost var shm, duplex := server.shm[..], client.Duplex();
    AssertionsFireIff(client.fs, duplex, shm, nframes, app);
    var response := client.Process(nframes, app);
    result := server.AfterCall(Some(response), output, nframes);
  }

  // --- Together with the sizing of the area -----------------------------------------------------

  function FramesOf(c: SC.CreateParams): Frames
    requires SC.Validate(c)
  {
    Frames(if c.input.Some? then Some(SC.FrameSize(c.input.value)) else None,
           if c.output.Some? then Some(SC.FrameSize(c.output.value)) else None)
  }

  /** On a validated stream with an automatically sized area, no callback for up
      to `latency` frames is refused: the application runs on every one of them,
      and its output is what the device gets. */
  lemma LatencyIsServed(c: SC.CreateParams, shm: seq<byte>, duplex: Option<seq<byte>>, input: seq<byte>,
      output: seq<byte>, nframes: nat, app: Program)
    requires SC.Validate(c) && SC.AreaSize(c, 0) == Some(|shm|)
    requires var fs := FramesOf(c);
             && (duplex.Some? <==> fs.input.Some? && fs.output.Some?) && (duplex.Some? ==> |duplex.value| >= |shm|)
             && Sized(fs, input, output, nframes)
    requires Behaves(app, |input|, |output|)
    requires SC.Latency(c).Some? && 0 < nframes <= SC.Latency(c).value
    ensures |input| <= |shm| && |output| <= |shm|
    ensures var m := Meaning(app, input, Stale(shm, input, |output|));
            AudioCallback.DataCallback(FramesOf(c), true, shm, duplex, input, output, nframes, app).result ==
            if 0 <= m.1 <= nframes then m.1 else CUBEB_ERROR
  {
    var fs := FramesOf(c);
    SC.AutomaticAreaFits(c);
    AreaIsSmall(c);
    assert SizeOr0(fs.input) == SC.FrameSizeOr0(c.input) && SizeOr0(fs.output) == SC.FrameSizeOr0(c.output);
    MulMonotone(nframes, SC.Latency(c).value, SizeOr0(fs.input));
    MulMonotone(nframes, SC.Latency(c).value, SizeOr0(fs.output));
    assert SetUp(fs, shm, duplex);
    hide SC.AreaSize, SC.Latency, SC.Validate, Meaning, Behaves;
    CallbackMeans(fs, shm, duplex, input, output, nframes, app);
  }

  lemma AreaIsSmall(c: SC.CreateParams)
    requires SC.Validate(c)
    ensures SC.AreaSize(c, 0).Some? && SC.AreaSize(c, 0).value < USIZE_LIMIT
  {
    SC.SecondBound(c);
    SC.AreaIsMasked(c);
    hide SC.AreaSize, SC.SecondOfAudio, SC.BitAnd;
    SC.MaskRoundsDown(SC.SecondOfAudio(c) + 0xffff);
  }
}
