/** The objects of the handle path, updated in place: SerializableHandle, the
    ConnectionBuffer with its bounded handle queue, and the Unix pipe with the
    control-message scratch that both directions share.  The last part ties sends
    and receives to the steps of the machine in Handles. */
module HandleObjects {
  import opened Wire
  import opened Codec
  import opened Handles
  import opened HandlesSafety

  class SerializableHandle {
    var slot: Slot<Fd>

    constructor (fd: Fd)
      ensures slot == Owned(fd, true)
    {
      slot := Owned(fd, true);
    }

    // mem::replace leaves Empty behind, also when the state is invalid and the call panics.
    method TakeHandle() returns (fd: Option<Fd>)
      modifies this
      ensures fd == Handles.TakeHandle(old(slot)) && slot == Empty
    {
      var was := slot;
      slot := Empty;
      match was
      case Owned(h, forTarget) => fd := if forTarget then None else Some(h);
      case _ => fd := None;
    }

    // After it, the handle serializes as the invalid value.
    method TakeHandleForSend() returns (fd: Option<Fd>)
      modifies this
      ensures fd == Handles.TakeHandleForSend(old(slot)) && slot == Empty
      ensures GetSerializableValue(slot) == Some(INVALID_HANDLE_VALUE)
    {
      var was := slot;
      slot := Empty;
      match was
      case Owned(h, forTarget) => fd := if forTarget then Some(h) else None;
      case _ => fd := None;
    }

    // set_local_handle: whatever was deserialized is replaced, and can be taken once.
    method SetLocalHandle(fd: Fd)
      modifies this
      ensures Handles.TakeHandle(slot) == Some(fd)
    {
      slot := Owned(fd, false);
    }
  }

  class ConnectionBuffer<H> {
    var bytes: seq<byte>
    var handles: seq<H>

    constructor ()
      ensures bytes == [] && handles == []
    {
      bytes, handles := [], [];
    }

    // False is the failed assertion.
    method PushHandle(fd: H) returns (ok: bool)
      modifies this`handles
      ensures ok <==> |old(handles)| < HANDLE_QUEUE_LIMIT
      ensures handles == old(handles) + if ok then [fd] else []
    {
      ok := |handles| < HANDLE_QUEUE_LIMIT;
      if ok {
        handles := handles + [fd];
      }
    }

    method PopHandle() returns (fd: Option<H>)
      modifies this`handles
      ensures fd.None? <==> old(handles) == []
      ensures old(handles) == (if fd.Some? then [fd.value] else []) + handles
    {
      if handles == [] {
        return None;
      }
      fd := Some(handles[0]);
      handles := handles[1..];
    }
  }

  // The scratch with one more header; no header is written for no descriptors.
  function WithHeader<H>(cmsg: seq<seq<H>>, fds: seq<H>): seq<seq<H>> {
    cmsg + if fds == [] then [] else [fds]
  }

  // decode_handles reads the first header there is.
  function FirstHeader<H>(cmsg: seq<seq<H>>): seq<H> {
    if cmsg == [] then [] else cmsg[0]
  }

  class Pipe<H> {
    var cmsg: seq<seq<H>>   // the headers in the scratch

    constructor ()
      ensures cmsg == []
    {
      cmsg := [];
    }

    /** send_msg, with the answer of the system call.  The queue is encoded as one
        more header behind whatever the scratch still holds.  A call that succeeds
        ships them all and closes each of the queue once; a call that fails ships and
        closes nothing, and clears nothing. */
    method SendMsg(buf: ConnectionBuffer<H>, answer: Option<nat>) returns (shipped: seq<H>, closed: seq<H>)
      requires buf.bytes != []
      requires answer.Some? ==> answer.value <= |buf.bytes|
      modifies this, buf
      ensures answer.None? ==> cmsg == WithHeader(old(cmsg), old(buf.handles))
      ensures answer.None? ==> buf.handles == old(buf.handles) && buf.bytes == old(buf.bytes)
      ensures answer.None? ==> shipped == [] && closed == []
      ensures answer.Some? ==> cmsg == [] && buf.handles == [] && buf.bytes == old(buf.bytes)[answer.value..]
      ensures answer.Some? ==> shipped == Flatten(WithHeader(old(cmsg), old(buf.handles))) && closed == old(buf.handles)
    {
      shipped, closed := [], [];
      if buf.handles != [] {
        var header: seq<H> := [];
        var i := 0;
        while i < |buf.handles|
          invariant 0 <= i <= |buf.handles|
          invariant buf.handles == old(buf.handles) && buf.bytes == old(buf.bytes) && cmsg == old(cmsg)
          invariant header == buf.handles[..i]
        {
          header := header + [buf.handles[i]];
          i := i + 1;
        }
        assert header == buf.handles;
        cmsg := cmsg + [header];
      } else {
        assert cmsg + [] == cmsg;
      }
      if answer.None? {
        return;
      }
      shipped := Flatten(cmsg);
      buf.bytes := buf.bytes[answer.value..];
      while buf.handles != []
        invariant closed + buf.handles == old(buf.handles)
        invariant buf.bytes == old(buf.bytes)[answer.value..]
        decreases |buf.handles|
      {
        var h := buf.PopHandle();
        closed := closed + [h.value];
      }
      assert closed + [] == closed;
      cmsg := [];
    }

    /** recv_msg, with the bytes and the descriptors the system call delivered.  They
        are written behind whatever the scratch still holds; the first header is
        taken for what was received, and the scratch is cleared.  So a scratch that
        is not empty is queued in the place of what came.  A full queue panics. */
    method RecvMsg(buf: ConnectionBuffer<H>, bytes: seq<byte>, fds: seq<H>) returns (ok: bool)
      requires |buf.handles| <= HANDLE_QUEUE_LIMIT
      modifies this, buf
      ensures var got := FirstHeader(WithHeader(old(cmsg), fds));
              && (ok <==> |old(buf.handles)| + |got| <= HANDLE_QUEUE_LIMIT)
              && (ok ==> buf.handles == old(buf.handles) + got)
      ensures cmsg == [] && buf.bytes == old(buf.bytes) + bytes
    {
      buf.bytes := buf.bytes + bytes;
      if fds != [] {
        cmsg := cmsg + [fds];
      } else {
        assert cmsg + [] == cmsg;
      }
      var got := if cmsg == [] then [] else cmsg[0];
      cmsg := [];
      var i := 0;
      while i < |got|
        invariant 0 <= i <= |got|
        invariant buf.handles == old(buf.handles) + got[..i] && |buf.handles| <= HANDLE_QUEUE_LIMIT
        invariant buf.bytes == old(buf.bytes) + bytes && cmsg == []
      {
        ok := buf.PushHandle(got[i]);
        if !ok {
          return;
        }
        assert got[..i + 1] == got[..i] + [got[i]];
        i := i + 1;
      }
      assert got[..i] == got;
      ok := true;
    }
  }

  // --- The machine's steps ------------------------------------------------------------------------

  // The sender's connection in machine state `s`: what it sends from, and what it receives into.
  ghost predicate ShowsSender(s: Sys, pipe: Pipe<Fd>, outbound: ConnectionBuffer<Fd>, inbound: ConnectionBuffer<Fd>)
    reads pipe, outbound, inbound
  {
    && pipe.cmsg == s.tx.scratch && outbound.handles == s.tx.outHandles && outbound.bytes == s.net.link.outbound
    && inbound.handles == s.tx.stale && outbound != inbound
  }

  ghost predicate ShowsReceiver(s: Sys, pipe: Pipe<Got>, inbound: ConnectionBuffer<Got>)
    reads pipe, inbound
  {
    pipe.cmsg == [] && inbound.handles == s.rx.inHandles && inbound.bytes == s.net.link.inbound
  }

  /** A send on the objects is a send of the machine, whichever way it goes. */
  method SenderSends(pipe: Pipe<Fd>, outbound: ConnectionBuffer<Fd>, inbound: ConnectionBuffer<Fd>,
      answer: Option<nat>, ghost s: Sys)
    returns (shipped: seq<Fd>, closed: seq<Fd>)
    requires ShowsSender(s, pipe, outbound, inbound) && outbound.bytes != []
    requires answer.Some? ==> answer.value <= |outbound.bytes|
    modifies pipe, outbound
    ensures answer.None? ==> ShowsSender(SendError(s), pipe, outbound, inbound)
    ensures answer.Some? ==> ShowsSender(SendOk(s, answer.value), pipe, outbound, inbound)
    ensures answer.Some? ==> SendOk(s, answer.value).net.marks == s.net.marks + MarksAt(s.net.sent, shipped)
    ensures answer.Some? ==> SendOk(s, answer.value).tx.open == s.tx.open - Elems(closed)
  {
    hide ClosesTwice, Elems, MarksAt, Flatten;
    shipped, closed := pipe.SendMsg(outbound, answer);
    assert Headers(s.tx) == WithHeader(s.tx.scratch, s.tx.outHandles);
  }

  /** A receive on the sender's pipe is the step that adopts what a failed send left:
      the peer sends this end no handles. */
  method SenderReceives(pipe: Pipe<Fd>, outbound: ConnectionBuffer<Fd>, inbound: ConnectionBuffer<Fd>,
      bytes: seq<byte>, ghost s: Sys)
    returns (ok: bool)
    requires ShowsSender(s, pipe, outbound, inbound) && |s.tx.stale| <= HANDLE_QUEUE_LIMIT && !s.overLimit
    modifies pipe, inbound
    ensures ok <==> !SenderRecvOk(s).overLimit
    ensures ok ==> ShowsSender(SenderRecvOk(s), pipe, outbound, inbound)
  {
    ok := pipe.RecvMsg(inbound, bytes, []);
    assert WithHeader(s.tx.scratch, []) == s.tx.scratch;
    assert s.tx.stale + [] == s.tx.stale;
  }

  /** A receive on the receiver's pipe, which never sends handles, is the machine's. */
  method ReceiverReceives(pipe: Pipe<Got>, inbound: ConnectionBuffer<Got>, bytes: seq<byte>, fds: seq<Got>,
      ghost s: Sys) returns (ok: bool)
    requires ShowsReceiver(s, pipe, inbound) && |inbound.handles| <= HANDLE_QUEUE_LIMIT && !s.overLimit
    requires bytes <= s.net.link.pipe
    requires fds == Install(s.rx.taken, s.net.marks[..Arrived(s.net.marks, s.net.received + |bytes|)])
    modifies pipe, inbound
    ensures ok <==> !RecvOk(s, |bytes|).overLimit
    ensures ok ==> ShowsReceiver(RecvOk(s, |bytes|), pipe, inbound)
  {
    InstallLength(s.rx.taken, s.net.marks[..Arrived(s.net.marks, s.net.received + |bytes|)]);
    hide Install, Arrived, Elems;
    ok := pipe.RecvMsg(inbound, bytes, fds);
    assert FirstHeader(WithHeader([], fds)) == fds;
    assert s.net.link.pipe[..|bytes|] == bytes;
  }
}
