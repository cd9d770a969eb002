/**
 * `WebSocketService`: one client socket, the `IsConnected` flag, the
 * guarded send, and the receive loop that turns frames into events.
 *
 * The socket is abstract: absent (null), or present and either Open or in
 * some other state. The network's answers (does the handshake succeed,
 * which frames arrive) are parameters, and JSON decoding is the parameter
 * `decode`. Envelopes handed to the socket are appended to the ghost log
 * `sent`; events raised by the service are appended to the ghost log `events`.
 */
module Sockets {
  import opened Wrappers
  import opened Models

  /** The endpoint used until `SetServerUrl` is called. */
  const DefaultServerUrl: string := "ws://localhost:8765/ws"

  /** The size of the receive loop's reused buffer, in bytes. */
  const ReceiveBufferSize: nat := 8192

  /** The state of an existing `ClientWebSocket`: Open, or any other (None, Connecting, Closed, Aborted). */
  datatype SocketState = Open | NotOpen

  /** The service's three events. */
  datatype Event = Connected | Disconnected | MessageReceived(env: Envelope)

  /**
   * The outcome of one `ReceiveAsync`: a text (or binary) frame with the bytes
   * the socket offers, a close frame, an I/O exception, or an
   * `OperationCanceledException` caused by the cancellation token.
   */
  datatype Frame = TextFrame(data: seq<bv8>) | Close | Fault | Cancelled

  /** Why a receive loop ended. */
  datatype Ending = ClosedByPeer | Failed | MalformedFrame | CancelledRead

  /** Every ending except cancellation raises `Disconnected`. */
  predicate FiresDisconnected(e: Ending) {
    e != CancelledRead
  }

  /** Close frames and I/O faults leave the socket not Open; a decode failure and a cancellation do not touch it. */
  predicate ShutsSocket(e: Ending) {
    e == ClosedByPeer || e == Failed
  }

  /** What one frame does to the loop. */
  datatype Step = Deliver(env: Envelope) | Skip | Stop(ending: Ending)

  /** The part of a frame's bytes one read can place in the fixed receive buffer. */
  function Chunk(data: seq<bv8>): (c: seq<bv8>)
    ensures |c| <= ReceiveBufferSize
    ensures c <= data
    ensures |data| <= ReceiveBufferSize ==> c == data
  {
    if |data| <= ReceiveBufferSize then data else data[..ReceiveBufferSize]
  }

  /** One iteration of the loop: a close frame stops it; a text frame is decoded from its chunk. */
  function Classify(f: Frame, decode: seq<bv8> -> Decoded): Step {
    match f
    case Close => Stop(ClosedByPeer)
    case Fault => Stop(Failed)
    case Cancelled => Stop(CancelledRead)
    case TextFrame(data) =>
      match decode(Chunk(data))
      case Decoded(e) => Deliver(e)
      case DecodedNull => Skip
      case Malformed => Stop(MalformedFrame)
  }

  /** The events a receive loop raises over a run of frames, and why it ended (None: still reading). */
  datatype Run = Run(events: seq<Event>, ending: Option<Ending>)

  /** The receive loop over a finite sequence of frames, started on an open, uncancelled socket. */
  function ReceiveLoop(frames: seq<Frame>, decode: seq<bv8> -> Decoded): Run
    decreases |frames|
  {
    if frames == [] then Run([], None)
    else
      match Classify(frames[0], decode)
      case Deliver(e) =>
        var rest := ReceiveLoop(frames[1..], decode);
        Run([MessageReceived(e)] + rest.events, rest.ending)
      case Skip => ReceiveLoop(frames[1..], decode)
      case Stop(end) => Run(if FiresDisconnected(end) then [Disconnected] else [], Some(end))
  }

  /** While the loop keeps reading, frames are processed in order: a run over `a + b` is a run over `a` followed by one over `b`. */
  lemma {:induction false} ReceiveLoopAppend(a: seq<Frame>, b: seq<Frame>, decode: seq<bv8> -> Decoded)
    requires ReceiveLoop(a, decode).ending.None?
    ensures ReceiveLoop(a + b, decode)
         == Run(ReceiveLoop(a, decode).events + ReceiveLoop(b, decode).events, ReceiveLoop(b, decode).ending)
  {
    if a == [] {
      assert a + b == b;
    } else {
      assert (a + b)[0] == a[0];
      assert (a + b)[1..] == a[1..] + b;
      match Classify(a[0], decode)
      case Deliver(e) =>
        ReceiveLoopAppend(a[1..], b, decode);
      case Skip =>
        ReceiveLoopAppend(a[1..], b, decode);
    }
  }

  /** Once the loop has ended, no later frame is looked at: nothing after a close, fault or decode failure is delivered. */
  lemma {:induction false} ReceiveLoopStops(a: seq<Frame>, b: seq<Frame>, decode: seq<bv8> -> Decoded)
    requires ReceiveLoop(a, decode).ending.Some?
    ensures ReceiveLoop(a + b, decode) == ReceiveLoop(a, decode)
  {
    assert a != [];
    assert (a + b)[0] == a[0];
    assert (a + b)[1..] == a[1..] + b;
    match Classify(a[0], decode)
    case Deliver(e) =>
      ReceiveLoopStops(a[1..], b, decode);
    case Skip =>
      ReceiveLoopStops(a[1..], b, decode);
    case Stop(end) =>
  }

  /**
   * `Disconnected` is raised at most once, as the loop's last event, and
   * exactly when it ended for a reason other than cancellation; the loop
   * never raises `Connected`.
   */
  lemma {:induction false} DisconnectedIsLast(frames: seq<Frame>, decode: seq<bv8> -> Decoded)
    ensures var r := ReceiveLoop(frames, decode);
      && (forall i :: 0 <= i < |r.events| && r.events[i] == Disconnected ==> i == |r.events| - 1)
      && (Disconnected in r.events <==> r.ending.Some? && FiresDisconnected(r.ending.value))
      && Connected !in r.events
  {
    if frames != [] {
      DisconnectedIsLast(frames[1..], decode);
      match Classify(frames[0], decode)
      case Deliver(e) =>
        var rest := ReceiveLoop(frames[1..], decode);
        assert ReceiveLoop(frames, decode).events == [MessageReceived(e)] + rest.events;
      case Skip =>
      case Stop(end) =>
    }
  }

  /** A frame that neither ends the loop nor fails to decode: a text frame whose chunk decodes to an envelope or to null. */
  predicate Readable(f: Frame, decode: seq<bv8> -> Decoded) {
    f.TextFrame? && !decode(Chunk(f.data)).Malformed?
  }

  /** One `MessageReceived` per frame that decodes to an envelope, in receive order; frames decoding to null contribute nothing. */
  function Delivered(frames: seq<Frame>, decode: seq<bv8> -> Decoded): seq<Event>
    decreases |frames|
  {
    if frames == [] then []
    else
      (if frames[0].TextFrame? && decode(Chunk(frames[0].data)).Decoded?
       then [MessageReceived(decode(Chunk(frames[0].data)).env)] else [])
      + Delivered(frames[1..], decode)
  }

  /**
   * Over frames that all decode (to an envelope or to null), the loop keeps
   * reading and raises exactly `Delivered`: one `MessageReceived` per
   * envelope, in receive order, and nothing for a null.
   */
  lemma {:induction false} DeliversInOrder(frames: seq<Frame>, decode: seq<bv8> -> Decoded)
    requires forall i :: 0 <= i < |frames| ==> Readable(frames[i], decode)
    ensures ReceiveLoop(frames, decode) == Run(Delivered(frames, decode), None)
  {
    if frames != [] {
      DeliversInOrder(frames[1..], decode);
    }
  }

  /** A frame that decodes to null is skipped: the run over it and the frames after it is the run over the frames after it. */
  lemma NullIsSkipped(f: Frame, rest: seq<Frame>, decode: seq<bv8> -> Decoded)
    requires f.TextFrame? && decode(Chunk(f.data)) == DecodedNull
    ensures ReceiveLoop([f] + rest, decode) == ReceiveLoop(rest, decode)
  {
    assert ([f] + rest)[1..] == rest;
  }

  class WebSocketService {
    /** `_webSocket`: None while null. */
    var socket: Option<SocketState>
    /** `_cancellationTokenSource`: None while null, otherwise whether cancellation was requested. */
    var cancellation: Option<bool>
    var serverUrl: string
    var isConnected: bool
    /** Every envelope handed to the socket as one complete text frame, in order. */
    ghost var sent: seq<Envelope>
    /** Every event raised, in order. */
    ghost var events: seq<Event>

    /** The socket and its cancellation source are created together and never reset to null. */
    ghost predicate Valid()
      reads this
    {
      socket.Some? ==> cancellation.Some?
    }

    predicate IsOpen()
      reads this
    {
      socket == Some(Open)
    }

    /** The receive loop's guard: an Open socket whose token has not been cancelled. */
    predicate Listening()
      reads this
      requires Valid()
    {
      IsOpen() && !cancellation.value
    }

    constructor ()
      ensures Valid()
      ensures socket == None && cancellation == None && !isConnected
      ensures serverUrl == DefaultServerUrl
      ensures sent == [] && events == []
    {
      socket := None;
      cancellation := None;
      serverUrl := DefaultServerUrl;
      isConnected := false;
      sent := [];
      events := [];
    }

    method SetServerUrl(url: string)
      modifies this
      ensures serverUrl == url
      ensures socket == old(socket) && cancellation == old(cancellation) && isConnected == old(isConnected)
      ensures sent == old(sent) && events == old(events)
    {
      serverUrl := url;
    }

    /**
     * Replaces the socket and the cancellation source with new ones and
     * performs the handshake; `accepted` is the server's answer. There is
     * no guard against an existing connection: calling it while connected
     * opens a second socket and raises `Connected` again. Starting the
     * receive loop is `ReceiveMessagesAsync`, run afterwards.
     */
    method ConnectAsync(accepted: bool)
      requires Valid()
      modifies this
      ensures Valid()
      ensures socket == Some(if accepted then Open else NotOpen)
      ensures cancellation == Some(false)
      ensures isConnected == accepted
      ensures events == old(events) + (if accepted then [Connected] else [])
      ensures sent == old(sent) && serverUrl == old(serverUrl)
    {
      socket := Some(NotOpen);
      cancellation := Some(false);
      if accepted {
        socket := Some(Open);
        isConnected := true;
        events := events + [Connected];
      } else {
        isConnected := false;
      }
    }

    /**
     * Only an Open socket is shut down: cancel the token, then close. `closes`
     * says whether `CloseAsync` completes. When it throws (a socket aborted by
     * the cancelled read, say), the token stays cancelled, the socket is no
     * longer Open, the flag is kept, no `Disconnected` is raised and `thrown`
     * reports the exception that reaches the caller.
     */
    method DisconnectAsync(closes: bool) returns (thrown: bool)
      requires Valid()
      modifies this
      ensures Valid()
      ensures thrown <==> old(IsOpen()) && !closes
      ensures old(IsOpen()) ==> socket == Some(NotOpen) && cancellation == Some(true)
      ensures old(IsOpen()) && closes ==> !isConnected && events == old(events) + [Disconnected]
      ensures old(IsOpen()) && !closes ==> isConnected == old(isConnected) && events == old(events)
      ensures !old(IsOpen()) ==> socket == old(socket) && cancellation == old(cancellation)
                                 && isConnected == old(isConnected) && events == old(events)
      ensures sent == old(sent) && serverUrl == old(serverUrl)
    {
      thrown := false;
      if socket == Some(Open) {
        cancellation := Some(true);
        socket := Some(NotOpen);
        if !closes {
          thrown := true;
          return;
        }
        isConnected := false;
        events := events + [Disconnected];
      }
    }

    /** Sends the envelope as one text frame when the socket is Open; otherwise drops it. */
    method SendMessageAsync(env: Envelope)
      requires Valid()
      modifies this
      ensures Valid()
      ensures sent == old(sent) + (if old(IsOpen()) then [env] else [])
      ensures socket == old(socket) && cancellation == old(cancellation) && isConnected == old(isConnected)
      ensures events == old(events) && serverUrl == old(serverUrl)
    {
      if socket == None || socket != Some(Open) {
        return;
      }
      sent := sent + [env];
    }

    /**
     * The receive loop over the frames that arrive, reading each into one
     * reused buffer of `ReceiveBufferSize` bytes. It raises exactly what
     * `ReceiveLoop` says, and when it ends it leaves the flag, the socket
     * and the token as the ending dictates. It does nothing unless the
     * socket is Open and the token uncancelled when it starts.
     */
    method ReceiveMessagesAsync(frames: seq<Frame>, decode: seq<bv8> -> Decoded)
      requires Valid()
      modifies this
      ensures Valid()
      ensures sent == old(sent) && serverUrl == old(serverUrl) && cancellation == old(cancellation)
      ensures var r := ReceiveLoop(frames, decode);
        if old(Listening()) then
          && events == old(events) + r.events
          && isConnected == (if r.ending.Some? && FiresDisconnected(r.ending.value) then false else old(isConnected))
          && socket == (if r.ending.Some? && ShutsSocket(r.ending.value) then Some(NotOpen) else old(socket))
        else
          events == old(events) && isConnected == old(isConnected) && socket == old(socket)
    {
      var buffer := new bv8[ReceiveBufferSize];
      var i := 0;
      while i < |frames| && socket != None && socket == Some(Open) && !cancellation.value
        invariant 0 <= i <= |frames|
        invariant Valid()
        invariant sent == old(sent) && serverUrl == old(serverUrl) && cancellation == old(cancellation)
        invariant socket == old(socket) && isConnected == old(isConnected)
        invariant !old(Listening()) ==> i == 0
        invariant ReceiveLoop(frames[..i], decode).ending.None?
        invariant events == old(events) + ReceiveLoop(frames[..i], decode).events
      {
        ghost var done := frames[..i + 1];
        ReceiveLoopAppend(frames[..i], [frames[i]], decode);
        assert done == frames[..i] + [frames[i]];
        assert frames == done + frames[i + 1..];
        if ReceiveLoop(done, decode).ending.Some? {
          ReceiveLoopStops(done, frames[i + 1..], decode);
        }

        var frame := frames[i];
        if frame.Close? {
          socket := Some(NotOpen);
          isConnected := false;
          events := events + [Disconnected];
          return;
        } else if frame.Fault? {
          // the read threw: the socket is aborted and the generic handler runs
          socket := Some(NotOpen);
          isConnected := false;
          events := events + [Disconnected];
          return;
        } else if frame.Cancelled? {
          return;
        }

        var n := if |frame.data| <= ReceiveBufferSize then |frame.data| else ReceiveBufferSize;
        forall j | 0 <= j < n {
          buffer[j] := frame.data[j];
        }
        assert buffer[..n] == Chunk(frame.data);
        var decoded := decode(buffer[..n]);
        if decoded.Malformed? {
          // the deserializer threw: the generic handler runs, the socket is left as it is
          isConnected := false;
          events := events + [Disconnected];
          return;
        }
        if decoded.Decoded? {
          events := events + [MessageReceived(decoded.env)];
        }
        i := i + 1;
      }
      if i == |frames| {
        assert frames[..i] == frames;
      }
    }
  }
}
