/**
 * Message streams (`src/utils/rpc/IMessageStream.ts`): the buffering state
 * machine shared by `BufferingMessageStream` and
 * `messageStreamWithIncomingBuffer`, and the pass-through `logMessageStream`.
 *
 * A listener is an opaque token; calling it is recorded as a `Delivery` in
 * the stream's `delivered` log. Listeners do not call back into the stream
 * while they run.
 */
module MessageStreams {
  import opened Wrappers

  /** A listener function, identified by a token. */
  datatype Listener =
    | Listener(id: nat)
      /** The wrapper `logMessageStream` installs: it logs, then calls `target` with the same message. */
    | Logging(target: Listener)

  /** One call `listener(message)`. */
  datatype Delivery<M> = Delivery(listener: Listener, message: M)

  /** The observable state of a buffering stream: its listener, its buffer, and every listener call so far. */
  datatype StreamState<M> = StreamState(listener: Option<Listener>, buffer: seq<M>, delivered: seq<Delivery<M>>)

  function Initial<M>(): StreamState<M> {
    StreamState(None, [], [])
  }

  /** The messages of a delivery log, in order. */
  function Messages<M>(ds: seq<Delivery<M>>): (ms: seq<M>)
    ensures |ms| == |ds|
    ensures forall i :: 0 <= i < |ds| ==> ms[i] == ds[i].message
  {
    seq(|ds|, i requires 0 <= i < |ds| => ds[i].message)
  }

  /** Calling `l` on each of `ms`, in order. */
  function DeliverAll<M>(l: Listener, ms: seq<M>): (ds: seq<Delivery<M>>)
    ensures |ds| == |ms|
    ensures forall i :: 0 <= i < |ms| ==> ds[i] == Delivery(l, ms[i])
  {
    seq(|ms|, i requires 0 <= i < |ms| => Delivery(l, ms[i]))
  }

  /** `_handleIncomingMessage`: hand the message to the listener, or queue it when there is none. */
  function Receive<M>(s: StreamState<M>, m: M): StreamState<M> {
    match s.listener
    case Some(l) => s.(delivered := s.delivered + [Delivery(l, m)])
    case None => s.(buffer := s.buffer + [m])
  }

  /** `setListener`: install the listener, flush the buffer to it in order, empty the buffer. */
  function Attach<M>(s: StreamState<M>, l: Listener): StreamState<M> {
    StreamState(Some(l), [], s.delivered + DeliverAll(l, s.buffer))
  }

  /** `dispose`: drop the listener and the buffer. */
  function Discard<M>(s: StreamState<M>): StreamState<M> {
    s.(listener := None, buffer := [])
  }

  /** The three things that can happen to a buffering stream. */
  datatype Op<M> = Incoming(message: M) | SetListener(listener: Listener) | DisposeStream

  function Step<M>(s: StreamState<M>, op: Op<M>): StreamState<M> {
    match op
    case Incoming(m) => Receive(s, m)
    case SetListener(l) => Attach(s, l)
    case DisposeStream => Discard(s)
  }

  /** The state after performing `ops` in order from `s`. */
  function Run<M>(s: StreamState<M>, ops: seq<Op<M>>): StreamState<M>
    decreases |ops|
  {
    if ops == [] then s else Run(Step(s, ops[0]), ops[1..])
  }

  /** The messages that arrive during `ops`, in arrival order. */
  function Arrivals<M>(ops: seq<Op<M>>): seq<M>
    decreases |ops|
  {
    if ops == [] then []
    else if ops[0].Incoming? then [ops[0].message] + Arrivals(ops[1..])
    else Arrivals(ops[1..])
  }

  predicate NoDispose<M>(ops: seq<Op<M>>) {
    forall i :: 0 <= i < |ops| ==> !ops[i].DisposeStream?
  }

  lemma MessagesAppend<M>(a: seq<Delivery<M>>, b: seq<Delivery<M>>)
    ensures Messages(a + b) == Messages(a) + Messages(b)
  {
    assert forall i :: 0 <= i < |a + b| ==> Messages(a + b)[i] == (Messages(a) + Messages(b))[i];
  }

  /**
   * Reachable states never hold a listener and a non-empty buffer at once:
   * `setListener` empties the buffer and a listener never adds to it.
   */
  predicate Coherent<M>(s: StreamState<M>) {
    s.listener.Some? ==> s.buffer == []
  }

  /**
   * One arrival keeps the stream's central invariant: the messages already
   * delivered, followed by the buffer, are the messages received. With a
   * listener the message goes straight to it and the buffer is unchanged;
   * without one it joins the end of the buffer.
   */
  lemma ReceiveConserves<M>(s: StreamState<M>, m: M)
    requires Coherent(s)
    ensures Coherent(Receive(s, m))
    ensures Messages(Receive(s, m).delivered) + Receive(s, m).buffer == Messages(s.delivered) + s.buffer + [m]
    ensures s.listener.Some? ==>
              && Receive(s, m).listener == s.listener
              && Receive(s, m).delivered == s.delivered + [Delivery(s.listener.value, m)]
              && Receive(s, m).buffer == s.buffer
    ensures s.listener.None? ==>
              && Receive(s, m).listener.None?
              && Receive(s, m).delivered == s.delivered
              && Receive(s, m).buffer == s.buffer + [m]
  {
    match s.listener {
      case Some(l) =>
        MessagesAppend(s.delivered, [Delivery(l, m)]);
      case None =>
    }
  }

  /**
   * `setListener` installs the new listener, delivers exactly the buffered
   * messages to it in arrival order, and leaves the buffer empty.
   */
  lemma AttachFlushes<M>(s: StreamState<M>, l: Listener)
    ensures Attach(s, l).listener == Some(l) && Attach(s, l).buffer == []
    ensures |Attach(s, l).delivered| == |s.delivered| + |s.buffer|
    ensures Coherent(Attach(s, l))
    ensures Messages(Attach(s, l).delivered) + Attach(s, l).buffer == Messages(s.delivered) + s.buffer
    ensures Attach(s, l).delivered[..|s.delivered|] == s.delivered
    ensures forall i :: |s.delivered| <= i < |Attach(s, l).delivered| ==>
              Attach(s, l).delivered[i] == Delivery(l, s.buffer[i - |s.delivered|])
  {
    MessagesAppend(s.delivered, DeliverAll(l, s.buffer));
    assert Messages(DeliverAll(l, s.buffer)) == s.buffer;
  }

  /**
   * Across any receives and `setListener` calls without `dispose`, nothing is
   * lost, duplicated or reordered: deliveries followed by the buffer are the
   * arrivals, and earlier deliveries are never retracted.
   */
  lemma {:induction false} RunConserves<M>(s: StreamState<M>, ops: seq<Op<M>>)
    requires Coherent(s)
    requires NoDispose(ops)
    ensures Coherent(Run(s, ops))
    ensures Messages(Run(s, ops).delivered) + Run(s, ops).buffer == Messages(s.delivered) + s.buffer + Arrivals(ops)
    ensures |Run(s, ops).delivered| >= |s.delivered|
    ensures Run(s, ops).delivered[..|s.delivered|] == s.delivered
    decreases |ops|
  {
    if ops != [] {
      var t := Step(s, ops[0]);
      assert NoDispose(ops[1..]) by {
        forall i | 0 <= i < |ops[1..]| ensures !ops[1..][i].DisposeStream? {
          assert ops[1..][i] == ops[i + 1];
        }
      }
      RunConserves(t, ops[1..]);
      match ops[0] {
        case Incoming(m) =>
          ReceiveConserves(s, m);
          assert Arrivals(ops) == [m] + Arrivals(ops[1..]);
        case SetListener(l) =>
          AttachFlushes(s, l);
          assert Arrivals(ops) == Arrivals(ops[1..]);
        case DisposeStream =>
          assert false;
      }
      assert t.delivered[..|s.delivered|] == s.delivered;
    }
  }

  /** Once a listener is set and the buffer is flushed, the buffer stays empty until `dispose`. */
  lemma {:induction false} BufferStaysEmpty<M>(s: StreamState<M>, ops: seq<Op<M>>)
    requires s.listener.Some? && s.buffer == []
    requires NoDispose(ops)
    ensures Run(s, ops).listener.Some? && Run(s, ops).buffer == []
    decreases |ops|
  {
    if ops != [] {
      assert !ops[0].DisposeStream?;
      assert NoDispose(ops[1..]) by {
        forall i | 0 <= i < |ops[1..]| ensures !ops[1..][i].DisposeStream? {
          assert ops[1..][i] == ops[i + 1];
        }
      }
      BufferStaysEmpty(Step(s, ops[0]), ops[1..]);
    }
  }

  /**
   * After `dispose`, the messages that were buffered are never delivered:
   * every later delivery is of a message that arrived after the disposal.
   */
  lemma DisposeForgetsBuffer<M>(s: StreamState<M>, ops: seq<Op<M>>)
    requires NoDispose(ops)
    ensures Discard(s).listener.None? && Discard(s).buffer == []
    ensures |Run(Discard(s), ops).delivered| >= |s.delivered|
    ensures Run(Discard(s), ops).delivered[..|s.delivered|] == s.delivered
    ensures Messages(Run(Discard(s), ops).delivered[|s.delivered|..]) + Run(Discard(s), ops).buffer == Arrivals(ops)
  {
    var d := Discard(s);
    var t := Run(d, ops);
    RunConserves(d, ops);
    var later := t.delivered[|s.delivered|..];
    assert t.delivered == s.delivered + later;
    MessagesAppend(s.delivered, later);
    var p := Messages(s.delivered);
    assert d.delivered == s.delivered && d.buffer == [];
    assert Messages(t.delivered) + t.buffer == p + [] + Arrivals(ops);
    assert Messages(t.delivered) == p + Messages(later);
    assert p + [] + Arrivals(ops) == p + Arrivals(ops);
    assert p + (Messages(later) + t.buffer) == p + Arrivals(ops);
    assert (p + (Messages(later) + t.buffer))[|p|..] == Messages(later) + t.buffer;
    assert (p + Arrivals(ops))[|p|..] == Arrivals(ops);
  }

  /**
   * `BufferingMessageStream`: the listener and the buffer are fields that
   * `_handleIncomingMessage`, `setListener` and `dispose` update in place.
   * Sending is left to the concrete transports.
   */
  class BufferingMessageStream<M> {
    var listener: Option<Listener>
    var buffer: seq<M>
    /** Every call made to a listener, in order. */
    var delivered: seq<Delivery<M>>

    function State(): StreamState<M>
      reads this
    {
      StreamState(listener, buffer, delivered)
    }

    constructor ()
      ensures State() == Initial()
    {
      listener := None;
      buffer := [];
      delivered := [];
    }

    method HandleIncomingMessage(m: M)
      modifies this
      ensures State() == Receive(old(State()), m)
    {
      if listener.Some? {
        delivered := delivered + [Delivery(listener.value, m)];
      } else {
        buffer := buffer + [m];
      }
    }

    method SetListener(l: Listener)
      modifies this
      ensures State() == Attach(old(State()), l)
    {
      listener := Some(l);
      for i := 0 to |buffer|
        invariant listener == Some(l) && buffer == old(buffer)
        invariant delivered == old(delivered) + DeliverAll(l, buffer[..i])
      {
        delivered := delivered + [Delivery(l, buffer[i])];
      }
      buffer := [];
    }

    method Dispose()
      modifies this
      ensures State() == Discard(old(State()))
    {
      listener := None;
      buffer := [];
    }
  }

  /**
   * Any `IMessageStream` that this core wraps without implementing it, seen
   * through the calls made on it: the listener it was given, what it was
   * asked to send, and whether it was disposed.
   */
  class PeerStream<M, O> {
    var listener: Option<Listener>
    var sent: seq<O>
    var disposed: bool

    constructor ()
      ensures listener == None && sent == [] && !disposed
    {
      listener := None;
      sent := [];
      disposed := false;
    }

    method SetListener(l: Listener)
      modifies this
      ensures listener == Some(l) && sent == old(sent) && disposed == old(disposed)
    {
      listener := Some(l);
    }

    method SendMessage(m: O)
      modifies this
      ensures sent == old(sent) + [m] && listener == old(listener) && disposed == old(disposed)
    {
      sent := sent + [m];
    }

    method Dispose()
      modifies this
      ensures disposed && listener == old(listener) && sent == old(sent)
    {
      disposed := true;
    }
  }

  /**
   * `messageStreamWithIncomingBuffer(stream)`: the same buffering state
   * machine, kept in closure variables, in front of a wrapped stream whose
   * listener it becomes. Its `dispose` clears its own state only; the
   * wrapped stream is not disposed.
   */
  class IncomingBufferStream<M, O> {
    const inner: PeerStream<M, O>
    var listener: Option<Listener>
    var buffer: seq<M>
    var delivered: seq<Delivery<M>>

    function State(): StreamState<M>
      reads this
    {
      StreamState(listener, buffer, delivered)
    }

    /** `handler` is the token of the closure installed as the wrapped stream's listener. */
    constructor (stream: PeerStream<M, O>, handler: Listener)
      modifies stream
      ensures inner == stream && State() == Initial()
      ensures stream.listener == Some(handler)
      ensures stream.sent == old(stream.sent) && stream.disposed == old(stream.disposed)
    {
      inner := stream;
      listener := None;
      buffer := [];
      delivered := [];
      new;
      stream.SetListener(handler);
    }

    /** The wrapped stream calls the installed closure with `m`. */
    method OnInnerMessage(m: M)
      modifies this
      ensures State() == Receive(old(State()), m)
    {
      if listener.Some? {
        delivered := delivered + [Delivery(listener.value, m)];
      } else {
        buffer := buffer + [m];
      }
    }

    method SetListener(l: Listener)
      modifies this
      ensures State() == Attach(old(State()), l)
    {
      listener := Some(l);
      for i := 0 to |buffer|
        invariant listener == Some(l) && buffer == old(buffer)
        invariant delivered == old(delivered) + DeliverAll(l, buffer[..i])
      {
        delivered := delivered + [Delivery(l, buffer[i])];
      }
      buffer := [];
    }

    /** `sendMessage` is the wrapped stream's own: the message is forwarded unchanged. */
    method SendMessage(m: O)
      modifies inner
      ensures inner.sent == old(inner.sent) + [m]
      ensures inner.listener == old(inner.listener) && inner.disposed == old(inner.disposed)
    {
      inner.SendMessage(m);
    }

    method Dispose()
      modifies this
      ensures State() == Discard(old(State()))
    {
      buffer := [];
      listener := None;
    }
  }

  /**
   * `logMessageStream(stream)`: every operation is forwarded to the wrapped
   * stream; the listener is wrapped so that each message is logged before
   * the caller's listener receives it unchanged.
   */
  class LoggingStream<M, O> {
    const inner: PeerStream<M, O>

    constructor (stream: PeerStream<M, O>)
      ensures inner == stream
    {
      inner := stream;
    }

    method SendMessage(m: O)
      modifies inner
      ensures inner.sent == old(inner.sent) + [m]
      ensures inner.listener == old(inner.listener) && inner.disposed == old(inner.disposed)
    {
      inner.SendMessage(m);
    }

    method SetListener(l: Listener)
      modifies inner
      ensures inner.listener == Some(Logging(l))
      ensures inner.sent == old(inner.sent) && inner.disposed == old(inner.disposed)
    {
      inner.SetListener(Logging(l));
    }

    method Dispose()
      modifies inner
      ensures inner.disposed
      ensures inner.sent == old(inner.sent) && inner.listener == old(inner.listener)
    {
      inner.Dispose();
    }
  }
}
