/**
 * `WindowLikeStream` (`src/host/WindowLikeStream.ts`): a buffering message
 * stream over window messaging. Incoming message events are admitted only
 * from the expected peer window and only when their data is object-typed;
 * outgoing messages are posted to the peer with target origin "*".
 */
module WindowLikeStreams {
  import opened Wrappers
  import opened JsValues
  import opened MessageStreams

  /** One `postMessage(data, targetOrigin)` call received by a window. */
  datatype Post = Post(data: Json, targetOrigin: string)

  /** A window (or frame content window), by identity, with the messages posted to it. */
  class WindowLike {
    var posted: seq<Post>

    constructor ()
      ensures posted == []
    {
      posted := [];
    }

    method PostMessage(data: Json, targetOrigin: string)
      modifies this
      ensures posted == old(posted) + [Post(data, targetOrigin)]
    {
      posted := posted + [Post(data, targetOrigin)];
    }
  }

  /** A "message" event: its data and the window it claims to come from (`undefined` as None). */
  datatype MessageEvent = MessageEvent(data: Json, source: Option<WindowLike>)

  /** The filter of the event handler: the event comes from the peer and `typeof data === "object"`. */
  predicate Admits(peer: WindowLike, ev: MessageEvent) {
    ev.source == Some(peer) && TypeOf(ev.data) == "object"
  }

  /** The data of the admitted events, in order. */
  function Admitted(peer: WindowLike, evs: seq<MessageEvent>): seq<Json>
    decreases |evs|
  {
    if evs == [] then []
    else (if Admits(peer, evs[0]) then [evs[0].data] else []) + Admitted(peer, evs[1..])
  }

  /** The stream operations the admitted events become. */
  function AsArrivals(ms: seq<Json>): (ops: seq<Op<Json>>)
    ensures |ops| == |ms|
    ensures forall i :: 0 <= i < |ms| ==> ops[i] == Incoming(ms[i])
  {
    seq(|ms|, i requires 0 <= i < |ms| => Incoming(ms[i]))
  }

  /** An event is admitted exactly when it is from the peer and its data is null, an array or an object. */
  lemma AdmitsObjectTyped(peer: WindowLike, ev: MessageEvent)
    ensures Admits(peer, ev) <==> ev.source == Some(peer) && (ev.data.JNull? || ev.data.JArray? || ev.data.JObject?)
  {
  }

  /** Every admitted datum is object-typed and came, in order, from an event of the peer. */
  lemma {:induction false} AdmittedFromPeer(peer: WindowLike, evs: seq<MessageEvent>)
    ensures forall d :: d in Admitted(peer, evs) ==> TypeOf(d) == "object"
    ensures forall d :: d in Admitted(peer, evs) ==> exists i :: 0 <= i < |evs| && evs[i].source == Some(peer) && evs[i].data == d
    ensures |Admitted(peer, evs)| <= |evs|
    decreases |evs|
  {
    if evs != [] {
      AdmittedFromPeer(peer, evs[1..]);
      forall d | d in Admitted(peer, evs)
        ensures exists i :: 0 <= i < |evs| && evs[i].source == Some(peer) && evs[i].data == d
      {
        if Admits(peer, evs[0]) && d == evs[0].data {
          assert evs[0].source == Some(peer);
        } else {
          assert d in Admitted(peer, evs[1..]);
          var j :| 0 <= j < |evs[1..]| && evs[1..][j].source == Some(peer) && evs[1..][j].data == d;
          assert evs[j + 1] == evs[1..][j];
        }
      }
    }
  }

  lemma {:induction false} ArrivalsOfAsArrivals(ms: seq<Json>)
    ensures Arrivals(AsArrivals(ms)) == ms
    ensures NoDispose(AsArrivals(ms))
    decreases |ms|
  {
    if ms != [] {
      ArrivalsOfAsArrivals(ms[1..]);
      assert AsArrivals(ms)[1..] == AsArrivals(ms[1..]);
    }
  }

  /**
   * Feeding events to the stream inherits the buffering guarantees: the
   * deliveries followed by the buffer are exactly the admitted data, in
   * event order.
   */
  lemma FeedConserves(peer: WindowLike, s: StreamState<Json>, evs: seq<MessageEvent>)
    requires Coherent(s)
    ensures var t := Run(s, AsArrivals(Admitted(peer, evs)));
      Messages(t.delivered) + t.buffer == Messages(s.delivered) + s.buffer + Admitted(peer, evs)
  {
    ArrivalsOfAsArrivals(Admitted(peer, evs));
    RunConserves(s, AsArrivals(Admitted(peer, evs)));
  }

  /**
   * The stream: the window it listens on (`source`), the peer it talks to
   * (`target`), and the inherited buffering state.
   */
  class WindowLikeStream {
    const source: WindowLike
    const target: WindowLike
    const incoming: BufferingMessageStream<Json>

    constructor (source: WindowLike, target: WindowLike)
      ensures this.source == source && this.target == target
      ensures fresh(incoming) && incoming.State() == Initial()
    {
      this.source := source;
      this.target := target;
      incoming := new BufferingMessageStream();
    }

    /** The "message" event handler registered on `source`. */
    method OnMessageEvent(ev: MessageEvent)
      modifies incoming
      ensures incoming.State() == if Admits(target, ev) then Receive(old(incoming.State()), ev.data) else old(incoming.State())
    {
      if ev.source != Some(target) {
        return;
      }
      if TypeOf(ev.data) == "object" {
        incoming.HandleIncomingMessage(ev.data);
      }
    }

    method SendMessage(m: Json)
      modifies target
      ensures target.posted == old(target.posted) + [Post(m, "*")]
    {
      target.PostMessage(m, "*");
    }

    method SetListener(l: Listener)
      modifies incoming
      ensures incoming.State() == Attach(old(incoming.State()), l)
    {
      incoming.SetListener(l);
    }

    method Dispose()
      modifies incoming
      ensures incoming.State() == Discard(old(incoming.State()))
    {
      incoming.Dispose();
    }
  }
}
