/**
 * The Chrome DevTools Protocol client engine (`CdpClient` in
 * `src/extension/debugService/CdpClient.ts`): request ids, the pending
 * request map, event subscriptions with their fan-out, and bindings.
 *
 * Frames are already decoded. Callbacks are opaque tokens that do not call
 * back into the client while they run; calling one is recorded as an
 * `Invocation`. A request's promise is identified by its id, and settling
 * it is recorded in a settlement log. `JSON.parse` and binding validators
 * are opaque functions held in a `Codec`.
 */
module Cdp {
  import opened Wrappers
  import opened JsValues

  type MessageId = string

  const IdPrefix: string := "cdpClient"

  /** The id of the `n`-th request a client sends: the prefix and the counter value. */
  function IdFor(n: nat): MessageId {
    IdPrefix + Decimal(n)
  }

  /** Different counter values give different ids. */
  lemma IdForInjective(m: nat, n: nat)
    requires IdFor(m) == IdFor(n)
    ensures m == n
  {
    assert Decimal(m) == IdFor(m)[|IdPrefix|..];
    assert Decimal(n) == IdFor(n)[|IdPrefix|..];
    DecimalInjective(m, n);
  }

  /** An incoming frame. A frame without `id` is an event; every frame with an `id` is a response. */
  datatype Frame =
    | Event(name: string, params: Json)
      /** `error` and `result` are present or absent as properties of the frame. */
    | Response(id: MessageId, error: Option<Json>, result: Option<Json>)

  /** An outgoing request frame `{id, method: name, params}`. */
  datatype RequestFrame = RequestFrame(id: MessageId, name: string, params: Option<Json>)

  /** Settling the promise of the request with id `id`. */
  datatype Settlement = Resolved(id: MessageId, value: Json) | Rejected(id: MessageId, error: Json)

  /** A subscription callback. */
  datatype Callback =
    | Subscriber(token: nat)
      /**
       * The callback `addBinding` subscribes to `Runtime.bindingCalled`: it
       * forwards the payload of calls of `binding` to the user callback
       * `target`, decoding and validating it first when `validator` is given
       * (the typed `Binding` form).
       */
    | BindingListener(binding: string, validator: Option<nat>, target: nat)

  /** One call of a user callback with an argument. */
  datatype Invocation = Invocation(target: nat, arg: Json)

  /** A `console.error` line of the binding decoder. */
  datatype Diagnostic =
    | UnparseablePayload(binding: string, payload: Json)
    | InvalidData(binding: string, data: Json)

  /** What calling callbacks does: user callback calls and logged diagnostics, in order. */
  datatype Effect = Effect(invoked: seq<Invocation>, errors: seq<Diagnostic>)

  /** `JSON.parse` (None when it throws) and the binding validators by number. */
  datatype Codec = Codec(parse: Json -> Option<Json>, valid: (nat, Json) -> bool)

  function Then(a: Effect, b: Effect): Effect {
    Effect(a.invoked + b.invoked, a.errors + b.errors)
  }

  /** Calling one callback with an event's `params`. */
  function Fire(codec: Codec, cb: Callback, params: Json): Effect {
    match cb
    case Subscriber(t) => Effect([Invocation(t, params)], [])
    case BindingListener(name, validator, target) =>
      if Field(params, "name") != JString(name) then Effect([], [])
      else
        var payload := Field(params, "payload");
        match validator
        case None => Effect([Invocation(target, payload)], [])
        case Some(v) =>
          var parsed := codec.parse(payload);
          var data := parsed.GetOr(JUndefined);
          Effect([Invocation(target, data)],
                 (if parsed.None? then [UnparseablePayload(name, payload)] else [])
                 + (if codec.valid(v, data) then [] else [InvalidData(name, data)]))
  }

  /** Calling each callback in registration order. */
  function FanOut(codec: Codec, cbs: seq<Callback>, params: Json): Effect
    decreases |cbs|
  {
    if cbs == [] then Effect([], [])
    else Then(FanOut(codec, cbs[..|cbs| - 1], params), Fire(codec, cbs[|cbs| - 1], params))
  }

  /** The observable state of one client. */
  datatype ClientState = ClientState(
    lastMessageId: nat,
    pending: set<MessageId>,
    subscriptions: map<string, seq<Callback>>,
    /** Frames written to the socket. */
    sent: seq<RequestFrame>,
    settled: seq<Settlement>,
    invoked: seq<Invocation>,
    errors: seq<Diagnostic>,
    /** `close()` has been called on the socket. */
    closed: bool)

  function Fresh(): ClientState {
    ClientState(0, {}, map[], [], [], [], [], false)
  }

  /** `this._subscriptions.get(key) || []`. */
  function Subscribers(s: ClientState, key: string): seq<Callback> {
    if key in s.subscriptions then s.subscriptions[key] else []
  }

  /** `_send(name, params)`: bump the counter, register the id as pending, write one request frame. */
  function Issue(s: ClientState, name: string, params: Option<Json>): ClientState {
    var id := IdFor(s.lastMessageId + 1);
    s.(lastMessageId := s.lastMessageId + 1,
       pending := s.pending + {id},
       sent := s.sent + [RequestFrame(id, name, params)])
  }

  /** How a response settles its request: reject on `error`, else resolve on `result`, else neither. */
  function Settle(id: MessageId, error: Option<Json>, result: Option<Json>): seq<Settlement> {
    if error.Some? then [Rejected(id, error.value)]
    else if result.Some? then [Resolved(id, result.value)]
    else []
  }

  /** The socket's message handler. */
  function OnFrame(codec: Codec, s: ClientState, f: Frame): ClientState {
    match f
    case Event(name, params) =>
      var e := FanOut(codec, Subscribers(s, name), params);
      s.(invoked := s.invoked + e.invoked, errors := s.errors + e.errors)
    case Response(id, error, result) =>
      if id !in s.pending then s
      else s.(pending := s.pending - {id}, settled := s.settled + Settle(id, error, result))
  }

  function EventKey(domain: string, event: string): string {
    domain + "." + event
  }

  /** The parameters `{events: [key]}` of the upstream `JsDebug.subscribe` request. */
  function SubscribeParams(key: string): Option<Json> {
    Some(JObject(map["events" := JArray([JString(key)])]))
  }

  /** `subscribe(domain, event, cb)`: append the callback; the first one for its key enables the event upstream. */
  function AddSubscription(s: ClientState, domain: string, event: string, cb: Callback): ClientState {
    var key := EventKey(domain, event);
    var list := Subscribers(s, key) + [cb];
    var s1 := s.(subscriptions := s.subscriptions[key := list]);
    if |list| == 1 then Issue(s1, "JsDebug.subscribe", SubscribeParams(key)) else s1
  }

  /** The disposer of a subscription: remove the first occurrence of the callback from its key's list. */
  function Unsubscribe(s: ClientState, key: string, cb: Callback): ClientState {
    if key !in s.subscriptions then s
    else
      var list := s.subscriptions[key];
      var i := IndexOf(list, cb);
      if i == -1 then s
      else s.(subscriptions := s.subscriptions[key := list[..i] + list[i + 1..]])
  }

  /** The parameters `{name}` of the `Runtime.addBinding` request. */
  function BindingParams(name: string): Option<Json> {
    Some(JObject(map["name" := JString(name)]))
  }

  /** `dispose`: close the socket; pending requests stay pending. */
  function Close(s: ClientState): ClientState {
    s.(closed := true)
  }

  /** The ids of the first `n` requests. */
  function IssuedIds(n: nat): set<MessageId> {
    set k | 1 <= k <= n :: IdFor(k)
  }

  /**
   * The client's invariant: the counter counts the frames sent, the `i`-th
   * frame carries the id of counter value `i + 1`, and only issued ids are
   * pending.
   */
  ghost predicate WellFormed(s: ClientState) {
    && |s.sent| == s.lastMessageId
    && (forall i :: 0 <= i < |s.sent| ==> s.sent[i].id == IdFor(i + 1))
    && s.pending <= IssuedIds(s.lastMessageId)
  }

  /** The id `_send` builds next is never pending already. */
  lemma NextIdIsNew(s: ClientState)
    requires WellFormed(s)
    ensures IdFor(s.lastMessageId + 1) !in s.pending
  {
    if IdFor(s.lastMessageId + 1) in s.pending {
      var k :| 1 <= k <= s.lastMessageId && IdFor(k) == IdFor(s.lastMessageId + 1);
      IdForInjective(k, s.lastMessageId + 1);
    }
  }

  /** Ids issued by one client are pairwise distinct. */
  lemma SentIdsDistinct(s: ClientState, i: nat, j: nat)
    requires WellFormed(s)
    requires i < j < |s.sent|
    ensures s.sent[i].id != s.sent[j].id
  {
    if s.sent[i].id == s.sent[j].id {
      IdForInjective(i + 1, j + 1);
    }
  }

  /** `_send` keeps the invariant, adds exactly its new id to the pending set and one frame to the socket. */
  lemma IssuePreserves(s: ClientState, name: string, params: Option<Json>)
    requires WellFormed(s)
    ensures WellFormed(Issue(s, name, params))
    ensures IdFor(s.lastMessageId + 1) !in s.pending
    ensures Issue(s, name, params).lastMessageId == s.lastMessageId + 1
    ensures Issue(s, name, params).pending == s.pending + {IdFor(s.lastMessageId + 1)}
    ensures Issue(s, name, params).sent == s.sent + [RequestFrame(IdFor(s.lastMessageId + 1), name, params)]
    ensures Issue(s, name, params).subscriptions == s.subscriptions && Issue(s, name, params).settled == s.settled
  {
    NextIdIsNew(s);
    var t := Issue(s, name, params);
    forall x | x in t.pending ensures x in IssuedIds(t.lastMessageId) {
      if x in s.pending {
        var k :| 1 <= k <= s.lastMessageId && IdFor(k) == x;
        assert 1 <= k <= t.lastMessageId;
      } else {
        assert x == IdFor(t.lastMessageId);
      }
    }
  }

  lemma OnFramePreserves(codec: Codec, s: ClientState, f: Frame)
    requires WellFormed(s)
    ensures WellFormed(OnFrame(codec, s, f))
  {
  }

  lemma SubscribePreserves(s: ClientState, domain: string, event: string, cb: Callback)
    requires WellFormed(s)
    ensures WellFormed(AddSubscription(s, domain, event, cb))
  {
    var key := EventKey(domain, event);
    var s1 := s.(subscriptions := s.subscriptions[key := Subscribers(s, key) + [cb]]);
    IssuePreserves(s1, "JsDebug.subscribe", SubscribeParams(key));
  }

  /**
   * An event changes no request state; it calls every subscriber of its name
   * in registration order, and none when the name has no subscribers.
   */
  lemma EventLeavesRequestsAlone(codec: Codec, s: ClientState, name: string, params: Json)
    ensures var t := OnFrame(codec, s, Event(name, params));
      t.pending == s.pending && t.settled == s.settled && t.sent == s.sent && t.subscriptions == s.subscriptions
    ensures Subscribers(s, name) == [] ==> OnFrame(codec, s, Event(name, params)) == s
  {
  }

  /** Plain subscribers are each called once with the event's `params`, in registration order. */
  lemma {:induction false} FanOutSubscribers(codec: Codec, cbs: seq<Callback>, params: Json)
    requires forall i :: 0 <= i < |cbs| ==> cbs[i].Subscriber?
    ensures |FanOut(codec, cbs, params).invoked| == |cbs|
    ensures forall i :: 0 <= i < |cbs| ==> FanOut(codec, cbs, params).invoked[i] == Invocation(cbs[i].token, params)
    ensures FanOut(codec, cbs, params).errors == []
    decreases |cbs|
  {
    if cbs != [] {
      var init := cbs[..|cbs| - 1];
      FanOutSubscribers(codec, init, params);
    }
  }

  /**
   * A response for an id that is not pending (never issued, or already
   * settled) changes nothing. A response for a pending id removes exactly that
   * id, and rejects on `error`, else resolves on `result`, else settles nothing.
   */
  lemma ResponseCorrelates(codec: Codec, s: ClientState, id: MessageId, error: Option<Json>, result: Option<Json>)
    ensures id !in s.pending ==> OnFrame(codec, s, Response(id, error, result)) == s
    ensures id in s.pending ==>
      var t := OnFrame(codec, s, Response(id, error, result));
      && t.pending == s.pending - {id} && id !in t.pending
      && t.settled[..|s.settled|] == s.settled
      && (error.Some? ==> t.settled == s.settled + [Rejected(id, error.value)])
      && (error.None? && result.Some? ==> t.settled == s.settled + [Resolved(id, result.value)])
      && (error.None? && result.None? ==> t.settled == s.settled)
      && t.invoked == s.invoked && t.subscriptions == s.subscriptions && t.sent == s.sent
  {
  }

  /** Handling frames in order. */
  function RunFrames(codec: Codec, s: ClientState, fs: seq<Frame>): ClientState
    decreases |fs|
  {
    if fs == [] then s else RunFrames(codec, OnFrame(codec, s, fs[0]), fs[1..])
  }

  /** The ids carried by the responses among `fs`. */
  function ResponseIds(fs: seq<Frame>): set<MessageId>
    decreases |fs|
  {
    if fs == [] then {}
    else (if fs[0].Response? then {fs[0].id} else {}) + ResponseIds(fs[1..])
  }

  /**
   * Request correlation: whatever frames arrive, in whatever order, every
   * pending request is settled at most once, only by a response with its own
   * id; what stays pending is what no response named; and nothing is sent.
   */
  lemma {:induction false} FramesSettleEachRequestOnce(codec: Codec, s: ClientState, fs: seq<Frame>)
    ensures var t := RunFrames(codec, s, fs);
      && t.pending == s.pending - ResponseIds(fs)
      && |t.settled| >= |s.settled|
      && t.settled[..|s.settled|] == s.settled
      && (forall i :: |s.settled| <= i < |t.settled| ==> t.settled[i].id in s.pending && t.settled[i].id !in t.pending)
      && (forall i, j :: |s.settled| <= i < j < |t.settled| ==> t.settled[i].id != t.settled[j].id)
      && t.sent == s.sent && t.lastMessageId == s.lastMessageId
    decreases |fs|
  {
    if fs != [] {
      var u := OnFrame(codec, s, fs[0]);
      var t := RunFrames(codec, u, fs[1..]);
      FramesSettleEachRequestOnce(codec, u, fs[1..]);
      assert t == RunFrames(codec, s, fs);
      assert u.pending <= s.pending;
      assert |u.settled| <= |s.settled| + 1;
      assert u.settled[..|s.settled|] == s.settled;
      assert |u.settled| == |s.settled| + 1 ==>
        fs[0].Response? && u.settled[|s.settled|].id == fs[0].id && fs[0].id in s.pending && fs[0].id !in u.pending;
      assert t.settled[..|u.settled|] == u.settled;
      assert t.settled[..|s.settled|] == s.settled;
      forall i | |s.settled| <= i < |t.settled|
        ensures t.settled[i].id in s.pending && t.settled[i].id !in t.pending
      {
        if i < |u.settled| {
          assert t.settled[i] == u.settled[i];
        }
      }
      forall i, j | |s.settled| <= i < j < |t.settled|
        ensures t.settled[i].id != t.settled[j].id
      {
        if i < |u.settled| {
          assert t.settled[i] == u.settled[i];
          assert t.settled[j].id in u.pending;
        }
      }
    }
  }

  /** Subscribing twice to one fresh key sends the upstream enable request once, and keeps both callbacks in order. */
  lemma EnableSentOnce(s: ClientState, domain: string, event: string, c1: Callback, c2: Callback)
    requires Subscribers(s, EventKey(domain, event)) == []
    ensures var t := AddSubscription(AddSubscription(s, domain, event, c1), domain, event, c2);
      && t.sent == s.sent + [RequestFrame(IdFor(s.lastMessageId + 1), "JsDebug.subscribe", SubscribeParams(EventKey(domain, event)))]
      && Subscribers(t, EventKey(domain, event)) == [c1, c2]
  {
  }

  /** `subscribe` sends the enable request exactly when the callback is the only one for its key. */
  lemma SubscribeSendsIffFirst(s: ClientState, domain: string, event: string, cb: Callback)
    ensures var t := AddSubscription(s, domain, event, cb);
      && Subscribers(t, EventKey(domain, event)) == Subscribers(s, EventKey(domain, event)) + [cb]
      && (Subscribers(s, EventKey(domain, event)) == [] ==>
            t.sent == s.sent + [RequestFrame(IdFor(s.lastMessageId + 1), "JsDebug.subscribe", SubscribeParams(EventKey(domain, event)))])
      && (Subscribers(s, EventKey(domain, event)) != [] ==> t.sent == s.sent && t.pending == s.pending)
      && (forall k :: k != EventKey(domain, event) ==> Subscribers(t, k) == Subscribers(s, k))
  {
  }

  /**
   * A subscription's disposer removes only the first occurrence of its
   * callback from its key's list, keeping the others and their order; other
   * keys are untouched, and a missing callback or key changes nothing.
   */
  lemma UnsubscribeRemovesFirst(s: ClientState, key: string, cb: Callback)
    ensures cb !in Subscribers(s, key) ==> Unsubscribe(s, key, cb) == s
    ensures cb in Subscribers(s, key) ==>
      var list := Subscribers(s, key);
      var i := IndexOf(list, cb);
      var rest := Subscribers(Unsubscribe(s, key, cb), key);
      && list[i] == cb && cb !in list[..i]
      && rest == list[..i] + list[i + 1..]
      && multiset(rest) == multiset(list) - multiset{cb}
    ensures forall k :: k != key ==> Subscribers(Unsubscribe(s, key, cb), k) == Subscribers(s, k)
    ensures Unsubscribe(s, key, cb).sent == s.sent && Unsubscribe(s, key, cb).pending == s.pending
  {
    if cb in Subscribers(s, key) {
      var list := Subscribers(s, key);
      var i := IndexOf(list, cb);
      assert list == list[..i] + [cb] + list[i + 1..];
    }
  }

  /**
   * A binding listener forwards only `bindingCalled` events that name its
   * binding; the untyped form hands the raw `payload` to its callback and
   * logs nothing.
   */
  lemma BindingFiltersByName(codec: Codec, name: string, validator: Option<nat>, target: nat, params: Json)
    ensures var e := Fire(codec, BindingListener(name, validator, target), params);
      && (Field(params, "name") != JString(name) ==> e == Effect([], []))
      && (Field(params, "name") == JString(name) ==> |e.invoked| == 1 && e.invoked[0].target == target)
      && (validator.None? && Field(params, "name") == JString(name) ==>
            e == Effect([Invocation(target, Field(params, "payload"))], []))
  {
  }

  /**
   * A typed binding calls its user callback exactly once per matching event,
   * with the decoded payload or `undefined` when it does not parse; failures
   * are only logged, and the validator's verdict changes nothing but the log.
   */
  lemma TypedBindingIsLenient(parse: Json -> Option<Json>, valid1: (nat, Json) -> bool, valid2: (nat, Json) -> bool,
                              name: string, v: nat, target: nat, params: Json)
    requires Field(params, "name") == JString(name)
    ensures var e := Fire(Codec(parse, valid1), BindingListener(name, Some(v), target), params);
      var data := parse(Field(params, "payload")).GetOr(JUndefined);
      && e.invoked == [Invocation(target, data)]
      && e.invoked == Fire(Codec(parse, valid2), BindingListener(name, Some(v), target), params).invoked
      && (parse(Field(params, "payload")).None? ==> data == JUndefined && UnparseablePayload(name, Field(params, "payload")) in e.errors)
      && (!valid1(v, data) ==> InvalidData(name, data) in e.errors)
  {
  }

  /**
   * The scenario: `request('Page.enable')` sends id "cdpClient1"; the
   * response `{id: "cdpClient1", result: {}}` resolves it with `{}`; the same
   * response again has no effect.
   */
  lemma PageEnableScenario(codec: Codec)
    ensures var s1 := Issue(Fresh(), "Page.enable", None);
      var f := Response("cdpClient1", None, Some(JObject(map[])));
      var s2 := OnFrame(codec, s1, f);
      && s1.sent == [RequestFrame("cdpClient1", "Page.enable", None)]
      && s2.settled == [Resolved("cdpClient1", JObject(map[]))]
      && s2.pending == {}
      && OnFrame(codec, s2, f) == s2
  {
    assert DigitChar(1) == '1';
    assert IdFor(1) == "cdpClient1";
    var s1 := Issue(Fresh(), "Page.enable", None);
    assert s1.pending == {"cdpClient1"};
  }

  /** Three subscriptions to one fresh event: all three callbacks in order, one enable request. */
  lemma SubscribeThree(domain: string, event: string, c1: Callback, c2: Callback, c3: Callback)
    ensures var s3 := AddSubscription(AddSubscription(AddSubscription(Fresh(), domain, event, c1), domain, event, c2),
                                      domain, event, c3);
      && Subscribers(s3, EventKey(domain, event)) == [c1, c2, c3]
      && |s3.sent| == 1 && s3.invoked == []
  {
    var s1 := AddSubscription(Fresh(), domain, event, c1);
    SubscribeSendsIffFirst(Fresh(), domain, event, c1);
    var s2 := AddSubscription(s1, domain, event, c2);
    SubscribeSendsIffFirst(s1, domain, event, c2);
    SubscribeSendsIffFirst(s2, domain, event, c3);
  }

  /** Plain subscribers with tokens 1, 2, 3 are called in that order. */
  lemma DispatchToThree(codec: Codec, s: ClientState, name: string, params: Json)
    requires Subscribers(s, name) == [Subscriber(1), Subscriber(2), Subscriber(3)]
    ensures OnFrame(codec, s, Event(name, params)).invoked
            == s.invoked + [Invocation(1, params), Invocation(2, params), Invocation(3, params)]
  {
    FanOutSubscribers(codec, Subscribers(s, name), params);
  }

  /** Removing the middle of three subscribers leaves the other two in order. */
  lemma RemoveMiddle(s: ClientState, name: string)
    requires Subscribers(s, name) == [Subscriber(1), Subscriber(2), Subscriber(3)]
    ensures Subscribers(Unsubscribe(s, name, Subscriber(2)), name) == [Subscriber(1), Subscriber(3)]
    ensures Unsubscribe(s, name, Subscriber(2)).invoked == s.invoked
  {
    var cbs := Subscribers(s, name);
    UnsubscribeRemovesFirst(s, name, Subscriber(2));
    assert IndexOf(cbs, Subscriber(2)) == 1 by {
      assert cbs[0] != Subscriber(2) && cbs[2] != Subscriber(2);
    }
  }

  /** Plain subscribers with tokens 1 and 3 are called in that order. */
  lemma DispatchToTwo(codec: Codec, s: ClientState, name: string, params: Json)
    requires Subscribers(s, name) == [Subscriber(1), Subscriber(3)]
    ensures OnFrame(codec, s, Event(name, params)).invoked == s.invoked + [Invocation(1, params), Invocation(3, params)]
  {
    FanOutSubscribers(codec, Subscribers(s, name), params);
  }

  /**
   * The scenario: C1, C2, C3 subscribe to one event; one event calls them in
   * that order; after C2's disposer runs, the event calls C1 and C3; the
   * upstream enable request was sent once.
   */
  lemma FanOutScenario(codec: Codec, params: Json)
    ensures var s3 := AddSubscription(AddSubscription(AddSubscription(Fresh(), "Network", "requestWillBeSent", Subscriber(1)),
                                          "Network", "requestWillBeSent", Subscriber(2)),
                                "Network", "requestWillBeSent", Subscriber(3));
      var e := Event("Network.requestWillBeSent", params);
      var s4 := Unsubscribe(s3, "Network.requestWillBeSent", Subscriber(2));
      && |s3.sent| == 1
      && OnFrame(codec, s3, e).invoked == [Invocation(1, params), Invocation(2, params), Invocation(3, params)]
      && OnFrame(codec, s4, e).invoked == [Invocation(1, params), Invocation(3, params)]
  {
    assert EventKey("Network", "requestWillBeSent") == "Network.requestWillBeSent";
    SubscribeThree("Network", "requestWillBeSent", Subscriber(1), Subscriber(2), Subscriber(3));
    var s3 := AddSubscription(AddSubscription(AddSubscription(Fresh(), "Network", "requestWillBeSent", Subscriber(1)),
                                          "Network", "requestWillBeSent", Subscriber(2)),
                                "Network", "requestWillBeSent", Subscriber(3));
    DispatchToThree(codec, s3, "Network.requestWillBeSent", params);
    RemoveMiddle(s3, "Network.requestWillBeSent");
    DispatchToTwo(codec, Unsubscribe(s3, "Network.requestWillBeSent", Subscriber(2)), "Network.requestWillBeSent", params);
  }

  /**
   * One client. The socket is represented by the frames written to it and
   * whether it was closed.
   */
  class CdpClient {
    const codec: Codec
    var lastMessageId: nat
    var pending: set<MessageId>
    var subscriptions: map<string, seq<Callback>>
    var sent: seq<RequestFrame>
    var settled: seq<Settlement>
    var invoked: seq<Invocation>
    var errors: seq<Diagnostic>
    var closed: bool

    function State(): ClientState
      reads this
    {
      ClientState(lastMessageId, pending, subscriptions, sent, settled, invoked, errors, closed)
    }

    ghost predicate Valid()
      reads this
    {
      WellFormed(State())
    }

    constructor (codec: Codec)
      ensures Valid() && State() == Fresh() && this.codec == codec
    {
      this.codec := codec;
      lastMessageId := 0;
      pending := {};
      subscriptions := map[];
      sent := [];
      settled := [];
      invoked := [];
      errors := [];
      closed := false;
    }

    /** `_send`: returns the id of the request it registered and sent. */
    method Send(name: string, params: Option<Json>) returns (id: MessageId)
      requires Valid()
      modifies this
      ensures Valid() && State() == Issue(old(State()), name, params)
      ensures id == IdFor(lastMessageId) && id !in old(pending) && lastMessageId == old(lastMessageId) + 1
      ensures pending == old(pending) + {id} && sent == old(sent) + [RequestFrame(id, name, params)]
    {
      IssuePreserves(State(), name, params);
      lastMessageId := lastMessageId + 1;
      id := IdPrefix + Decimal(lastMessageId);
      pending := pending + {id};
      sent := sent + [RequestFrame(id, name, params)];
    }

    /** `requestUntyped(domain, name, params)`. */
    method RequestUntyped(domain: string, name: string, params: Option<Json>) returns (id: MessageId)
      requires Valid()
      modifies this
      ensures Valid() && State() == Issue(old(State()), EventKey(domain, name), params)
      ensures id == IdFor(lastMessageId) && id !in old(pending)
    {
      id := Send(domain + "." + name, params);
    }

    /** `request(name, params)`. */
    method Request(name: string, params: Option<Json>) returns (id: MessageId)
      requires Valid()
      modifies this
      ensures Valid() && State() == Issue(old(State()), name, params)
      ensures id == IdFor(lastMessageId) && id !in old(pending)
    {
      id := Send(name, params);
    }

    /** The socket's message handler. */
    method HandleFrame(f: Frame)
      requires Valid()
      modifies this
      ensures Valid() && State() == OnFrame(codec, old(State()), f)
    {
      OnFramePreserves(codec, State(), f);
      match f {
        case Event(name, params) =>
          var callbacks := if name in subscriptions then subscriptions[name] else [];
          for i := 0 to |callbacks|
            invariant invoked == old(invoked) + FanOut(codec, callbacks[..i], params).invoked
            invariant errors == old(errors) + FanOut(codec, callbacks[..i], params).errors
            invariant lastMessageId == old(lastMessageId) && pending == old(pending)
            invariant subscriptions == old(subscriptions) && sent == old(sent)
            invariant settled == old(settled) && closed == old(closed)
          {
            assert callbacks[..i + 1][..i] == callbacks[..i];
            var e := Fire(codec, callbacks[i], params);
            invoked := invoked + e.invoked;
            errors := errors + e.errors;
          }
          assert callbacks[..|callbacks|] == callbacks;
        case Response(id, error, result) =>
          if id !in pending {
            return;
          }
          pending := pending - {id};
          if error.Some? {
            settled := settled + [Rejected(id, error.value)];
          } else if result.Some? {
            settled := settled + [Resolved(id, result.value)];
          }
      }
    }

    /** `subscribe(domain, event, cb)`: returns the key and callback its disposer removes. */
    method Subscribe(domain: string, event: string, cb: Callback) returns (key: string)
      requires Valid()
      modifies this
      ensures Valid() && State() == AddSubscription(old(State()), domain, event, cb)
      ensures key == EventKey(domain, event)
    {
      SubscribePreserves(State(), domain, event, cb);
      key := domain + "." + event;
      var list := if key in subscriptions then subscriptions[key] else [];
      list := list + [cb];
      subscriptions := subscriptions[key := list];
      if |list| == 1 {
        assert EventKey("JsDebug", "subscribe") == "JsDebug.subscribe";
        var _ := RequestUntyped("JsDebug", "subscribe", SubscribeParams(key));
      }
    }

    /** The disposer returned by `subscribe` for `key` and `cb`. */
    method DisposeSubscription(key: string, cb: Callback)
      requires Valid()
      modifies this
      ensures Valid() && State() == Unsubscribe(old(State()), key, cb)
    {
      if key !in subscriptions {
        return;
      }
      var callbacks := subscriptions[key];
      var index := IndexOf(callbacks, cb);
      if index != -1 {
        subscriptions := subscriptions[key := callbacks[..index] + callbacks[index + 1..]];
      }
    }

    /**
     * `addBinding`, up to its `await`: sends `Runtime.addBinding` with the
     * binding's name and returns that request's id.
     */
    method AddBinding(name: string) returns (id: MessageId)
      requires Valid()
      modifies this
      ensures Valid() && State() == Issue(old(State()), "Runtime.addBinding", BindingParams(name))
      ensures id == IdFor(lastMessageId)
    {
      id := Request("Runtime.addBinding", BindingParams(name));
    }

    /**
     * `addBinding`, after its request resolved: subscribe the binding
     * listener to `Runtime.bindingCalled`. `validator` is given for the typed
     * `Binding` form.
     */
    method AddBindingResolved(name: string, validator: Option<nat>, target: nat)
      requires Valid()
      modifies this
      ensures Valid()
      ensures State() == AddSubscription(old(State()), "Runtime", "bindingCalled", BindingListener(name, validator, target))
    {
      var _ := Subscribe("Runtime", "bindingCalled", BindingListener(name, validator, target));
    }

    /** `dispose`: close the socket. */
    method Dispose()
      requires Valid()
      modifies this
      ensures Valid() && State() == Close(old(State()))
    {
      closed := true;
    }
  }
}
