/**
 * `SimpleTypedMessageConnection` (`src/utils/rpc/IMessageStream.ts`): a
 * one-way typed event bus over a message stream. Calling a named operation
 * sends `{method, args}`; an incoming envelope is dispatched by method name
 * to a handler table, and unknown names are dropped.
 *
 * Handlers are opaque tokens; calling one is recorded as an `Invocation`.
 */
module TypedConnections {
  import opened Wrappers
  import opened JsValues
  import opened MessageStreams

  /** The envelope `{method: name, args}` exchanged on the stream. */
  datatype RpcMessage = RpcMessage(name: string, args: seq<Json>)

  /** The own properties of a handler object: operation name to handler token. */
  type HandlerTable = map<string, nat>

  /** One call `handler(...args)`. */
  datatype Invocation = Invocation(handler: nat, args: seq<Json>)

  /** What receiving one envelope does. */
  datatype DispatchOutcome =
    | Invoke(call: Invocation)
    | Ignore
      /** A TypeError escapes from the stream's listener. */
    | Throw(member: string)

  /**
   * Inherited members whose call throws a TypeError whatever the wire
   * arguments: `__proto__` is not a function, and
   * `__defineGetter__`/`__defineSetter__` need a function argument, which a
   * message never carries.
   */
  const AlwaysThrowingInheritedMembers: set<string> := {"__proto__", "__defineGetter__", "__defineSetter__"}

  /**
   * Inherited members that convert their first argument to a property key
   * (`hasOwnProperty`, `propertyIsEnumerable`, `__lookupGetter__`,
   * `__lookupSetter__`), which throws when that argument has no usable
   * string conversion.
   */
  const KeyTakingInheritedMembers: set<string> := {"hasOwnProperty", "propertyIsEnumerable", "__lookupGetter__", "__lookupSetter__"}

  /**
   * Converting a wire value to a string throws: an object with an own
   * `toString` (never callable on the wire, and the inherited `valueOf`
   * answers the object itself), or an array holding such a value, which
   * `join` converts in turn.
   */
  predicate ToStringThrows(v: Json)
    decreases v
  {
    match v
    case JObject(fields) => "toString" in fields
    case JArray(items) => exists i :: 0 <= i < |items| && ToStringThrows(items[i])
    case _ => false
  }

  /** Calling the inherited member `name` with `args` throws. */
  predicate InheritedCallThrows(name: string, args: seq<Json>) {
    || name in AlwaysThrowingInheritedMembers
    || (name in KeyTakingInheritedMembers && |args| > 0 && ToStringThrows(args[0]))
  }

  /**
   * The receive side as written: `message.method in this._handler` also finds
   * the members a handler object literal inherits from `Object.prototype`,
   * which are then called with the envelope's arguments. Apart from the
   * throwing calls above, they return without changing anything the stream
   * or its handlers can observe, which reads as ignoring the envelope.
   */
  function DispatchAsWritten(handler: HandlerTable, msg: RpcMessage): DispatchOutcome {
    if msg.name in handler then Invoke(Invocation(handler[msg.name], msg.args))
    else if InheritedCallThrows(msg.name, msg.args) then Throw(msg.name)
    else Ignore
  }

  /** An envelope naming `__proto__` makes the as-written receive side throw instead of ignoring it. */
  lemma ProtoEnvelopeThrows(handler: HandlerTable)
    requires "__proto__" !in handler
    ensures DispatchAsWritten(handler, RpcMessage("__proto__", [])) == Throw("__proto__")
  {
  }

  /**
   * `hasOwnProperty` with the argument `{"toString": 0}` throws as written,
   * while the same name with a plain string argument is ignored.
   */
  lemma KeyArgumentEnvelopeThrows(handler: HandlerTable)
    requires "hasOwnProperty" !in handler
    ensures DispatchAsWritten(handler, RpcMessage("hasOwnProperty", [JObject(map["toString" := JNumber(0)])]))
            == Throw("hasOwnProperty")
    ensures DispatchAsWritten(handler, RpcMessage("hasOwnProperty", [JString("x")])) == Ignore
  {
  }

  /**
   * The receive side as intended: a name that is an own key of the handler
   * table invokes that handler with the arguments; any other name is ignored
   * and nothing is thrown.
   */
  function Dispatch(handler: HandlerTable, msg: RpcMessage): (o: DispatchOutcome)
    ensures !o.Throw?
    ensures o.Invoke? <==> msg.name in handler
    ensures o.Invoke? ==> o.call == Invocation(handler[msg.name], msg.args)
  {
    if msg.name in handler then Invoke(Invocation(handler[msg.name], msg.args)) else Ignore
  }

  /**
   * The two receive sides differ exactly on envelopes that name no handler
   * but an inherited member whose call with those arguments throws.
   */
  lemma DispatchDiffersOnlyOnInheritedMembers(handler: HandlerTable, msg: RpcMessage)
    ensures Dispatch(handler, msg) != DispatchAsWritten(handler, msg)
        <==> msg.name !in handler && InheritedCallThrows(msg.name, msg.args)
    ensures Dispatch(handler, msg) != DispatchAsWritten(handler, msg) ==> DispatchAsWritten(handler, msg) == Throw(msg.name)
  {
  }

  /** The handler calls one receive makes. */
  function Calls(o: DispatchOutcome): seq<Invocation> {
    if o.Invoke? then [o.call] else []
  }

  /** The handler calls made by receiving `msgs` in order. */
  function DispatchAll(handler: HandlerTable, msgs: seq<RpcMessage>): seq<Invocation>
    decreases |msgs|
  {
    if msgs == [] then [] else Calls(Dispatch(handler, msgs[0])) + DispatchAll(handler, msgs[1..])
  }

  /**
   * Receiving a run of envelopes calls one handler per known name, in arrival
   * order, with that envelope's arguments; unknown names contribute nothing.
   */
  lemma {:induction false} DispatchAllKnown(handler: HandlerTable, msgs: seq<RpcMessage>)
    requires forall i :: 0 <= i < |msgs| ==> msgs[i].name in handler
    ensures |DispatchAll(handler, msgs)| == |msgs|
    ensures forall i :: 0 <= i < |msgs| ==>
              DispatchAll(handler, msgs)[i] == Invocation(handler[msgs[i].name], msgs[i].args)
    decreases |msgs|
  {
    if msgs != [] {
      DispatchAllKnown(handler, msgs[1..]);
    }
  }

  lemma {:induction false} DispatchAllUnknown(handler: HandlerTable, msgs: seq<RpcMessage>)
    requires forall i :: 0 <= i < |msgs| ==> msgs[i].name !in handler
    ensures DispatchAll(handler, msgs) == []
    decreases |msgs|
  {
    if msgs != [] {
      DispatchAllUnknown(handler, msgs[1..]);
    }
  }

  /**
   * One connection: the stream it owns, the handler table bound for its
   * lifetime, and the handler calls it has made. `createHost` and
   * `createClient` build the same object; they differ only in static types.
   */
  class TypedMessageConnection {
    const stream: PeerStream<RpcMessage, RpcMessage>
    const handler: HandlerTable
    var invoked: seq<Invocation>

    /** `receiver` is the token of the dispatching closure installed as the stream's listener. */
    constructor (stream: PeerStream<RpcMessage, RpcMessage>, handler: HandlerTable, receiver: Listener)
      modifies stream
      ensures this.stream == stream && this.handler == handler && invoked == []
      ensures stream.listener == Some(receiver)
      ensures stream.sent == old(stream.sent) && stream.disposed == old(stream.disposed)
    {
      this.stream := stream;
      this.handler := handler;
      invoked := [];
      new;
      stream.SetListener(receiver);
    }

    /** `api.<name>(...args)`: send one envelope and nothing else. */
    method Call(name: string, args: seq<Json>)
      modifies stream
      ensures stream.sent == old(stream.sent) + [RpcMessage(name, args)]
      ensures stream.listener == old(stream.listener) && stream.disposed == old(stream.disposed)
    {
      stream.SendMessage(RpcMessage(name, args));
    }

    /** The installed listener receives `msg`. */
    method Receive(msg: RpcMessage)
      modifies this
      ensures invoked == old(invoked) + Calls(Dispatch(handler, msg))
    {
      if msg.name in handler {
        invoked := invoked + [Invocation(handler[msg.name], msg.args)];
      }
    }
  }
}
