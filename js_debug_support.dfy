/**
 * Session helpers of the debug service
 * (`src/extension/debugService/JsDebugSupport.ts`): the memoising `Lazy`
 * cell, the formatting of the CDP proxy's WebSocket address, the registry
 * that hands out one `JsDebugSession` per supported debug session, and the
 * fail-closed DevTools support probe.
 *
 * The VS Code command that asks js-debug for the proxy, the WebSocket
 * connection and the `Page.enable` round trip are outside the model: their
 * outcomes are inputs (`ProbeEnv`).
 */
module JsDebugSupport {
  import opened Wrappers
  import opened JsValues

  // ---------------------------------------------------------------------
  // Lazy

  /** A `Lazy` cell: whether it holds a value, the value, and how many times the factory ran. */
  datatype LazyState<T> = LazyState(hasValue: bool, value: Option<T>, evaluations: nat)

  /** The state of a value read, and the value returned. */
  datatype Got<T> = Got(state: LazyState<T>, value: T)

  /** The state of a run of value reads, and the values returned in order. */
  datatype Trace<T> = Trace(state: LazyState<T>, values: seq<T>)

  function Unevaluated<T>(): LazyState<T> {
    LazyState(false, None, 0)
  }

  /**
   * The cell's invariant for a factory whose `i`-th run yields `produce(i)`:
   * the factory ran once exactly when a value is held, and that value is the
   * first run's.
   */
  ghost predicate Consistent<T>(produce: nat -> T, s: LazyState<T>) {
    && s.evaluations == (if s.hasValue then 1 else 0)
    && s.value == (if s.hasValue then Some(produce(0)) else None)
  }

  /**
   * Reading `value`: run the factory (its next run) and store the result on
   * the first read; return the stored value.
   */
  function Access<T>(produce: nat -> T, s: LazyState<T>): (g: Got<T>)
    requires s.hasValue ==> s.value.Some?
    ensures g.state.hasValue && g.state.value == Some(g.value)
  {
    if s.hasValue then Got(s, s.value.value)
    else
      var v := produce(s.evaluations);
      Got(LazyState(true, Some(v), s.evaluations + 1), v)
  }

  /** `k` reads of `value` in a row. */
  function Accesses<T>(produce: nat -> T, s: LazyState<T>, k: nat): (t: Trace<T>)
    requires s.hasValue ==> s.value.Some?
    ensures |t.values| == k
    decreases k
  {
    if k == 0 then Trace(s, [])
    else
      var g := Access(produce, s);
      var t := Accesses(produce, g.state, k - 1);
      Trace(t.state, [g.value] + t.values)
  }

  /** A read keeps the cell's invariant and returns the first run's value. */
  lemma AccessKeepsConsistent<T>(produce: nat -> T, s: LazyState<T>)
    requires Consistent(produce, s)
    ensures Consistent(produce, Access(produce, s).state)
    ensures Access(produce, s).value == produce(0)
  {
  }

  /** Once a value is held, reads return it and change nothing. */
  lemma {:induction false} HeldValueIsReturned<T>(produce: nat -> T, s: LazyState<T>, k: nat)
    requires s.hasValue && s.value.Some?
    ensures Accesses(produce, s, k).state == s
    ensures forall i :: 0 <= i < k ==> Accesses(produce, s, k).values[i] == s.value.value
    decreases k
  {
    if k > 0 {
      HeldValueIsReturned(produce, s, k - 1);
    }
  }

  /**
   * From a fresh cell, any number of reads runs the factory at most once
   * (exactly once if there is a read), and every read returns that run's
   * value.
   */
  lemma LazyEvaluatesOnce<T>(produce: nat -> T, k: nat)
    ensures var t := Accesses(produce, Unevaluated(), k);
      && t.state.evaluations == (if k == 0 then 0 else 1)
      && forall i :: 0 <= i < k ==> t.values[i] == produce(0)
  {
    if k > 0 {
      var g := Access(produce, Unevaluated());
      HeldValueIsReturned(produce, g.state, k - 1);
      var t := Accesses(produce, Unevaluated(), k);
      assert t.values == [g.value] + Accesses(produce, g.state, k - 1).values;
      forall i | 0 <= i < k
        ensures t.values[i] == produce(0)
      {
        if i > 0 {
          assert t.values[i] == Accesses(produce, g.state, k - 1).values[i - 1];
        }
      }
    }
  }

  /** `class Lazy<T>`; the factory's `i`-th run yields `produce(i)`. */
  class Lazy<T> {
    const produce: nat -> T
    var hasValue: bool
    var value: Option<T>
    var evaluations: nat

    function State(): LazyState<T>
      reads this
    {
      LazyState(hasValue, value, evaluations)
    }

    ghost predicate Valid()
      reads this
    {
      Consistent(produce, State())
    }

    constructor (produce: nat -> T)
      ensures Valid() && State() == Unevaluated() && this.produce == produce
    {
      this.produce := produce;
      hasValue := false;
      value := None;
      evaluations := 0;
    }

    /** The `value` getter. */
    method Value() returns (v: T)
      requires Valid()
      modifies this
      ensures Valid() && Got(State(), v) == Access(produce, old(State()))
      ensures v == produce(0)
    {
      AccessKeepsConsistent(produce, State());
      if !hasValue {
        value := Some(produce(evaluations));
        evaluations := evaluations + 1;
        hasValue := true;
      }
      v := value.value;
    }
  }

  // ---------------------------------------------------------------------
  // getWsAddress

  /** The `{host, port, path}` that js-debug's `requestCDPProxy` command answers. */
  datatype ProxyData = ProxyData(host: string, port: nat, path: Option<string>)

  const WsScheme: string := "ws://"

  /** `getWsAddress`'s formatting: `ws://host:port` followed by the path, if any. */
  function WsAddress(data: Option<ProxyData>): (r: Option<string>)
    ensures r.None? <==> data.None?
    ensures r.Some? ==> |r.value| > |WsScheme| && r.value[..|WsScheme|] == WsScheme
  {
    match data
    case None => None
    case Some(d) => Some(WsScheme + d.host + ":" + Decimal(d.port) + d.path.GetOr(""))
  }

  /** The length of the run of decimal digits that starts `s`. */
  function DigitRun(s: string): (n: nat)
    ensures n <= |s| && AllDigits(s[..n])
    ensures n < |s| ==> !IsDigit(s[n])
    decreases |s|
  {
    if |s| == 0 || !IsDigit(s[0]) then 0
    else
      var k := DigitRun(s[1..]);
      assert s[..k + 1] == [s[0]] + s[1..][..k];
      k + 1
  }

  /** The digit run of digits followed by a non-digit (or nothing) is exactly those digits. */
  lemma {:induction false} DigitRunOfDigits(ds: string, rest: string)
    requires AllDigits(ds)
    requires rest != [] ==> !IsDigit(rest[0])
    ensures DigitRun(ds + rest) == |ds|
    decreases |ds|
  {
    if ds != [] {
      assert (ds + rest)[1..] == ds[1..] + rest;
      DigitRunOfDigits(ds[1..], rest);
    }
  }

  /**
   * Reading a proxy address back: the host up to the first ':', the port's
   * digits, and what follows as the path (absent when empty).
   */
  function ParseWsAddress(url: string): Option<ProxyData> {
    if |url| < |WsScheme| || url[..|WsScheme|] != WsScheme then None
    else ParseHostAndPort(url[|WsScheme|..])
  }

  function ParseHostAndPort(rest: string): Option<ProxyData> {
    var colon := IndexOf(rest, ':');
    if colon < 0 then None else ParsePortAndPath(rest[..colon], rest[colon + 1..])
  }

  function ParsePortAndPath(host: string, tail: string): Option<ProxyData> {
    var n := DigitRun(tail);
    if n == 0 then None
    else Some(ProxyData(host, ParseDecimal(tail[..n]), if n == |tail| then None else Some(tail[n..])))
  }

  /** Proxy data whose address can be read back: no ':' in the host, no digit opening the path. */
  predicate Unambiguous(d: ProxyData) {
    && ':' !in d.host
    && (d.path.GetOr("") != [] ==> !IsDigit(d.path.GetOr("")[0]))
  }

  /** An absent path and an empty path format alike (`data.path || ''`). */
  function Normalized(d: ProxyData): ProxyData {
    d.(path := if d.path.GetOr("") == [] then None else d.path)
  }

  /** The first `x` in `a + [x] + b` is the one after `a` when `a` has none. */
  lemma IndexOfAfter<T>(a: seq<T>, x: T, b: seq<T>)
    requires x !in a
    ensures IndexOf(a + [x] + b, x) == |a|
  {
    var s := a + [x] + b;
    assert s[|a|] == x;
    assert s[..|a|] == a;
  }

  /** The port-and-path part of an address reads back as the port and the path. */
  lemma PortAndPathReadBack(host: string, port: nat, path: string)
    requires path != [] ==> !IsDigit(path[0])
    ensures ParsePortAndPath(host, Decimal(port) + path) == Some(ProxyData(host, port, if path == [] then None else Some(path)))
  {
    var digits := Decimal(port);
    var tail := digits + path;
    DigitRunOfDigits(digits, path);
    assert tail[..|digits|] == digits;
    ParseDecimalOfDecimal(port);
    assert tail[|digits|..] == path;
  }

  /** The host is what precedes the first ':'. */
  lemma HostReadBack(host: string, tail: string)
    requires ':' !in host
    ensures ParseHostAndPort(host + [':'] + tail) == ParsePortAndPath(host, tail)
  {
    var rest := host + [':'] + tail;
    IndexOfAfter(host, ':', tail);
    assert rest[..|host|] == host && rest[|host| + 1..] == tail;
  }

  /** The address as scheme, host, ':' and the port-and-path part. */
  lemma WsAddressShape(d: ProxyData)
    ensures WsAddress(Some(d)) == Some(WsScheme + (d.host + [':'] + (Decimal(d.port) + d.path.GetOr(""))))
  {
    var digits, path := Decimal(d.port), d.path.GetOr("");
    calc {
      WsScheme + d.host + ":" + digits + path;
      WsScheme + (d.host + [':']) + digits + path;
      WsScheme + (d.host + [':'] + digits) + path;
      WsScheme + (d.host + [':'] + digits + path);
      WsScheme + (d.host + [':'] + (digits + path));
    }
  }

  /** The scheme is stripped. */
  lemma SchemeReadBack(rest: string)
    ensures ParseWsAddress(WsScheme + rest) == ParseHostAndPort(rest)
  {
    var url := WsScheme + rest;
    assert url[..|WsScheme|] == WsScheme;
    assert url[|WsScheme|..] == rest;
  }

  /** Formatting then reading back gives the proxy data, up to an empty path. */
  lemma ParseWsAddressOfWsAddress(d: ProxyData)
    requires Unambiguous(d)
    ensures ParseWsAddress(WsAddress(Some(d)).value) == Some(Normalized(d))
  {
    var path := d.path.GetOr("");
    var tail := Decimal(d.port) + path;
    var rest := d.host + [':'] + tail;
    WsAddressShape(d);
    SchemeReadBack(rest);
    HostReadBack(d.host, tail);
    PortAndPathReadBack(d.host, d.port, path);
  }

  /** Two unambiguous proxies get the same address exactly when they agree up to an empty path. */
  lemma WsAddressDeterminesProxy(d1: ProxyData, d2: ProxyData)
    requires Unambiguous(d1) && Unambiguous(d2)
    ensures WsAddress(Some(d1)) == WsAddress(Some(d2)) <==> Normalized(d1) == Normalized(d2)
  {
    if WsAddress(Some(d1)) == WsAddress(Some(d2)) {
      ParseWsAddressOfWsAddress(d1);
      ParseWsAddressOfWsAddress(d2);
    }
    if Normalized(d1) == Normalized(d2) {
      assert d1.path.GetOr("") == d2.path.GetOr("");
    }
  }

  // ---------------------------------------------------------------------
  // supportsDevTools

  /** The answer of the `requestCDPProxy` command, or its failure. */
  datatype AddressLookup = Answered(data: Option<ProxyData>) | LookupThrows

  /** What opening the probe's WebSocket does. */
  datatype ConnectOutcome =
    | Opens
      /** The `WebSocket` constructor throws (a malformed address). */
    | ThrowsAtOnce
      /** The socket reports an error (refused, unreachable) and never opens. */
    | ErrorsBeforeOpen

  /** What the `Page.enable` request does. */
  datatype RequestOutcome = Succeeds | Fails | NeverSettles

  /** The outside world one probe runs against. */
  datatype ProbeEnv = ProbeEnv(lookup: AddressLookup, connect: ConnectOutcome, enable: RequestOutcome)

  /** How the probe's promise ends. */
  datatype ProbeResult = Resolves(supported: bool) | Rejects | StaysPending

  /** One run of the probe: its promise, whether a client was connected, and whether it was disposed. */
  datatype ProbeRun = ProbeRun(result: ProbeResult, connected: bool, disposed: bool)

  /** The probe once a client is connected: `Page.enable`, disposing the client in the `finally`. */
  function ProbeConnected(enable: RequestOutcome): ProbeRun {
    match enable
    case Succeeds => ProbeRun(Resolves(true), true, true)
    case Fails => ProbeRun(Resolves(false), true, true)
    case NeverSettles => ProbeRun(StaysPending, true, false)
  }

  /**
   * `_supportsDevTools` as written: `connectToAddress` waits for 'open' only,
   * so a socket that errors before opening leaves the probe pending forever
   * and the `catch` that returns false never runs.
   */
  function ProbeAsWritten(env: ProbeEnv): ProbeRun {
    match env.lookup
    case LookupThrows => ProbeRun(Rejects, false, false)
    case Answered(data) =>
      if WsAddress(data).None? then ProbeRun(Resolves(false), false, false)
      else
        match env.connect
        case ThrowsAtOnce => ProbeRun(Resolves(false), false, false)
        case ErrorsBeforeOpen => ProbeRun(StaysPending, false, false)
        case Opens => ProbeConnected(env.enable)
  }

  /**
   * `_supportsDevTools` as intended: a connection that fails makes
   * `connectToAddress` reject, and the probe answers false.
   */
  function Probe(env: ProbeEnv): (r: ProbeRun)
    ensures r.result == StaysPending ==> r.connected && env.enable == NeverSettles
    ensures env.connect != Opens ==> !r.connected && r.result != StaysPending
  {
    match env.lookup
    case LookupThrows => ProbeRun(Rejects, false, false)
    case Answered(data) =>
      if WsAddress(data).None? then ProbeRun(Resolves(false), false, false)
      else if env.connect != Opens then ProbeRun(Resolves(false), false, false)
      else ProbeConnected(env.enable)
  }

  /** A refused connection: the as-written probe never answers, the intended one answers false. */
  lemma RefusedConnectionHangs()
    ensures var env := ProbeEnv(Answered(Some(ProxyData("127.0.0.1", 9229, None))), ErrorsBeforeOpen, Succeeds);
      ProbeAsWritten(env).result == StaysPending && Probe(env).result == Resolves(false)
  {
  }

  /** The two probes differ exactly when an address resolves and the socket errors before opening. */
  lemma ProbeDiffersOnlyOnRefusal(env: ProbeEnv)
    ensures ProbeAsWritten(env) != Probe(env)
        <==> env.lookup.Answered? && env.lookup.data.Some? && env.connect == ErrorsBeforeOpen
  {
  }

  /**
   * Fail closed: the probe answers true exactly when an address resolves, the
   * socket opens and `Page.enable` succeeds; it rejects only when the address
   * lookup itself throws; and it stays pending only on a `Page.enable` that
   * never settles.
   */
  lemma ProbeFailsClosed(env: ProbeEnv)
    ensures Probe(env).result == Resolves(true)
        <==> env.lookup.Answered? && env.lookup.data.Some? && env.connect == Opens && env.enable == Succeeds
    ensures Probe(env).result == Rejects <==> env.lookup == LookupThrows
    ensures Probe(env).result == StaysPending
        <==> env.lookup.Answered? && env.lookup.data.Some? && env.connect == Opens && env.enable == NeverSettles
  {
  }

  /** A connected probe client is disposed whenever `Page.enable` settles, success or failure; none is left behind unsettled otherwise. */
  lemma ProbeDisposesClient(env: ProbeEnv)
    ensures Probe(env).connected <==>
      env.lookup.Answered? && env.lookup.data.Some? && env.connect == Opens
    ensures Probe(env).disposed <==> Probe(env).connected && env.enable != NeverSettles
  {
  }

  // ---------------------------------------------------------------------
  // JsDebugSession.from

  /** The js-debug session types `from` accepts. */
  const SupportedSessionTypes: seq<string> :=
    ["pwa-extensionHost", "node-terminal", "pwa-node", "pwa-chrome", "pwa-msedge", "chrome", "msedge"]

  /** A VS Code debug session as seen by the extension: its type and its id. */
  class DebugSessionProxy {
    const sessionType: string
    const id: string

    constructor (sessionType: string, id: string)
      ensures this.sessionType == sessionType && this.id == id
    {
      this.sessionType := sessionType;
      this.id := id;
    }
  }

  /**
   * `JsDebugSession`. `env(i)` is the world the `i`-th run of the DevTools
   * probe would meet; the probe is memoised in a `Lazy`.
   */
  class JsDebugSession {
    const debugSession: DebugSessionProxy
    const env: nat -> ProbeEnv
    const probe: Lazy<ProbeRun>
    var disposed: bool

    ghost predicate Valid()
      reads this, probe
    {
      && probe.Valid()
      && forall i :: probe.produce(i) == Probe(env(i))
    }

    constructor (debugSession: DebugSessionProxy, env: nat -> ProbeEnv)
      ensures this.debugSession == debugSession && this.env == env && !disposed
      ensures Valid() && fresh(probe) && probe.State() == Unevaluated()
    {
      this.debugSession := debugSession;
      this.env := env;
      var p := new Lazy(i => Probe(env(i)));
      probe := p;
      disposed := false;
    }

    /** `supportsDevTools`: every call answers with the first probe run's outcome. */
    method SupportsDevTools() returns (r: ProbeRun)
      requires Valid()
      modifies probe
      ensures Valid()
      ensures r == Probe(env(0))
      ensures probe.State() == LazyState(true, Some(Probe(env(0))), 1)
    {
      r := probe.Value();
    }

    /** `dispose` (the session registers no resources of its own). */
    method Dispose()
      modifies this
      ensures disposed
    {
      disposed := true;
    }
  }

  /** The static `_debugSessions` registry, with `from` and the termination handler it installs. */
  class SessionRegistry {
    var sessions: map<DebugSessionProxy, JsDebugSession>

    /** Every registered session belongs to its proxy and is live. */
    ghost predicate Valid()
      reads this, sessions.Values
    {
      forall p :: p in sessions ==> sessions[p].debugSession == p && !sessions[p].disposed
    }

    constructor ()
      ensures Valid() && sessions == map[]
    {
      sessions := map[];
    }

    /**
     * `from(proxy)`: nothing for an unsupported session type; otherwise the
     * registered session, created and registered on first use.
     */
    method From(proxy: DebugSessionProxy, env: nat -> ProbeEnv) returns (r: Option<JsDebugSession>)
      requires Valid()
      modifies this
      ensures Valid()
      ensures proxy.sessionType !in SupportedSessionTypes ==> r == None && sessions == old(sessions)
      ensures proxy.sessionType in SupportedSessionTypes && proxy in old(sessions) ==>
        r == Some(old(sessions)[proxy]) && sessions == old(sessions)
      ensures proxy.sessionType in SupportedSessionTypes && proxy !in old(sessions) ==>
        && r.Some? && fresh(r.value) && r.value.debugSession == proxy && r.value.env == env
        && r.value.Valid() && !r.value.disposed
        && sessions == old(sessions)[proxy := r.value]
    {
      if proxy.sessionType !in SupportedSessionTypes {
        return None;
      }
      if proxy in sessions {
        return Some(sessions[proxy]);
      }
      var session := new JsDebugSession(proxy, env);
      sessions := sessions[proxy := session];
      r := Some(session);
    }

    /** The proxy's `onDidTerminate` fires: dispose its session and drop the registry entry. */
    method Terminate(proxy: DebugSessionProxy)
      requires Valid()
      modifies this, sessions.Values
      ensures Valid()
      ensures proxy !in sessions
      ensures sessions == old(sessions) - {proxy}
      ensures proxy in old(sessions) ==> old(sessions)[proxy].disposed
    {
      if proxy in sessions {
        var session := sessions[proxy];
        session.Dispose();
        sessions := sessions - {proxy};
      }
    }
  }
}
