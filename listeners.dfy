/**
 * The network listener configuration of the proxy: a listener built from the
 * `listener.<i>.*` properties (defaults, per-key overrides, validation of
 * `maxKeepAliveRequests`) and the table of listening channels that a reload replaces.
 */
module Listeners {
  import opened Wrappers
  import Text

  /** A listener is identified by the address it binds. */
  datatype EndpointKey = EndpointKey(host: string, port: int)

  datatype NetworkListenerConfiguration = NetworkListenerConfiguration(
    host: string,
    port: int,
    keepAlive: bool,
    keepAliveIdle: int,
    keepAliveInterval: int,
    keepAliveCount: int,
    maxKeepAliveRequests: int,
    soBacklog: int)
  {
    function Key(): EndpointKey {
      EndpointKey(host, port)
    }
  }

  const DEFAULT_KEEP_ALIVE: bool := true
  const DEFAULT_SO_BACKLOG: int := 128
  const DEFAULT_KEEP_ALIVE_IDLE: int := 300
  const DEFAULT_KEEP_ALIVE_INTERVAL: int := 60
  const DEFAULT_KEEP_ALIVE_COUNT: int := 8
  const DEFAULT_MAX_KEEP_ALIVE_REQUESTS: int := 1000

  const MAX_KEEP_ALIVE_REQUESTS_MESSAGE: string := "maxKeepAliveRequests must be positive or -1"

  /** A property value that is not a decimal integer, or a listener the constructor rejects. */
  datatype ConfigError = NotANumber(key: string, value: string) | IllegalArgument(message: string)

  type Properties = map<string, string>

  /** The prefix of the properties of listener `i`. */
  function Prefix(i: nat): string {
    "listener." + Text.NatToString(i) + "."
  }

  /** An integer property, or its default when it is absent. */
  function GetInt(props: Properties, key: string, default: int): (r: Result<int, ConfigError>)
    ensures key !in props ==> r == Success(default)
    ensures key in props ==> (r.Success? <==> Text.ParseInt(props[key]).Some?)
    ensures key in props && r.Success? ==> Text.ParseInt(props[key]) == Some(r.value)
    ensures r.Failure? ==> r.error == NotANumber(key, props[key])
  {
    if key !in props then Success(default)
    else match Text.ParseInt(props[key])
      case None => Failure(NotANumber(key, props[key]))
      case Some(v) => Success(v)
  }

  /** A boolean property (true exactly for "true" in any case), or its default when absent. */
  function GetBoolean(props: Properties, key: string, default: bool): (b: bool)
    ensures key !in props ==> b == default
    ensures key in props ==> (b <==> Text.ParseBoolean(props[key]))
  {
    if key !in props then default else Text.ParseBoolean(props[key])
  }

  /** The only value rule of a listener: `maxKeepAliveRequests` is -1 (unlimited) or positive. */
  predicate ValidMaxKeepAliveRequests(n: int) {
    n == -1 || n > 0
  }

  /** The listener's constructor, which rejects an invalid `maxKeepAliveRequests`. */
  function NewListener(host: string, port: int, keepAlive: bool, keepAliveIdle: int, keepAliveInterval: int,
                       keepAliveCount: int, maxKeepAliveRequests: int, soBacklog: int): (r: Result<NetworkListenerConfiguration, ConfigError>)
    ensures r.Success? <==> ValidMaxKeepAliveRequests(maxKeepAliveRequests)
    ensures r.Failure? ==> r.error == IllegalArgument(MAX_KEEP_ALIVE_REQUESTS_MESSAGE)
    ensures r.Success? ==> r.value == NetworkListenerConfiguration(host, port, keepAlive, keepAliveIdle, keepAliveInterval,
                                                                   keepAliveCount, maxKeepAliveRequests, soBacklog)
  {
    if !ValidMaxKeepAliveRequests(maxKeepAliveRequests) then Failure(IllegalArgument(MAX_KEEP_ALIVE_REQUESTS_MESSAGE))
    else Success(NetworkListenerConfiguration(host, port, keepAlive, keepAliveIdle, keepAliveInterval,
                                              keepAliveCount, maxKeepAliveRequests, soBacklog))
  }

  /**
   * Listener `i` as configured: None when its host or port is not set, otherwise the listener
   * with every absent property at its default, or the first error met.
   */
  function ListenerAt(props: Properties, i: nat): Result<Option<NetworkListenerConfiguration>, ConfigError> {
    var p := Prefix(i);
    if p + "host" !in props || p + "port" !in props then Success(None)
    else
      var port :- GetInt(props, p + "port", 0);
      var keepAliveIdle :- GetInt(props, p + "keepaliveidle", DEFAULT_KEEP_ALIVE_IDLE);
      var keepAliveInterval :- GetInt(props, p + "keepaliveinterval", DEFAULT_KEEP_ALIVE_INTERVAL);
      var keepAliveCount :- GetInt(props, p + "keepalivecount", DEFAULT_KEEP_ALIVE_COUNT);
      var maxKeepAliveRequests :- GetInt(props, p + "maxkeepaliverequests", DEFAULT_MAX_KEEP_ALIVE_REQUESTS);
      var soBacklog :- GetInt(props, p + "sobacklog", DEFAULT_SO_BACKLOG);
      var keepAlive := GetBoolean(props, p + "keepalive", DEFAULT_KEEP_ALIVE);
      var listener :- NewListener(props[p + "host"], port, keepAlive, keepAliveIdle, keepAliveInterval,
                                  keepAliveCount, maxKeepAliveRequests, soBacklog);
      Success(Some(listener))
  }

  /**
   * What listener `i` is: absent exactly when its host or port is unset; otherwise its host,
   * a parsed port, each integer property or its default, the boolean `keepalive` and a valid
   * `maxKeepAliveRequests`; or the error of an integer property that does not parse, or of
   * the constructor.
   */
  lemma ListenerAtSpec(props: Properties, i: nat)
    ensures var r, p := ListenerAt(props, i), Prefix(i);
            r == Success(None) <==> p + "host" !in props || p + "port" !in props
    ensures var r, p := ListenerAt(props, i), Prefix(i);
            r.Success? && r.value.Some? ==>
              var c := r.value.value;
              && c.host == props[p + "host"]
              && Text.ParseInt(props[p + "port"]) == Some(c.port)
              && GetInt(props, p + "keepaliveidle", DEFAULT_KEEP_ALIVE_IDLE) == Success(c.keepAliveIdle)
              && GetInt(props, p + "keepaliveinterval", DEFAULT_KEEP_ALIVE_INTERVAL) == Success(c.keepAliveInterval)
              && GetInt(props, p + "keepalivecount", DEFAULT_KEEP_ALIVE_COUNT) == Success(c.keepAliveCount)
              && GetInt(props, p + "maxkeepaliverequests", DEFAULT_MAX_KEEP_ALIVE_REQUESTS) == Success(c.maxKeepAliveRequests)
              && GetInt(props, p + "sobacklog", DEFAULT_SO_BACKLOG) == Success(c.soBacklog)
              && c.keepAlive == GetBoolean(props, p + "keepalive", DEFAULT_KEEP_ALIVE)
              && ValidMaxKeepAliveRequests(c.maxKeepAliveRequests)
    ensures var r, p := ListenerAt(props, i), Prefix(i);
            r.Failure? && r.error.NotANumber? ==>
              && r.error.key in props && r.error.value == props[r.error.key]
              && Text.ParseInt(r.error.value).None?
              && r.error.key in {p + "port", p + "keepaliveidle", p + "keepaliveinterval",
                                 p + "keepalivecount", p + "maxkeepaliverequests", p + "sobacklog"}
    ensures var r := ListenerAt(props, i);
            r.Failure? && r.error.IllegalArgument? ==> r.error.message == MAX_KEEP_ALIVE_REQUESTS_MESSAGE
  {
  }

  /**
   * A scan of indices 0 .. count-1 with `at`: the values found, in index order, or the
   * error of the first index that fails.
   */
  function Collect<T, E>(at: nat -> Result<Option<T>, E>, count: nat): (r: Result<seq<T>, E>)
    ensures r.Success? ==> forall i :: 0 <= i < count ==> at(i).Success?
  {
    if count == 0 then Success([])
    else
      var earlier :- Collect(at, count - 1);
      var last :- at(count - 1);
      Success(earlier + (match last case Some(c) => [c] case None => []))
  }

  /** The indices below `count` at which `at` finds a value, in increasing order. */
  function FoundIndices<T, E>(at: nat -> Result<Option<T>, E>, count: nat): seq<nat> {
    if count == 0 then []
    else FoundIndices(at, count - 1) + (if at(count - 1).Success? && at(count - 1).value.Some? then [count - 1] else [])
  }

  lemma {:induction false} FoundIndicesOrdered<T, E>(at: nat -> Result<Option<T>, E>, count: nat)
    ensures var ix := FoundIndices(at, count);
            && (forall k, m :: 0 <= k < m < |ix| ==> ix[k] < ix[m])
            && (forall i: nat :: i in ix <==> i < count && at(i).Success? && at(i).value.Some?)
  {
    if count > 0 {
      FoundIndicesOrdered(at, count - 1);
      var ix := FoundIndices(at, count - 1);
      forall k | 0 <= k < |ix|
        ensures ix[k] < count - 1
      {
        assert ix[k] in ix;
      }
    }
  }

  lemma {:induction false} CollectInIndexOrder<T, E>(at: nat -> Result<Option<T>, E>, count: nat)
    ensures var r, ix := Collect(at, count), FoundIndices(at, count);
            r.Success? ==> |r.value| == |ix| && forall k :: 0 <= k < |ix| ==> at(ix[k]) == Success(Some(r.value[k]))
  {
    if count > 0 {
      CollectInIndexOrder(at, count - 1);
    }
  }

  lemma {:induction false} CollectFirstError<T, E>(at: nat -> Result<Option<T>, E>, count: nat)
    ensures var r := Collect(at, count);
            r.Failure? ==> exists i :: 0 <= i < count && at(i) == Failure(r.error) && forall j :: 0 <= j < i ==> at(j).Success?
  {
    if count > 0 {
      var r := Collect(at, count);
      if Collect(at, count - 1).Failure? {
        CollectFirstError(at, count - 1);
      } else if r.Failure? {
        assert at(count - 1) == Failure(r.error);
      }
    }
  }

  /** The listeners configured at indices 0 .. count-1, in index order, or the first error. */
  function ListenersFromProperties(props: Properties, count: nat): (r: Result<seq<NetworkListenerConfiguration>, ConfigError>)
    ensures r.Success? ==> forall c :: c in r.value ==> exists i :: 0 <= i < count && ListenerAt(props, i) == Success(Some(c))
    ensures r.Success? ==> forall i :: 0 <= i < count ==> ListenerAt(props, i).Success?
    ensures r.Success? ==> forall i :: 0 <= i < count && ListenerAt(props, i).value.Some? ==> ListenerAt(props, i).value.value in r.value
    ensures r.Failure? ==> exists i :: 0 <= i < count && ListenerAt(props, i).Failure?
  {
    if count == 0 then Success([])
    else
      var earlier :- ListenersFromProperties(props, count - 1);
      var last :- ListenerAt(props, count - 1);
      Success(earlier + (match last case Some(c) => [c] case None => []))
  }

  lemma {:induction false} ListenersFromPropertiesIsCollect(props: Properties, count: nat)
    ensures ListenersFromProperties(props, count) == Collect(i => ListenerAt(props, i), count)
  {
    if count > 0 {
      ListenersFromPropertiesIsCollect(props, count - 1);
    }
  }

  /** The indices below `count` whose listener is configured, in increasing order. */
  function ConfiguredIndices(props: Properties, count: nat): seq<nat> {
    FoundIndices(i => ListenerAt(props, i), count)
  }

  /** What a listening channel keeps of its configuration. */
  datatype ListeningChannel = ListeningChannel(config: NetworkListenerConfiguration)

  /** The table of channels for a list of listeners; a later listener on the same address wins. */
  function Table(cs: seq<NetworkListenerConfiguration>): map<EndpointKey, ListeningChannel> {
    if cs == [] then map[]
    else
      var last := cs[|cs| - 1];
      Table(cs[..|cs| - 1])[last.Key() := ListeningChannel(last)]
  }

  /** The listeners of the running server. */
  class Listeners {
    var listeningChannels: map<EndpointKey, ListeningChannel>

    constructor ()
      ensures listeningChannels == map[]
    {
      listeningChannels := map[];
    }

    /**
     * A dynamic reload: on a configuration error nothing changes and the error is reported;
     * otherwise the table is replaced by the channels of the listeners now configured.
     */
    method ReloadConfiguration(props: Properties, count: nat) returns (o: Outcome<ConfigError>)
      modifies this
      ensures var r := ListenersFromProperties(props, count);
              && (r.Failure? ==> o == Fail(r.error) && listeningChannels == old(listeningChannels))
              && (r.Success? ==> o == Pass && listeningChannels == Table(r.value))
    {
      var r := ListenersFromProperties(props, count);
      if r.Failure? {
        return Fail(r.error);
      }
      var cs := r.value;
      var channels: map<EndpointKey, ListeningChannel> := map[];
      var i := 0;
      while i < |cs|
        invariant 0 <= i <= |cs|
        invariant channels == Table(cs[..i])
      {
        assert cs[..i + 1][..i] == cs[..i];
        channels := channels[cs[i].Key() := ListeningChannel(cs[i])];
        i := i + 1;
      }
      assert cs[..i] == cs;
      listeningChannels := channels;
      o := Pass;
    }
  }

  // ---------------------------------------------------------------------------
  // Properties of the configuration
  // ---------------------------------------------------------------------------

  /** Keys under one prefix are distinct when their suffixes are. */
  lemma DistinctSuffixes(p: string, a: string, b: string)
    ensures a != b ==> p + a != p + b
  {
    assert (p + a)[|p|..] == a && (p + b)[|p|..] == b;
  }

  /** With only its host and port set, a listener gets the six defaults. */
  /** None of the optional properties is set under prefix `p`. */
  predicate NoOptionalKeys(props: Properties, p: string) {
    && p + "keepalive" !in props && p + "keepaliveidle" !in props && p + "keepaliveinterval" !in props
    && p + "keepalivecount" !in props && p + "maxkeepaliverequests" !in props && p + "sobacklog" !in props
  }

  lemma Defaults(props: Properties, i: nat)
    requires Prefix(i) + "host" in props && Prefix(i) + "port" in props
    requires Text.ParseInt(props[Prefix(i) + "port"]).Some?
    requires NoOptionalKeys(props, Prefix(i))
    ensures ListenerAt(props, i) == Success(Some(NetworkListenerConfiguration(
              props[Prefix(i) + "host"], Text.ParseInt(props[Prefix(i) + "port"]).value,
              DEFAULT_KEEP_ALIVE, DEFAULT_KEEP_ALIVE_IDLE, DEFAULT_KEEP_ALIVE_INTERVAL, DEFAULT_KEEP_ALIVE_COUNT,
              DEFAULT_MAX_KEEP_ALIVE_REQUESTS, DEFAULT_SO_BACKLOG)))
  {
  }

  /** The integer-valued listener properties. */
  datatype IntField = KeepAliveIdle | KeepAliveInterval | KeepAliveCount | MaxKeepAliveRequests | SoBacklog

  function FieldKey(f: IntField): string {
    match f
    case KeepAliveIdle => "keepaliveidle"
    case KeepAliveInterval => "keepaliveinterval"
    case KeepAliveCount => "keepalivecount"
    case MaxKeepAliveRequests => "maxkeepaliverequests"
    case SoBacklog => "sobacklog"
  }

  function SetField(c: NetworkListenerConfiguration, f: IntField, v: int): NetworkListenerConfiguration {
    match f
    case KeepAliveIdle => c.(keepAliveIdle := v)
    case KeepAliveInterval => c.(keepAliveInterval := v)
    case KeepAliveCount => c.(keepAliveCount := v)
    case MaxKeepAliveRequests => c.(maxKeepAliveRequests := v)
    case SoBacklog => c.(soBacklog := v)
  }

  /**
   * Setting one integer property of a configured listener changes exactly that field, and the
   * listener is rejected exactly when the field is `maxKeepAliveRequests` and the value is
   * neither -1 nor positive.
   */
  lemma OverrideSetsOnlyItsField(props: Properties, i: nat, c: NetworkListenerConfiguration, f: IntField, v: int)
    requires Text.INT_MIN <= v <= Text.INT_MAX
    requires ListenerAt(props, i) == Success(Some(c))
    requires f == MaxKeepAliveRequests || Prefix(i) + "maxkeepaliverequests" !in props || ValidMaxKeepAliveRequests(c.maxKeepAliveRequests)
    ensures var props' := props[Prefix(i) + FieldKey(f) := Text.IntToString(v)];
            if f == MaxKeepAliveRequests && !ValidMaxKeepAliveRequests(v)
            then ListenerAt(props', i) == Failure(IllegalArgument(MAX_KEEP_ALIVE_REQUESTS_MESSAGE))
            else ListenerAt(props', i) == Success(Some(SetField(c, f, v)))
  {
    var p := Prefix(i);
    var key := FieldKey(f);
    var props' := props[p + key := Text.IntToString(v)];
    Text.ParseIntOfIntToString(v);
    assert GetInt(props', p + key, 0) == Success(v);
    DistinctSuffixes(p, "host", key);
    DistinctSuffixes(p, "port", key);
    DistinctSuffixes(p, "keepalive", key);
    assert props'[p + "host"] == props[p + "host"];
    assert GetInt(props', p + "port", 0) == GetInt(props, p + "port", 0);
    assert GetBoolean(props', p + "keepalive", DEFAULT_KEEP_ALIVE) == GetBoolean(props, p + "keepalive", DEFAULT_KEEP_ALIVE);
    if f != KeepAliveIdle {
      DistinctSuffixes(p, "keepaliveidle", key);
      assert GetInt(props', p + "keepaliveidle", DEFAULT_KEEP_ALIVE_IDLE) == GetInt(props, p + "keepaliveidle", DEFAULT_KEEP_ALIVE_IDLE);
    }
    if f != KeepAliveInterval {
      DistinctSuffixes(p, "keepaliveinterval", key);
      assert GetInt(props', p + "keepaliveinterval", DEFAULT_KEEP_ALIVE_INTERVAL) == GetInt(props, p + "keepaliveinterval", DEFAULT_KEEP_ALIVE_INTERVAL);
    }
    if f != KeepAliveCount {
      DistinctSuffixes(p, "keepalivecount", key);
      assert GetInt(props', p + "keepalivecount", DEFAULT_KEEP_ALIVE_COUNT) == GetInt(props, p + "keepalivecount", DEFAULT_KEEP_ALIVE_COUNT);
    }
    if f != MaxKeepAliveRequests {
      DistinctSuffixes(p, "maxkeepaliverequests", key);
      assert GetInt(props', p + "maxkeepaliverequests", DEFAULT_MAX_KEEP_ALIVE_REQUESTS) == GetInt(props, p + "maxkeepaliverequests", DEFAULT_MAX_KEEP_ALIVE_REQUESTS);
    }
    if f != SoBacklog {
      DistinctSuffixes(p, "sobacklog", key);
      assert GetInt(props', p + "sobacklog", DEFAULT_SO_BACKLOG) == GetInt(props, p + "sobacklog", DEFAULT_SO_BACKLOG);
    }
  }

  /** Setting `keepalive` to "true" or "false" turns keep-alive on or off and changes nothing else. */
  lemma KeepAliveOverride(props: Properties, i: nat, c: NetworkListenerConfiguration, on: bool)
    requires ListenerAt(props, i) == Success(Some(c))
    ensures ListenerAt(props[Prefix(i) + "keepalive" := if on then "true" else "false"], i) == Success(Some(c.(keepAlive := on)))
  {
    var p := Prefix(i);
    DistinctSuffixes(p, "host", "keepalive");
    DistinctSuffixes(p, "port", "keepalive");
    DistinctSuffixes(p, "keepaliveidle", "keepalive");
    DistinctSuffixes(p, "keepaliveinterval", "keepalive");
    DistinctSuffixes(p, "keepalivecount", "keepalive");
    DistinctSuffixes(p, "maxkeepaliverequests", "keepalive");
    DistinctSuffixes(p, "sobacklog", "keepalive");
    assert !Text.ParseBoolean("false") by {
      assert Text.LowerAscii("false"[0]) != Text.LowerAscii("true"[0]);
    }
  }

  /** Every listener's address has a channel, and every channel holds a listener at its own address. */
  lemma {:induction false} TableChannels(cs: seq<NetworkListenerConfiguration>)
    ensures forall c :: c in cs ==> c.Key() in Table(cs)
    ensures forall k :: k in Table(cs) ==> Table(cs)[k].config in cs && Table(cs)[k].config.Key() == k
  {
    if cs != [] {
      var init := cs[..|cs| - 1];
      TableChannels(init);
      assert cs == init + [cs[|cs| - 1]];
    }
  }

  /** An address no listener uses has no channel. */
  lemma UnusedKeyNotInTable(cs: seq<NetworkListenerConfiguration>, k: EndpointKey)
    requires forall a :: 0 <= a < |cs| ==> cs[a].Key() != k
    ensures k !in Table(cs)
  {
    TableChannels(cs);
  }

  /** A reload with listeners on distinct addresses has one channel per listener. */
  lemma {:induction false} TableOfDistinctKeys(cs: seq<NetworkListenerConfiguration>)
    requires forall a, b :: 0 <= a < b < |cs| ==> cs[a].Key() != cs[b].Key()
    ensures |Table(cs)| == |cs|
    ensures forall a :: 0 <= a < |cs| ==> cs[a].Key() in Table(cs) && Table(cs)[cs[a].Key()] == ListeningChannel(cs[a])
  {
    if cs != [] {
      var n := |cs| - 1;
      var init := cs[..n];
      var last := cs[n];
      forall a, b | 0 <= a < b < n
        ensures init[a].Key() != init[b].Key()
      {
        assert init[a] == cs[a] && init[b] == cs[b];
      }
      TableOfDistinctKeys(init);
      forall a | 0 <= a < n
        ensures init[a].Key() != last.Key()
      {
        assert init[a] == cs[a];
      }
      UnusedKeyNotInTable(init, last.Key());
      assert Table(cs) == Table(init)[last.Key() := ListeningChannel(last)];
      forall a | 0 <= a < n
        ensures cs[a].Key() in Table(cs) && Table(cs)[cs[a].Key()] == ListeningChannel(cs[a])
      {
        assert init[a] == cs[a];
      }
    }
  }

  // ---------------------------------------------------------------------------
  // The reloads of the listener keep-alive scenario, on listener 1 at localhost:8080
  // ---------------------------------------------------------------------------

  const LOCALHOST_8080: EndpointKey := EndpointKey("localhost", 8080)

  /** The properties every step sets: listener 1 on localhost:8080, enabled. */
  function BaseProps(): Properties {
    map[Prefix(1) + "host" := "localhost", Prefix(1) + "port" := "8080", Prefix(1) + "enabled" := "true"]
  }

  function DefaultListener(): NetworkListenerConfiguration {
    NetworkListenerConfiguration("localhost", 8080, DEFAULT_KEEP_ALIVE, DEFAULT_KEEP_ALIVE_IDLE, DEFAULT_KEEP_ALIVE_INTERVAL,
                                 DEFAULT_KEEP_ALIVE_COUNT, DEFAULT_MAX_KEEP_ALIVE_REQUESTS, DEFAULT_SO_BACKLOG)
  }

  /** The keys of listener 0 are not those of listener 1. */
  lemma OtherListenerKeys(s: string, t: string)
    ensures Prefix(0) + s != Prefix(1) + t
  {
    assert Text.NatToString(0) == "0" && Text.NatToString(1) == "1";
    assert (Prefix(0) + s)[9] == '0' && (Prefix(1) + t)[9] == '1';
  }

  lemma Port8080()
    ensures Text.ParseInt("8080") == Some(8080)
  {
    Text.ParseIntOfIntToString(8080);
    assert Text.NatToString(8) == "8";
    assert Text.NatToString(80) == "80";
    assert Text.NatToString(808) == "808";
    assert Text.NatToString(8080) == "8080";
  }

  lemma SmallNumerals()
    ensures Text.IntToString(10) == "10" && Text.IntToString(5) == "5" && Text.IntToString(2) == "2"
  {
    assert Text.NatToString(1) == "1";
  }

  /** A key other than host, port and enabled is not among the base properties. */
  lemma OptionalKeyUnset(key: string)
    requires key != "host" && key != "port" && key != "enabled"
    ensures Prefix(1) + key !in BaseProps()
  {
    DistinctSuffixes(Prefix(1), key, "host");
    DistinctSuffixes(Prefix(1), key, "port");
    DistinctSuffixes(Prefix(1), key, "enabled");
  }

  /** What the scenario needs to know about its keys. */
  lemma ScenarioKeys()
    ensures Text.ParseInt("8080") == Some(8080)
    ensures Prefix(0) + "host" !in BaseProps()
    ensures BaseProps()[Prefix(1) + "host"] == "localhost" && BaseProps()[Prefix(1) + "port"] == "8080"
    ensures NoOptionalKeys(BaseProps(), Prefix(1))
  {
    Port8080();
    OtherListenerKeys("host", "host");
    OtherListenerKeys("host", "port");
    OtherListenerKeys("host", "enabled");
    DistinctSuffixes(Prefix(1), "host", "port");
    DistinctSuffixes(Prefix(1), "host", "enabled");
    DistinctSuffixes(Prefix(1), "port", "enabled");
    OptionalKeyUnset("keepalive");
    OptionalKeyUnset("keepaliveidle");
    OptionalKeyUnset("keepaliveinterval");
    OptionalKeyUnset("keepalivecount");
    OptionalKeyUnset("maxkeepaliverequests");
    OptionalKeyUnset("sobacklog");
  }

  /** Scanning indices 0 and 1 when only listener 1 can be configured. */
  lemma ScanOfListenerOne(props: Properties)
    requires Prefix(0) + "host" !in props
    ensures var r1 := ListenerAt(props, 1);
            && (r1 == Success(None) ==> ListenersFromProperties(props, 2) == Success([]))
            && (r1.Success? && r1.value.Some? ==> ListenersFromProperties(props, 2) == Success([r1.value.value]))
            && (r1.Failure? ==> ListenersFromProperties(props, 2) == Failure(r1.error))
  {
    assert ListenerAt(props, 0) == Success(None);
    assert ListenersFromProperties(props, 0) == Success([]);
    var none: seq<NetworkListenerConfiguration> := [];
    assert none + none == none;
    assert ListenersFromProperties(props, 1) == Success(none);
    var r1 := ListenerAt(props, 1);
    if r1.Success? && r1.value.Some? {
      assert none + [r1.value.value] == [r1.value.value];
    }
  }

  /** Only listener 1 is configured, with every default: one channel, on localhost:8080. */
  lemma ScenarioDefaults()
    ensures ListenersFromProperties(BaseProps(), 2) == Success([DefaultListener()])
    ensures Table([DefaultListener()]) == map[LOCALHOST_8080 := ListeningChannel(DefaultListener())]
  {
    ScenarioKeys();
    Defaults(BaseProps(), 1);
    ScanOfListenerOne(BaseProps());
    assert [DefaultListener()][..0] == [];
  }

  /** `keepalive=false`: still exactly one channel, now with keep-alive off. */
  lemma ScenarioKeepAliveOff()
    ensures var props := BaseProps()[Prefix(1) + "keepalive" := "false"];
            && ListenersFromProperties(props, 2) == Success([DefaultListener().(keepAlive := false)])
            && |Table([DefaultListener().(keepAlive := false)])| == 1
  {
    ScenarioKeys();
    Defaults(BaseProps(), 1);
    KeepAliveOverride(BaseProps(), 1, DefaultListener(), false);
    OtherListenerKeys("host", "keepalive");
    ScanOfListenerOne(BaseProps()[Prefix(1) + "keepalive" := "false"]);
    TableOfDistinctKeys([DefaultListener().(keepAlive := false)]);
  }
  /** Every keep-alive option set explicitly: each field takes its property's value. */
  lemma ScenarioOverrides()
    ensures var props := BaseProps()[Prefix(1) + "keepalive" := "true"][Prefix(1) + "keepaliveidle" := "10"]
                                    [Prefix(1) + "keepaliveinterval" := "5"][Prefix(1) + "keepalivecount" := "2"]
                                    [Prefix(1) + "maxkeepaliverequests" := "2"][Prefix(1) + "sobacklog" := "10"];
            ListenerAt(props, 1) == Success(Some(NetworkListenerConfiguration("localhost", 8080, true, 10, 5, 2, 2, 10)))
  {
    ScenarioKeys();
    var p0 := BaseProps();
    Defaults(p0, 1);
    KeepAliveOverride(p0, 1, DefaultListener(), true);
    var c1 := DefaultListener();
    var p1 := p0[Prefix(1) + "keepalive" := "true"];
    SmallNumerals();
    OverrideSetsOnlyItsField(p1, 1, c1, KeepAliveIdle, 10);
    var c2 := c1.(keepAliveIdle := 10);
    var p2 := p1[Prefix(1) + "keepaliveidle" := "10"];
    OverrideSetsOnlyItsField(p2, 1, c2, KeepAliveInterval, 5);
    var c3 := c2.(keepAliveInterval := 5);
    var p3 := p2[Prefix(1) + "keepaliveinterval" := "5"];
    OverrideSetsOnlyItsField(p3, 1, c3, KeepAliveCount, 2);
    var c4 := c3.(keepAliveCount := 2);
    var p4 := p3[Prefix(1) + "keepalivecount" := "2"];
    OverrideSetsOnlyItsField(p4, 1, c4, MaxKeepAliveRequests, 2);
    var c5 := c4.(maxKeepAliveRequests := 2);
    var p5 := p4[Prefix(1) + "maxkeepaliverequests" := "2"];
    OverrideSetsOnlyItsField(p5, 1, c5, SoBacklog, 10);
  }

  /** `maxkeepaliverequests` of -10 or 0: the reload is rejected with the constructor's message. */
  lemma ScenarioInvalidMaxKeepAliveRequests(v: int)
    requires v == -10 || v == 0
    ensures var props := BaseProps()[Prefix(1) + "keepalive" := "true"][Prefix(1) + "maxkeepaliverequests" := Text.IntToString(v)];
            ListenersFromProperties(props, 2) == Failure(IllegalArgument(MAX_KEEP_ALIVE_REQUESTS_MESSAGE))
  {
    ScenarioKeys();
    var p0 := BaseProps();
    Defaults(p0, 1);
    KeepAliveOverride(p0, 1, DefaultListener(), true);
    var p1 := p0[Prefix(1) + "keepalive" := "true"];
    OverrideSetsOnlyItsField(p1, 1, DefaultListener(), MaxKeepAliveRequests, v);
    OtherListenerKeys("host", "keepalive");
    OtherListenerKeys("host", "maxkeepaliverequests");
    ScanOfListenerOne(p1[Prefix(1) + "maxkeepaliverequests" := Text.IntToString(v)]);
  }

  // ---------------------------------------------------------------------------
  // Order of the listeners and of their errors
  // ---------------------------------------------------------------------------

  /** The configured indices are increasing and are exactly the indices with a listener. */
  lemma ConfiguredIndicesOrdered(props: Properties, count: nat)
    ensures var ix := ConfiguredIndices(props, count);
            && (forall k, m :: 0 <= k < m < |ix| ==> ix[k] < ix[m])
            && (forall i: nat :: i in ix <==> i < count && ListenerAt(props, i).Success? && ListenerAt(props, i).value.Some?)
  {
    FoundIndicesOrdered(i => ListenerAt(props, i), count);
  }

  /** The listeners come out one per configured index, in index order. */
  lemma ListenersInIndexOrder(props: Properties, count: nat)
    ensures var r, ix := ListenersFromProperties(props, count), ConfiguredIndices(props, count);
            r.Success? ==> |r.value| == |ix| && forall k :: 0 <= k < |ix| ==> ListenerAt(props, ix[k]) == Success(Some(r.value[k]))
  {
    ListenersFromPropertiesIsCollect(props, count);
    CollectInIndexOrder(i => ListenerAt(props, i), count);
  }

  /** A failed scan reports the error of the first listener that fails. */
  lemma FirstErrorReported(props: Properties, count: nat)
    ensures var r := ListenersFromProperties(props, count);
            r.Failure? ==> exists i :: 0 <= i < count && ListenerAt(props, i) == Failure(r.error) &&
                                      forall j :: 0 <= j < i ==> ListenerAt(props, j).Success?
  {
    ListenersFromPropertiesIsCollect(props, count);
    CollectFirstError(i => ListenerAt(props, i), count);
  }

  /** A listener that no later listener shares its address with holds that address's channel. */
  lemma {:induction false} LastOnAddressWins(cs: seq<NetworkListenerConfiguration>, a: nat)
    requires a < |cs|
    requires forall b :: a < b < |cs| ==> cs[b].Key() != cs[a].Key()
    ensures cs[a].Key() in Table(cs) && Table(cs)[cs[a].Key()] == ListeningChannel(cs[a])
  {
    if a < |cs| - 1 {
      var init := cs[..|cs| - 1];
      assert forall b :: a < b < |init| ==> init[b] == cs[b];
      LastOnAddressWins(init, a);
    }
  }
}
