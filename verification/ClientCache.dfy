/** The cache of native clients: the key of src/native/client-cache.ts, the configuration and
    the get/build/insert sequence of rust/src/transport/client.rs, and the locked map of
    rust/src/store/client_store.rs. */
module ClientCache {
  import opened Basics

  // ----- options, key and configuration -----

  datatype Mode = Fixed | Random | WeightedRandom

  datatype PoolIdle = Disabled | Millis(value: nat)

  /** What both kinds of native options share; nested objects are kept as their JSON text. */
  datatype Common = Common(
    browser: Option<string>,
    browserMode: Option<Mode>,
    browserPlatform: Option<string>,
    browserHttp2: Option<bool>,
    browserHeaders: Option<bool>,
    emulationJson: Option<string>,
    proxy: Option<string>,
    disableSystemProxy: Option<bool>,
    dns: Option<string>,
    tcpLinger: Option<nat>,
    poolIdleTimeout: Option<PoolIdle>,
    poolMaxIdlePerHost: Option<nat>,
    poolMaxSize: Option<nat>,
    tlsSessionCacheCapacity: Option<nat>,
    localAddress: Option<string>,
    localAddresses: Option<string>,
    interface_: Option<string>,
    tlsIdentity: Option<string>,
    ca: Option<string>,
    tlsDebug: Option<string>,
    tlsDanger: Option<string>
  )

  /** Only a WebSocket has `protocols`; its timeout belongs to the client. The fields that are
      not client inputs (url, headers, body, and the request's own timeouts) are `rest`. */
  datatype NativeOptions =
    | HttpOptions(common: Common, connectTimeout: Option<nat>, http1Only: Option<bool>, http2Only: Option<bool>,
                  timeout: Option<nat>, rest: string)
    | WebSocketOptions(common: Common, timeout: Option<nat>, protocols: seq<string>, rest: string)

  /** The JSON record; the encoding is taken to be injective. */
  datatype Key = Key(
    common: Common,
    timeout: Option<nat>,
    connectTimeout: Option<nat>,
    http1Only: Option<bool>,
    http2Only: Option<bool>
  )

  /** `createNativeClientCacheKey`. */
  function CacheKey(o: NativeOptions): Key {
    Key(o.common,
        if o.WebSocketOptions? then o.timeout else None,
        if o.HttpOptions? then o.connectTimeout else None,
        if o.HttpOptions? then o.http1Only else None,
        if o.HttpOptions? then o.http2Only else None)
  }

  /** The browser identity a random mode draws. */
  datatype Draw = Draw(profile: string, platform: string)

  datatype Emulation = Emulation(identity: Draw, http2: bool, headers: bool, overlay: Option<string>)

  datatype LocalBind = LocalBind(address: Option<string>, addresses: Option<string>, interface_: Option<string>)

  datatype Config = Config(
    emulation: Emulation,
    proxy: Option<string>,
    disableSystemProxy: bool,
    dns: Option<string>,
    timeout: Option<nat>,
    connectTimeout: Option<nat>,
    tcpLinger: Option<nat>,
    poolIdleTimeout: Option<PoolIdle>,
    poolMaxIdlePerHost: Option<nat>,
    poolMaxSize: Option<nat>,
    tlsSessionCacheCapacity: Option<nat>,
    http1Only: bool,
    http2Only: bool,
    localBind: Option<LocalBind>,
    tlsIdentity: Option<string>,
    ca: Option<string>,
    tlsDebug: Option<string>,
    tlsDanger: Option<string>
  )

  function Or<T>(o: Option<T>, default: T): T { if o.Some? then o.value else default }

  function ModeOf(c: Common): Mode { Or(c.browserMode, Fixed) }

  /** `resolve_emulation`: fixed modes name their identity, the others draw one. */
  function ResolveEmulation(c: Common, draw: Draw): Emulation {
    var identity :=
      if ModeOf(c).Fixed? then Draw(Or(c.browser, "chrome_149"), Or(c.browserPlatform, "macos")) else draw;
    Emulation(identity, c.browserHttp2 != Some(false), c.browserHeaders != Some(false), c.emulationJson)
  }

  function ResolveLocalBind(c: Common): Option<LocalBind> {
    if c.localAddress.None? && c.localAddresses.None? && c.interface_.None? then None
    else Some(LocalBind(c.localAddress, c.localAddresses, c.interface_))
  }

  function NonZero(o: Option<nat>): Option<nat> { if o == Some(0) then None else o }

  /** The two conversions to `ClientConfig`, without owner and key. */
  function ToConfig(o: NativeOptions, draw: Draw): Config {
    var c := o.common;
    Config(ResolveEmulation(c, draw), c.proxy, Or(c.disableSystemProxy, false), c.dns,
           if o.WebSocketOptions? then NonZero(Some(Or(o.timeout, 30000))) else None,
           if o.HttpOptions? then NonZero(o.connectTimeout) else None,
           c.tcpLinger, c.poolIdleTimeout, c.poolMaxIdlePerHost, c.poolMaxSize, c.tlsSessionCacheCapacity,
           if o.HttpOptions? then Or(o.http1Only, false) else false,
           if o.HttpOptions? then Or(o.http2Only, false) else false,
           ResolveLocalBind(c), c.tlsIdentity, c.ca, c.tlsDebug, c.tlsDanger)
  }

  // ----- the key determines the configuration -----

  /** The socket class always passes a timeout to the native layer. */
  predicate Prepared(o: NativeOptions) { o.WebSocketOptions? ==> o.timeout.Some? }

  function ConfigOfKey(k: Key, draw: Draw): Config {
    var c := k.common;
    Config(ResolveEmulation(c, draw), c.proxy, Or(c.disableSystemProxy, false), c.dns,
           NonZero(k.timeout), NonZero(k.connectTimeout),
           c.tcpLinger, c.poolIdleTimeout, c.poolMaxIdlePerHost, c.poolMaxSize, c.tlsSessionCacheCapacity,
           Or(k.http1Only, false), Or(k.http2Only, false),
           ResolveLocalBind(c), c.tlsIdentity, c.ca, c.tlsDebug, c.tlsDanger)
  }

  lemma ConfigIsOfKey(o: NativeOptions, draw: Draw)
    requires Prepared(o)
    ensures ToConfig(o, draw) == ConfigOfKey(CacheKey(o), draw)
  {}

  /** Options with equal keys ask for the same client, whether they are for a request or a
      socket, exactly when the browser mode is fixed. */
  lemma KeyDeterminesConfig(o: NativeOptions)
    requires Prepared(o)
    ensures ModeOf(o.common).Fixed? <==>
            forall p: NativeOptions, d: Draw, e: Draw ::
              Prepared(p) && CacheKey(p) == CacheKey(o) ==> ToConfig(p, d) == ToConfig(o, e)
  {
    if ModeOf(o.common).Fixed? {
      forall p: NativeOptions, d: Draw, e: Draw | Prepared(p) && CacheKey(p) == CacheKey(o)
        ensures ToConfig(p, d) == ToConfig(o, e)
      {
        ConfigIsOfKey(p, d);
        ConfigIsOfKey(o, e);
      }
    } else {
      var d, e := Draw("a", "a"), Draw("b", "b");
      assert ToConfig(o, d).emulation.identity != ToConfig(o, e).emulation.identity;
    }
  }

  /** The default timeout matters: without one, a socket would share its key with a request
      that asks for a different client. */
  lemma MissingTimeoutConfusesKinds(o: NativeOptions, draw: Draw)
    requires o.WebSocketOptions? && !Prepared(o)
    ensures exists p: NativeOptions ::
              p.HttpOptions? && CacheKey(p) == CacheKey(o) && ToConfig(p, draw) != ToConfig(o, draw)
  {
    var p := HttpOptions(o.common, None, None, None, None, "");
    assert CacheKey(p) == CacheKey(o);
    assert ToConfig(p, draw).timeout != ToConfig(o, draw).timeout;
  }

  // ----- the store -----

  datatype Client = Client(id: nat, config: Config)

  type Clients = map<nat, map<Key, Client>>

  function Lookup(m: Clients, owner: nat, key: Key): Option<Client> {
    if owner in m && key in m[owner] then Some(m[owner][key]) else None
  }

  /** `entry(owner).or_default().entry(key).or_insert(client)`. */
  function Inserted(m: Clients, owner: nat, key: Key, client: Client): Clients {
    var variants := if owner in m then m[owner] else map[];
    m[owner := if key in variants then variants else variants[key := client]]
  }

  lemma LookupAfter(m: Clients, owner: nat, key: Key, client: Client, o: nat, k: Key)
    ensures Lookup(Inserted(m, owner, key, client), o, k) ==
            if (o, k) == (owner, key) then Some(Or(Lookup(m, o, k), client)) else Lookup(m, o, k)
    ensures Lookup(m - {owner}, o, k) == if o == owner then None else Lookup(m, o, k)
  {}

  /** The process-wide map behind its lock. */
  class ClientStore {
    var clients: Clients

    constructor ()
      ensures clients == map[]
    {
      clients := map[];
    }

    method GetClient(owner: nat, key: Key) returns (client: Option<Client>)
      ensures client == Lookup(clients, owner, key)
    {
      client := None;
      if owner in clients {
        var variants := clients[owner];
        if key in variants { client := Some(variants[key]); }
      }
    }

    /** The first client inserted under a key stays and is what every inserter gets back. */
    method InsertClient(owner: nat, key: Key, client: Client) returns (kept: Client)
      modifies this
      ensures clients == Inserted(old(clients), owner, key, client)
      ensures Lookup(clients, owner, key) == Some(kept)
      ensures kept == Or(Lookup(old(clients), owner, key), client)
      ensures forall o: nat, k: Key :: (o, k) != (owner, key) ==> Lookup(clients, o, k) == Lookup(old(clients), o, k)
    {
      var variants := if owner in clients then clients[owner] else map[];
      if key !in variants {
        variants := variants[key := client];
      }
      clients := clients[owner := variants];
      kept := variants[key];
    }

    method RemoveClients(owner: nat) returns (present: bool)
      modifies this
      ensures present == (owner in old(clients)) && clients == old(clients) - {owner}
    {
      present := owner in clients;
      clients := clients - {owner};
    }

    /** `resolve_client` when nobody interferes: a hit builds nothing. */
    method ResolveClient(owner: Option<nat>, key: Option<Key>, config: Config, freshId: nat) returns (client: Client)
      modifies this
      ensures owner.None? || key.None? ==> client == Client(freshId, config) && clients == old(clients)
      ensures owner.Some? && key.Some? ==>
                client == Or(Lookup(old(clients), owner.value, key.value), Client(freshId, config)) &&
                Lookup(clients, owner.value, key.value) == Some(client)
    {
      if owner.Some? && key.Some? {
        var hit := GetClient(owner.value, key.value);
        if hit.Some? { return hit.value; }
      }
      client := Client(freshId, config);
      if owner.Some? && key.Some? {
        client := InsertClient(owner.value, key.value, client);
      }
    }
  }

  // ----- concurrent resolves -----

  /** A resolve in flight: before its lookup, after a miss, after the build, or over. */
  datatype Phase = Asked | Missed | Built(client: Client) | Answered(client: Client) | Failed

  datatype Resolve = Resolve(owner: nat, options: NativeOptions, draw: Draw, phase: Phase)

  /** Linearised effects on the store: a hit or an insert, or the removal of an owner. */
  datatype Event = Gave(owner: nat, key: Key, client: Client) | Dropped(owner: nat)

  datatype World = World(clients: Clients, resolves: seq<Resolve>, nextId: nat, log: seq<Event>)

  datatype Step =
    | Begin(owner: nat, options: NativeOptions, draw: Draw)
    | Get(i: nat)
    | Build(i: nat, ok: bool)
    | Insert(i: nat)
    | Remove(owner: nat)

  predicate Enabled(w: World, t: Step) {
    match t
    case Begin(_, options, _) => Prepared(options)
    case Get(i) => i < |w.resolves| && w.resolves[i].phase.Asked?
    case Build(i, _) => i < |w.resolves| && w.resolves[i].phase.Missed?
    case Insert(i) => i < |w.resolves| && w.resolves[i].phase.Built?
    case Remove(_) => true
  }

  function Apply(w: World, t: Step): World
    requires Enabled(w, t)
  {
    match t
    case Begin(owner, options, draw) => w.(resolves := w.resolves + [Resolve(owner, options, draw, Asked)])
    case Get(i) =>
      var r := w.resolves[i];
      var hit := Lookup(w.clients, r.owner, CacheKey(r.options));
      if hit.None? then w.(resolves := w.resolves[i := r.(phase := Missed)])
      else w.(resolves := w.resolves[i := r.(phase := Answered(hit.value))],
              log := w.log + [Gave(r.owner, CacheKey(r.options), hit.value)])
    case Build(i, ok) =>
      var r := w.resolves[i];
      if ok then w.(resolves := w.resolves[i := r.(phase := Built(Client(w.nextId, ToConfig(r.options, r.draw))))],
                    nextId := w.nextId + 1)
      else w.(resolves := w.resolves[i := r.(phase := Failed)])
    case Insert(i) =>
      var r := w.resolves[i];
      var kept := Or(Lookup(w.clients, r.owner, CacheKey(r.options)), r.phase.client);
      w.(clients := Inserted(w.clients, r.owner, CacheKey(r.options), r.phase.client),
         resolves := w.resolves[i := r.(phase := Answered(kept))],
         log := w.log + [Gave(r.owner, CacheKey(r.options), kept)])
    case Remove(owner) => w.(clients := w.clients - {owner}, log := w.log + [Dropped(owner)])
  }

  const EMPTY_WORLD := World(map[], [], 0, [])

  ghost predicate Reachable(w: World) { exists steps: seq<Step> :: ValidRun(steps) && RunOf(steps) == w }

  ghost predicate ValidRun(steps: seq<Step>)
    decreases |steps|, 0
  {
    steps == [] || (ValidRun(steps[..|steps| - 1]) && Enabled(RunOf(steps[..|steps| - 1]), steps[|steps| - 1]))
  }

  ghost function RunOf(steps: seq<Step>): World
    requires ValidRun(steps)
    decreases |steps|, 1
  {
    if steps == [] then EMPTY_WORLD else Apply(RunOf(steps[..|steps| - 1]), steps[|steps| - 1])
  }

  /** What the history says is stored under a key now. */
  function Current(log: seq<Event>, owner: nat, key: Key): Option<Client> {
    if log == [] then None
    else
      match log[|log| - 1]
      case Gave(o, k, client) => if o == owner && k == key then Some(client) else Current(log[..|log| - 1], owner, key)
      case Dropped(o) => if o == owner then None else Current(log[..|log| - 1], owner, key)
  }

  lemma CurrentAppend(log: seq<Event>, e: Event, owner: nat, key: Key)
    ensures Current(log + [e], owner, key) ==
            match e
            case Gave(o, k, client) => if o == owner && k == key then Some(client) else Current(log, owner, key)
            case Dropped(o) => if o == owner then None else Current(log, owner, key)
  {
    assert (log + [e])[..|log|] == log;
  }

  /** Each answer repeats the client the history already gave, if there is one. */
  ghost predicate Faithful(log: seq<Event>)
    decreases |log|
  {
    log == [] ||
    (Faithful(log[..|log| - 1]) &&
     (log[|log| - 1].Gave? ==>
        var e, before := log[|log| - 1], Current(log[..|log| - 1], log[|log| - 1].owner, log[|log| - 1].key);
        before.Some? ==> before.value == e.client))
  }

  ghost predicate StoreOk(w: World) {
    && (forall owner, key :: Lookup(w.clients, owner, key) == Current(w.log, owner, key))
    && Faithful(w.log)
  }

  ghost predicate AsksFor(c: Client, key: Key) {
    ModeOf(key.common).Fixed? ==> forall draw: Draw :: c.config == ConfigOfKey(key, draw)
  }

  /** Every client, built, stored or given, has the configuration its key stands for. */
  ghost predicate ConfigsOk(w: World) {
    && (forall owner, key :: Lookup(w.clients, owner, key).Some? ==> AsksFor(Lookup(w.clients, owner, key).value, key))
    && (forall i :: 0 <= i < |w.resolves| ==>
          Prepared(w.resolves[i].options) &&
          (w.resolves[i].phase.Built? || w.resolves[i].phase.Answered? ==>
             AsksFor(w.resolves[i].phase.client, CacheKey(w.resolves[i].options))))
  }

  lemma StepKeepsStore(w: World, t: Step)
    requires Enabled(w, t) && StoreOk(w)
    ensures StoreOk(Apply(w, t))
  {
    var w' := Apply(w, t);
    if w'.log != w.log {
      var e := w'.log[|w.log|];
      assert w'.log[..|w.log|] == w.log;
      forall owner, key ensures Lookup(w'.clients, owner, key) == Current(w'.log, owner, key) {
        CurrentAppend(w.log, e, owner, key);
      }
    }
  }

  lemma StepKeepsConfigs(w: World, t: Step)
    requires Enabled(w, t) && ConfigsOk(w)
    ensures ConfigsOk(Apply(w, t))
  {
    match t
    case Build(i, ok) => ConfigIsOfKey(w.resolves[i].options, w.resolves[i].draw);
    case Insert(i) =>
      var r, w' := w.resolves[i], Apply(w, t);
      forall o: nat, k: Key | Lookup(w'.clients, o, k).Some?
        ensures AsksFor(Lookup(w'.clients, o, k).value, k)
      {
        LookupAfter(w.clients, r.owner, CacheKey(r.options), r.phase.client, o, k);
      }
    case Remove(owner) =>
      forall o: nat, k: Key { LookupAfter(w.clients, owner, k, Client(0, ConfigOfKey(k, Draw("", ""))), o, k); }
    case _ =>
  }

  /** A lookup answers with the stored client if there is one, so that nothing is built then, and a removal
      forgets every client of its owner and of nobody else. */
  lemma StepRecords(w: World, t: Step)
    requires Enabled(w, t)
    ensures t.Get? ==>
              var r := w.resolves[t.i];
              var hit, z := Lookup(w.clients, r.owner, CacheKey(r.options)), Apply(w, t);
              && z.clients == w.clients
              && z.resolves[t.i].phase == (if hit.Some? then Answered(hit.value) else Missed)
              && z.log == w.log + if hit.Some? then [Gave(r.owner, CacheKey(r.options), hit.value)] else []
    ensures t.Build? && t.ok ==>
              var r, z := w.resolves[t.i], Apply(w, t);
              z.resolves[t.i].phase == Built(Client(w.nextId, ToConfig(r.options, r.draw))) && z.nextId > w.nextId
    ensures t.Remove? ==>
              && Apply(w, t).log == w.log + [Dropped(t.owner)]
              && forall o: nat, k: Key ::
                   Lookup(Apply(w, t).clients, o, k) == if o == t.owner then None else Lookup(w.clients, o, k)
  {
    if t.Remove? {
      forall o: nat, k: Key { LookupAfter(w.clients, t.owner, k, Client(0, ConfigOfKey(k, Draw("", ""))), o, k); }
    }
  }

  lemma {:induction false} RunKeepsAll(steps: seq<Step>)
    requires ValidRun(steps)
    ensures StoreOk(RunOf(steps)) && ConfigsOk(RunOf(steps))
    decreases |steps|
  {
    if steps == [] {
    } else {
      RunKeepsAll(steps[..|steps| - 1]);
      StepKeepsStore(RunOf(steps[..|steps| - 1]), steps[|steps| - 1]);
      StepKeepsConfigs(RunOf(steps[..|steps| - 1]), steps[|steps| - 1]);
    }
  }

  lemma {:induction false} FaithfulAgrees(log: seq<Event>, i: nat, j: nat)
    requires Faithful(log) && i < j < |log| && log[i].Gave? && log[j].Gave?
    requires log[i].owner == log[j].owner && log[i].key == log[j].key
    requires forall k :: i < k < j ==> log[k] != Dropped(log[i].owner)
    ensures log[i].client == log[j].client
    decreases |log|
  {
    if j == |log| - 1 {
      CurrentSince(log[..j], i);
    } else {
      FaithfulAgrees(log[..|log| - 1], i, j);
    }
  }

  /** Without a removal after position i, the client given there is still the current one. */
  lemma {:induction false} CurrentSince(log: seq<Event>, i: nat)
    requires Faithful(log) && i < |log| && log[i].Gave?
    requires forall k :: i < k < |log| ==> log[k] != Dropped(log[i].owner)
    ensures Current(log, log[i].owner, log[i].key) == Some(log[i].client)
    decreases |log|
  {
    if i == |log| - 1 {
    } else {
      CurrentSince(log[..|log| - 1], i);
    }
  }

  /** In every interleaving, resolves of one owner and key that are linearised with no removal
      of the owner between them return the same client. */
  lemma SameKeySameClient(w: World, i: nat, j: nat)
    requires Reachable(w) && i < j < |w.log| && w.log[i].Gave? && w.log[j].Gave?
    requires w.log[i].owner == w.log[j].owner && w.log[i].key == w.log[j].key
    requires forall k :: i < k < j ==> w.log[k] != Dropped(w.log[i].owner)
    ensures w.log[i].client == w.log[j].client
  {
    var steps: seq<Step> :| ValidRun(steps) && RunOf(steps) == w;
    RunKeepsAll(steps);
    FaithfulAgrees(w.log, i, j);
  }

  /** In fixed browser mode the client a resolve gets is configured as it asked, even when
      another resolve built it. */
  lemma CachedClientIsAsRequested(w: World, i: nat)
    requires Reachable(w) && i < |w.resolves| && w.resolves[i].phase.Answered?
    requires ModeOf(w.resolves[i].options.common).Fixed?
    ensures w.resolves[i].phase.client.config == ToConfig(w.resolves[i].options, w.resolves[i].draw)
  {
    var steps: seq<Step> :| ValidRun(steps) && RunOf(steps) == w;
    RunKeepsAll(steps);
    ConfigIsOfKey(w.resolves[i].options, w.resolves[i].draw);
  }
}
