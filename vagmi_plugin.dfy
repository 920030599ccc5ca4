/**
 * The vagmi plugin: `createClient` (which queries the persisted cache may
 * keep, and the default storage and persister), the plugin's `install`
 * bookkeeping on the Vue application, and the `useClient` lookup.
 */
module VagmiPlugin {
  import opened Wrappers

  // ---------------------------------------------------------------------------
  // Cache persistence filter

  /** The first element of a query key, as far as `.persist` is concerned. */
  datatype KeyElement =
    | Record(persist: Option<bool>)  // an object, with or without a `persist` flag
    | Scalar                         // a string, number or other non-nullish value: `.persist` reads undefined
    | Nullish                        // `null` or `undefined`: reading `.persist` throws

  /** The parts of a cached query that the filter reads. */
  datatype Query = Query(cacheTime: int, queryKey: seq<KeyElement>)

  /** Reading a property of `undefined` or `null`. */
  datatype FilterError = TypeError

  /**
   * `shouldDehydrateQuery`: whether a cached query is written to durable storage.
   * A zero cache time short-circuits before the key is read; an empty key or a
   * nullish first element makes the property read throw. The last `ensures`
   * is a corollary of the second: a record without a flag is persisted.
   */
  function ShouldDehydrateQuery(q: Query): (r: Result<bool, FilterError>)
    ensures q.cacheTime == 0 ==> r == Success(false)
    ensures r == Success(true) <==>
      q.cacheTime != 0 && |q.queryKey| > 0 && !q.queryKey[0].Nullish? &&
      !(q.queryKey[0].Record? && q.queryKey[0].persist == Some(false))
    ensures r.Failure? <==> q.cacheTime != 0 && (|q.queryKey| == 0 || q.queryKey[0].Nullish?)
    ensures q.cacheTime != 0 && |q.queryKey| > 0 && q.queryKey[0] == Record(None) ==> r == Success(true)
  {
    if q.cacheTime == 0 then Success(false)
    else if |q.queryKey| == 0 then Failure(TypeError)
    else match q.queryKey[0]
      case Nullish => Failure(TypeError)
      case Scalar => Success(true)
      case Record(persist) => Success(persist != Some(false))
  }

  // ---------------------------------------------------------------------------
  // createClient

  /** What the host environment offers: a `window`, and on it a `localStorage`. */
  datatype Env = Env(windowDefined: bool, localStorageAvailable: bool)

  /** The raw storage `createStorage` wraps. */
  datatype Backend = LocalStorage | NoopStorage

  /** A wagmi storage: one made by `createStorage`, or one the caller supplied. */
  datatype Storage = WagmiStorage(backend: Backend) | GivenStorage(id: nat)

  /** A cache persister: the default sync-storage one, or one the caller supplied. */
  datatype Persister = SyncStoragePersister(key: string, storage: Storage) | GivenPersister(id: nat)

  /** The `persister` option: left undefined, explicitly `null`, or given. */
  datatype PersisterArg = PersisterUnset | PersisterNull | PersisterGiven(persister: Persister)

  datatype NetworkMode = Online | Always | OfflineFirst

  /** The default options a query client applies. */
  datatype QueryClient = QueryClient(
    cacheTime: int, queryNetworkMode: NetworkMode, refetchOnWindowFocus: bool, retry: nat,
    mutationNetworkMode: NetworkMode)

  /** 24 hours, in milliseconds. */
  const DefaultCacheTime: int := 1_000 * 60 * 60 * 24

  const DefaultQueryClient: QueryClient := QueryClient(DefaultCacheTime, OfflineFirst, false, 0, OfflineFirst)

  /** The options of `createClient` this model follows; the others pass through to wagmi. */
  datatype ClientConfig = ClientConfig(
    autoConnect: bool, queryClient: Option<QueryClient>, storage: Option<Storage>, persister: PersisterArg)

  /**
   * The client `createClient` returns: the wagmi core client's settings with
   * the query client attached; `persistence` is the persister handed to
   * `persistQueryClient` together with `ShouldDehydrateQuery`, if any.
   */
  datatype Client = Client(autoConnect: bool, storage: Storage, queryClient: QueryClient, persistence: Option<Persister>)

  /** The default storage: `localStorage` when there is one, otherwise the no-op storage. */
  function DefaultStorage(env: Env): (s: Storage)
    ensures s.WagmiStorage?
    ensures s.backend == LocalStorage <==> env.windowDefined && env.localStorageAvailable
    ensures s.backend != LocalStorage ==> s.backend == NoopStorage
  {
    WagmiStorage(if env.windowDefined && env.localStorageAvailable then LocalStorage else NoopStorage)
  }

  /** The default persister exists only where `window` is defined; it writes under the key "cache". */
  function DefaultPersister(env: Env, storage: Storage): (p: Option<Persister>)
    ensures p.Some? <==> env.windowDefined
    ensures p.Some? ==> p.value.SyncStoragePersister? && p.value.key == "cache" && p.value.storage == storage
  {
    if env.windowDefined then Some(SyncStoragePersister("cache", storage)) else None
  }

  function CreateClient(config: ClientConfig, env: Env): (c: Client)
    ensures config.queryClient.Some? ==> c.queryClient == config.queryClient.value
    ensures config.queryClient.None? ==> c.queryClient == DefaultQueryClient && c.queryClient.cacheTime == 86_400_000
    ensures c.storage == if config.storage.Some? then config.storage.value else DefaultStorage(env)
    ensures c.persistence.Some? <==>
      config.persister.PersisterGiven? || (config.persister.PersisterUnset? && env.windowDefined)
    ensures config.persister.PersisterGiven? ==> c.persistence == Some(config.persister.persister)
    ensures config.persister.PersisterUnset? && c.persistence.Some? ==>
      c.persistence.value == SyncStoragePersister("cache", c.storage)
    ensures c.autoConnect == config.autoConnect
  {
    var queryClient := if config.queryClient.Some? then config.queryClient.value else DefaultQueryClient;
    var storage := if config.storage.Some? then config.storage.value else DefaultStorage(env);
    var persister :=
      match config.persister
      case PersisterUnset => DefaultPersister(env, storage)
      case PersisterNull => None
      case PersisterGiven(p) => Some(p);
    Client(config.autoConnect, storage, queryClient, persister)
  }

  // ---------------------------------------------------------------------------
  // install and useClient

  /** The message `useClient` throws outside an application that installed the plugin. */
  const NotInstalledMessage: string :=
    "`useClient` must be used within `WagmiConfig`.\n\nRead more: https://wagmi.sh/docs/WagmiConfig"

  /** `useClient`: the client provided under `VagmiClientKey`, or the not-installed error. */
  function UseClient(injected: Option<Client>): (r: Result<Client, string>)
    ensures r.Success? <==> injected.Some?
    ensures injected.Some? ==> r.value == injected.value
    ensures injected.None? ==> r.error == NotInstalledMessage
  {
    if injected.None? then Failure(NotInstalledMessage) else Success(injected.value)
  }

  /** A call the plugin makes into vue-query, wagmi or the application, in the order made. */
  datatype Effect =
    | UseVueQuery(queryClient: QueryClient)
    | AutoConnect
    | Subscribe(handle: nat)
    | Unsubscribe(handle: nat)
    | Provide(client: Client)
    | OriginalUnmount

  /**
   * The calls made by `app.unmount` once the plugin has wrapped it, once per
   * install: the last wrapper installed runs first, releases its store
   * subscription and then calls the unmount it replaced.
   */
  function UnmountEffects(wrappers: seq<nat>): (r: seq<Effect>)
    ensures |r| == |wrappers| + 1
    ensures r[|wrappers|] == OriginalUnmount
    ensures forall i :: 0 <= i < |wrappers| ==> r[i] == Unsubscribe(wrappers[|wrappers| - 1 - i])
    decreases |wrappers|
  {
    if wrappers == [] then [OriginalUnmount]
    else [Unsubscribe(wrappers[|wrappers| - 1])] + UnmountEffects(wrappers[..|wrappers| - 1])
  }

  /** No handle occurs twice. */
  predicate Distinct(handles: seq<nat>)
  {
    forall i, j :: 0 <= i < j < |handles| ==> handles[i] != handles[j]
  }

  /**
   * When every install subscribed under its own handle, the wrapped unmount
   * releases each subscription exactly once: no release is repeated.
   */
  lemma UnmountReleasesEachOnce(wrappers: seq<nat>)
    requires Distinct(wrappers)
    ensures forall h :: h in wrappers ==> Unsubscribe(h) in UnmountEffects(wrappers)
    ensures forall i, j :: 0 <= i < j < |UnmountEffects(wrappers)| ==> UnmountEffects(wrappers)[i] != UnmountEffects(wrappers)[j]
  {
    var r := UnmountEffects(wrappers);
    var n := |wrappers|;
    forall h | h in wrappers
      ensures Unsubscribe(h) in r
    {
      var k :| 0 <= k < n && wrappers[k] == h;
      assert r[n - 1 - k] == Unsubscribe(h);
    }
  }

  /** A Vue application together with the store subscriptions the plugin opened on it. */
  class App {
    /** Calls made so far. */
    var effects: seq<Effect>
    /** For each install, oldest first, the subscription its unmount wrapper releases. */
    var wrappers: seq<nat>
    /** Store subscriptions not yet released. */
    var live: set<nat>
    /** The value provided under `VagmiClientKey`. */
    var provided: Option<Client>
    /** The handle the next store subscription gets. */
    var nextHandle: nat

    ghost predicate Valid()
      reads this
    {
      (forall h :: h in live ==> h in wrappers) &&
      (forall i :: 0 <= i < |wrappers| ==> wrappers[i] < nextHandle) &&
      Distinct(wrappers)
    }

    constructor ()
      ensures Valid()
      ensures effects == [] && wrappers == [] && live == {} && provided == None && nextHandle == 0
    {
      effects := [];
      wrappers := [];
      live := {};
      provided := None;
      nextHandle := 0;
    }

    /** `install`: set up vue-query, auto-connect if configured, subscribe, wrap `unmount`, provide. */
    method Install(client: Client)
      requires Valid()
      modifies this
      ensures Valid()
      ensures effects == old(effects) + [UseVueQuery(client.queryClient)]
        + (if client.autoConnect then [AutoConnect] else [])
        + [Subscribe(old(nextHandle)), Provide(client)]
      ensures wrappers == old(wrappers) + [old(nextHandle)]
      ensures live == old(live) + {old(nextHandle)}
      ensures nextHandle == old(nextHandle) + 1
      ensures provided == Some(client)
      ensures UseClient(provided) == Success(client)
    {
      effects := effects + [UseVueQuery(client.queryClient)];
      if client.autoConnect {
        effects := effects + [AutoConnect];
      }
      var handle := nextHandle;
      effects := effects + [Subscribe(handle)];
      live := live + {handle};
      nextHandle := nextHandle + 1;
      wrappers := wrappers + [handle];
      effects := effects + [Provide(client)];
      provided := Some(client);
    }

    /** `app.unmount` as wrapped by every install so far. */
    method Unmount()
      requires Valid()
      modifies this
      ensures Valid()
      ensures effects == old(effects) + UnmountEffects(wrappers)
      ensures live == {}
      ensures forall i, j :: 0 <= i < j < |UnmountEffects(wrappers)| ==> UnmountEffects(wrappers)[i] != UnmountEffects(wrappers)[j]
      ensures wrappers == old(wrappers) && provided == old(provided) && nextHandle == old(nextHandle)
    {
      UnmountReleasesEachOnce(wrappers);
      effects := effects + UnmountEffects(wrappers);
      live := {};
    }
  }

  /**
   * One install followed by one unmount: the store subscription is released
   * exactly once, and before the original unmount runs.
   */
  method InstallThenUnmount(client: Client) returns (calls: seq<Effect>, stillSubscribed: set<nat>)
    ensures calls == [UseVueQuery(client.queryClient)]
      + (if client.autoConnect then [AutoConnect] else [])
      + [Subscribe(0), Provide(client), Unsubscribe(0), OriginalUnmount]
    ensures stillSubscribed == {}
  {
    var app := new App();
    app.Install(client);
    app.Unmount();
    assert UnmountEffects([0]) == [Unsubscribe(0), OriginalUnmount];
    calls, stillSubscribed := app.effects, app.live;
  }
}
