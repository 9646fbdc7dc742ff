/** `ServicesExtensions`: the start-up of SimplePubSub. It validates the provider
    configuration, assigns provider keys, builds one bus per provider, registers
    the buses and starts them. It also holds the once-per-builder guard of
    `UseSimplePubSub`. */
module ServicesExtensions {
  import opened Wrappers
  import opened Sequences
  import opened PubSubErrors
  import opened DotNetStrings
  import opened Configuration
  import opened Binding
  import opened Producer

  /** The registrations `AddSimplePubSub` makes in the service collection. Anything
      registered by other code is an `OtherService`. */
  datatype ServiceDescriptor =
    | ResolverSingleton
    | MassTransitHelperService
    | QueueSystemsSingleton(registry: QueueSystems)
    | OtherService(name: string)

  /** `IServiceCollection`: the registrations, in the order they were made. */
  class ServiceCollection {
    var descriptors: seq<ServiceDescriptor>

    constructor (descriptors: seq<ServiceDescriptor>)
      ensures this.descriptors == descriptors
    {
      this.descriptors := descriptors;
    }

    /** `SimplePubSubAdded`: some registration has the hosted helper service as its
        implementation type. */
    predicate SimplePubSubAdded(): (added: bool)
      reads this
      ensures added <==> exists i :: 0 <= i < |descriptors| && descriptors[i].MassTransitHelperService?
    {
      MassTransitHelperService in descriptors
    }

    method Add(descriptor: ServiceDescriptor)
      modifies this
      ensures descriptors == old(descriptors) + [descriptor]
    {
      descriptors := descriptors + [descriptor];
    }
  }

  // ---------------------------------------------------------------------------
  // The provider dictionary.

  /** The provider each dictionary key up to case ends up with: a later
      `AddQueueSystem` under an equal key replaces the earlier entry, so the last
      provider carrying a key wins. */
  function Winners(entries: seq<ProviderEntry>): map<string, ProviderEntry> {
    if entries == [] then map[]
    else Winners(Init(entries))[Fold(Last(entries).name) := Last(entries)]
  }

  /** The registry's enumeration order after adding the providers one by one: each
      key up to case, at the place of its first occurrence. */
  function KeyOrder(entries: seq<ProviderEntry>): seq<string> {
    if entries == [] then []
    else
      var rest := KeyOrder(Init(entries));
      if Fold(Last(entries).name) in rest then rest else rest + [Fold(Last(entries).name)]
  }

  /** The winner of a key is the last provider whose key equals it up to case, and
      every key of the dictionary has one. */
  lemma {:induction false} WinnerIsLast(entries: seq<ProviderEntry>, k: string)
    ensures k in Winners(entries) <==> exists i :: 0 <= i < |entries| && Fold(entries[i].name) == k
    ensures k in Winners(entries) ==>
      exists i :: && 0 <= i < |entries| && Winners(entries)[k] == entries[i] && Fold(entries[i].name) == k
                  && forall j :: i < j < |entries| ==> Fold(entries[j].name) != k
  {
    if entries != [] {
      var init := Init(entries);
      WinnerIsLast(init, k);
      assert forall i :: 0 <= i < |init| ==> init[i] == entries[i];
      if Fold(Last(entries).name) == k {
        assert Winners(entries)[k] == entries[|entries| - 1];
      } else if k in Winners(init) {
        var i :| && 0 <= i < |init| && Winners(init)[k] == init[i] && Fold(init[i].name) == k
                 && forall j :: i < j < |init| ==> Fold(init[j].name) != k;
        assert Winners(entries)[k] == entries[i];
      }
    }
  }

  /** The enumeration order lists every winning key exactly once. */
  lemma {:induction false} KeyOrderLists(entries: seq<ProviderEntry>)
    ensures Distinct(KeyOrder(entries))
    ensures forall k :: k in KeyOrder(entries) <==> k in Winners(entries)
  {
    if entries != [] {
      KeyOrderLists(Init(entries));
    }
  }

  /** The registry's size is the number of distinct dictionary keys up to case. */
  lemma RegistrySize(entries: seq<ProviderEntry>)
    ensures |Winners(entries)| == |set e | e in entries :: Fold(e.name)|
    ensures |Winners(entries)| == |KeyOrder(entries)|
  {
    KeyOrderLists(entries);
    DistinctSetSize(KeyOrder(entries));
    assert Winners(entries).Keys == set k | k in KeyOrder(entries);
    forall k ensures k in Winners(entries) <==> k in set e | e in entries :: Fold(e.name) {
      WinnerIsLast(entries, k);
    }
    assert Winners(entries).Keys == set e | e in entries :: Fold(e.name);
  }

  /** The provider's `Type` is one of the six supported kinds. */
  predicate Supported(entry: ProviderEntry) {
    ProviderKindOf(entry.config.providerType).Some?
  }

  /** The `Type` of the first provider, in enumeration order, whose type is none of
      the six supported kinds; `None` when every provider is supported. */
  function FirstUnsupported(entries: seq<ProviderEntry>): (bad: Option<int>)
    ensures bad.None? <==> forall i :: 0 <= i < |entries| ==> Supported(entries[i])
    ensures bad.Some? ==>
      exists i :: && 0 <= i < |entries| && entries[i].config.providerType == bad.value
                  && ProviderKindOf(bad.value).None?
                  && forall j :: 0 <= j < i ==> Supported(entries[j])
  {
    if entries == [] then None
    else if ProviderKindOf(entries[0].config.providerType).None? then Some(entries[0].config.providerType)
    else
      var rest := FirstUnsupported(entries[1..]);
      assert forall i :: 1 <= i < |entries| ==> entries[1..][i - 1] == entries[i];
      if rest.Some? then
        var i :| 0 <= i < |entries[1..]| && entries[1..][i].config.providerType == rest.value
          && ProviderKindOf(rest.value).None?
          && forall j :: 0 <= j < i ==> Supported(entries[1..][j]);
        assert entries[i + 1].config.providerType == rest.value;
        rest
      else rest
  }

  /** The first unsupported entry is the one the loop stops at. */
  lemma {:induction false} FirstUnsupportedAt(entries: seq<ProviderEntry>, i: nat)
    requires i < |entries| && !Supported(entries[i])
    requires forall j :: 0 <= j < i ==> Supported(entries[j])
    ensures FirstUnsupported(entries) == Some(entries[i].config.providerType)
  {
    if i > 0 {
      assert forall j :: 0 <= j < i - 1 ==> entries[1..][j] == entries[j + 1];
      FirstUnsupportedAt(entries[1..], i - 1);
    }
  }

  /** A provider whose `Key` holds its dictionary key. */
  function KeyAssigned(entry: ProviderEntry): ProviderEntry {
    ProviderEntry(entry.name, entry.config.(key := entry.name))
  }

  /** The `foreach` that copies each dictionary key into its provider's `Key`. */
  method AssignKeys(entries: seq<ProviderEntry>) returns (keyed: seq<ProviderEntry>)
    ensures |keyed| == |entries|
    ensures forall i :: 0 <= i < |entries| ==>
      && keyed[i].name == entries[i].name
      && keyed[i].config.key == entries[i].name
      && keyed[i].config == entries[i].config.(key := entries[i].name)
  {
    keyed := [];
    for i := 0 to |entries|
      invariant |keyed| == i
      invariant forall j :: 0 <= j < i ==> keyed[j] == KeyAssigned(entries[j])
    {
      keyed := keyed + [KeyAssigned(entries[i])];
    }
  }

  // ---------------------------------------------------------------------------
  // Building the buses.

  /** `ConfigureInMemory` and its five siblings: a new bus of the provider's kind
      whose receive endpoints are those `AddConsumers` configures. The transport's
      own default prefetch count is `initialPrefetch`. */
  method CreateBus(kind: ProviderKind, provider: PubSubConfiguration, types: seq<TypeInfo>, initialPrefetch: int)
    returns (bus: Bus)
    ensures fresh(bus)
    ensures bus.kind == kind && bus.endpoints == BindingPlan(types, provider, initialPrefetch)
    ensures bus.starts == 0 && bus.published == []
  {
    var endpoints, _ := AddConsumers(types, provider, initialPrefetch);
    bus := new Bus(kind, endpoints);
  }

  /** A queue system built from `entry`: registered under its dictionary key, on a
      bus of its kind whose endpoints `AddConsumers` configured from its settings
      with the key assigned, started `starts` times, and with nothing published. */
  ghost predicate BuiltFrom(system: QueueSystem, entry: ProviderEntry,
                            types: seq<TypeInfo>, defaultPrefetch: ProviderKind -> int, starts: nat)
    reads system.bus
  {
    var kind := ProviderKindOf(entry.config.providerType);
    && system.key == entry.name
    && kind.Some?
    && system.bus.kind == kind.value
    && system.bus.endpoints == BindingPlan(types, entry.config.(key := entry.name), defaultPrefetch(kind.value))
    && system.bus.starts == starts
    && system.bus.published == []
  }

  /** `registry` holds, under each dictionary key of `entries` up to case, the
      queue system built from the provider that won that key, and enumerates the
      keys in the order they were first added. */
  ghost predicate Registered(registry: QueueSystems, entries: seq<ProviderEntry>,
                             types: seq<TypeInfo>, defaultPrefetch: ProviderKind -> int, starts: nat)
    reads registry, registry.Buses()
  {
    var winners := Winners(entries);
    && registry.queues.Keys == winners.Keys
    && registry.order == KeyOrder(entries)
    && forall k :: k in registry.queues ==>
         BuiltFrom(registry.queues[k], winners[k], types, defaultPrefetch, starts)
  }

  /** One pass of the `AddMassTransit` callback for a supported provider: build its
      bus and add it to the registry under the provider's key. */
  method AddProvider(queueSystems: QueueSystems, entries: seq<ProviderEntry>, i: nat, provider: PubSubConfiguration,
                     types: seq<TypeInfo>, defaultPrefetch: ProviderKind -> int)
    requires i < |entries| && provider == KeyAssigned(entries[i]).config && Supported(entries[i])
    requires queueSystems.Valid() && Registered(queueSystems, entries[..i], types, defaultPrefetch, 0)
    modifies queueSystems
    ensures queueSystems.Valid() && Registered(queueSystems, entries[..i + 1], types, defaultPrefetch, 0)
    ensures fresh(queueSystems.Buses() - old(queueSystems.Buses()))
  {
    var kind := ProviderKindOf(provider.providerType);
    var bus := CreateBus(kind.value, provider, types, defaultPrefetch(kind.value));
    assert Init(entries[..i + 1]) == entries[..i];
    ghost var before, oldBuses := queueSystems.queues, queueSystems.Buses();
    queueSystems.AddQueueSystem(provider.key, bus);
    forall k | k in queueSystems.queues
      ensures BuiltFrom(queueSystems.queues[k], Winners(entries[..i + 1])[k], types, defaultPrefetch, 0)
    {
      if k != Fold(provider.key) {
        assert queueSystems.queues[k] == before[k];
      }
    }
    forall b | b in queueSystems.Buses()
      ensures b in oldBuses || b == bus
    {
      var k :| k in queueSystems.queues && queueSystems.queues[k].bus == b;
      if k != Fold(provider.key) {
        assert queueSystems.queues[k] == before[k];
      }
    }
  }

  /** The `AddMassTransit` callback: for each provider in enumeration order, build
      its bus and add it to a new registry under the provider's key. It stops at the
      first provider whose type is unsupported and returns that type. */
  method BuildQueueSystems(entries: seq<ProviderEntry>, keyed: seq<ProviderEntry>,
                           types: seq<TypeInfo>, defaultPrefetch: ProviderKind -> int)
    returns (unsupported: Option<int>, queueSystems: QueueSystems)
    requires |keyed| == |entries|
    requires forall i :: 0 <= i < |entries| ==> keyed[i] == KeyAssigned(entries[i])
    ensures unsupported == FirstUnsupported(entries)
    ensures fresh(queueSystems) && queueSystems.Valid()
    ensures unsupported.None? ==> Registered(queueSystems, entries, types, defaultPrefetch, 0)
    ensures unsupported.None? ==> fresh(queueSystems.Buses())
  {
    queueSystems := new QueueSystems();
    for i := 0 to |keyed|
      invariant forall j :: 0 <= j < i ==> Supported(entries[j])
      invariant fresh(queueSystems) && queueSystems.Valid()
      invariant fresh(queueSystems.Buses())
      invariant Registered(queueSystems, entries[..i], types, defaultPrefetch, 0)
    {
      var provider := keyed[i].config;
      var kind := ProviderKindOf(provider.providerType);
      if kind.None? {
        FirstUnsupportedAt(entries, i);
        return Some(provider.providerType), queueSystems;
      }
      AddProvider(queueSystems, entries, i, provider, types, defaultPrefetch);
    }
    assert entries[..|keyed|] == entries;
    return None, queueSystems;
  }

  /** The last two steps of the wiring: register the registry as a singleton, then
      start every bus in it. */
  method RegisterAndStart(services: ServiceCollection, registry: QueueSystems, entries: seq<ProviderEntry>,
                          types: seq<TypeInfo>, defaultPrefetch: ProviderKind -> int)
    requires registry.Valid() && Registered(registry, entries, types, defaultPrefetch, 0)
    modifies services, registry.Buses()
    ensures services.descriptors == old(services.descriptors) + [QueueSystemsSingleton(registry)]
    ensures unchanged(registry) && Registered(registry, entries, types, defaultPrefetch, 1)
  {
    services.Add(QueueSystemsSingleton(registry));
    ghost var winners := Winners(entries);
    registry.Wait();
    forall k | k in registry.queues
      ensures BuiltFrom(registry.queues[k], winners[k], types, defaultPrefetch, 1)
    {
    }
  }

  /** The wiring `AddSimplePubSub` does once the configuration passed its checks:
      register the helper services, assign the keys, build every bus, then register
      the registry and start it. An unsupported provider type stops it after the
      helper services are registered, after the keys were assigned. `keyed` is the
      providers as they are left, each carrying its dictionary key. */
  method Wire(services: ServiceCollection, entries: seq<ProviderEntry>,
              types: seq<TypeInfo>, defaultPrefetch: ProviderKind -> int)
    returns (outcome: Outcome<PubSubError>, registry: QueueSystems?, keyed: seq<ProviderEntry>)
    modifies services
    ensures |keyed| == |entries| && forall i :: 0 <= i < |entries| ==> keyed[i] == KeyAssigned(entries[i])
    ensures FirstUnsupported(entries).Some? ==>
      && outcome == Fail(UnsupportedProviderType(FirstUnsupported(entries).value))
      && registry == null
      && services.descriptors == old(services.descriptors) + [ResolverSingleton, MassTransitHelperService]
    ensures FirstUnsupported(entries).None? ==>
      && outcome == Pass
      && registry != null && fresh(registry) && registry.Valid()
      && services.descriptors == old(services.descriptors) + [ResolverSingleton, MassTransitHelperService, QueueSystemsSingleton(registry)]
      && fresh(registry.Buses())
      && Registered(registry, entries, types, defaultPrefetch, 1)
  {
    services.Add(ResolverSingleton);
    services.Add(MassTransitHelperService);
    keyed := AssignKeys(entries);
    var unsupported, queueSystems := BuildQueueSystems(entries, keyed, types, defaultPrefetch);
    if unsupported.Some? {
      return Fail(UnsupportedProviderType(unsupported.value)), null, keyed;
    }
    RegisterAndStart(services, queueSystems, entries, types, defaultPrefetch);
    return Pass, queueSystems, keyed;
  }

  /** `AddSimplePubSub(services, configuration)`. `types` is the scanned assembly
      contents and `defaultPrefetch` each transport's default prefetch count. The
      outcome is `Fail` where the source throws; the new registry is returned
      when it was registered. `updated` is the caller's configuration as the call
      leaves it: once past the two checks, every provider's `Key` holds its
      dictionary key, whether or not a provider type then fails. */
  method AddSimplePubSub(services: ServiceCollection, configuration: SimplePubSubConfiguration,
                         types: seq<TypeInfo>, defaultPrefetch: ProviderKind -> int)
    returns (outcome: Outcome<PubSubError>, registry: QueueSystems?, updated: SimplePubSubConfiguration)
    modifies services
    // keys are assigned iff both checks pass
    ensures (old(services.SimplePubSubAdded()) || configuration.providers.None? || configuration.providers.value == []) ==>
      updated == configuration
    ensures (!old(services.SimplePubSubAdded()) && configuration.providers.Some? && configuration.providers.value != []) ==>
      && updated.providers.Some? && |updated.providers.value| == |configuration.providers.value|
      && forall i :: 0 <= i < |configuration.providers.value| ==>
           updated.providers.value[i] == KeyAssigned(configuration.providers.value[i])
    // already added: nothing happens
    ensures old(services.SimplePubSubAdded()) ==>
      outcome == Pass && registry == null && services.descriptors == old(services.descriptors)
    // no providers: rejected before anything is registered
    ensures !old(services.SimplePubSubAdded()) && (configuration.providers.None? || configuration.providers.value == []) ==>
      outcome == Fail(NullOrEmptyProviders) && registry == null && services.descriptors == old(services.descriptors)
    // an unsupported provider type: rejected after the helper services are registered
    ensures (!old(services.SimplePubSubAdded()) && configuration.providers.Some? && configuration.providers.value != []
             && FirstUnsupported(configuration.providers.value).Some?) ==>
      && outcome == Fail(UnsupportedProviderType(FirstUnsupported(configuration.providers.value).value))
      && registry == null
      && services.descriptors == old(services.descriptors) + [ResolverSingleton, MassTransitHelperService]
    // success: every provider's bus registered under its key, then all started
    ensures (!old(services.SimplePubSubAdded()) && configuration.providers.Some? && configuration.providers.value != []
             && FirstUnsupported(configuration.providers.value).None?) ==>
      && outcome == Pass
      && registry != null && fresh(registry) && registry.Valid()
      && services.descriptors == old(services.descriptors) + [ResolverSingleton, MassTransitHelperService, QueueSystemsSingleton(registry)]
      && fresh(registry.Buses())
      && Registered(registry, configuration.providers.value, types, defaultPrefetch, 1)
    ensures services.SimplePubSubAdded() <==>
      old(services.SimplePubSubAdded()) || (configuration.providers.Some? && configuration.providers.value != [])
  {
    if services.SimplePubSubAdded() {
      return Pass, null, configuration;
    }
    if configuration.providers.None? || |configuration.providers.value| == 0 {
      return Fail(NullOrEmptyProviders), null, configuration;
    }
    var keyed;
    outcome, registry, keyed := Wire(services, configuration.providers.value, types, defaultPrefetch);
    updated := SimplePubSubConfiguration(Some(keyed));
    assert services.descriptors[|old(services.descriptors)| + 1] == MassTransitHelperService;
  }

  // ---------------------------------------------------------------------------
  // `UseSimplePubSub`.

  /** The shared bag of application builders `UseSimplePubSub` has seen. */
  class UseGuard {
    var called: set<object>

    constructor ()
      ensures called == {}
    {
      called := {};
    }

    /** `UseSimplePubSub`: `firstUse` says whether the guarded setup ran for
        `appBuilder`, which happens once per builder until the host starts. */
    method UseSimplePubSub(appBuilder: object) returns (firstUse: bool)
      modifies this
      ensures firstUse <==> appBuilder !in old(called)
      ensures called == old(called) + {appBuilder}
    {
      firstUse := appBuilder !in called;
      if firstUse {
        called := called + {appBuilder};
      }
    }

    /** `MassTransitHelperService.ExecuteAsync`: the bag is cleared when the host starts. */
    method HostStarted()
      modifies this
      ensures called == {}
    {
      called := {};
    }
  }
}
