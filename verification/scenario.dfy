/** The end-to-end test of SimplePubSub: two in-memory providers, three consumers,
    three messages routed by key, and a fourth sent to a key that does not exist. */
module Scenario {
  import opened Wrappers
  import opened Sequences
  import opened PubSubErrors
  import opened DotNetStrings
  import opened Configuration
  import opened ConsumerAttributes
  import opened Binding
  import opened Producer
  import opened ServicesExtensions

  const InMemory1: string := "InMemory1"
  const InMemory2: string := "InMemory2"
  const NotExists: string := "NotExists"

  /** The scanned types: `TestConsumer0` for every provider, `TestConsumer1` and
      `TestConsumer2` for one provider each, and the message class, which carries
      no attribute. */
  function TestTypes(): seq<TypeInfo> {
    [ TypeInfo("TestConsumer0", "DigitalRuby.SimplePubSubTests.TestConsumer0", Some(NewConsumerAttribute())),
      TypeInfo("TestConsumer1", "DigitalRuby.SimplePubSubTests.TestConsumer1", Some(NewConsumerAttribute(InMemory1))),
      TypeInfo("TestConsumer2", "DigitalRuby.SimplePubSubTests.TestConsumer2", Some(NewConsumerAttribute(InMemory2))),
      TypeInfo("TestMessage", "DigitalRuby.SimplePubSubTests.TestMessage", None) ]
  }

  /** An in-memory provider as read from the configuration. */
  function InMemoryProvider(): PubSubConfiguration {
    NewPubSubConfiguration().(providerType := ProviderTypeValue(InMemory))
  }

  function TestEntries(): seq<ProviderEntry> {
    [ProviderEntry(InMemory1, InMemoryProvider()), ProviderEntry(InMemory2, InMemoryProvider())]
  }

  /** The two provider keys, and the missing one, differ up to case. */
  lemma KeysDiffer()
    ensures Fold(InMemory1) != Fold(InMemory2)
    ensures Fold(NotExists) != Fold(InMemory1) && Fold(NotExists) != Fold(InMemory2)
  {
    assert Fold(InMemory1)[8] == '1' && Fold(InMemory2)[8] == '2';
    assert Fold(NotExists)[0] == 'N' && Fold(InMemory1)[0] == 'I';
  }

  /** Which test types bind to which provider key. */
  lemma TestAffinity()
    ensures var types := TestTypes();
      && BindsTo(types[0], InMemory1) && BindsTo(types[0], InMemory2)
      && BindsTo(types[1], InMemory1) && !BindsTo(types[1], InMemory2)
      && !BindsTo(types[2], InMemory1) && BindsTo(types[2], InMemory2)
      && !BindsTo(types[3], InMemory1) && !BindsTo(types[3], InMemory2)
  {
    KeysDiffer();
    assert !IsBlank(InMemory1) by { assert !IsWhiteSpace(InMemory1[0]); }
    assert !IsBlank(InMemory2) by { assert !IsWhiteSpace(InMemory2[0]); }
  }

  /** Each test type is the only one with its handler class. */
  lemma TestHandlers(t: TypeInfo)
    requires t in TestTypes()
    ensures t.handlerType == "TestConsumer0" ==> t == TestTypes()[0]
    ensures t.handlerType == "TestConsumer1" ==> t == TestTypes()[1]
    ensures t.handlerType == "TestConsumer2" ==> t == TestTypes()[2]
  {
    var types := TestTypes();
    assert types[0].handlerType[12] == '0' && types[1].handlerType[12] == '1';
    assert types[2].handlerType[12] == '2' && types[3].handlerType[4] == 'M';
    assert "TestConsumer0"[4] == 'C';
  }

  /** The first provider binds `TestConsumer0` and `TestConsumer1`, not `TestConsumer2`. */
  lemma FirstProviderBindings(initialPrefetch: int)
    ensures var plan := BindingPlan(TestTypes(), InMemoryProvider().(key := InMemory1), initialPrefetch);
      Bound(plan, "TestConsumer0") && Bound(plan, "TestConsumer1") && !Bound(plan, "TestConsumer2")
  {
    var types, provider := TestTypes(), InMemoryProvider().(key := InMemory1);
    TestAffinity();
    BoundIff(types, provider, initialPrefetch, "TestConsumer0");
    BoundIff(types, provider, initialPrefetch, "TestConsumer1");
    BoundIff(types, provider, initialPrefetch, "TestConsumer2");
    assert types[0] in types && types[1] in types;
    forall t | t in types && t.handlerType == "TestConsumer2"
      ensures !BindsTo(t, provider.key)
    {
      TestHandlers(t);
    }
  }

  /** The second provider binds `TestConsumer0` and `TestConsumer2`, not `TestConsumer1`. */
  lemma SecondProviderBindings(initialPrefetch: int)
    ensures var plan := BindingPlan(TestTypes(), InMemoryProvider().(key := InMemory2), initialPrefetch);
      Bound(plan, "TestConsumer0") && !Bound(plan, "TestConsumer1") && Bound(plan, "TestConsumer2")
  {
    var types, provider := TestTypes(), InMemoryProvider().(key := InMemory2);
    TestAffinity();
    BoundIff(types, provider, initialPrefetch, "TestConsumer0");
    BoundIff(types, provider, initialPrefetch, "TestConsumer1");
    BoundIff(types, provider, initialPrefetch, "TestConsumer2");
    assert types[0] in types && types[2] in types;
    forall t | t in types && t.handlerType == "TestConsumer1"
      ensures !BindsTo(t, provider.key)
    {
      TestHandlers(t);
    }
  }

  /** The registry start-up builds from the test configuration: one queue system per
      provider, enumerated in configuration order. */
  lemma TestRegistry()
    ensures Winners(TestEntries()) == map[Fold(InMemory1) := TestEntries()[0], Fold(InMemory2) := TestEntries()[1]]
    ensures KeyOrder(TestEntries()) == [Fold(InMemory1), Fold(InMemory2)]
    ensures FirstUnsupported(TestEntries()).None?
  {
    var entries := TestEntries();
    KeysDiffer();
    assert Init(entries) == [entries[0]];
    assert Init([entries[0]]) == [];
    assert ProviderKindOf(ProviderTypeValue(InMemory)) == Some(InMemory);
  }

  /** How often each produce call of the test publishes to each provider. */
  lemma TestFanOut()
    ensures ExpectedPublishes(None, Fold(InMemory1)) == 1 && ExpectedPublishes(None, Fold(InMemory2)) == 1
    ensures ExpectedPublishes(Some([InMemory1]), Fold(InMemory1)) == 1
    ensures ExpectedPublishes(Some([InMemory1]), Fold(InMemory2)) == 0
    ensures ExpectedPublishes(Some([InMemory2]), Fold(InMemory1)) == 0
    ensures ExpectedPublishes(Some([InMemory2]), Fold(InMemory2)) == 1
    ensures ExpectedPublishes(Some([NotExists]), Fold(InMemory1)) == 0
    ensures ExpectedPublishes(Some([NotExists]), Fold(InMemory2)) == 0
  {
    KeysDiffer();
    assert Init([InMemory1]) == [] && Init([InMemory2]) == [] && Init([NotExists]) == [];
    assert Last([NotExists]) == NotExists;
    assert CountFolded([NotExists], Fold(InMemory1)) == 0;
    assert CountFolded([NotExists], Fold(InMemory2)) == 0;
  }

  /** With two registered systems, a handler's deliveries are those of the two buses. */
  lemma DeliveriesOfTwo(registry: QueueSystems, k1: string, k2: string, h: HandlerType, n1: nat, n2: nat)
    requires registry.Valid() && registry.order == [k1, k2]
    requires registry.queues[k1].bus.DeliveriesTo(h) == n1 && registry.queues[k2].bus.DeliveriesTo(h) == n2
    ensures registry.DeliveriesTo(h) == n1 + n2
  {
    var m := registry.queues;
    assert Init([k1, k2]) == [k1] && Init([k1]) == [];
    assert AllInOrder(m, [k1]) == [m[k1]];
    var all := AllInOrder(m, [k1, k2]);
    assert all == [m[k1], m[k2]];
    assert Init(all) == [m[k1]] && Init([m[k1]]) == [];
    assert DeliveriesAlong([m[k1]], h) == m[k1].bus.DeliveriesTo(h);
    assert DeliveriesAlong(all, h) == DeliveriesAlong([m[k1]], h) + m[k2].bus.DeliveriesTo(h);
  }

  /** The registry the test host starts with: the two in-memory providers, in
      configuration order, each on its own bus with the consumers it binds. */
  ghost predicate TestRegistryBuilt(registry: QueueSystems, initialPrefetch: int)
    reads registry
  {
    var k1, k2 := Fold(InMemory1), Fold(InMemory2);
    && registry.Valid()
    && registry.order == [k1, k2]
    && registry.queues[k1].bus.endpoints == BindingPlan(TestTypes(), InMemoryProvider().(key := InMemory1), initialPrefetch)
    && registry.queues[k2].bus.endpoints == BindingPlan(TestTypes(), InMemoryProvider().(key := InMemory2), initialPrefetch)
  }

  /** Which test consumers each bus of the test registry routes to. */
  ghost predicate TestRoutesBound(registry: QueueSystems)
    reads registry
  {
    var k1, k2 := Fold(InMemory1), Fold(InMemory2);
    && registry.Valid()
    && registry.order == [k1, k2]
    && Bound(registry.queues[k1].bus.endpoints, "TestConsumer0")
    && Bound(registry.queues[k1].bus.endpoints, "TestConsumer1")
    && !Bound(registry.queues[k1].bus.endpoints, "TestConsumer2")
    && Bound(registry.queues[k2].bus.endpoints, "TestConsumer0")
    && !Bound(registry.queues[k2].bus.endpoints, "TestConsumer1")
    && Bound(registry.queues[k2].bus.endpoints, "TestConsumer2")
  }

  /** The test registry's first bus serves `TestConsumer0` and `TestConsumer1`, the second
      `TestConsumer0` and `TestConsumer2`. */
  lemma TestRoutes(registry: QueueSystems, initialPrefetch: int)
    requires TestRegistryBuilt(registry, initialPrefetch)
    ensures TestRoutesBound(registry)
  {
    FirstProviderBindings(initialPrefetch);
    SecondProviderBindings(initialPrefetch);
  }

  /** After two messages on each bus, the consumers' counts are 4, 2 and 2. */
  lemma TestCounts(registry: QueueSystems)
    requires TestRoutesBound(registry)
    requires |registry.queues[Fold(InMemory1)].bus.published| == 2 && |registry.queues[Fold(InMemory2)].bus.published| == 2
    ensures registry.DeliveriesTo("TestConsumer0") == 4
    ensures registry.DeliveriesTo("TestConsumer1") == 2
    ensures registry.DeliveriesTo("TestConsumer2") == 2
  {
    var k1, k2 := Fold(InMemory1), Fold(InMemory2);
    DeliveriesOfTwo(registry, k1, k2, "TestConsumer0", 2, 2);
    DeliveriesOfTwo(registry, k1, k2, "TestConsumer1", 2, 0);
    DeliveriesOfTwo(registry, k1, k2, "TestConsumer2", 0, 2);
  }

  /** The host start-up of the test: `AddSimplePubSub` on an empty service collection
      with the two in-memory providers. */
  method StartTestHost(defaultPrefetch: ProviderKind -> int)
    returns (addedBefore: bool, addedAfter: bool, registry: QueueSystems)
    ensures !addedBefore && addedAfter
    ensures fresh(registry) && fresh(registry.Buses())
    ensures TestRegistryBuilt(registry, defaultPrefetch(InMemory))
    ensures registry.queues[Fold(InMemory1)].bus.published == [] && registry.queues[Fold(InMemory2)].bus.published == []
    ensures registry.queues[Fold(InMemory1)].bus.starts == 1 && registry.queues[Fold(InMemory2)].bus.starts == 1
  {
    var services := new ServiceCollection([]);
    addedBefore := services.SimplePubSubAdded();
    TestRegistry();
    KeysDiffer();
    var outcome, r, _ := AddSimplePubSub(services, SimplePubSubConfiguration(Some(TestEntries())), TestTypes(), defaultPrefetch);
    addedAfter := services.SimplePubSubAdded();
    registry := r;
    var k1, k2 := Fold(InMemory1), Fold(InMemory2);
    assert k1 in registry.queues && k2 in registry.queues;
    assert BuiltFrom(registry.queues[k1], TestEntries()[0], TestTypes(), defaultPrefetch, 1);
    assert BuiltFrom(registry.queues[k2], TestEntries()[1], TestTypes(), defaultPrefetch, 1);
  }

  /** One `ProduceAsync` of the test, seen through the two registered buses. */
  method Produce(producer: Producer, message: Message, keys: Option<seq<string>>, k1: string, k2: string)
    returns (outcome: Outcome<PubSubError>)
    requires producer.queueSystems.Valid() && k1 in producer.queueSystems.queues && k2 in producer.queueSystems.queues
    modifies producer.queueSystems.Buses()
    ensures producer.queueSystems.queues == old(producer.queueSystems.queues)
    ensures producer.queueSystems.order == old(producer.queueSystems.order)
    ensures Resolve(producer.queueSystems.queues, producer.queueSystems.order, keys).Failure? ==>
      outcome == Fail(NoQueueForKeys(keys.value))
    ensures |producer.queueSystems.queues[k1].bus.published| ==
      old(|producer.queueSystems.queues[k1].bus.published|) + ExpectedPublishes(keys, k1)
    ensures |producer.queueSystems.queues[k2].bus.published| ==
      old(|producer.queueSystems.queues[k2].bus.published|) + ExpectedPublishes(keys, k2)
  {
    outcome := producer.ProduceAsync(message, keys);
  }

  /** The four produce calls of the test: to every provider, to the first, to the
      second, and to a key that names none. */
  method ProduceTestMessages(producer: Producer)
    returns (notExists: Outcome<PubSubError>)
    requires producer.queueSystems.Valid()
    requires producer.queueSystems.order == [Fold(InMemory1), Fold(InMemory2)]
    requires producer.queueSystems.queues[Fold(InMemory1)].bus.published == []
    requires producer.queueSystems.queues[Fold(InMemory2)].bus.published == []
    modifies producer.queueSystems.Buses()
    ensures unchanged(producer.queueSystems)
    ensures |producer.queueSystems.queues[Fold(InMemory1)].bus.published| == 2
    ensures |producer.queueSystems.queues[Fold(InMemory2)].bus.published| == 2
    ensures notExists == Fail(NoQueueForKeys([NotExists]))
  {
    var registry := producer.queueSystems;
    var k1, k2 := Fold(InMemory1), Fold(InMemory2);
    ghost var queues, order := registry.queues, registry.order;
    KeysDiffer();
    assert Fold(NotExists) !in queues by {
      assert Fold(NotExists) !in order;
    }
    assert Resolve(queues, order, Some([NotExists])).Failure? by {
      ResolveFailsIff(queues, order, Some([NotExists]));
    }
    TestFanOut();
    var _ := Produce(producer, "all", None, k1, k2);
    var _ := Produce(producer, "one", Some([InMemory1]), k1, k2);
    var _ := Produce(producer, "two", Some([InMemory2]), k1, k2);
    notExists := Produce(producer, "notexists", Some([NotExists]), k1, k2);
  }

  /** `TestPubSub`: the counts of messages each consumer received. */
  method TestPubSub(defaultPrefetch: ProviderKind -> int)
    returns (addedBefore: bool, addedAfter: bool, messages0: nat, messages1: nat, messages2: nat,
             notExists: Outcome<PubSubError>)
    ensures !addedBefore && addedAfter
    ensures messages0 == 4 && messages1 == 2 && messages2 == 2
    ensures notExists == Fail(NoQueueForKeys([NotExists]))
  {
    var registry;
    addedBefore, addedAfter, registry := StartTestHost(defaultPrefetch);
    TestRoutes(registry, defaultPrefetch(InMemory));
    var producer := new Producer(registry);
    notExists := ProduceTestMessages(producer);
    TestCounts(registry);
    messages0 := registry.DeliveriesTo("TestConsumer0");
    messages1 := registry.DeliveriesTo("TestConsumer1");
    messages2 := registry.DeliveriesTo("TestConsumer2");
  }
}
