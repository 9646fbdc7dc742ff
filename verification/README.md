# SimplePubSub routing core in Dafny

This project models the routing layer of SimplePubSub, a .NET library that puts a
small publish/subscribe API over MassTransit transports. The layer decides two things:

- which transport instances a produced message goes to;
- which consumer classes are bound to which receive queue on which transport.

It has four parts, one module each:

- **`Producer`** (`producer.dfy`): the `QueueSystems` registry and the fan-out producer.
  - The registry is a class holding a map from provider key to `QueueSystem`. Keys
    compare with `OrdinalIgnoreCase`, modelled by ASCII upper-casing (`Fold`).
  - The registry also holds the dictionary's enumeration order.
  - Each `QueueSystem` wraps a `Bus`. The bus counts its starts and logs the
    messages published on it.
  - Key resolution (`EnumerateQueueSystems`) is proved against the reference function
    `Resolve`, and the fan-out against `ExpectedPublishes`.
- **`Binding`** (`binding.dfy`): `AddConsumers` for one provider.
  - The selection and `GroupBy` are functions.
  - The endpoint loop and the per-endpoint consumer loop are methods.
  - Both are proved equal to `BindingPlan`, a reference definition: one endpoint per
    distinct resolved queue name.
- **`ServicesExtensions`** (`services_extensions.dfy`): start-up.
  - `AddSimplePubSub` validates the provider dictionary, assigns keys, builds one bus per
    provider, registers the registry and starts it.
  - `SimplePubSubAdded` is the "already added" test.
  - `UseSimplePubSub` is the once-per-builder guard.
- **`ConsumerAttributes`** and **`Configuration`** (`consumer_attribute.dfy`,
  `configuration.dfy`): the attribute with `GetQueueName`, the configuration records and
  the `ProviderType` enumeration.

`Scenario` (`scenario.dfy`) replays the repository's end-to-end test. Two in-memory
providers and three consumers are set up, and the test's delivery counts 4, 2 and 2 are
proved. `Wrappers`, `PubSubErrors` and `DotNetStrings` supply the following:

- `Option`, `Result` and `Outcome`, in place of null and exceptions;
- the three exceptions the layer throws;
- `string.IsNullOrWhiteSpace` and ordinal case-insensitive comparison.
- `Sequences` (`sequences.dfy`): a list's prefix and last element, and distinctness.

Thrown exceptions are `Fail`/`Failure` values.

## Model

| member | source | states |
|---|---|---|
| ConsumerAttributes.GetQueueName | DigitalRuby.SimplePubSub/ConsumerAttribute.cs:41-48 | The type's full name when `QueueName` is null, empty or whitespace; `QueueName` itself otherwise; never blank when the full name is not blank |
| ConsumerAttributes.NewConsumerAttribute | DigitalRuby.SimplePubSub/ConsumerAttribute.cs:12-34 | The constructor stores `providerKey` verbatim, default "" for all providers; `PrefetchCount` is 0; with `QueueName` fixed at "", `GetQueueName` yields the full type name for every type |
| ConsumerAttributes.ConsumerAttributeWithOptions | DigitalRuby.SimplePubSub/ConsumerAttribute.cs:14-22 | The documented intent with settable properties: a non-blank queue name overrides the type name for every type, a blank one does not, and the prefetch count is kept |
| Configuration.ProviderTypeValue | DigitalRuby.SimplePubSub/SimplePubSubConfiguration.cs:80-111 | Each of the six kinds is numbered within 1..6 |
| Configuration.ProviderKindOf | DigitalRuby.SimplePubSub/SimplePubSubConfiguration.cs:80-111 | A `Type` value names a kind iff it is in 1..6, and then the kind with that number; 0, the default, names none |
| Configuration.ProviderTypeRoundTrip | DigitalRuby.SimplePubSub/SimplePubSubConfiguration.cs:80-111 | Reading back a kind's number gives that kind, so the numbering is injective |
| Configuration.NewPubSubConfiguration | DigitalRuby.SimplePubSub/SimplePubSubConfiguration.cs:17-78 | `Key` and every credential and SSL string are ""; the unset `Type` is no supported kind; `Servers` is empty; `Retries` and `Redeliveries` are absent, which is not empty, and apply no policy |
| Binding.SelectConsumers | DigitalRuby.SimplePubSub/ServicesExtensions.cs:140-150 | A type is selected iff it carries the attribute and the attribute's provider key is blank or equals the provider's key up to case |
| Binding.WithQueue | DigitalRuby.SimplePubSub/ServicesExtensions.cs:151 | The members of a queue are exactly the selected types whose resolved queue name is that queue |
| Binding.GroupByQueuePartitions | DigitalRuby.SimplePubSub/ServicesExtensions.cs:151-152 | The `GroupBy` yields one group per distinct resolved queue name, and each group holds exactly the selected types with that name |
| Binding.AddToGroups | DigitalRuby.SimplePubSub/ServicesExtensions.cs:151 | One step of the `GroupBy`: the type's queue name joins the group names, and a new group is opened only for a name not yet present |
| Binding.GroupByQueue | DigitalRuby.SimplePubSub/ServicesExtensions.cs:151 | The group names are exactly the distinct resolved queue names of the selected types |
| Binding.Handlers | DigitalRuby.SimplePubSub/ServicesExtensions.cs:178-191 | An endpoint registers one consumer per group member, in member order, each of that member's own handler type; so its consumers are exactly the members' handler types |
| Binding.GroupPrefetch | DigitalRuby.SimplePubSub/ServicesExtensions.cs:178-183 | The endpoint prefetch is the maximum of the transport's value and every positive `PrefetchCount` in the group |
| Binding.NoPositivePrefetchKeepsInitial | DigitalRuby.SimplePubSub/ServicesExtensions.cs:180-183 | A group whose counts are all zero or negative keeps the transport's prefetch, since only counts above zero are considered |
| Binding.RetryPolicy | DigitalRuby.SimplePubSub/ServicesExtensions.cs:170-177 | A retry or redelivery policy is applied iff its interval array is non-null and non-empty, and then with those intervals |
| Binding.ConfigureReceiveEndpoint | DigitalRuby.SimplePubSub/ServicesExtensions.cs:168-193 | The configuring loop produces the endpoint of the reference definition for its group |
| Binding.ConfigureEndpoints | DigitalRuby.SimplePubSub/ServicesExtensions.cs:154-202 | The endpoint loop configures one endpoint per group, named after it, in group order |
| Binding.GroupPlanIsBindingPlan | DigitalRuby.SimplePubSub/ServicesExtensions.cs:151-202 | The loop's endpoints over the `GroupBy` equal the reference plan: one endpoint per distinct queue name holding exactly its consumers |
| Binding.AddConsumers | DigitalRuby.SimplePubSub/ServicesExtensions.cs:135-203 | The endpoints equal the reference plan; the created endpoint names are distinct and are exactly the plan's names |
| Binding.BoundIff | DigitalRuby.SimplePubSub/ServicesExtensions.cs:146-150 | A handler is bound to a provider iff its type carries the attribute and its provider key is blank or equals the provider key up to case |
| Binding.OneEndpointPerConsumer | DigitalRuby.SimplePubSub/ServicesExtensions.cs:151-201 | Each bound consumer is on the endpoint of its resolved queue name and, scanned types being distinct, on no other |
| Binding.EndpointPolicies | DigitalRuby.SimplePubSub/ServicesExtensions.cs:170-183 | The resolved queue name of any bound consumer has an endpoint; every such endpoint has the provider's retry and redelivery policy, and a prefetch no lower than the transport's or any positive count of its consumers |
| Binding.DeclaredConsumersUseTypeNames | DigitalRuby.SimplePubSub/ConsumerAttribute.cs:17-48 | With attributes as they can be declared, the endpoints are named after the bound types' full names and all keep the transport's prefetch |
| Binding.OverridesReachEndpoint | DigitalRuby.SimplePubSub/ServicesExtensions.cs:151-183 | With the properties settable, a bound consumer naming a queue is registered on an endpoint of that name whose prefetch is at least the one it asked for |
| Producer.Resolve | DigitalRuby.SimplePubSub/Producer.cs:93-118 | Resolution fails only when keys are given, with the error naming those keys; every resolved value is a registered one |
| Producer.ResolveAll | DigitalRuby.SimplePubSub/Producer.cs:95-101 | With null or empty keys, resolution succeeds with one entry per registered key |
| Producer.CountAllInOrder | DigitalRuby.SimplePubSub/Producer.cs:97-100 | Enumerating all values yields every registered system exactly once |
| Producer.CountMatching | DigitalRuby.SimplePubSub/Producer.cs:105-112 | With keys, each system is yielded once per requested key equal to its key up to case: unmatched keys are skipped, repeated keys repeat |
| Producer.ResolveFailsIff | DigitalRuby.SimplePubSub/Producer.cs:104-116 | Resolution fails iff keys are given and none of them names a registered system up to case |
| Producer.ResolvePublishes | DigitalRuby.SimplePubSub/Producer.cs:93-118 | Each system occurs in a successful resolution as often as the reference fan-out says, and a failed resolution means no publishes |
| Producer.MatchingInRequestOrder | DigitalRuby.SimplePubSub/Producer.cs:103-113 | Systems found for requested keys come in request order: the matches of earlier keys precede those of later keys |
| Producer.QueueSystems.Find | DigitalRuby.SimplePubSub/Producer.cs:107 | The lookup finds a registered system whose key equals the requested one up to case, and finds nothing only when no registered key does |
| Producer.QueueSystems.constructor | DigitalRuby.SimplePubSub/Producer.cs:69 | A new registry is empty |
| Producer.QueueSystems.AddQueueSystem | DigitalRuby.SimplePubSub/Producer.cs:76-79 | The key maps to a new system with that key and bus; every case variant finds it; a key equal up to case is replaced in place, with no error and no new place in the order; other entries are unchanged |
| Producer.QueueSystems.Wait | DigitalRuby.SimplePubSub/Producer.cs:84-90 | Every registered bus is started exactly once more, and no published log changes |
| Producer.QueueSystems.EnumerateQueueSystems | DigitalRuby.SimplePubSub/Producer.cs:93-118 | The loops with the `foundOne` flag compute the reference resolution |
| Producer.QueueSystem.constructor | DigitalRuby.SimplePubSub/Producer.cs:156-160 | The queue system keeps the key and the bus it was given |
| Producer.QueueSystem.ProduceAsync | DigitalRuby.SimplePubSub/Producer.cs:163-166 | Publishing appends the message to the bus's log and does not start it |
| Producer.QueueSystem.Start | DigitalRuby.SimplePubSub/Producer.cs:171-174 | Starting counts one start and publishes nothing |
| Producer.QueueSystems.PublishTo | DigitalRuby.SimplePubSub/Producer.cs:45 | One publish reaches the bus of its system and no other registered bus |
| Producer.QueueSystems.PublishEach | DigitalRuby.SimplePubSub/Producer.cs:42-46 | After the fan-out loop, each registered bus has received the message once per occurrence of its system among the targets, and none was started |
| Producer.Producer.constructor | DigitalRuby.SimplePubSub/Producer.cs:34-37 | The producer publishes through the registry it was given |
| Producer.Producer.ProduceAsync | DigitalRuby.SimplePubSub/Producer.cs:40-48 | Unresolvable keys give `ArgumentException` and publish nothing; otherwise each registered bus receives the message exactly as often as the reference fan-out says |
| ServicesExtensions.WinnerIsLast | DigitalRuby.SimplePubSub/Producer.cs:76-79 | After adding providers in order, a key is registered iff some provider's key equals it up to case, and it holds the last such provider |
| ServicesExtensions.KeyOrderLists | DigitalRuby.SimplePubSub/Producer.cs:69-79 | The registry's enumeration order lists each registered key exactly once |
| ServicesExtensions.RegistrySize | DigitalRuby.SimplePubSub/Producer.cs:69-79 | The registry's size is the number of distinct provider keys up to case, which is also the length of its enumeration order |
| ServicesExtensions.FirstUnsupported | DigitalRuby.SimplePubSub/ServicesExtensions.cs:89-100 | No unsupported type iff every provider's `Type` is one of the six kinds; otherwise the first such provider's `Type`, every earlier one being supported |
| ServicesExtensions.FirstUnsupportedAt | DigitalRuby.SimplePubSub/ServicesExtensions.cs:89-100 | The provider at which the loop throws is the first unsupported one |
| ServicesExtensions.AssignKeys | DigitalRuby.SimplePubSub/ServicesExtensions.cs:79-82 | Every provider's `Key` becomes its dictionary key, with nothing else changed |
| ServicesExtensions.CreateBus | DigitalRuby.SimplePubSub/ServicesExtensions.cs:205-211 | A new bus of the provider's kind, unstarted and empty, whose endpoints are the binding plan for that provider |
| ServicesExtensions.AddProvider | DigitalRuby.SimplePubSub/ServicesExtensions.cs:91-101 | One loop step: the registry then holds, under each key, a bus built from the key-assigned winning provider, and only new buses were added |
| ServicesExtensions.BuildQueueSystems | DigitalRuby.SimplePubSub/ServicesExtensions.cs:85-103 | Stops with the first unsupported type; otherwise every key of the dictionary holds a bus built from its winning, key-assigned provider, in first-occurrence order |
| ServicesExtensions.RegisterAndStart | DigitalRuby.SimplePubSub/ServicesExtensions.cs:105-106 | Registers the registry as a singleton, then every bus is started exactly once |
| ServicesExtensions.Wire | DigitalRuby.SimplePubSub/ServicesExtensions.cs:74-106 | An unsupported type fails after the resolver and helper service are registered; otherwise all three registrations are made and every bus is built and started once; on both paths every provider is left carrying its dictionary key |
| ServicesExtensions.ServiceCollection.SimplePubSubAdded | DigitalRuby.SimplePubSub/ServicesExtensions.cs:130-133 | True iff some registration has the hosted helper service as its implementation type |
| ServicesExtensions.AddSimplePubSub | DigitalRuby.SimplePubSub/ServicesExtensions.cs:59-107 | Already added: no change. Null or empty providers: `InvalidOperationException` before any registration. An unsupported type: `ArgumentException`. Otherwise a started bus per provider key. Afterwards `SimplePubSubAdded` holds iff it held before or providers were given. The caller's providers carry their dictionary keys iff both checks passed, including when a provider type then fails |
| ServicesExtensions.UseGuard.constructor | DigitalRuby.SimplePubSub/ServicesExtensions.cs:20 | The bag of builders starts empty |
| ServicesExtensions.UseGuard.UseSimplePubSub | DigitalRuby.SimplePubSub/ServicesExtensions.cs:114-123 | The guarded setup runs iff the builder was not seen since the last host start; the builder is then in the bag |
| ServicesExtensions.UseGuard.HostStarted | DigitalRuby.SimplePubSub/ServicesExtensions.cs:30-34 | Starting the host empties the bag |
| Scenario.TestAffinity | DigitalRuby.SimplePubSubTests/ProducerConsumerTests.cs:19-59 | `TestConsumer0` binds to both providers, `TestConsumer1` only to InMemory1, `TestConsumer2` only to InMemory2, and the message class to neither |
| Scenario.FirstProviderBindings | DigitalRuby.SimplePubSubTests/ProducerConsumerTests.cs:19-45 | InMemory1's endpoints serve `TestConsumer0` and `TestConsumer1`, not `TestConsumer2` |
| Scenario.SecondProviderBindings | DigitalRuby.SimplePubSubTests/ProducerConsumerTests.cs:47-59 | InMemory2's endpoints serve `TestConsumer0` and `TestConsumer2`, not `TestConsumer1` |
| Scenario.TestRegistry | DigitalRuby.SimplePubSubTests/ProducerConsumerTests.cs:95 | The two providers register under distinct keys in configuration order, and both types are supported |
| Scenario.TestFanOut | DigitalRuby.SimplePubSubTests/ProducerConsumerTests.cs:109-117 | "all" reaches both providers once; "InMemory1" and "InMemory2" reach only their own; "NotExists" reaches none |
| Scenario.StartTestHost | DigitalRuby.SimplePubSubTests/ProducerConsumerTests.cs:89-105 | `SimplePubSubAdded` is false before `AddSimplePubSub` and true after; the registry holds both buses, each started exactly once, with no messages |
| Scenario.ProduceTestMessages | DigitalRuby.SimplePubSubTests/ProducerConsumerTests.cs:106-117 | After the four produce calls, each bus has two messages and the call to "NotExists" fails with `ArgumentException` |
| Scenario.TestRoutes | DigitalRuby.SimplePubSubTests/ProducerConsumerTests.cs:19-59 | The test registry's first bus serves consumers 0 and 1, its second consumers 0 and 2 |
| Scenario.TestCounts | DigitalRuby.SimplePubSubTests/ProducerConsumerTests.cs:120-125 | With two messages per bus, the consumers receive 4, 2 and 2 messages |
| Scenario.TestPubSub | DigitalRuby.SimplePubSubTests/ProducerConsumerTests.cs:87-125 | End to end: not added before, added after, counts 4, 2 and 2, and the unknown key fails |

## Left out

- Per-transport host setup is not modelled: connection strings, credentials, SSL and gRPC servers (`ServicesExtensions.cs:213-308`). Each of the six `Configure…` methods is the single `CreateBus`, which keeps only the binding plan.
- MassTransit itself is abstract. A bus is a start counter and a message log. `DeliveriesTo` assumes every published message reaches every consumer bound on that bus. Transport failures, retries at run time and message contents are not modelled.
- `Task`, `CancellationToken` and `Task.WhenAll` are not modelled. The fan-out is a sequential loop, and every publish is accepted.
- Reflection scanning (`ReflectionHelpers.GetAllTypes`, the namespace filter, `GetCustomAttributes`) is not modelled. The scanned types are an input sequence.
- The transport's default prefetch count is a parameter (`defaultPrefetch`), because it belongs to MassTransit.
- The `Resolver` and `MassTransitHelperService` service-provider workaround and the `GetRequiredService` consumer factory are reduced to the two registrations they add. The registrations `AddMassTransit` makes on its own are not modelled.
- The `Debugger.IsAttached` temporary-queue switch is left out. It depends on debugger state, and the model takes the named-endpoint branch.
- The `IConfiguration` overload of `AddSimplePubSub` is left out: its `AddSimpleDi` call, which registers services before the already-added check, and its `Bind`. The configuration arrives already bound.
- ServicesExtensions.AddSimplePubSub: the caller's configuration objects are values, so the in-place write of each provider's `Key` is returned as `updated` rather than seen through the caller's own references.
- `MassTransitHelper.cs`, `Extensions.cs`, `GlobalUsings.cs` and the Sandbox program are not part of this model.
- Case-insensitive comparison folds only ASCII letters, not full Unicode case mapping.
- The provider dictionary is a sequence in enumeration order. A case-variant key overwrites the earlier registry entry.
- The bus built for an overwritten provider, or for providers before an unsupported one, is built but never registered. The model proves facts about the registered buses only.
- One configuration object listed under two dictionary keys is not modelled. In the source, writing `Key` in place would make both entries carry the last key.
- Endpoint registration order is not kept. `Binding.AddConsumers` returns endpoints as a map from queue name, plus the list of names in creation order.
- Producer.QueueSystems.AddQueueSystem: requires that the bus is not already registered under another key. Every caller passes a freshly built bus.
- Scenario.TestPubSub: the test's configuration file is not part of this model. It is taken to declare two in-memory providers, keyed "InMemory1" and "InMemory2".
- ServicesExtensions.UseGuard: the static concurrent bag is a set held by one object. Concurrent access is not modelled.

## Findings

| source | as written | input that shows it | evidently intended | confidence | as-written member | corrected member |
|---|---|---|---|---|---|---|
| DigitalRuby.SimplePubSub/ConsumerAttribute.cs:17-22 | `QueueName` and `PrefetchCount` are get-only, and the constructor assigns neither, so they are always "" and 0 | Any handler: no `[Consumer(...)]` declaration can set a queue name or prefetch count, so every handler listens on a queue named after its full type name with the transport's prefetch | Settable properties, as their documentation describes: a non-blank `QueueName` names the queue and a positive `PrefetchCount` raises the endpoint's prefetch | high, not executed | ConsumerAttributes.NewConsumerAttribute, Binding.DeclaredConsumersUseTypeNames | ConsumerAttributes.ConsumerAttributeWithOptions, Binding.OverridesReachEndpoint |
