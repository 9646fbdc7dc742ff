/** `AddConsumers`: for one provider, which handler types are bound, how they are
    grouped into receive endpoints, and the prefetch and retry policy of each endpoint. */
module Binding {
  import opened Wrappers
  import opened Sequences
  import opened DotNetStrings
  import opened Configuration
  import opened ConsumerAttributes

  /** The identity of a handler class. */
  type HandlerType = string

  /** One scanned type: its identity, its full name and its `ConsumerAttribute`, if any. */
  datatype TypeInfo = TypeInfo(handlerType: HandlerType, fullName: string, attribute: Option<ConsumerAttribute>)

  /** A receive endpoint as configured: its consumers in registration order, its
      prefetch count, and the retry and redelivery intervals when that policy is applied. */
  datatype Endpoint = Endpoint(
    handlers: seq<HandlerType>,
    prefetchCount: int,
    retry: Option<seq<TimeSpan>>,
    redelivery: Option<seq<TimeSpan>>)

  /** One group of the `GroupBy` on the resolved queue name. */
  datatype Group = Group(queueName: string, members: seq<TypeInfo>)

  predicate Attributed(types: seq<TypeInfo>) {
    forall t :: t in types ==> t.attribute.Some?
  }

  /** The `Where` of `AddConsumers`: the type has the attribute, and its provider key is
      blank or names this provider up to case. */
  predicate BindsTo(t: TypeInfo, providerKey: string) {
    && t.attribute.Some?
    && (IsBlank(t.attribute.value.providerKey) || EqualsIgnoreCase(t.attribute.value.providerKey, providerKey))
  }

  function QueueNameOf(t: TypeInfo): string
    requires t.attribute.Some?
  {
    GetQueueName(t.attribute.value, t.fullName)
  }

  function PrefetchOf(t: TypeInfo): int
    requires t.attribute.Some?
  {
    t.attribute.value.prefetchCount
  }

  function Max(a: int, b: int): int {
    if a >= b then a else b
  }

  /** The selection of `AddConsumers`, in scan order. */
  function SelectConsumers(types: seq<TypeInfo>, providerKey: string): (selected: seq<TypeInfo>)
    ensures Attributed(selected)
    ensures forall t :: t in selected <==> t in types && BindsTo(t, providerKey)
  {
    if types == [] then []
    else
      var init, last := Init(types), Last(types);
      assert types == init + [last];
      var rest := SelectConsumers(init, providerKey);
      if BindsTo(last, providerKey) then rest + [last] else rest
  }

  /** The selected types whose resolved queue name is `queueName`, in scan order. */
  function WithQueue(selected: seq<TypeInfo>, queueName: string): (members: seq<TypeInfo>)
    requires Attributed(selected)
    ensures Attributed(members)
    ensures forall t :: t in members <==> t in selected && QueueNameOf(t) == queueName
  {
    if selected == [] then []
    else
      var init, last := Init(selected), Last(selected);
      assert selected == init + [last];
      var rest := WithQueue(init, queueName);
      if QueueNameOf(last) == queueName then rest + [last] else rest
  }

  /** The distinct resolved queue names of the selected types. */
  function QueueNames(selected: seq<TypeInfo>): set<string>
    requires Attributed(selected)
  {
    set t | t in selected :: QueueNameOf(t)
  }

  /** The handler types of a group, in order. */
  function Handlers(members: seq<TypeInfo>): (handlers: seq<HandlerType>)
    ensures |handlers| == |members|
    ensures forall h :: h in handlers <==> exists t :: t in members && t.handlerType == h
    ensures forall i :: 0 <= i < |members| ==> handlers[i] == members[i].handlerType
  {
    if members == [] then []
    else
      var init, last := Init(members), Last(members);
      assert members == init + [last];
      Handlers(init) + [last.handlerType]
  }

  /** The endpoint's prefetch after the consumer loop: starting from the transport's
      value, each positive `PrefetchCount` raises it with `Math.Max`. */
  function GroupPrefetch(initial: int, members: seq<TypeInfo>): (prefetch: int)
    requires Attributed(members)
    ensures prefetch >= initial
    ensures forall t :: t in members && PrefetchOf(t) > 0 ==> prefetch >= PrefetchOf(t)
    ensures prefetch == initial || exists t :: t in members && PrefetchOf(t) > 0 && prefetch == PrefetchOf(t)
  {
    if members == [] then initial
    else
      var init, last := Init(members), Last(members);
      assert members == init + [last];
      var before := GroupPrefetch(initial, init);
      if PrefetchOf(last) > 0 then Max(before, PrefetchOf(last)) else before
  }

  /** A retry or redelivery policy is applied, with the configured intervals, only
      when the interval array is present and non-empty. */
  function RetryPolicy(intervals: Option<seq<TimeSpan>>): (policy: Option<seq<TimeSpan>>)
    ensures policy.Some? <==> intervals.Some? && |intervals.value| > 0
    ensures policy.Some? ==> policy == intervals
  {
    if HasIntervals(intervals) then intervals else None
  }

  /** The endpoint configured for one group of consumers of `provider`. */
  function EndpointFor(members: seq<TypeInfo>, provider: PubSubConfiguration, initialPrefetch: int): Endpoint
    requires Attributed(members)
  {
    Endpoint(Handlers(members), GroupPrefetch(initialPrefetch, members), RetryPolicy(provider.retries), RetryPolicy(provider.redeliveries))
  }

  /** Reference definition of the receive endpoints of one provider: one per distinct
      resolved queue name of the selected types, holding exactly the types with that name. */
  function BindingPlan(types: seq<TypeInfo>, provider: PubSubConfiguration, initialPrefetch: int): map<string, Endpoint> {
    PlanOf(SelectConsumers(types, provider.key), provider, initialPrefetch)
  }

  /** One endpoint per distinct queue name of an attributed selection. */
  function PlanOf(selected: seq<TypeInfo>, provider: PubSubConfiguration, initialPrefetch: int): map<string, Endpoint>
    requires Attributed(selected)
  {
    map q | q in QueueNames(selected) :: EndpointFor(WithQueue(selected, q), provider, initialPrefetch)
  }

  /** A handler is registered on some endpoint of the map. */
  predicate Bound(endpoints: map<string, Endpoint>, h: HandlerType) {
    exists q :: q in endpoints && h in endpoints[q].handlers
  }

  /** Scanned types are distinct classes. */
  predicate UniqueHandlers(types: seq<TypeInfo>) {
    forall i, j :: 0 <= i < j < |types| ==> types[i].handlerType != types[j].handlerType
  }

  /** A handler is bound to a provider iff its type carries the attribute and the
      attribute's provider key is blank or equals the provider's key up to case. */
  lemma BoundIff(types: seq<TypeInfo>, provider: PubSubConfiguration, initialPrefetch: int, h: HandlerType)
    ensures Bound(BindingPlan(types, provider, initialPrefetch), h) <==>
            exists t :: t in types && t.handlerType == h && BindsTo(t, provider.key)
  {
    var selected := SelectConsumers(types, provider.key);
    var plan := BindingPlan(types, provider, initialPrefetch);
    if exists t :: t in types && t.handlerType == h && BindsTo(t, provider.key) {
      var t :| t in types && t.handlerType == h && BindsTo(t, provider.key);
      var q := QueueNameOf(t);
      assert t in WithQueue(selected, q);
      assert h in plan[q].handlers;
    }
  }

  /** Each bound type is registered on the endpoint of its resolved queue name, and,
      as scanned types are distinct, on no other endpoint. */
  lemma OneEndpointPerConsumer(types: seq<TypeInfo>, provider: PubSubConfiguration, initialPrefetch: int, t: TypeInfo)
    requires UniqueHandlers(types)
    requires t in types && BindsTo(t, provider.key)
    ensures QueueNameOf(t) in BindingPlan(types, provider, initialPrefetch)
    ensures t.handlerType in BindingPlan(types, provider, initialPrefetch)[QueueNameOf(t)].handlers
    ensures forall q ::
      (q in BindingPlan(types, provider, initialPrefetch) &&
       t.handlerType in BindingPlan(types, provider, initialPrefetch)[q].handlers) ==> q == QueueNameOf(t)
  {
    var selected := SelectConsumers(types, provider.key);
    var plan := BindingPlan(types, provider, initialPrefetch);
    assert t in WithQueue(selected, QueueNameOf(t));
    forall q | q in plan && t.handlerType in plan[q].handlers ensures q == QueueNameOf(t) {
      var u :| u in WithQueue(selected, q) && u.handlerType == t.handlerType;
      var i :| 0 <= i < |types| && types[i] == u;
      var j :| 0 <= j < |types| && types[j] == t;
      assert i == j;
    }
  }

  /** Every endpoint of a provider gets the same retry and redelivery policy, and a
      prefetch count no lower than the transport's and no lower than any positive
      `PrefetchCount` among its consumers. */
  lemma EndpointPolicies(types: seq<TypeInfo>, provider: PubSubConfiguration, initialPrefetch: int, q: string)
    requires exists t :: t in types && BindsTo(t, provider.key) && QueueNameOf(t) == q
    ensures q in BindingPlan(types, provider, initialPrefetch)
    ensures BindingPlan(types, provider, initialPrefetch)[q].retry == RetryPolicy(provider.retries)
    ensures BindingPlan(types, provider, initialPrefetch)[q].redelivery == RetryPolicy(provider.redeliveries)
    ensures BindingPlan(types, provider, initialPrefetch)[q].prefetchCount >= initialPrefetch
    ensures forall t :: t in types && BindsTo(t, provider.key) && QueueNameOf(t) == q && PrefetchOf(t) > 0 ==>
      BindingPlan(types, provider, initialPrefetch)[q].prefetchCount >= PrefetchOf(t)
  {
    var selected := SelectConsumers(types, provider.key);
    var u :| u in types && BindsTo(u, provider.key) && QueueNameOf(u) == q;
    assert u in selected;
    forall t | t in types && BindsTo(t, provider.key) && QueueNameOf(t) == q && PrefetchOf(t) > 0
      ensures BindingPlan(types, provider, initialPrefetch)[q].prefetchCount >= PrefetchOf(t)
    {
      assert t in WithQueue(selected, q);
    }
  }

  /** Attributes as `ConsumerAttribute` can be declared: no queue name, no prefetch count. */
  predicate AsDeclared(a: ConsumerAttribute) {
    a.queueName == Some("") && a.prefetchCount == 0
  }

  lemma {:induction false} NoPositivePrefetchKeepsInitial(initial: int, members: seq<TypeInfo>)
    requires Attributed(members)
    requires forall t :: t in members ==> PrefetchOf(t) <= 0
    ensures GroupPrefetch(initial, members) == initial
  {
    if members != [] {
      var init := Init(members);
      assert members == init + [Last(members)];
      NoPositivePrefetchKeepsInitial(initial, init);
    }
  }

  /** With attributes as the class allows them to be declared, every bound handler
      gets a queue named after its type, and every endpoint keeps the transport's
      prefetch count. */
  lemma DeclaredConsumersUseTypeNames(types: seq<TypeInfo>, provider: PubSubConfiguration, initialPrefetch: int)
    requires forall t :: t in types && t.attribute.Some? ==> AsDeclared(t.attribute.value)
    ensures BindingPlan(types, provider, initialPrefetch).Keys ==
            set t | t in types && BindsTo(t, provider.key) :: t.fullName
    ensures forall q :: q in BindingPlan(types, provider, initialPrefetch) ==>
            BindingPlan(types, provider, initialPrefetch)[q].prefetchCount == initialPrefetch
  {
    var selected := SelectConsumers(types, provider.key);
    forall q | q in QueueNames(selected) ensures GroupPrefetch(initialPrefetch, WithQueue(selected, q)) == initialPrefetch {
      NoPositivePrefetchKeepsInitial(initialPrefetch, WithQueue(selected, q));
    }
  }

  /** With the queue name and prefetch count settable, a bound handler that names a
      queue is registered on an endpoint of that name whose prefetch count is at
      least the one it asked for. */
  lemma OverridesReachEndpoint(types: seq<TypeInfo>, provider: PubSubConfiguration, initialPrefetch: int,
                               t: TypeInfo, providerKey: string, queueName: string, prefetchCount: int)
    requires t in types && BindsTo(t, provider.key)
    requires t.attribute == Some(ConsumerAttributeWithOptions(providerKey, Some(queueName), prefetchCount))
    requires !IsBlank(queueName)
    ensures queueName in BindingPlan(types, provider, initialPrefetch)
    ensures t.handlerType in BindingPlan(types, provider, initialPrefetch)[queueName].handlers
    ensures prefetchCount > 0 ==> BindingPlan(types, provider, initialPrefetch)[queueName].prefetchCount >= prefetchCount
  {
    var selected := SelectConsumers(types, provider.key);
    assert GetQueueName(t.attribute.value, t.fullName) == queueName;
    assert QueueNameOf(t) == queueName;
    var members := WithQueue(selected, queueName);
    assert t in members;
    assert PrefetchOf(t) == prefetchCount;
  }

  // ---------------------------------------------------------------------------
  // GroupBy, as LINQ computes it: groups in order of first occurrence of their key,
  // members in scan order.

  /** One step of the `GroupBy`: `t` joins the group of its queue name, which is
      opened at the end when there is none yet. */
  function AddToGroups(groups: seq<Group>, t: TypeInfo): (grouped: seq<Group>)
    requires t.attribute.Some?
    ensures Names(grouped) == Names(groups) + {QueueNameOf(t)}
    ensures |grouped| == if QueueNameOf(t) in Names(groups) then |groups| else |groups| + 1
  {
    if groups == [] then [Group(QueueNameOf(t), [t])]
    else
      assert groups == [groups[0]] + groups[1..];
      assert Names(groups) == {groups[0].queueName} + Names(groups[1..]);
      if groups[0].queueName == QueueNameOf(t) then
        var joined := [groups[0].(members := groups[0].members + [t])] + groups[1..];
        assert Names(joined) == {groups[0].queueName} + Names(groups[1..]);
        joined
      else
        var rest := AddToGroups(groups[1..], t);
        assert Names([groups[0]] + rest) == {groups[0].queueName} + Names(rest);
        [groups[0]] + rest
  }

  /** `GroupBy(GetQueueName)` over the selected types. */
  function GroupByQueue(selected: seq<TypeInfo>): (groups: seq<Group>)
    requires Attributed(selected)
    ensures Names(groups) == QueueNames(selected)
  {
    if selected == [] then []
    else
      var init, last := Init(selected), Last(selected);
      assert selected == init + [last];
      assert QueueNames(selected) == QueueNames(init) + {QueueNameOf(last)};
      AddToGroups(GroupByQueue(init), last)
  }

  predicate DistinctNames(groups: seq<Group>) {
    forall i, j :: 0 <= i < j < |groups| ==> groups[i].queueName != groups[j].queueName
  }

  function Names(groups: seq<Group>): set<string> {
    set g | g in groups :: g.queueName
  }

  /** The members of the group named `queueName`, or none. */
  function GroupMembers(groups: seq<Group>, queueName: string): seq<TypeInfo> {
    if groups == [] then []
    else if groups[0].queueName == queueName then groups[0].members
    else GroupMembers(groups[1..], queueName)
  }

  /** A name that is not the head's lies in the tail. */
  lemma HeadNameNotInTail(groups: seq<Group>)
    requires groups != [] && DistinctNames(groups)
    ensures groups[0].queueName !in Names(groups[1..])
  {
  }

  lemma {:induction false} AddToGroupsDistinct(groups: seq<Group>, t: TypeInfo)
    requires t.attribute.Some?
    requires DistinctNames(groups)
    ensures DistinctNames(AddToGroups(groups, t))
  {
    if groups != [] && groups[0].queueName != QueueNameOf(t) {
      var tail := groups[1..];
      AddToGroupsDistinct(tail, t);
      HeadNameNotInTail(groups);
      var r, rt := AddToGroups(groups, t), AddToGroups(tail, t);
      assert r == [groups[0]] + rt;
      forall j | 0 < j < |r| ensures r[0].queueName != r[j].queueName {
        assert r[j] == rt[j - 1];
        assert r[j].queueName in Names(rt);
      }
    }
  }

  lemma {:induction false} AddToGroupsMembers(groups: seq<Group>, t: TypeInfo, q: string)
    requires t.attribute.Some?
    requires DistinctNames(groups)
    ensures GroupMembers(AddToGroups(groups, t), q) ==
            GroupMembers(groups, q) + (if q == QueueNameOf(t) then [t] else [])
  {
    if groups != [] && groups[0].queueName != QueueNameOf(t) {
      AddToGroupsMembers(groups[1..], t, q);
    }
  }

  /** In a list with distinct names, each group's members are the members listed under its name. */
  lemma {:induction false} MembersAt(groups: seq<Group>, i: nat)
    requires DistinctNames(groups)
    requires i < |groups|
    ensures groups[i].members == GroupMembers(groups, groups[i].queueName)
  {
    if i > 0 {
      MembersAt(groups[1..], i - 1);
    }
  }

  /** The `GroupBy` partitions the selection by resolved queue name: one group per
      distinct name, and each group holds exactly the types with its name. */
  lemma {:induction false} GroupByQueuePartitions(selected: seq<TypeInfo>)
    requires Attributed(selected)
    ensures DistinctNames(GroupByQueue(selected))
    ensures forall q :: GroupMembers(GroupByQueue(selected), q) == WithQueue(selected, q)
    ensures forall i :: 0 <= i < |GroupByQueue(selected)| ==>
      GroupByQueue(selected)[i].members == WithQueue(selected, GroupByQueue(selected)[i].queueName)
  {
    var groups := GroupByQueue(selected);
    if selected != [] {
      var init, last := Init(selected), Last(selected);
      assert selected == init + [last];
      GroupByQueuePartitions(init);
      AddToGroupsDistinct(GroupByQueue(init), last);
      forall q ensures GroupMembers(groups, q) == WithQueue(selected, q) {
        AddToGroupsMembers(GroupByQueue(init), last, q);
      }
    }
    forall i | 0 <= i < |groups|
      ensures groups[i].members == WithQueue(selected, groups[i].queueName)
    {
      MembersAt(groups, i);
    }
  }

  // ---------------------------------------------------------------------------
  // The endpoint loop.

  /** `ConfigureReceiveEndPoint` for one group: the retry and redelivery policies, then
      each consumer in turn, raising the prefetch count and registering the handler. */
  method ConfigureReceiveEndpoint(members: seq<TypeInfo>, provider: PubSubConfiguration, initialPrefetch: int)
    returns (endpoint: Endpoint)
    requires Attributed(members)
    ensures endpoint == EndpointFor(members, provider, initialPrefetch)
  {
    var retry: Option<seq<TimeSpan>> := None;
    var redelivery: Option<seq<TimeSpan>> := None;
    if provider.retries.Some? && |provider.retries.value| != 0 {
      retry := provider.retries;
    }
    if provider.redeliveries.Some? && |provider.redeliveries.value| != 0 {
      redelivery := provider.redeliveries;
    }
    var prefetch := initialPrefetch;
    var handlers: seq<HandlerType> := [];
    for i := 0 to |members|
      invariant prefetch == GroupPrefetch(initialPrefetch, members[..i])
      invariant handlers == Handlers(members[..i])
    {
      assert members[..i + 1][..i] == members[..i];
      var consumer := members[i];
      if consumer.attribute.value.prefetchCount > 0 {
        prefetch := Max(prefetch, consumer.attribute.value.prefetchCount);
      }
      handlers := handlers + [consumer.handlerType];
    }
    assert members[..|members|] == members;
    endpoint := Endpoint(handlers, prefetch, retry, redelivery);
  }

  /** The names of the groups, in order. */
  function NameList(groups: seq<Group>): (names: seq<string>)
    ensures |names| == |groups|
    ensures forall i :: 0 <= i < |groups| ==> names[i] == groups[i].queueName
  {
    seq(|groups|, i requires 0 <= i < |groups| => groups[i].queueName)
  }

  lemma NameListCovers(groups: seq<Group>)
    ensures forall q :: q in NameList(groups) <==> q in Names(groups)
  {
    forall q ensures q in NameList(groups) <==> q in Names(groups) {
      if q in Names(groups) {
        var g :| g in groups && g.queueName == q;
        var j :| 0 <= j < |groups| && groups[j] == g;
        assert NameList(groups)[j] == q;
      }
    }
  }

  predicate GroupsAttributed(groups: seq<Group>) {
    forall i :: 0 <= i < |groups| ==> Attributed(groups[i].members)
  }

  /** The endpoints the loop has configured after visiting `groups`, one per group. */
  function GroupPlan(groups: seq<Group>, provider: PubSubConfiguration, initialPrefetch: int): map<string, Endpoint>
    requires GroupsAttributed(groups)
  {
    if groups == [] then map[]
    else
      var init, last := Init(groups), Last(groups);
      GroupPlan(init, provider, initialPrefetch)[last.queueName := EndpointFor(last.members, provider, initialPrefetch)]
  }

  /** The plan has one entry per group name. */
  lemma {:induction false} GroupPlanKeys(groups: seq<Group>, provider: PubSubConfiguration, initialPrefetch: int)
    requires GroupsAttributed(groups)
    ensures GroupPlan(groups, provider, initialPrefetch).Keys == Names(groups)
  {
    if groups != [] {
      var init := Init(groups);
      assert groups == init + [Last(groups)];
      GroupPlanKeys(init, provider, initialPrefetch);
      assert Names(groups) == Names(init) + {Last(groups).queueName};
    }
  }

  /** With distinct names, each group's endpoint is the one configured from its members. */
  lemma {:induction false} GroupPlanAt(groups: seq<Group>, provider: PubSubConfiguration, initialPrefetch: int)
    requires GroupsAttributed(groups) && DistinctNames(groups)
    ensures forall i :: 0 <= i < |groups| ==>
      && groups[i].queueName in GroupPlan(groups, provider, initialPrefetch)
      && GroupPlan(groups, provider, initialPrefetch)[groups[i].queueName] == EndpointFor(groups[i].members, provider, initialPrefetch)
  {
    if groups != [] {
      var init := Init(groups);
      assert forall i :: 0 <= i < |init| ==> init[i] == groups[i];
      GroupPlanAt(init, provider, initialPrefetch);
    }
  }

  /** The groups of the `GroupBy` have distinct names and attributed members. */
  lemma GroupsWellFormed(selected: seq<TypeInfo>)
    requires Attributed(selected)
    ensures GroupsAttributed(GroupByQueue(selected)) && DistinctNames(GroupByQueue(selected))
  {
    GroupByQueuePartitions(selected);
  }

  /** A partition of the selection by queue name yields the reference plan. */
  lemma PartitionPlan(groups: seq<Group>, selected: seq<TypeInfo>, provider: PubSubConfiguration, initialPrefetch: int)
    requires Attributed(selected) && GroupsAttributed(groups) && DistinctNames(groups)
    requires Names(groups) == QueueNames(selected)
    requires forall i :: 0 <= i < |groups| ==> groups[i].members == WithQueue(selected, groups[i].queueName)
    ensures GroupPlan(groups, provider, initialPrefetch) == PlanOf(selected, provider, initialPrefetch)
  {
    var plan, reference := GroupPlan(groups, provider, initialPrefetch), PlanOf(selected, provider, initialPrefetch);
    GroupPlanKeys(groups, provider, initialPrefetch);
    assert plan.Keys == reference.Keys;
    forall q | q in plan
      ensures plan[q] == reference[q]
    {
      PartitionEntry(groups, selected, provider, initialPrefetch, q);
    }
    SameEntries(plan, reference);
  }

  /** The entry of one group name in a partition's plan. */
  lemma PartitionEntry(groups: seq<Group>, selected: seq<TypeInfo>, provider: PubSubConfiguration, initialPrefetch: int, q: string)
    requires Attributed(selected) && GroupsAttributed(groups) && DistinctNames(groups)
    requires forall i :: 0 <= i < |groups| ==> groups[i].members == WithQueue(selected, groups[i].queueName)
    requires q in Names(groups)
    ensures q in GroupPlan(groups, provider, initialPrefetch)
    ensures GroupPlan(groups, provider, initialPrefetch)[q] == EndpointFor(WithQueue(selected, q), provider, initialPrefetch)
  {
    var g :| g in groups && g.queueName == q;
    var i :| 0 <= i < |groups| && groups[i] == g;
    GroupPlanAt(groups, provider, initialPrefetch);
  }

  /** Two maps with the same keys and the same value at each key are equal. */
  lemma SameEntries<K, V>(a: map<K, V>, b: map<K, V>)
    requires a.Keys == b.Keys
    requires forall k :: k in a ==> a[k] == b[k]
    ensures a == b
  {
  }

  /** The loop's endpoints over the `GroupBy` are the reference plan. */
  lemma GroupPlanIsBindingPlan(types: seq<TypeInfo>, provider: PubSubConfiguration, initialPrefetch: int)
    ensures var groups := GroupByQueue(SelectConsumers(types, provider.key));
      && GroupsAttributed(groups)
      && GroupPlan(groups, provider, initialPrefetch) == BindingPlan(types, provider, initialPrefetch)
  {
    var selected := SelectConsumers(types, provider.key);
    GroupByQueuePartitions(selected);
    PartitionPlan(GroupByQueue(selected), selected, provider, initialPrefetch);
  }

  /** The endpoint loop of `AddConsumers`: one receive endpoint per group, in order. */
  method ConfigureEndpoints(groups: seq<Group>, provider: PubSubConfiguration, initialPrefetch: int)
    returns (endpoints: map<string, Endpoint>, created: seq<string>)
    requires GroupsAttributed(groups)
    ensures endpoints == GroupPlan(groups, provider, initialPrefetch)
    ensures created == NameList(groups)
  {
    endpoints, created := map[], [];
    for i := 0 to |groups|
      invariant created == NameList(groups[..i])
      invariant endpoints == GroupPlan(groups[..i], provider, initialPrefetch)
    {
      var group := groups[i];
      var endpoint := ConfigureReceiveEndpoint(group.members, provider, initialPrefetch);
      assert groups[..i + 1][..i] == groups[..i];
      endpoints := endpoints[group.queueName := endpoint];
      created := created + [group.queueName];
    }
    assert groups[..|groups|] == groups;
  }

  /** `AddConsumers` for one provider: select, group, then one receive endpoint per
      group. `created` lists the endpoint names in the order they are created. */
  method AddConsumers(types: seq<TypeInfo>, provider: PubSubConfiguration, initialPrefetch: int)
    returns (endpoints: map<string, Endpoint>, created: seq<string>)
    ensures endpoints == BindingPlan(types, provider, initialPrefetch)
    ensures forall i, j :: 0 <= i < j < |created| ==> created[i] != created[j]
    ensures forall q :: q in created <==> q in endpoints
  {
    var selected := SelectConsumers(types, provider.key);
    var groups := GroupByQueue(selected);
    GroupsWellFormed(selected);
    endpoints, created := ConfigureEndpoints(groups, provider, initialPrefetch);
    GroupPlanKeys(groups, provider, initialPrefetch);
    NameListCovers(groups);
    GroupPlanIsBindingPlan(types, provider, initialPrefetch);
  }
}
