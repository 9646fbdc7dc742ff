/** `Producer.cs`: the registry of queue systems keyed case-insensitively by provider
    key, its start-up, its key resolution, and the fan-out producer. */
module Producer {
  import opened Wrappers
  import opened Sequences
  import opened PubSubErrors
  import opened DotNetStrings
  import opened Configuration
  import opened Binding

  /** A published message; routing never looks inside it. */
  type Message = string

  predicate Injective<V(==)>(m: map<string, V>) {
    forall k, k' :: k in m && k' in m && k != k' ==> m[k] != m[k']
  }

  /** `order` lists every key of `m` exactly once: a dictionary's enumeration order. */
  ghost predicate OrderedKeys<V>(m: map<string, V>, order: seq<string>) {
    Distinct(order) && forall k :: k in m <==> k in order
  }

  /** `n` copies of `message`. */
  function Copies(message: Message, n: nat): (s: seq<Message>)
    ensures |s| == n
    ensures forall i :: 0 <= i < n ==> s[i] == message
  {
    seq(n, _ => message)
  }

  lemma CopiesSnoc(message: Message, n: nat)
    ensures Copies(message, n + 1) == Copies(message, n) + [message]
  {
  }

  /** Occurrences of `v` in `s`. */
  function CountOf<V(==)>(s: seq<V>, v: V): nat {
    if s == [] then 0 else CountOf(Init(s), v) + (if Last(s) == v then 1 else 0)
  }

  // ---------------------------------------------------------------------------
  // Resolution of keys to queue systems, over any registry contents.

  /** The registry's values in enumeration order. */
  function AllInOrder<V>(m: map<string, V>, order: seq<string>): (all: seq<V>)
    requires forall k :: k in order ==> k in m
    ensures |all| == |order|
    ensures forall v :: v in all ==> exists k :: k in m && m[k] == v
  {
    if order == [] then []
    else
      var rest := AllInOrder(m, Init(order));
      assert forall v :: v in rest + [m[Last(order)]] ==> v in rest || v == m[Last(order)];
      rest + [m[Last(order)]]
  }

  /** For each requested key in request order, the value registered under it up to
      case; keys that name nothing are skipped. */
  function Matching<V>(m: map<string, V>, keys: seq<string>): (found: seq<V>)
    ensures |found| <= |keys|
    ensures forall v :: v in found ==> exists k :: k in m && m[k] == v
  {
    if keys == [] then []
    else
      var rest := Matching(m, Init(keys));
      var k := Fold(Last(keys));
      if k in m then
        assert forall v :: v in rest + [m[k]] ==> v in rest || v == m[k];
        rest + [m[k]]
      else rest
  }

  /** Matches come in request order: the matches of earlier keys precede those of
      later keys. */
  lemma {:induction false} MatchingInRequestOrder<V>(m: map<string, V>, earlier: seq<string>, later: seq<string>)
    ensures Matching(m, earlier + later) == Matching(m, earlier) + Matching(m, later)
  {
    if later == [] {
      assert earlier + later == earlier;
    } else {
      assert Init(earlier + later) == earlier + Init(later);
      assert Last(earlier + later) == Last(later);
      MatchingInRequestOrder(m, earlier, Init(later));
    }
  }

  /** Some requested key names a registered value, up to case. */
  predicate AnyMatch<V>(m: map<string, V>, keys: seq<string>) {
    exists i :: 0 <= i < |keys| && Fold(keys[i]) in m
  }

  /** `EnumerateQueueSystems(keys)` on registry contents `m` enumerated in `order`:
      everything when no keys are given, else the matches of the keys, and an
      error when keys are given and none matches. */
  function Resolve<V>(m: map<string, V>, order: seq<string>, keys: Option<seq<string>>): (r: Result<seq<V>, PubSubError>)
    requires forall k :: k in order ==> k in m
    ensures r.Failure? ==> keys.Some? && r.error == NoQueueForKeys(keys.value)
    ensures r.Success? ==> forall v :: v in r.value ==> exists k :: k in m && m[k] == v
  {
    if keys.None? || |keys.value| == 0 then Success(AllInOrder(m, order))
    else if AnyMatch(m, keys.value) then Success(Matching(m, keys.value))
    else Failure(NoQueueForKeys(keys.value))
  }

  /** The number of requested keys equal to `k` up to case. */
  function CountFolded(keys: seq<string>, k: string): nat {
    if keys == [] then 0 else CountFolded(Init(keys), k) + (if Fold(Last(keys)) == k then 1 else 0)
  }

  /** Reference definition of the fan-out: how many times one produce call publishes
      to the system registered under folded key `k`. Once when no keys are given;
      otherwise once per requested key that names it up to case, so unmatched keys
      add nothing and a repeated key publishes once per repetition. */
  function ExpectedPublishes(keys: Option<seq<string>>, k: string): nat {
    if keys.None? || |keys.value| == 0 then 1 else CountFolded(keys.value, k)
  }

  lemma {:induction false} DistinctSetSize(order: seq<string>)
    requires Distinct(order)
    ensures |set k | k in order| == |order|
  {
    if order != [] {
      var init := Init(order);
      DistinctSetSize(init);
      assert order == init + [Last(order)];
      assert (set k | k in order) == (set k | k in init) + {Last(order)};
      assert Last(order) !in init;
    }
  }

  lemma {:induction false} CountAllInOrder<V>(m: map<string, V>, order: seq<string>, k: string)
    requires forall x :: x in order ==> x in m
    requires Distinct(order) && Injective(m) && k in m
    ensures CountOf(AllInOrder(m, order), m[k]) == if k in order then 1 else 0
  {
    if order != [] {
      var init := Init(order);
      assert order == init + [Last(order)];
      assert Distinct(init);
      CountAllInOrder(m, init, k);
      assert Init(AllInOrder(m, order)) == AllInOrder(m, init);
    }
  }

  lemma {:induction false} CountMatching<V>(m: map<string, V>, keys: seq<string>, k: string)
    requires Injective(m) && k in m
    ensures CountOf(Matching(m, keys), m[k]) == CountFolded(keys, k)
  {
    if keys != [] {
      CountMatching(m, Init(keys), k);
      var f := Fold(Last(keys));
      if f in m {
        assert Init(Matching(m, keys)) == Matching(m, Init(keys));
      }
    }
  }

  lemma {:induction false} NoMatchCountsZero<V>(m: map<string, V>, keys: seq<string>, k: string)
    requires !AnyMatch(m, keys) && k in m
    ensures CountFolded(keys, k) == 0
  {
    if keys != [] {
      assert !AnyMatch(m, Init(keys));
      NoMatchCountsZero(m, Init(keys), k);
      assert Fold(keys[|keys| - 1]) !in m;
    }
  }

  /** Every registered value occurs in the resolution exactly as often as the
      reference fan-out says, and not at all when resolution fails. */
  lemma ResolvePublishes<V>(m: map<string, V>, order: seq<string>, keys: Option<seq<string>>, k: string)
    requires OrderedKeys(m, order) && Injective(m) && k in m
    ensures Resolve(m, order, keys).Success? ==> CountOf(Resolve(m, order, keys).value, m[k]) == ExpectedPublishes(keys, k)
    ensures Resolve(m, order, keys).Failure? ==> ExpectedPublishes(keys, k) == 0
  {
    if keys.None? || |keys.value| == 0 {
      CountAllInOrder(m, order, k);
    } else if AnyMatch(m, keys.value) {
      CountMatching(m, keys.value, k);
    } else {
      NoMatchCountsZero(m, keys.value, k);
    }
  }

  /** With no keys, the resolution has one entry per registered key. */
  lemma ResolveAll<V>(m: map<string, V>, order: seq<string>, keys: Option<seq<string>>)
    requires OrderedKeys(m, order)
    requires keys.None? || keys.value == []
    ensures Resolve(m, order, keys).Success?
    ensures |Resolve(m, order, keys).value| == |m|
  {
    DistinctSetSize(order);
    assert m.Keys == set k | k in order;
  }

  /** Resolution fails exactly when keys are given and none names a registered value. */
  lemma ResolveFailsIff<V>(m: map<string, V>, order: seq<string>, keys: Option<seq<string>>)
    requires forall k :: k in order ==> k in m
    ensures Resolve(m, order, keys).Failure? <==>
      keys.Some? && |keys.value| > 0 && forall i :: 0 <= i < |keys.value| ==> Fold(keys.value[i]) !in m
  {
  }

  // ---------------------------------------------------------------------------
  // The objects.

  /** The transport bus (`IBusControl`) of one provider: its kind and receive
      endpoints, fixed when it is built; how many times it was started; and the
      messages published on it, in order. */
  class Bus {
    const kind: ProviderKind
    const endpoints: map<string, Endpoint>
    var starts: nat
    var published: seq<Message>

    constructor (kind: ProviderKind, endpoints: map<string, Endpoint>)
      ensures this.kind == kind && this.endpoints == endpoints
      ensures starts == 0 && published == []
    {
      this.kind := kind;
      this.endpoints := endpoints;
      starts := 0;
      published := [];
    }

    method Start()
      modifies this
      ensures starts == old(starts) + 1 && published == old(published)
    {
      starts := starts + 1;
    }

    method Publish(message: Message)
      modifies this
      ensures published == old(published) + [message] && starts == old(starts)
    {
      published := published + [message];
    }

    /** Messages a handler receives from this bus: every published message reaches
        every handler registered on one of its endpoints. */
    function DeliveriesTo(h: HandlerType): nat
      reads this
    {
      if Bound(endpoints, h) then |published| else 0
    }
  }

  /** `QueueSystem`: a provider key and the bus it wraps. */
  class QueueSystem {
    const key: string
    const bus: Bus

    constructor (key: string, bus: Bus)
      ensures this.key == key && this.bus == bus
    {
      this.key := key;
      this.bus := bus;
    }

    method ProduceAsync(message: Message)
      modifies bus
      ensures bus.published == old(bus.published) + [message] && bus.starts == old(bus.starts)
    {
      bus.Publish(message);
    }

    method Start()
      modifies bus
      ensures bus.starts == old(bus.starts) + 1 && bus.published == old(bus.published)
    {
      bus.Start();
    }
  }

  /** `QueueSystems`: the dictionary from provider key, compared with
      `OrdinalIgnoreCase`, to queue system. `queues` is keyed by the folded key;
      `order` is the dictionary's enumeration order. */
  class QueueSystems {
    var queues: map<string, QueueSystem>
    var order: seq<string>

    ghost predicate Valid()
      reads this
    {
      && OrderedKeys(queues, order)
      && (forall k :: k in queues ==> Fold(queues[k].key) == k)
      && (forall k, k' :: k in queues && k' in queues && k != k' ==> queues[k].bus != queues[k'].bus)
    }

    ghost function Buses(): set<Bus>
      reads this
    {
      set k | k in queues :: queues[k].bus
    }

    constructor ()
      ensures Valid() && queues == map[] && order == []
    {
      queues := map[];
      order := [];
    }

    /** `queues.TryGetValue(key, out ...)`. */
    function Find(key: string): (found: Option<QueueSystem>)
      requires Valid()
      reads this
      ensures found.Some? ==> found.value in queues.Values && EqualsIgnoreCase(found.value.key, key)
      ensures found.None? ==> forall k :: k in queues ==> !EqualsIgnoreCase(queues[k].key, key)
    {
      if Fold(key) in queues then Some(queues[Fold(key)]) else None
    }

    /** `AddQueueSystem`: `queues[key] = new QueueSystem(key, bus)`. A key equal up to
        case to a registered one replaces that entry, keeping its place in the
        enumeration order; any other key is appended. */
    method AddQueueSystem(key: string, bus: Bus)
      requires Valid()
      requires forall k :: k in queues && k != Fold(key) ==> queues[k].bus != bus
      modifies this
      ensures Valid()
      ensures Fold(key) in queues && fresh(queues[Fold(key)])
      ensures queues[Fold(key)].key == key && queues[Fold(key)].bus == bus
      ensures forall other :: EqualsIgnoreCase(other, key) ==> Find(other) == Some(queues[Fold(key)])
      ensures queues.Keys == old(queues.Keys) + {Fold(key)}
      ensures forall k :: k in old(queues) && k != Fold(key) ==> queues[k] == old(queues[k])
      ensures order == if Fold(key) in old(queues) then old(order) else old(order) + [Fold(key)]
    {
      var system := new QueueSystem(key, bus);
      var folded := Fold(key);
      if folded !in queues {
        order := order + [folded];
      }
      queues := queues[folded := system];
    }

    /** `Wait`: starts every registered system once, in enumeration order. */
    method Wait()
      requires Valid()
      modifies Buses()
      ensures forall k :: k in queues ==>
        && queues[k].bus.starts == old(queues[k].bus.starts) + 1
        && queues[k].bus.published == old(queues[k].bus.published)
    {
      for i := 0 to |order|
        invariant forall j :: 0 <= j < |order| ==> queues[order[j]].bus.published == old(queues[order[j]].bus.published)
        invariant forall j :: 0 <= j < i ==> queues[order[j]].bus.starts == old(queues[order[j]].bus.starts) + 1
        invariant forall j :: i <= j < |order| ==> queues[order[j]].bus.starts == old(queues[order[j]].bus.starts)
      {
        queues[order[i]].Start();
      }
    }

    /** `EnumerateQueueSystems`. */
    method EnumerateQueueSystems(keys: Option<seq<string>>) returns (r: Result<seq<QueueSystem>, PubSubError>)
      requires Valid()
      ensures r == Resolve(queues, order, keys)
    {
      if keys.None? || |keys.value| == 0 {
        var all: seq<QueueSystem> := [];
        for i := 0 to |order|
          invariant all == AllInOrder(queues, order[..i])
        {
          assert Init(order[..i + 1]) == order[..i];
          all := all + [queues[order[i]]];
        }
        assert order[..|order|] == order;
        return Success(all);
      }
      var requested := keys.value;
      var foundOne := false;
      var found: seq<QueueSystem> := [];
      for i := 0 to |requested|
        invariant found == Matching(queues, requested[..i])
        invariant foundOne <==> AnyMatch(queues, requested[..i])
      {
        assert Init(requested[..i + 1]) == requested[..i];
        var queueSystem := Find(requested[i]);
        if queueSystem.Some? {
          foundOne := true;
          found := found + [queueSystem.value];
          assert requested[..i + 1][i] == requested[i];
        } else if AnyMatch(queues, requested[..i + 1]) {
          var j :| 0 <= j < i + 1 && Fold(requested[..i + 1][j]) in queues;
          assert requested[..i][j] == requested[j];
        }
      }
      assert requested[..|requested|] == requested;
      if !foundOne {
        return Failure(NoQueueForKeys(requested));
      }
      return Success(found);
    }

    /** Publishes one message on the bus registered under `owner`; no other bus changes. */
    method PublishTo(owner: string, message: Message)
      requires Valid() && owner in queues
      modifies queues[owner].bus
      ensures forall k :: k in queues ==> queues[k].bus.starts == old(queues[k].bus.starts)
      ensures forall k :: k in queues ==>
        queues[k].bus.published == old(queues[k].bus.published) + (if k == owner then [message] else [])
    {
      var target := queues[owner];
      target.ProduceAsync(message);
      forall k | k in queues && k != owner
        ensures queues[k].bus.published == old(queues[k].bus.published)
      {
        assert queues[k].bus != target.bus;
      }
    }

    /** The fan-out of `ProduceAsync`: one publish through each of `targets`, in order. */
    method PublishEach(targets: seq<QueueSystem>, message: Message)
      requires Valid()
      requires forall t :: t in targets ==> exists k :: k in queues && queues[k] == t
      modifies Buses()
      ensures forall k :: k in queues ==> queues[k].bus.starts == old(queues[k].bus.starts)
      ensures forall k :: k in queues ==>
        queues[k].bus.published == old(queues[k].bus.published) + Copies(message, CountOf(targets, queues[k]))
    {
      for i := 0 to |targets|
        invariant forall k :: k in queues ==> queues[k].bus.starts == old(queues[k].bus.starts)
        invariant forall k :: k in queues ==>
          queues[k].bus.published == old(queues[k].bus.published) + Copies(message, CountOf(targets[..i], queues[k]))
      {
        assert Init(targets[..i + 1]) == targets[..i];
        assert targets[i] in targets;
        var owner :| owner in queues && queues[owner] == targets[i];
        PublishTo(owner, message);
        forall k | k in queues
          ensures queues[k].bus.published ==
            old(queues[k].bus.published) + Copies(message, CountOf(targets[..i + 1], queues[k]))
        {
          CopiesSnoc(message, CountOf(targets[..i], queues[k]));
        }
      }
      assert targets[..|targets|] == targets;
    }

    /** Messages a handler has received, summed over every registered system. */
    function DeliveriesTo(h: HandlerType): nat
      requires Valid()
      reads this, Buses()
    {
      DeliveriesAlong(AllInOrder(queues, order), h)
    }
  }

  function DeliveriesAlong(systems: seq<QueueSystem>, h: HandlerType): nat
    reads set s | s in systems :: s.bus
  {
    if systems == [] then 0 else DeliveriesAlong(Init(systems), h) + Last(systems).bus.DeliveriesTo(h)
  }

  /** `Producer`: publishes through the registry it was given. */
  class Producer {
    const queueSystems: QueueSystems

    constructor (queueSystems: QueueSystems)
      ensures this.queueSystems == queueSystems
    {
      this.queueSystems := queueSystems;
    }

    /** `ProduceAsync`: resolves the keys, then publishes once to each resolved
        system, in resolution order. A failed resolution publishes nothing. */
    method ProduceAsync(message: Message, keys: Option<seq<string>>) returns (outcome: Outcome<PubSubError>)
      requires queueSystems.Valid()
      modifies queueSystems.Buses()
      ensures Resolve(queueSystems.queues, queueSystems.order, keys).Failure? ==>
        outcome == Fail(NoQueueForKeys(keys.value))
      ensures Resolve(queueSystems.queues, queueSystems.order, keys).Success? ==> outcome == Pass
      ensures forall k :: k in queueSystems.queues ==>
        && queueSystems.queues[k].bus.starts == old(queueSystems.queues[k].bus.starts)
        && queueSystems.queues[k].bus.published ==
           old(queueSystems.queues[k].bus.published) + Copies(message, ExpectedPublishes(keys, k))
    {
      var registry := queueSystems;
      var resolved := registry.EnumerateQueueSystems(keys);
      if resolved.Failure? {
        forall k | k in registry.queues ensures Copies(message, ExpectedPublishes(keys, k)) == [] {
          ResolvePublishes(registry.queues, registry.order, keys, k);
        }
        return Fail(resolved.error);
      }
      var targets := resolved.value;
      registry.PublishEach(targets, message);
      forall k | k in registry.queues
        ensures CountOf(targets, registry.queues[k]) == ExpectedPublishes(keys, k)
      {
        ResolvePublishes(registry.queues, registry.order, keys, k);
      }
      return Pass;
    }
  }
}
