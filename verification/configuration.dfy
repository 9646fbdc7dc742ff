/** The configuration records of SimplePubSub: the provider map and the
    per-provider settings, and the `ProviderType` enumeration. */
module Configuration {
  import opened Wrappers

  /** A `TimeSpan`, counted in ticks. */
  type TimeSpan = int

  /** The six named members of the `ProviderType` enumeration. */
  datatype ProviderKind = InMemory | RabbitMq | ActiveMq | AmazonSqs | AzureServiceBus | Grpc

  /** The number each kind carries in the enumeration. */
  function ProviderTypeValue(kind: ProviderKind): (value: int)
    ensures 1 <= value <= 6
  {
    match kind
    case InMemory => 1
    case RabbitMq => 2
    case ActiveMq => 3
    case AmazonSqs => 4
    case AzureServiceBus => 5
    case Grpc => 6
  }

  /** The value of an unset `ProviderType` field, `default(ProviderType)`. */
  const DefaultProviderType: int := 0

  /** Reads a `ProviderType` field, which can hold any `int`; values that
      name no member are `None`. */
  function ProviderKindOf(value: int): (kind: Option<ProviderKind>)
    ensures kind.Some? <==> 1 <= value <= 6
    ensures kind.Some? ==> ProviderTypeValue(kind.value) == value
  {
    if value == 1 then Some(InMemory)
    else if value == 2 then Some(RabbitMq)
    else if value == 3 then Some(ActiveMq)
    else if value == 4 then Some(AmazonSqs)
    else if value == 5 then Some(AzureServiceBus)
    else if value == 6 then Some(Grpc)
    else None
  }

  /** Reading back the number of a kind gives that kind, so the numbering is injective. */
  lemma ProviderTypeRoundTrip(kind: ProviderKind)
    ensures ProviderKindOf(ProviderTypeValue(kind)) == Some(kind)
  {
    match kind
    case InMemory =>
    case RabbitMq =>
    case ActiveMq =>
    case AmazonSqs =>
    case AzureServiceBus =>
    case Grpc =>
  }

  /** `PubSubConfiguration`. `retries` and `redeliveries` are nullable arrays:
      `None` (absent) is a different value from `Some([])` (empty). */
  datatype PubSubConfiguration = PubSubConfiguration(
    key: string,
    providerType: int,
    connectionString: string,
    userName: string,
    password: string,
    useSsl: bool,
    sslCertificatePath: string,
    sslCertificatePassphrase: string,
    servers: seq<string>,
    retries: Option<seq<TimeSpan>>,
    redeliveries: Option<seq<TimeSpan>>)

  /** An interval array that is present and non-empty: the test
      `array is not null && array.Length != 0` that decides whether a policy is applied. */
  predicate HasIntervals(intervals: Option<seq<TimeSpan>>) {
    intervals.Some? && |intervals.value| != 0
  }

  /** `new PubSubConfiguration()`: the field initialisers. */
  function NewPubSubConfiguration(): (c: PubSubConfiguration)
    ensures c.key == ""
    ensures ProviderKindOf(c.providerType).None?
    ensures c.connectionString == c.userName == c.password == "" && !c.useSsl
    ensures c.sslCertificatePath == c.sslCertificatePassphrase == ""
    ensures c.servers == []
    ensures c.retries.None? && c.redeliveries.None?
    ensures !HasIntervals(c.retries) && !HasIntervals(c.redeliveries)
  {
    PubSubConfiguration("", DefaultProviderType, "", "", "", false, "", "", [], None, None)
  }

  /** One entry of the provider dictionary: its key and its configuration object. */
  datatype ProviderEntry = ProviderEntry(name: string, config: PubSubConfiguration)

  /** `SimplePubSubConfiguration`: the provider dictionary, which may be null,
      as its entries in enumeration order. */
  datatype SimplePubSubConfiguration = SimplePubSubConfiguration(providers: Option<seq<ProviderEntry>>)
}
