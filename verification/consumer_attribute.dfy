/** `ConsumerAttribute`: the metadata a handler class carries to be bound to queues. */
module ConsumerAttributes {
  import opened Wrappers
  import opened DotNetStrings

  /** The attribute's three read-only properties. `queueName` is a nullable string. */
  datatype ConsumerAttribute = ConsumerAttribute(providerKey: string, queueName: Option<string>, prefetchCount: int)

  /** `GetQueueName(type)`: the queue a handler type with this attribute listens on. */
  function GetQueueName(attribute: ConsumerAttribute, fullName: string): (name: string)
    ensures IsNullOrWhiteSpace(attribute.queueName) ==> name == fullName
    ensures !IsNullOrWhiteSpace(attribute.queueName) ==> name == attribute.queueName.value
    ensures !IsBlank(fullName) ==> !IsBlank(name)
  {
    if IsNullOrWhiteSpace(attribute.queueName) then fullName else attribute.queueName.value
  }

  /** `new ConsumerAttribute(providerKey)`, as the class is written: `QueueName` and
      `PrefetchCount` have no setter and the constructor does not assign them, so every
      attribute a handler can declare listens on its type's full name with the
      transport's default prefetch. */
  function NewConsumerAttribute(providerKey: string := ""): (attribute: ConsumerAttribute)
    ensures attribute.providerKey == providerKey
    ensures attribute.prefetchCount == 0
    ensures forall fullName :: GetQueueName(attribute, fullName) == fullName
  {
    ConsumerAttribute(providerKey, Some(""), 0)
  }

  /** The attribute as its documentation describes it, with `QueueName` and
      `PrefetchCount` settable: a non-blank queue name overrides the type name
      and the prefetch count is kept as given. */
  function ConsumerAttributeWithOptions(providerKey: string, queueName: Option<string>, prefetchCount: int): (attribute: ConsumerAttribute)
    ensures attribute.providerKey == providerKey
    ensures attribute.prefetchCount == prefetchCount
    ensures !IsNullOrWhiteSpace(queueName) ==> forall fullName :: GetQueueName(attribute, fullName) == queueName.value
    ensures IsNullOrWhiteSpace(queueName) ==> forall fullName :: GetQueueName(attribute, fullName) == fullName
  {
    ConsumerAttribute(providerKey, queueName, prefetchCount)
  }
}
