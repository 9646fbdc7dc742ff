/** Failure-carrying values used in place of null references and exceptions. */
module Wrappers {

  /** A value or nothing; `None` stands for a C# null. */
  datatype Option<+T> = None | Some(value: T)

  /** A value or the error a C# method would have thrown. */
  datatype Result<+R, +E> = Success(value: R) | Failure(error: E)

  /** Completion of a C# `void` method or `Task`: normal return or a thrown error. */
  datatype Outcome<+E> = Pass | Fail(error: E)
}

/** The exceptions the routing layer throws. */
module PubSubErrors {

  datatype PubSubError =
    /** InvalidOperationException: the provider map is null or empty. */
    | NullOrEmptyProviders
    /** ArgumentException: a provider's `Type` is not one of the supported kinds. */
    | UnsupportedProviderType(providerType: int)
    /** ArgumentException: none of the requested keys names a registered queue system. */
    | NoQueueForKeys(keys: seq<string>)
}
