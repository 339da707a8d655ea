/** Optional values, results and the failures raised by the connection layer. */
module Errors {

  datatype Option<T> = None | Some(value: T)

  /** `dict.get`: the value stored under `k`, or None. */
  function Get<K, V>(m: map<K, V>, k: K): (r: Option<V>)
    ensures r.Some? <==> k in m
    ensures r.Some? ==> r.value == m[k]
  {
    if k in m then Some(m[k]) else None
  }

  /**
   * Every exception the modelled code raises. The comment on each constructor
   * says where the message comes from.
   */
  datatype Error =
    // ValueError "detected unknown keys"
    | UnknownKeys(keys: set<string>)
    // "mandatory key ... is missing"
    | MandatoryKeyMissing(key: string)
    // a credential differs from the one of the current connection ("missing keys")
    | CredentialConflict
    // "not a valid keys set, missing keys"
    | NotAValidKeysSet
    // "missing {...}"
    | MissingKeys(keys: set<string>)
    // "missing tenant key/value"
    | MissingTenant
    // specification summary of the value check: every key whose value is ill-formed
    | InvalidValues(keys: set<string>)
    // "key ... must be empty"
    | MustBeEmpty(key: string)
    // "key ... cannot be empty or set to <...>"
    | EmptyOrPlaceholder(key: string)
    // "Database is not defined."
    | DatabaseUndefined
    // "Cluster is not defined."
    | ClusterUndefined
    // "Database and/or cluster is not defined."
    | ConnNameUndefined
    // "unknown <uri schema name>"
    | UnknownSchema
    // "database@cluster" used with the name of a non-Kusto schema
    | DatabaseAtClusterForSchema
    // "database@cluster" used before any connection to that cluster
    | NoClusterConnection
    // Python's "too many/not enough values to unpack" on `split("@")`
    | UnpackError
    // ConnectionError "No current connection set yet."
    | NoCurrentConnection
    // Python's AttributeError when a method is called on the unset current connection (None)
    | CurrentIsNone
    // a failure of an engine constructor, which is not part of this model
    | EngineConstructionFailed

  datatype Result<T> = Ok(value: T) | Err(error: Error) {
    predicate IsFailure() {
      Err?
    }

    function PropagateFailure<U>(): Result<U>
      requires Err?
    {
      Err(error)
    }

    function Extract(): T
      requires Ok?
    {
      value
    }
  }

  /** The outcome of an operation that returns nothing but may raise. */
  datatype Outcome = Pass | Fail(error: Error)
}
