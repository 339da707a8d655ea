# Kqlmagic connection resolution and connection registry, in Dafny

This project models two parts of Kqlmagic, the Jupyter magic that runs
Kusto (KQL) queries against Azure Data Explorer, Application Insights and
Log Analytics.

1. **The connection-string resolver**
   (`KqlEngine._parse_common_connection_str`) and the small accessors of
   `KqlEngine`. The resolver takes the key/values of a connection string
   such as `kusto://cluster('c').database('d').username('u')`. It selects
   one admissible key combination, inheriting keys from the current
   connection when that is ambiguous. It then checks the required keys and
   the values, sets the engine's cluster, database and alias, and asks once
   for a missing secret. Finally it renders the canonical bind URL
   `schema://key('value').key('value')…`.
2. **The connection registry** (the class-level state of `Connection`):
   - finding the engine class from the URI schema;
   - dispatching a connection string: an engine of its own schema, a Kusto
     cluster connection, or the `database@cluster` shortcut;
   - registering engines under their names and bind URLs;
   - selecting the current connection;
   - the listings of registered names.

Modules:

- `Errors` (errors.dfy): `Option`, `Result` and the error kinds the code
  raises, one constructor each.
- `Strings` (strings.dfy): the Python string operations used: `startswith`,
  `join`, `find`, `split`, `lower`, `replace`, and `sorted` with its
  lexicographic order.
- `Resolver` (resolver.dfy): each step of the resolver as a pure function.
  The key-category sets are constants. `Match` chains the key checks and
  `Resolve` chains the whole resolution.
- `Kql` (kql_engine.dfy): class `KqlEngine` with its fields and accessors.
  `ParseCommonConnectionStr` and one method per loop of the resolver are
  each proved to compute the `Resolver` step they implement.
- `ResolverProperties` (resolver_properties.dfy): properties that relate
  several resolver steps, and worked examples of whole resolutions.
- `Connections` (connections.dfy): the registry as a value (`Registry`),
  each operation as a step function on it, and class `Connection`. Each of
  the class's methods is proved to perform its step function.
- `ConnectionProperties` (connection_properties.dfy): the schema lookup, the
  `database@cluster` shortcut, registration followed by selection, and the
  listings.

A worked example: over the combinations
`[cluster, database, tenant, clientid, certificate]` and
`[cluster, database, username, password]`, without a current connection, the
key/values of `foo://database('d1').username('u').password('p')` are
rejected with `missing {cluster}`. The second combination is the only one
covering them, `cluster` is one of its required keys, and it is neither
given nor inherited: the second inheritance pass needs two inheritable keys
missing and a current connection. The schema name only becomes the engine's
cluster name after the checks. `ResolverProperties.ExampleWithoutClusterFails`
proves this rejection, and `ExampleWithClusterResolves` and
`ExamplePromptsForPassword` show the same string resolving once
`cluster('c')` is added.

## Model

| member | source | states |
|---|---|---|
| Kql.KqlEngine.constructor | azure/Kqlmagic/kql_engine.py:17-26 | A new engine has no bind URL, no database, cluster or alias, no validation result and empty parsed key/values. |
| Kql.SameBindingPartialEquivalence | azure/Kqlmagic/kql_engine.py:28-29 | Engine equality is symmetric and transitive; an engine equals itself exactly when its bind URL is set and non-empty, and equal engines both have such a bind URL. |
| Kql.KqlEngine.IsValidated | azure/Kqlmagic/kql_engine.py:31-32 | True exactly when the stored validation result is true. |
| Kql.KqlEngine.SetValidationResult | azure/Kqlmagic/kql_engine.py:34-35 | Afterwards a result is stored, and the engine counts as validated exactly when the given result was true. |
| Kql.KqlEngine.GetDatabase | azure/Kqlmagic/kql_engine.py:40-43 | Succeeds exactly when the database name is set and non-empty, returning it; otherwise fails with "database not defined". |
| Kql.KqlEngine.GetCluster | azure/Kqlmagic/kql_engine.py:45-48 | Succeeds exactly when the cluster name is set and non-empty, returning it; otherwise fails with "cluster not defined". |
| Kql.KqlEngine.GetConnName | azure/Kqlmagic/kql_engine.py:50-54 | Succeeds exactly when database and cluster are both set and non-empty; the name is the alias (if set, else the database) followed by `@` and the cluster. |
| Resolver.ConnName | azure/Kqlmagic/kql_engine.py:50-54 | The same naming rule on given values: defined iff database and cluster are truthy, `(alias or database)@cluster`, error otherwise. |
| Resolver.Defined | azure/Kqlmagic/kql_engine.py:40-48 | A field accessor that succeeds exactly on a truthy field, returning its value, and otherwise fails with the given error. |
| Resolver.WithPemFile | azure/Kqlmagic/kql_engine.py:109-114 | A `certificate_pem_file` key is replaced by a `certificate` key holding the file's text; without one the key/values are unchanged; other keys keep their values. |
| Resolver.AllKeys | azure/Kqlmagic/kql_engine.py:119 | A key is in the vocabulary exactly when some combination contains it. |
| Resolver.Covering | azure/Kqlmagic/kql_engine.py:129 | Keeps exactly the combinations that contain every given key, and no more combinations than there were. |
| ResolverProperties.CoveringSingle | azure/Kqlmagic/kql_engine.py:129 | A single combination is kept once exactly when it contains every given key. |
| ResolverProperties.CoveringAppend | azure/Kqlmagic/kql_engine.py:129 | The covering combinations of a concatenated list are those of the first part followed by those of the second: list order and repetitions are kept. |
| Resolver.Inherit | azure/Kqlmagic/kql_engine.py:132-136 | The merge adds every key of the current connection except `appkey` and `alias`; user-supplied values are never overwritten; added keys carry the current connection's values. |
| Resolver.Disambiguate | azure/Kqlmagic/kql_engine.py:131-139 | With at most one candidate or no current connection nothing changes. Otherwise it fails exactly when the merge with the current connection has a credential the current connection does not hold with that value, and succeeds with that merge; every credential then equals the current connection's. The only failure is a credential conflict. |
| Resolver.LastOfLengthThree | azure/Kqlmagic/kql_engine.py:148-151 | None exactly when no candidate has three keys; otherwise the chosen one has three keys and no later candidate does. |
| Resolver.Select | azure/Kqlmagic/kql_engine.py:143-156 | No candidate fails; one candidate is chosen; several succeed exactly when one has three keys, and then the choice is the last three-key candidate in list order. |
| Resolver.InheritBound | azure/Kqlmagic/kql_engine.py:161-168 | Only missing inheritable keys of the combination are added, only with the current connection's values, and supplied values are kept. |
| Resolver.SecretToPrompt | azure/Kqlmagic/kql_engine.py:194-196 | A secret is asked for only when it is the combination's only secret key and it is absent or the `<key>` placeholder. Otherwise there is no prompt, because the combination has not exactly one secret or that secret is given. |
| Resolver.CheckKeys | azure/Kqlmagic/kql_engine.py:170-186 | Passes exactly when no required key is missing, `tenant` is present if `clientid` is in the combination, and every value is well formed. A missing required key is reported with the missing set. |
| Resolver.Complete | azure/Kqlmagic/kql_engine.py:129-186 | An accepted result uses a covering combination, extends the supplied key/values, stays within the combination's keys and satisfies every required-key, tenant and value rule. |
| Resolver.Match | azure/Kqlmagic/kql_engine.py:110-186 | Unknown keys fail first, with the unknown set; then a missing mandatory key fails. An accepted result satisfies every acceptance rule, holds the mandatory key and extends the supplied key/values. |
| Resolver.ClusterName | azure/Kqlmagic/kql_engine.py:189 | The engine's cluster name is the `cluster` value when it is present and non-empty, and the schema name otherwise. |
| Resolver.UrlParts | azure/Kqlmagic/kql_engine.py:202-205 | There are at most as many parts as keys in the combination. |
| Resolver.BindUrl | azure/Kqlmagic/kql_engine.py:206 | The bind URL starts with `schema://`. |
| Resolver.Finish | azure/Kqlmagic/kql_engine.py:188-207 | Sets cluster (value or schema), database (mandatory value) and alias (value or none). Prompts at most once, exactly when a secret is missing, with the message `connection to <name> requires <secret>, please enter <secret>: ` built from the connection name, and stores the answer under that secret; otherwise the key/values are unchanged. The bind URL renders the final key/values. It fails, with an undefined connection name, exactly when a prompt is due and the name cannot be formed. |
| Resolver.Resolve | azure/Kqlmagic/kql_engine.py:100-207 | Unknown keys and a missing mandatory key fail with those errors; after the key checks the only failure is an undefined connection name. A success uses an admissible combination, holds the mandatory key and every supplied key, asks at most once, and its bind URL renders its key/values. |
| Kql.KqlEngine.ParseCommonConnectionStr | azure/Kqlmagic/kql_engine.py:100-207 | On a failed key check: the error `Match` names, no prompt, and the engine unchanged. Otherwise the identity fields are set as specified, and a successful resolution returns the resolved key/values, prompts and bind URL. A failure while naming the connection for the prompt leaves the bind URL unchanged. |
| Kql.KqlEngine.FinishResolution | azure/Kqlmagic/kql_engine.py:188-207 | Sets the identity fields and computes exactly what `Finish` specifies: the key/values, prompts and bind URL, or its error with the bind URL untouched. |
| Kql.MatchKeys | azure/Kqlmagic/kql_engine.py:110-186 | On inputs the key checks accept, returns exactly the accepted key/values and combination. On inputs they reject, fails with the same error, or with one of the offending keys for ill-formed values. |
| Kql.CompleteKeys | azure/Kqlmagic/kql_engine.py:129-186 | From the covering combinations on, returns exactly the accepted key/values and combination of `Complete`, or its error (an ill-formed value being named by one offending key). |
| Kql.CheckCompleted | azure/Kqlmagic/kql_engine.py:170-186 | The required-key, tenant and value checks return exactly what `CheckKeys` accepts, or its error (an ill-formed value being named by one offending key). |
| Kql.MergeFromCurrent | azure/Kqlmagic/kql_engine.py:133-136 | The loop computes exactly the merge `Inherit`, and the matched-key set stays equal to the keys. |
| Kql.HasCredentialConflict | azure/Kqlmagic/kql_engine.py:137-139 | Reports a conflict exactly when a present credential key differs from, or is missing in, the current connection. |
| Kql.ChooseCombination | azure/Kqlmagic/kql_engine.py:143-156 | Computes exactly the selection `Select`. |
| Kql.InheritFromCurrent | azure/Kqlmagic/kql_engine.py:161-168 | Computes exactly the second inheritance pass `InheritBound`. |
| Kql.CopyFromCurrent | azure/Kqlmagic/kql_engine.py:164-168 | Adds, for each missing key, the current connection's value when it has one, and nothing else. |
| Kql.CheckValues | azure/Kqlmagic/kql_engine.py:180-186 | Finds no failure exactly when every value is well formed; a failure names an ill-formed key with the message of its category. |
| Kql.UrlPartsAppend | azure/Kqlmagic/kql_engine.py:203-205 | One more key of the combination adds its `key('value')` part at the end, or nothing for `database` and `alias`. |
| Kql.RenderBindUrl | azure/Kqlmagic/kql_engine.py:202-206 | The loop renders exactly the bind URL of the combination and key/values. |
| ResolverProperties.ConflictingCredentialRejected | azure/Kqlmagic/kql_engine.py:131-139 | With several covering combinations and a current connection, a supplied credential the current connection does not hold with the same value makes resolution fail. |
| ResolverProperties.SecondPassNeedsBothMissing | azure/Kqlmagic/kql_engine.py:161-162 | The second inheritance pass changes something only when both `cluster` and `tenant` are in the combination and both are missing. |
| ResolverProperties.SecondPassCopiesAvailable | azure/Kqlmagic/kql_engine.py:163-168 | When both are missing, each inheritable key is copied exactly when the current connection has it, with its value. |
| ResolverProperties.MatchedKeysInCombination | azure/Kqlmagic/kql_engine.py:129-158 | After the key checks, the supplied keys are kept and every final key, inherited ones included, is in the selected combination. |
| ResolverProperties.FinishKeysInCombination | azure/Kqlmagic/kql_engine.py:189-199 | The prompt only adds a key of the combination, the mandatory key stays present, and for a non-secret mandatory key the database name is its final value. |
| ResolverProperties.ResolvedKeysInCombination | azure/Kqlmagic/kql_engine.py:100-207 | A successful resolution's key/values lie within its combination, which is one of the admissible ones, and hold the mandatory key. |
| ResolverProperties.PromptExactlyWhenSecretMissing | azure/Kqlmagic/kql_engine.py:194-196 | The prompt fires if and only if the combination has exactly one secret key and it is absent or the placeholder. |
| ResolverProperties.UrlPartsMembers | azure/Kqlmagic/kql_engine.py:202-205 | The rendered parts are exactly the `key('value')` of the combination's keys other than `database` and `alias`. |
| ResolverProperties.BindUrlIgnoresExcluded | azure/Kqlmagic/kql_engine.py:202-206 | Two key/values that agree on the rendered keys have the same bind URL, whatever their `database` and `alias`. |
| ResolverProperties.UrlPartsAgree | azure/Kqlmagic/kql_engine.py:202-205 | The rendered parts depend only on the values of the rendered keys. |
| ResolverProperties.PromptedSecretInBindUrl | azure/Kqlmagic/kql_engine.py:196-206 | A secret obtained from the prompt appears, as `secret('answer')`, in the bind URL. |
| ResolverProperties.ExampleWithoutClusterFails | azure/Kqlmagic/kql_engine.py:170-174 | `foo://database('d1').username('u').password('p')` over the two example combinations, without a current connection, fails with `cluster` missing. |
| ResolverProperties.ExampleWithClusterResolves | azure/Kqlmagic/kql_engine.py:100-207 | With `cluster('c')` added, it resolves to the second combination with cluster `c`, no prompt and bind URL `foo://cluster('c').username('u').password('p')`. |
| ResolverProperties.ExamplePromptsForPassword | azure/Kqlmagic/kql_engine.py:194-206 | Without the password, one prompt for `password` naming `d1@c` is shown and its answer is rendered into the bind URL. |
| Connections.ConnNameOf | azure/Kqlmagic/kql_engine.py:50-54 | An engine's connection name is defined exactly when its database and cluster are truthy. |
| Connections.Normalize | azure/Kqlmagic/connection.py:37 | The looked-up schema has no `_`, no `-` and no upper-case letter; its characters are exactly the lower-cased characters of the schema other than `_` and `-`. |
| ConnectionProperties.NormalizeAppend | azure/Kqlmagic/connection.py:37 | The normalized form of a concatenation is the concatenation of the normalized parts, so order and repetitions are kept. |
| ConnectionProperties.NormalizeChar | azure/Kqlmagic/connection.py:37 | A single `_` or `-` normalizes to nothing, any other character to its lower-case form. |
| ConnectionProperties.NormalizeEmpty | azure/Kqlmagic/connection.py:37 | The empty schema normalizes to the empty string; with the two lemmas above this fixes the normalized form of every schema. |
| Connections.FindEngine | azure/Kqlmagic/connection.py:33-38 | No engine for a missing string or a string without `://`; any engine found is one of the map's engine classes. |
| Connections.RouteOf | azure/Kqlmagic/connection.py:43-67 | An unknown schema is rejected exactly when the string has no `@`. A schema of a non-Kusto engine class always takes the direct route to that class. The cluster route is taken exactly when the string contains `://` and its schema is Kusto's, or is unknown while the string has an `@`. The `database@cluster` route only applies without `://`, and such a string that does not split into two parts at `@` fails with the unpacking error. |
| Connections.KustoDatabaseEngine | azure/Kqlmagic/connection.py:76-88 | A cluster that is a schema name is rejected; a cluster with no `@cluster` connection is rejected; otherwise a Kusto engine is built from database, cluster and alias. |
| Connections.Same | azure/Kqlmagic/kql_engine.py:28-29 | Two registry engines are equal exactly when their bind URLs are equal and not empty. |
| Connections.RegisteredName | azure/Kqlmagic/connection.py:98 | A new engine is registered under the given name when it is non-empty, else under its connection name; a name found is never empty, and the only failure is an undefined connection name. |
| Connections.SetCurrentStep | azure/Kqlmagic/connection.py:91-100 | A registered bind URL makes the registered engine current and changes no entry. A new engine becomes current and is registered; this fails only when no name is given and the engine has none, and then no entry changes. The registry's consistency is preserved. |
| Connections.SetCurrentChangesOnlyItsKeys | azure/Kqlmagic/connection.py:91-100 | Every entry other than the new name and bind URL is unchanged. |
| Connections.SetCurrentRegistersNew | azure/Kqlmagic/connection.py:96-100 | A new nameable engine is registered under exactly its name and its bind URL, and becomes current. |
| Connections.PriorClusterConnection | azure/Kqlmagic/connection.py:58-60 | Without a previous Kusto engine there is none; with one, it is the `@cluster` entry of its cluster, and an undefined cluster fails. |
| Connections.DatabaseStep | azure/Kqlmagic/connection.py:69-73 | A rejected shortcut (its error as `KustoDatabaseEngine` states) leaves the registry unchanged; otherwise the built engine is registered and made current as `SetCurrentStep` states. Entries are only added and consistency is preserved. |
| Connections.ClusterStep | azure/Kqlmagic/connection.py:57-69 | A failure to find the previous cluster connection, to build the cluster engine or to name its cluster leaves the registry unchanged. A new cluster engine is then registered under `@cluster`, which stays registered; a missing database fails after that registration; otherwise the database engine is connected as `DatabaseStep` states. Consistency is preserved. |
| Connections.ConnectStep | azure/Kqlmagic/connection.py:41-73 | A rejected connection string leaves the registry unchanged. A non-Kusto engine is built from the string and the last engine of its class, then registered and made current as `SetCurrentStep` states (a failed build changes nothing); a cluster string proceeds as `ClusterStep` and a `database@cluster` string as `DatabaseStep`. The last engines per class are untouched and consistency is preserved. |
| Connections.Record | azure/Kqlmagic/connection.py:117-118 | The current engine is returned and recorded as the last current engine of its class. |
| Connections.GetConnectionStep | azure/Kqlmagic/connection.py:107-118 | No descriptor and no current connection fails and changes nothing. A registered descriptor selects its engine without new entries. An unregistered one is connected as `ConnectStep` states: its failure is returned with the state the connection left, its success is recorded. No descriptor keeps the current engine. A success makes the result current and changes the last engine of its class only; a failure changes no last engine. |
| Connections.ConnectionList | azure/Kqlmagic/connection.py:121-122 | The names are strictly sorted, and a key is listed exactly when it is registered, does not start with `@` and is not its engine's bind URL; an empty registry lists nothing. |
| Connections.ConnectionListBySchema | azure/Kqlmagic/connection.py:125-127 | The order-preserving sublist of the listing whose engines' bind URLs start with `schema://`, and exactly those. |
| Connections.FormatList | azure/Kqlmagic/connection.py:131-138 | One line per name, in order: `" * "` and the name for the current engine, three spaces and the name otherwise. |
| Connections.Connection.constructor | azure/Kqlmagic/connection.py:21-30 | The registry starts with no current engine, no entries and no last engines, which is consistent. |
| Connections.Connection.SetCurrent | azure/Kqlmagic/connection.py:91-100 | Performs exactly `SetCurrentStep` on the registry. The registry stays consistent. |
| Connections.Connection.Connect | azure/Kqlmagic/connection.py:41-73 | Performs exactly `ConnectStep` on the registry. The registry stays consistent. |
| Connections.Connection.ConnectCluster | azure/Kqlmagic/connection.py:57-69 | Performs exactly `ClusterStep` on the registry. The registry stays consistent. |
| Connections.Connection.ConnectDatabase | azure/Kqlmagic/connection.py:76-88 | Performs exactly `DatabaseStep` on the registry. The registry stays consistent. |
| Connections.Connection.GetConnection | azure/Kqlmagic/connection.py:107-118 | Performs exactly `GetConnectionStep` on the registry and returns its result. The registry stays consistent. |
| Connections.Connection.GetConnectionListFormatted | azure/Kqlmagic/connection.py:130-138 | In a state where entries exist only once a current engine is set: as many lines as listed names, each marked exactly when its engine equals the current one, and no lines without a current engine. |
| Connections.Connection.CurrentConnectionFormatted | azure/Kqlmagic/connection.py:141-142 | `" * "` and the current engine's name; fails on the unset current engine (the attribute access on None) or when its name is undefined. |
| ConnectionProperties.FindEngineSplitsAtFirst | azure/Kqlmagic/connection.py:35-38 | For a prefix without `://`, the schema looked up is the normalized prefix, the text before the first `://`. |
| ConnectionProperties.NormalizeIdempotent | azure/Kqlmagic/connection.py:37 | Normalizing a normalized schema changes nothing. |
| ConnectionProperties.NormalizeKeepsNormalized | azure/Kqlmagic/connection.py:37 | A schema without upper-case letters, `_` and `-` is looked up as written. |
| ConnectionProperties.NormalizeIgnoresCase | azure/Kqlmagic/connection.py:37 | Lower-casing first does not change the looked-up schema. |
| ConnectionProperties.RouteOfDatabaseAtCluster | azure/Kqlmagic/connection.py:67 | A string `d@c` without `://` is read as database `d` on cluster `c`. |
| ConnectionProperties.RouteOfDatabaseSplits | azure/Kqlmagic/connection.py:67 | Conversely, the shortcut's database and cluster are the two `@`-free halves of the string. |
| ConnectionProperties.DatabaseAtSchemaRejected | azure/Kqlmagic/connection.py:77-80 | `d@c` with `c` a schema name fails and leaves the registry unchanged. |
| ConnectionProperties.DatabaseWithoutClusterRejected | azure/Kqlmagic/connection.py:81-86 | `d@c` without an `@c` connection fails and leaves the registry unchanged. |
| ConnectionProperties.DatabaseAtKnownCluster | azure/Kqlmagic/connection.py:87-88 | With the `@c` connection present, the database engine built for `d` on `c` is made current. |
| ConnectionProperties.RegisteredThenSelected | azure/Kqlmagic/connection.py:109-118 | A newly registered engine is selected again by its name, with no new entries, and recorded for its class. |
| ConnectionProperties.SelectIdempotent | azure/Kqlmagic/connection.py:109-118 | Selecting the same registered name twice has the effect of selecting it once. |
| ConnectionProperties.ConnectionListUnique | azure/Kqlmagic/connection.py:121-122 | The listing is the only strictly sorted sequence of the displayed names. |
| ConnectionProperties.RegisteredNameListed | azure/Kqlmagic/connection.py:121-122 | A new engine registered under a name that neither starts with `@` nor equals its bind URL is listed under that name. |
| ConnectionProperties.BindUrlAndClusterEntriesHidden | azure/Kqlmagic/connection.py:121-122 | The bind-URL entry of a new engine, and an `@cluster` name, are never listed. |

## Left out

- The tokenizer `Parser.parse_and_get_kv_string` is not part of this model. The resolver takes its output, the key/value map, as input.
- Reading the PEM file is the parameter `readText`. A file that cannot be opened or read is not modelled.
- The console prompt `getpass.getpass` is the parameter `prompt`. It maps the message to the text typed.
- `get_client`, `client_execute`, `execute` and `validate` are left out. They are network calls and response decoding in code that is not part of this model.
- The engine classes and their constructors are not part of this model. A construction is the parameter `build`, which maps a request to an engine or an error.
- `_ALT_URI_SCHEMA_NAMES` is not part of this model, so `_ENGINE_MAP` is the constant `engineMap` of `Connection`.
- Engines in the registry are records of the fields it reads (class, bind URL, database, cluster, alias), not objects. Aliasing between a registered engine and a `KqlEngine` object is not captured.
- The last current engine of a class is keyed by the engine class rather than by its name.
- The class-level state of `Connection` is the state of one `Connection` object.
- The `use_cache` wrapping in a `CacheEngine` is left out, together with `Display`, because both depend on code that is not part of this model.
- The branch of `get_connection` that receives a `Connection` object as its descriptor is left out. Descriptors are strings here.
- `get_connection_by_name` and `get_alias` are a plain dictionary lookup (`Errors.Get`) and a plain field read (`KqlEngine.alias`).
- The text of error messages is not modelled, including the list of valid schemas in the unknown-schema error. Each error is a constructor of `Errors.Error`. The prompt message is the exception and is modelled exactly.
- `Strings.Lower` lower-cases ASCII letters only.
- `ConnStrKeys` is not part of this model. The key spellings are assumed to be the lower-case names (`cluster`, `database`, `tenant`, …).
- Kql.MatchKeys: the error for an ill-formed value names one ill-formed key of the right category, not a fixed one. The source stops at the first such key it meets while iterating a set, and that order is unspecified.
- Kql.KqlEngine.ParseCommonConnectionStr, Kql.CompleteKeys, Kql.CheckCompleted: an ill-formed value is reported the same way, through `Resolver.Reports`.
- Resolver.UrlParts: its own contract only bounds the number of parts. Which parts there are, and in which order, is stated by `ResolverProperties.UrlPartsMembers` and `Kql.UrlPartsAppend`.
- Kql.KqlEngine.SetValidationResult: the result is `None`, `False` or `True`. Other Python values, which are stored as `result == True`, are not modelled.
- Connections.Connection.GetConnectionListFormatted: it requires only the half of `Valid()` it depends on, that entries exist only once a current engine is set. Every method that changes the registry keeps all of `Valid()`.
