/**
 * The resolution of a parsed connection string into one admissible key
 * combination (KqlEngine._parse_common_connection_str), as pure functions.
 * Each function is one step of the resolver; Match and Resolve chain them in
 * the order the engine applies them, and the method in module Kql is proved
 * to compute exactly what they describe.
 */
module Resolver {
  import opened Errors
  import opened Strings

  type Key = string
  type KeyValues = map<Key, string>
  /** One admissible shape of a connection string; its order is the bind URL's order. */
  type Combination = seq<Key>

  const TENANT: Key := "tenant"
  const USERNAME: Key := "username"
  const PASSWORD: Key := "password"
  const CLIENTID: Key := "clientid"
  const CLIENTSECRET: Key := "clientsecret"
  const CERTIFICATE: Key := "certificate"
  const CERTIFICATE_PEM_FILE: Key := "certificate_pem_file"
  const CERTIFICATE_THUMBPRINT: Key := "certificate_thumbprint"
  const APPKEY: Key := "appkey"
  const CODE: Key := "code"
  const CLUSTER: Key := "cluster"
  const DATABASE: Key := "database"
  const ALIAS: Key := "alias"
  const ANONYMOUS: Key := "anonymous"

  const CREDENTIAL_KEYS: set<Key> :=
    {TENANT, USERNAME, CLIENTID, CERTIFICATE, CLIENTSECRET, APPKEY, PASSWORD, CERTIFICATE_THUMBPRINT}
  const SECRET_KEYS: set<Key> := {CLIENTSECRET, APPKEY, PASSWORD, CERTIFICATE_THUMBPRINT}
  const NOT_INHERITABLE_KEYS: set<Key> := {APPKEY, ALIAS}
  const OPTIONAL_KEYS: set<Key> := {TENANT, ALIAS}
  const INHERITABLE_KEYS: set<Key> := {CLUSTER, TENANT}
  const EXCLUDE_FROM_URL_KEYS: set<Key> := {DATABASE, ALIAS}
  const SHOULD_BE_NULL_KEYS: set<Key> := {CODE, ANONYMOUS}

  /** The value that stands for "not supplied yet": `<key>`. */
  function Placeholder(k: Key): string {
    "<" + k + ">"
  }

  function KeySet(c: Combination): set<Key> {
    set k | k in c
  }

  /** Python truthiness of an optional string: present and not empty. */
  predicate Truthy(s: Option<string>) {
    s.Some? && s.value != ""
  }

  /** `small` is contained in `big` with the same values. */
  predicate Extends(big: KeyValues, small: KeyValues) {
    small.Keys <= big.Keys && forall k :: k in small ==> big[k] == small[k]
  }

  // ---------------------------------------------------------------------------
  // Steps of the resolution

  /**
   * A `certificate_pem_file` key is replaced by a `certificate` key holding the
   * file's text; `readText` stands for opening and reading the file.
   */
  function WithPemFile(kv: KeyValues, readText: string -> string): (r: KeyValues)
    ensures CERTIFICATE_PEM_FILE !in r
    ensures CERTIFICATE_PEM_FILE !in kv ==> r == kv
    ensures CERTIFICATE_PEM_FILE in kv ==>
      && r.Keys == kv.Keys - {CERTIFICATE_PEM_FILE} + {CERTIFICATE}
      && r[CERTIFICATE] == readText(kv[CERTIFICATE_PEM_FILE])
    ensures forall k :: k in kv && k != CERTIFICATE && k != CERTIFICATE_PEM_FILE ==> k in r && r[k] == kv[k]
  {
    if CERTIFICATE_PEM_FILE in kv then
      kv[CERTIFICATE := readText(kv[CERTIFICATE_PEM_FILE])] - {CERTIFICATE_PEM_FILE}
    else kv
  }

  /** The vocabulary: every key of every combination. */
  function AllKeys(combos: seq<Combination>): (r: set<Key>)
    ensures forall k :: k in r <==> exists i :: 0 <= i < |combos| && k in combos[i]
  {
    if combos == [] then {}
    else AllKeys(combos[..|combos| - 1]) + KeySet(combos[|combos| - 1])
  }

  /** The combinations, in list order, that contain every key of `keys`. */
  function Covering(keys: set<Key>, combos: seq<Combination>): (r: seq<Combination>)
    ensures |r| <= |combos|
    ensures forall c :: c in r <==> c in combos && keys <= KeySet(c)
  {
    if combos == [] then []
    else (if keys <= KeySet(combos[0]) then [combos[0]] else []) + Covering(keys, combos[1..])
  }

  /**
   * First inheritance pass: every key of the current connection that the user
   * did not supply, except the not-inheritable ones, is copied.
   */
  function Inherit(kv: KeyValues, prior: KeyValues): (r: KeyValues)
    ensures r.Keys == kv.Keys + (prior.Keys - NOT_INHERITABLE_KEYS)
    ensures Extends(r, kv)
    ensures forall k :: k in r && k !in kv ==> r[k] == prior[k]
  {
    map k | k in kv.Keys + (prior.Keys - NOT_INHERITABLE_KEYS) :: if k in kv then kv[k] else prior[k]
  }

  /** Some credential differs from the current connection's, or the current connection lacks it. */
  predicate CredentialMismatch(merged: KeyValues, prior: KeyValues) {
    exists k :: k in CREDENTIAL_KEYS && k in merged && Get(prior, k) != Some(merged[k])
  }

  /** Resolving an ambiguity (more than one candidate) from the current connection. */
  function Disambiguate(kv: KeyValues, candidates: seq<Combination>, prior: Option<KeyValues>): (r: Result<KeyValues>)
    ensures r.Err? ==> r.error == CredentialConflict
    ensures (|candidates| <= 1 || prior.None?) ==> r == Ok(kv)
    ensures r.Ok? ==> Extends(r.value, kv)
    ensures r.Ok? && |candidates| > 1 && prior.Some? ==>
      forall k :: k in CREDENTIAL_KEYS && k in r.value ==> k in prior.value && r.value[k] == prior.value[k]
    ensures r.Ok? && |candidates| > 1 && prior.Some? ==>
      r.value.Keys == kv.Keys + (prior.value.Keys - NOT_INHERITABLE_KEYS)
    ensures |candidates| > 1 && prior.Some? ==>
      && (r.Err? <==> CredentialMismatch(Inherit(kv, prior.value), prior.value))
      && (r.Ok? ==> r.value == Inherit(kv, prior.value))
  {
    if |candidates| > 1 && prior.Some? then
      var merged := Inherit(kv, prior.value);
      if CredentialMismatch(merged, prior.value) then Err(CredentialConflict) else Ok(merged)
    else Ok(kv)
  }

  /** The last combination of exactly three keys, scanning the list in order. */
  function LastOfLengthThree(candidates: seq<Combination>): (r: Option<Combination>)
    ensures r.None? <==> forall i :: 0 <= i < |candidates| ==> |candidates[i]| != 3
    ensures r.Some? ==> exists i :: (0 <= i < |candidates| && candidates[i] == r.value && |r.value| == 3 &&
      forall j :: i < j < |candidates| ==> |candidates[j]| != 3)
  {
    if candidates == [] then None
    else if |candidates[|candidates| - 1]| == 3 then Some(candidates[|candidates| - 1])
    else LastOfLengthThree(candidates[..|candidates| - 1])
  }

  /** Exactly one combination must remain, or the narrow three-key tie-break applies. */
  function Select(candidates: seq<Combination>): (r: Result<Combination>)
    ensures |candidates| == 0 ==> r == Err(NotAValidKeysSet)
    ensures |candidates| == 1 ==> r == Ok(candidates[0])
    ensures |candidates| > 1 ==> (r.Ok? <==> exists i :: 0 <= i < |candidates| && |candidates[i]| == 3)
    ensures r.Ok? ==> r.value in candidates
    ensures |candidates| > 1 && r.Ok? ==> Some(r.value) == LastOfLengthThree(candidates)
    ensures r.Err? ==> r.error == NotAValidKeysSet
  {
    if |candidates| == 0 then Err(NotAValidKeysSet)
    else if |candidates| > 1 then
      match LastOfLengthThree(candidates)
      case Some(c) => Ok(c)
      case None => Err(NotAValidKeysSet)
    else Ok(candidates[0])
  }

  function MissingInheritable(kv: KeyValues, combo: Combination): set<Key> {
    INHERITABLE_KEYS * KeySet(combo) - kv.Keys
  }

  /**
   * Second inheritance pass: when more than one inheritable key of the
   * selected combination is missing, those the current connection has are copied.
   */
  function InheritBound(kv: KeyValues, combo: Combination, prior: Option<KeyValues>): (r: KeyValues)
    ensures kv.Keys <= r.Keys <= kv.Keys + MissingInheritable(kv, combo)
    ensures Extends(r, kv)
    ensures forall k :: k in r && k !in kv ==> prior.Some? && k in prior.value && r[k] == prior.value[k]
  {
    var missing := MissingInheritable(kv, combo);
    if |missing| > 1 && prior.Some? then
      kv + map k | k in missing && k in prior.value :: prior.value[k]
    else kv
  }

  /** Keys of the combination still absent that are neither secret nor optional. */
  function MissingRequired(kv: KeyValues, combo: Combination): set<Key> {
    KeySet(combo) - kv.Keys - (SECRET_KEYS * KeySet(combo)) - OPTIONAL_KEYS
  }

  /** `tenant` is optional, except when the combination has `clientid`. */
  predicate TenantMissing(kv: KeyValues, combo: Combination) {
    TENANT !in kv && CLIENTID in combo
  }

  /** Must-be-empty keys hold ""; other non-secret keys hold neither "" nor `<key>`. */
  predicate ValueOk(k: Key, v: string) {
    if k in SHOULD_BE_NULL_KEYS then v == ""
    else k in SECRET_KEYS || (v != Placeholder(k) && v != "")
  }

  function BadValues(kv: KeyValues): set<Key> {
    set k | k in kv && !ValueOk(k, kv[k])
  }

  /**
   * The source stops at the first ill-formed value it meets while iterating a
   * set, so which key it names is not determined: a reported error `e`
   * agrees with the summary `InvalidValues(keys)` when it names one of `keys`
   * with the message of that key's category. Every other error is reported as is.
   */
  predicate Reports(e: Error, summary: Error) {
    if summary.InvalidValues? then
      || (e.MustBeEmpty? && e.key in summary.keys && e.key in SHOULD_BE_NULL_KEYS)
      || (e.EmptyOrPlaceholder? && e.key in summary.keys && e.key !in SHOULD_BE_NULL_KEYS)
    else e == summary
  }

  /** What the key checks accept: the final key/values and the selected combination. */
  datatype Matched = Matched(kv: KeyValues, combo: Combination)

  /** Every property an accepted key set has, whatever the inputs. */
  predicate Accepted(m: Matched, mandatory: Key, combos: seq<Combination>) {
    && m.combo in combos
    && mandatory in m.kv
    && m.kv.Keys <= KeySet(m.combo)
    && (forall k :: k in m.combo ==> k in m.kv || k in SECRET_KEYS || k in OPTIONAL_KEYS)
    && (CLIENTID in m.combo ==> TENANT in m.kv)
    && (forall k :: k in m.kv ==> ValueOk(k, m.kv[k]))
  }

  /** The last checks on the completed key/values: required keys, tenant, values. */
  function CheckKeys(kv: KeyValues, combo: Combination): (r: Result<Matched>)
    ensures r.Ok? <==> MissingRequired(kv, combo) == {} && !TenantMissing(kv, combo) && BadValues(kv) == {}
    ensures r.Ok? ==> r.value == Matched(kv, combo)
    ensures r.Ok? ==> forall k :: k in combo ==> k in kv || k in SECRET_KEYS || k in OPTIONAL_KEYS
    ensures r.Ok? ==> (CLIENTID in combo ==> TENANT in kv)
    ensures r.Ok? ==> forall k :: k in kv ==> ValueOk(k, kv[k])
    ensures MissingRequired(kv, combo) != {} ==> r == Err(MissingKeys(MissingRequired(kv, combo)))
  {
    var missing := MissingRequired(kv, combo);
    if missing != {} then Err(MissingKeys(missing))
    else if TenantMissing(kv, combo) then Err(MissingTenant)
    else if BadValues(kv) != {} then Err(InvalidValues(BadValues(kv)))
    else
      assert forall k :: k in kv ==> ValueOk(k, kv[k]) by {
        forall k | k in kv ensures ValueOk(k, kv[k]) {
          assert k !in BadValues(kv);
        }
      }
      Ok(Matched(kv, combo))
  }

  /** From the covering combinations to the checked key/values: disambiguation, selection, inheritance. */
  function Complete(kv: KeyValues, candidates: seq<Combination>, prior: Option<KeyValues>): (r: Result<Matched>)
    ensures r.Ok? ==> r.value.combo in candidates && Extends(r.value.kv, kv)
    ensures r.Ok? ==> r.value.kv.Keys <= KeySet(r.value.combo)
    ensures r.Ok? ==> forall k :: k in r.value.combo ==> k in r.value.kv || k in SECRET_KEYS || k in OPTIONAL_KEYS
    ensures r.Ok? ==> (CLIENTID in r.value.combo ==> TENANT in r.value.kv)
    ensures r.Ok? ==> forall k :: k in r.value.kv ==> ValueOk(k, r.value.kv[k])
  {
    var merged :- Disambiguate(kv, candidates, prior);
    var combo :- Select(Covering(merged.Keys, candidates));
    CheckKeys(InheritBound(merged, combo, prior), combo)
  }

  /** The key checks of the resolver, up to and including the value check. */
  function Match(parsed: KeyValues, prior: Option<KeyValues>, mandatory: Key, combos: seq<Combination>,
                 readText: string -> string): (r: Result<Matched>)
    ensures var kv := WithPemFile(parsed, readText);
      !(kv.Keys <= AllKeys(combos)) ==> r == Err(UnknownKeys(kv.Keys - AllKeys(combos)))
    ensures var kv := WithPemFile(parsed, readText);
      kv.Keys <= AllKeys(combos) && mandatory !in kv ==> r == Err(MandatoryKeyMissing(mandatory))
    ensures r.Ok? ==> Accepted(r.value, mandatory, combos)
    ensures r.Ok? ==> Extends(r.value.kv, WithPemFile(parsed, readText))
  {
    var kv := WithPemFile(parsed, readText);
    var unknown := kv.Keys - AllKeys(combos);
    if unknown != {} then Err(UnknownKeys(unknown))
    else
      assert kv.Keys <= AllKeys(combos) by {
        forall k | k in kv.Keys ensures k in AllKeys(combos) { assert k !in unknown; }
      }
      if mandatory !in kv then Err(MandatoryKeyMissing(mandatory))
    else
      Complete(kv, Covering(kv.Keys, combos), prior)
  }

  // ---------------------------------------------------------------------------
  // Identity fields, the secret prompt and the bind URL

  /** `cluster` value, or the schema name when it is absent or empty. */
  function ClusterName(kv: KeyValues, schema: string): (r: string)
    ensures Truthy(Get(kv, CLUSTER)) ==> r == kv[CLUSTER]
    ensures !Truthy(Get(kv, CLUSTER)) ==> r == schema
  {
    if CLUSTER in kv && kv[CLUSTER] != "" then kv[CLUSTER] else schema
  }

  /** `alias or database` "@" `cluster`; fails unless database and cluster are set and non-empty. */
  function ConnName(database: Option<string>, cluster: Option<string>, alias: Option<string>): (r: Result<string>)
    ensures r.Ok? <==> Truthy(database) && Truthy(cluster)
    ensures r.Err? ==> r.error == ConnNameUndefined
    ensures r.Ok? ==> exists head :: (r.value == head + "@" + cluster.value &&
      head == (if Truthy(alias) then alias.value else database.value))
  {
    if Truthy(database) && Truthy(cluster) then
      Ok((if Truthy(alias) then alias.value else database.value) + "@" + cluster.value)
    else Err(ConnNameUndefined)
  }

  /** An accessor of a field that must be set: `if not field: raise`. */
  function Defined(field: Option<string>, missing: Error): (r: Result<string>)
    ensures r.Ok? <==> Truthy(field)
    ensures r.Ok? ==> r.value == field.value
    ensures r.Err? ==> r.error == missing
  {
    if Truthy(field) then Ok(field.value) else Err(missing)
  }

  lemma SingletonUnique(s: set<Key>)
    requires |s| == 1
    ensures forall a, b :: a in s && b in s ==> a == b
  {
    forall a, b | a in s && b in s ensures a == b {
      if a != b {
        assert {a, b} <= s;
        assert |{a, b}| == 2;
        SubsetCardinality({a, b}, s);
      }
    }
  }

  lemma {:induction false} SubsetCardinality(a: set<Key>, b: set<Key>)
    requires a <= b
    ensures |a| <= |b|
    decreases a
  {
    if a != {} {
      var x :| x in a;
      SubsetCardinality(a - {x}, b - {x});
    }
  }

  /** The secret to ask for: the combination's only secret key, when absent or a placeholder. */
  function SecretToPrompt(kv: KeyValues, combo: Combination): (r: Option<Key>)
    ensures r.Some? ==> SECRET_KEYS * KeySet(combo) == {r.value}
    ensures r.Some? ==> r.value !in kv || kv[r.value] == Placeholder(r.value)
    ensures r.None? ==> (|SECRET_KEYS * KeySet(combo)| != 1 ||
      forall s :: s in SECRET_KEYS * KeySet(combo) ==> s in kv && kv[s] != Placeholder(s))
  {
    var secrets := SECRET_KEYS * KeySet(combo);
    if |secrets| == 1 then
      SingletonUnique(secrets);
      var s :| s in secrets;
      if s !in kv || kv[s] == Placeholder(s) then Some(s) else None
    else None
  }

  function PromptMessage(name: string, secret: Key): string {
    "connection to " + name + " requires " + secret + ", please enter " + secret + ": "
  }

  /** The value Python renders for a key: its value, or `None` when absent. */
  function ValueText(kv: KeyValues, k: Key): string {
    if k in kv then kv[k] else "None"
  }

  function UrlPart(k: Key, v: string): string {
    k + "('" + v + "')"
  }

  function UrlParts(combo: Combination, kv: KeyValues): (r: seq<string>)
    ensures |r| <= |combo|
  {
    if combo == [] then []
    else
      (if combo[0] in EXCLUDE_FROM_URL_KEYS then [] else [UrlPart(combo[0], ValueText(kv, combo[0]))])
      + UrlParts(combo[1..], kv)
  }

  /** `schema://k1('v1').k2('v2')...` over the combination, without the excluded keys. */
  function BindUrl(schema: string, combo: Combination, kv: KeyValues): (r: string)
    ensures StartsWith(r, schema + "://")
  {
    var prefix := schema + "://";
    var r := prefix + Join(".", UrlParts(combo, kv));
    assert r[..|prefix|] == prefix;
    r
  }

  /** The outcome of a resolution. `prompts` lists the messages shown to the user. */
  datatype Resolved = Resolved(kv: KeyValues, combo: Combination, clusterName: string, databaseName: string,
                               alias: Option<string>, prompts: seq<string>, bindUrl: string)

  /** What the resolver does after the key checks. */
  function Finish(m: Matched, schema: string, mandatory: Key, prompt: string -> string): (r: Result<Resolved>)
    requires mandatory in m.kv
    ensures r.Err? ==> r.error == ConnNameUndefined
    ensures var name := ConnName(Some(m.kv[mandatory]), Some(ClusterName(m.kv, schema)), Get(m.kv, ALIAS));
      r.Err? <==> SecretToPrompt(m.kv, m.combo).Some? && name.Err?
    ensures var name := ConnName(Some(m.kv[mandatory]), Some(ClusterName(m.kv, schema)), Get(m.kv, ALIAS));
      r.Ok? && r.value.prompts != [] ==>
        && SecretToPrompt(m.kv, m.combo).Some? && name.Ok?
        && r.value.prompts[0] == PromptMessage(name.value, SecretToPrompt(m.kv, m.combo).value)
    ensures r.Ok? ==> r.value.combo == m.combo && |r.value.prompts| <= 1
    ensures r.Ok? ==> (r.value.clusterName == ClusterName(m.kv, schema) &&
      r.value.databaseName == m.kv[mandatory] && r.value.alias == Get(m.kv, ALIAS))
    ensures r.Ok? ==> r.value.bindUrl == BindUrl(schema, m.combo, r.value.kv)
    ensures r.Ok? && r.value.prompts == [] ==> SecretToPrompt(m.kv, m.combo).None? && r.value.kv == m.kv
    ensures r.Ok? && r.value.prompts != [] ==> (SecretToPrompt(m.kv, m.combo).Some? &&
      var s := SecretToPrompt(m.kv, m.combo).value;
      r.value.kv == m.kv[s := prompt(r.value.prompts[0])])
  {
    var cluster := ClusterName(m.kv, schema);
    var database := m.kv[mandatory];
    var alias := Get(m.kv, ALIAS);
    match SecretToPrompt(m.kv, m.combo)
    case None => Ok(Resolved(m.kv, m.combo, cluster, database, alias, [], BindUrl(schema, m.combo, m.kv)))
    case Some(s) =>
      var name :- ConnName(Some(database), Some(cluster), alias);
      var message := PromptMessage(name, s);
      var kv := m.kv[s := prompt(message)];
      Ok(Resolved(kv, m.combo, cluster, database, alias, [message], BindUrl(schema, m.combo, kv)))
  }

  /** The whole resolution of a parsed connection string. */
  function Resolve(parsed: KeyValues, prior: Option<KeyValues>, schema: string, mandatory: Key,
                   combos: seq<Combination>, readText: string -> string, prompt: string -> string): (r: Result<Resolved>)
    ensures var kv := WithPemFile(parsed, readText);
      !(kv.Keys <= AllKeys(combos)) ==> r == Err(UnknownKeys(kv.Keys - AllKeys(combos)))
    ensures var kv := WithPemFile(parsed, readText);
      kv.Keys <= AllKeys(combos) && mandatory !in kv ==> r == Err(MandatoryKeyMissing(mandatory))
    ensures r.Err? && Match(parsed, prior, mandatory, combos, readText).Ok? ==> r.error == ConnNameUndefined
    ensures r.Ok? ==> && r.value.combo in combos && mandatory in r.value.kv
                      && WithPemFile(parsed, readText).Keys <= r.value.kv.Keys
                      && r.value.bindUrl == BindUrl(schema, r.value.combo, r.value.kv)
                      && |r.value.prompts| <= 1
  {
    var m :- Match(parsed, prior, mandatory, combos, readText);
    Finish(m, schema, mandatory, prompt)
  }
}
