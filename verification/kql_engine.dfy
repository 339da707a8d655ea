/**
 * KqlEngine: the fields every engine keeps, its accessors, and the
 * connection-string resolver that fills them. Each loop of the resolver is a
 * method of its own here, proved against the step of module Resolver that it
 * computes; ParseCommonConnectionStr runs them in the source's order and is
 * proved to compute Resolver.Resolve.
 */
module Kql {
  import opened Errors
  import opened Strings
  import opened Resolver

  /** Engine equality: both bind URLs set, non-empty and equal. */
  predicate SameBinding(a: Option<string>, b: Option<string>) {
    Truthy(a) && a == b
  }

  /**
   * Engine equality is symmetric and transitive, and an engine equals itself
   * exactly when its bind URL is set and not empty.
   */
  lemma SameBindingPartialEquivalence(a: Option<string>, b: Option<string>, c: Option<string>)
    ensures SameBinding(a, b) ==> SameBinding(b, a)
    ensures SameBinding(a, b) && SameBinding(b, c) ==> SameBinding(a, c)
    ensures SameBinding(a, a) <==> Truthy(a)
    ensures SameBinding(a, b) ==> Truthy(a) && Truthy(b)
  {
  }

  /** The inputs the resolver inherits from: the current engine's key/values, if any. */
  function PriorOf(current: KqlEngine?): Option<KeyValues>
    reads current
  {
    if current == null then None else Some(current.parsedConn)
  }

  class KqlEngine {
    var bindUrl: Option<string>
    var parsedConn: KeyValues
    var databaseName: Option<string>
    var clusterName: Option<string>
    var alias: Option<string>
    /** None until a validation probe has run. */
    var validated: Option<bool>

    constructor()
      ensures bindUrl.None? && parsedConn == map[] && validated.None?
      ensures databaseName.None? && clusterName.None? && alias.None?
    {
      bindUrl := None;
      parsedConn := map[];
      databaseName := None;
      clusterName := None;
      alias := None;
      validated := None;
    }

    function IsValidated(): (r: bool)
      reads this
      ensures r <==> validated == Some(true)
    {
      validated == Some(true)
    }

    /** Records whether the probe's result equals True; `None` stands for a missing result. */
    method SetValidationResult(result: Option<bool>)
      modifies this`validated
      ensures validated.Some?
      ensures IsValidated() <==> result == Some(true)
    {
      validated := Some(result == Some(true));
    }

    function GetDatabase(): (r: Result<string>)
      reads this
      ensures r.Ok? <==> Truthy(databaseName)
      ensures r.Ok? ==> r.value == databaseName.value
      ensures r.Err? ==> r.error == DatabaseUndefined
    {
      Defined(databaseName, DatabaseUndefined)
    }

    function GetCluster(): (r: Result<string>)
      reads this
      ensures r.Ok? <==> Truthy(clusterName)
      ensures r.Ok? ==> r.value == clusterName.value
      ensures r.Err? ==> r.error == ClusterUndefined
    {
      Defined(clusterName, ClusterUndefined)
    }

    function GetConnName(): (r: Result<string>)
      reads this
      ensures r.Ok? <==> Truthy(databaseName) && Truthy(clusterName)
      ensures r.Ok? ==> exists head :: && r.value == head + "@" + clusterName.value
                                       && head == (if Truthy(alias) then alias.value else databaseName.value)
      ensures r.Err? ==> r.error == ConnNameUndefined
    {
      ConnName(databaseName, clusterName, alias)
    }

    /**
     * Resolves the key/values `parsed` (the tokenizer's output) against the
     * schema's admissible combinations, inheriting from `current` when given.
     * Returns the accepted key/values and the prompts shown; sets the
     * identity fields and the bind URL. A failed key check leaves the engine
     * as it was; a failure of the prompt leaves the identity fields set.
     */
    method ParseCommonConnectionStr(parsed: KeyValues, current: KqlEngine?, schema: string, mandatory: Key,
                                    combos: seq<Combination>, readText: string -> string,
                                    prompt: string -> string)
      returns (r: Result<KeyValues>, prompts: seq<string>)
      modifies this`clusterName, this`databaseName, this`alias, this`bindUrl
      ensures var m := Match(parsed, old(PriorOf(current)), mandatory, combos, readText);
        m.Err? ==> && r.Err? && Reports(r.error, m.error) && prompts == []
                   && clusterName == old(clusterName) && databaseName == old(databaseName)
                   && alias == old(alias) && bindUrl == old(bindUrl)
      ensures var m := Match(parsed, old(PriorOf(current)), mandatory, combos, readText);
        m.Ok? ==> && clusterName == Some(ClusterName(m.value.kv, schema))
                  && databaseName == Some(m.value.kv[mandatory])
                  && alias == Get(m.value.kv, ALIAS)
      ensures var res := Resolve(parsed, old(PriorOf(current)), schema, mandatory, combos, readText, prompt);
        res.Ok? ==> r == Ok(res.value.kv) && prompts == res.value.prompts && bindUrl == Some(res.value.bindUrl)
      ensures var m := Match(parsed, old(PriorOf(current)), mandatory, combos, readText);
        m.Ok? && Finish(m.value, schema, mandatory, prompt).Err? ==>
          r == Err(ConnNameUndefined) && prompts == [] && bindUrl == old(bindUrl)
    {
      var prior := PriorOf(current);
      var matched := MatchKeys(parsed, prior, mandatory, combos, readText);
      if matched.Err? {
        r, prompts := Err(matched.error), [];
        return;
      }
      r, prompts := FinishResolution(matched.value, schema, mandatory, prompt);
    }

    /**
     * The resolver after the key checks: sets the identity fields, prompts
     * for a missing secret and renders the bind URL.
     */
    method FinishResolution(m: Matched, schema: string, mandatory: Key, prompt: string -> string)
      returns (r: Result<KeyValues>, prompts: seq<string>)
      requires mandatory in m.kv
      modifies this`clusterName, this`databaseName, this`alias, this`bindUrl
      ensures clusterName == Some(ClusterName(m.kv, schema))
      ensures databaseName == Some(m.kv[mandatory]) && alias == Get(m.kv, ALIAS)
      ensures var f := Finish(m, schema, mandatory, prompt);
        && (f.Ok? ==> r == Ok(f.value.kv) && prompts == f.value.prompts && bindUrl == Some(f.value.bindUrl))
        && (f.Err? ==> r == Err(f.error) && prompts == [] && bindUrl == old(bindUrl))
    {
      var kv, combo := m.kv, m.combo;
      prompts := [];
      clusterName := Some(ClusterName(kv, schema));
      databaseName := Get(kv, mandatory);
      alias := Get(kv, ALIAS);

      var pending := SecretToPrompt(kv, combo);
      if pending.Some? {
        var name := GetConnName();
        if name.Err? {
          r := Err(name.error);
          return;
        }
        var message := PromptMessage(name.value, pending.value);
        kv := kv[pending.value := prompt(message)];
        prompts := [message];
      }

      var url := RenderBindUrl(schema, combo, kv);
      bindUrl := Some(url);
      r := Ok(kv);
    }
  }

  /**
   * The key checks of the resolver, from the unknown-key check to the value
   * check; an error names the same failure as Match (see Reports).
   */
  method MatchKeys(parsed: KeyValues, prior: Option<KeyValues>, mandatory: Key, combos: seq<Combination>,
                   readText: string -> string) returns (r: Result<Matched>)
    ensures Match(parsed, prior, mandatory, combos, readText).Ok? ==> r == Match(parsed, prior, mandatory, combos, readText)
    ensures Match(parsed, prior, mandatory, combos, readText).Err? ==>
      r.Err? && Reports(r.error, Match(parsed, prior, mandatory, combos, readText).error)
  {
    var kv := WithPemFile(parsed, readText);
    var matched := kv.Keys;

    var unknown := matched - AllKeys(combos);
    if unknown != {} {
      return Err(UnknownKeys(unknown));
    }
    if mandatory !in matched {
      return Err(MandatoryKeyMissing(mandatory));
    }
    r := CompleteKeys(kv, matched, Covering(matched, combos), prior);
  }

  /** From the covering combinations on: disambiguation, selection, second inheritance pass, final checks. */
  method CompleteKeys(kv: KeyValues, matched: set<Key>, candidates: seq<Combination>, prior: Option<KeyValues>)
    returns (r: Result<Matched>)
    requires matched == kv.Keys
    ensures Complete(kv, candidates, prior).Ok? ==> r == Complete(kv, candidates, prior)
    ensures Complete(kv, candidates, prior).Err? ==> r.Err? && Reports(r.error, Complete(kv, candidates, prior).error)
  {
    var merged, mergedKeys := kv, matched;
    if |candidates| > 1 {
      if prior.Some? {
        merged, mergedKeys := MergeFromCurrent(kv, matched, prior.value);
        var conflict := HasCredentialConflict(merged, mergedKeys, prior.value);
        if conflict {
          return Err(CredentialConflict);
        }
      }
    }
    assert Disambiguate(kv, candidates, prior) == Ok(merged);

    var selected := ChooseCombination(Covering(mergedKeys, candidates));
    if selected.Err? {
      return Err(selected.error);
    }
    var combo := selected.value;
    var completed, completedKeys := InheritFromCurrent(merged, mergedKeys, combo, prior);
    r := CheckCompleted(completed, completedKeys, combo);
  }

  /** The required-key, tenant and value checks on the completed key/values. */
  method CheckCompleted(kv: KeyValues, matched: set<Key>, combo: Combination) returns (r: Result<Matched>)
    requires matched == kv.Keys
    ensures CheckKeys(kv, combo).Ok? ==> r == CheckKeys(kv, combo)
    ensures CheckKeys(kv, combo).Err? ==> r.Err? && Reports(r.error, CheckKeys(kv, combo).error)
  {
    var comboKeys := KeySet(combo);
    var missing := comboKeys - matched - SECRET_KEYS * comboKeys - OPTIONAL_KEYS;
    if missing != {} {
      return Err(MissingKeys(missing));
    }
    if Get(kv, TENANT).None? && CLIENTID in comboKeys {
      return Err(MissingTenant);
    }
    var failure := CheckValues(kv, matched);
    if failure.Some? {
      return Err(failure.value);
    }
    return Ok(Matched(kv, combo));
  }

  // ---------------------------------------------------------------------------
  // The resolver's loops. `matched` is the source's matched_keys_set, which it
  // keeps equal to the keys of the key/value dictionary.

  /** First inheritance pass: copy what the user left out from the current connection. */
  method MergeFromCurrent(kv: KeyValues, matched: set<Key>, prior: KeyValues)
    returns (merged: KeyValues, mergedKeys: set<Key>)
    requires matched == kv.Keys
    ensures merged == Inherit(kv, prior)
    ensures mergedKeys == merged.Keys
  {
    merged, mergedKeys := kv, matched;
    var items := prior.Keys;
    while items != {}
      invariant items <= prior.Keys
      invariant mergedKeys == merged.Keys
      invariant merged.Keys == kv.Keys + ((prior.Keys - items) - NOT_INHERITABLE_KEYS)
      invariant forall k :: k in merged ==> merged[k] == if k in kv then kv[k] else prior[k]
      decreases items
    {
      var k :| k in items;
      if k !in mergedKeys && k !in NOT_INHERITABLE_KEYS {
        merged := merged[k := prior[k]];
        mergedKeys := mergedKeys + {k};
      }
      items := items - {k};
    }
    assert merged == Inherit(kv, prior);
  }

  /** The credential check after the merge: true when some credential differs from the current one. */
  method HasCredentialConflict(merged: KeyValues, matched: set<Key>, prior: KeyValues) returns (conflict: bool)
    requires matched == merged.Keys
    ensures conflict == CredentialMismatch(merged, prior)
  {
    var toCheck := CREDENTIAL_KEYS * matched;
    while toCheck != {}
      invariant toCheck <= CREDENTIAL_KEYS * matched
      invariant forall k :: k in CREDENTIAL_KEYS * matched - toCheck ==> Get(prior, k) == Some(merged[k])
      decreases toCheck
    {
      var k :| k in toCheck;
      if Get(prior, k) != Some(merged[k]) {
        return true;
      }
      toCheck := toCheck - {k};
    }
    return false;
  }

  /** The selection: one candidate, or else the last one with exactly three keys. */
  method ChooseCombination(candidates: seq<Combination>) returns (r: Result<Combination>)
    ensures r == Select(candidates)
  {
    if |candidates| == 0 {
      return Err(NotAValidKeysSet);
    }
    var chosen: Option<Combination> := None;
    if |candidates| > 1 {
      for i := 0 to |candidates|
        invariant chosen == LastOfLengthThree(candidates[..i])
      {
        assert candidates[..i + 1][..i] == candidates[..i];
        if |candidates[i]| == 3 {
          chosen := Some(candidates[i]);
        }
      }
      assert candidates[..|candidates|] == candidates;
    } else {
      chosen := Some(candidates[0]);
    }
    if chosen.None? {
      return Err(NotAValidKeysSet);
    }
    return Ok(chosen.value);
  }

  /** Second inheritance pass, for the inheritable keys the selected combination still misses. */
  method InheritFromCurrent(kv: KeyValues, matched: set<Key>, combo: Combination, prior: Option<KeyValues>)
    returns (completed: KeyValues, completedKeys: set<Key>)
    requires matched == kv.Keys
    ensures completed == InheritBound(kv, combo, prior)
    ensures completedKeys == completed.Keys
  {
    completed, completedKeys := kv, matched;
    var inheritKeys := INHERITABLE_KEYS * KeySet(combo) - matched;
    if |inheritKeys| > 1 && prior.Some? {
      completed, completedKeys := CopyFromCurrent(kv, matched, inheritKeys, prior.value);
    }
  }

  /** The copy loop of the second pass: each key of `keys` that the current connection has. */
  method CopyFromCurrent(kv: KeyValues, matched: set<Key>, keys: set<Key>, source: KeyValues)
    returns (completed: KeyValues, completedKeys: set<Key>)
    requires matched == kv.Keys
    requires keys !! kv.Keys
    ensures completed == kv + map k | k in keys && k in source :: source[k]
    ensures completedKeys == completed.Keys
  {
    completed, completedKeys := kv, matched;
    var rest := keys;
    while rest != {}
      invariant rest <= keys
      invariant completedKeys == completed.Keys
      invariant completed.Keys == kv.Keys + (keys - rest) * source.Keys
      invariant forall k :: k in completed ==> completed[k] == if k in kv then kv[k] else source[k]
      decreases rest
    {
      var k :| k in rest;
      var v := Get(source, k);
      if v.Some? {
        completed := completed[k := v.value];
        completedKeys := completedKeys + {k};
      }
      rest := rest - {k};
    }
  }

  /** The value check: None when every value is well formed, else the error for an offending key. */
  method CheckValues(kv: KeyValues, matched: set<Key>) returns (failure: Option<Error>)
    requires matched == kv.Keys
    ensures failure.None? <==> BadValues(kv) == {}
    ensures failure.Some? ==> Reports(failure.value, InvalidValues(BadValues(kv)))
  {
    var rest := matched;
    while rest != {}
      invariant rest <= kv.Keys
      invariant forall k :: k in kv && k !in rest ==> ValueOk(k, kv[k])
      decreases rest
    {
      var key :| key in rest;
      if key in SHOULD_BE_NULL_KEYS {
        if kv[key] != "" {
          assert key in BadValues(kv);
          return Some(MustBeEmpty(key));
        }
      } else if key !in SECRET_KEYS {
        if kv[key] == Placeholder(key) || kv[key] == "" {
          assert key in BadValues(kv);
          return Some(EmptyOrPlaceholder(key));
        }
      }
      rest := rest - {key};
    }
    assert BadValues(kv) == {} by {
      forall k | k in kv ensures ValueOk(k, kv[k]) { }
    }
    return None;
  }

  lemma {:induction false} UrlPartsAppend(combo: Combination, k: Key, kv: KeyValues)
    ensures UrlParts(combo + [k], kv) ==
      UrlParts(combo, kv) + (if k in EXCLUDE_FROM_URL_KEYS then [] else [UrlPart(k, ValueText(kv, k))])
    decreases |combo|
  {
    if combo == [] {
      assert [k][1..] == [];
    } else {
      assert (combo + [k])[1..] == combo[1..] + [k];
      UrlPartsAppend(combo[1..], k, kv);
    }
  }

  /** The bind URL loop: one `key('value')` per rendered key, joined by dots. */
  method RenderBindUrl(schema: string, combo: Combination, kv: KeyValues) returns (url: string)
    ensures url == BindUrl(schema, combo, kv)
  {
    var parts: seq<string> := [];
    for i := 0 to |combo|
      invariant parts == UrlParts(combo[..i], kv)
    {
      var key := combo[i];
      assert combo[..i + 1] == combo[..i] + [key];
      UrlPartsAppend(combo[..i], key, kv);
      if key !in EXCLUDE_FROM_URL_KEYS {
        parts := parts + [UrlPart(key, ValueText(kv, key))];
      }
    }
    assert combo[..|combo|] == combo;
    url := schema + "://" + Join(".", parts);
  }
}
