/**
 * Properties of the connection-string resolver that relate several of its
 * steps, and worked examples of whole resolutions.
 */
module ResolverProperties {
  import opened Errors
  import opened Strings
  import opened Resolver

  // ---------------------------------------------------------------------------
  // The covering combinations

  /** One combination is kept, once, exactly when it contains every given key. */
  lemma CoveringSingle(keys: set<Key>, c: Combination)
    ensures Covering(keys, [c]) == if keys <= KeySet(c) then [c] else []
  {
    assert [c][1..] == [];
  }

  /**
   * The covering combinations of a concatenation are those of each part, in
   * list order: with CoveringSingle this fixes the order and the repetitions
   * that the tie-break and the count of candidates depend on.
   */
  lemma {:induction false} CoveringAppend(keys: set<Key>, a: seq<Combination>, b: seq<Combination>)
    ensures Covering(keys, a + b) == Covering(keys, a) + Covering(keys, b)
    decreases |a|
  {
    if a == [] {
      assert a + b == b;
    } else {
      assert (a + b)[0] == a[0];
      assert (a + b)[1..] == a[1..] + b;
      CoveringAppend(keys, a[1..], b);
    }
  }

  // ---------------------------------------------------------------------------
  // Ambiguity and inheritance

  /**
   * When more than one combination covers the supplied keys and there is a
   * current connection, a supplied credential that the current connection
   * does not hold with the same value makes the resolution fail.
   */
  lemma ConflictingCredentialRejected(parsed: KeyValues, prior: KeyValues, mandatory: Key,
                                      combos: seq<Combination>, readText: string -> string, k: Key)
    requires var kv := WithPemFile(parsed, readText);
      && kv.Keys <= AllKeys(combos) && mandatory in kv
      && |Covering(kv.Keys, combos)| > 1
      && k in CREDENTIAL_KEYS && k in kv && Get(prior, k) != Some(kv[k])
    ensures Match(parsed, Some(prior), mandatory, combos, readText) == Err(CredentialConflict)
  {
    var kv := WithPemFile(parsed, readText);
    var merged := Inherit(kv, prior);
    assert merged[k] == kv[k];
    assert CredentialMismatch(merged, prior);
    assert Disambiguate(kv, Covering(kv.Keys, combos), Some(prior)) == Err(CredentialConflict);
  }

  /**
   * The second inheritance pass changes something only when both `cluster`
   * and `tenant` belong to the combination and both are missing.
   */
  lemma {:induction false} SecondPassNeedsBothMissing(kv: KeyValues, combo: Combination, prior: Option<KeyValues>)
    requires InheritBound(kv, combo, prior) != kv
    ensures CLUSTER in combo && TENANT in combo
    ensures CLUSTER !in kv && TENANT !in kv
  {
    var missing := MissingInheritable(kv, combo);
    assert |missing| > 1;
    assert missing <= {CLUSTER, TENANT};
    if CLUSTER !in missing {
      SubsetCardinality(missing, {TENANT});
    } else if TENANT !in missing {
      SubsetCardinality(missing, {CLUSTER});
    }
    assert CLUSTER in KeySet(combo) && TENANT in KeySet(combo);
  }

  /** With both inheritable keys missing, each is copied exactly when the current connection has it. */
  lemma SecondPassCopiesAvailable(kv: KeyValues, combo: Combination, prior: KeyValues)
    requires CLUSTER in combo && TENANT in combo && CLUSTER !in kv && TENANT !in kv
    ensures var r := InheritBound(kv, combo, Some(prior));
      forall k :: k in INHERITABLE_KEYS ==> (k in r <==> k in prior) && (k in r ==> r[k] == prior[k])
  {
    var missing := MissingInheritable(kv, combo);
    assert missing == {CLUSTER, TENANT};
  }

  // ---------------------------------------------------------------------------
  // What an accepted resolution satisfies

  /** After the key checks every key of the final key/values is in the selected combination. */
  lemma MatchedKeysInCombination(parsed: KeyValues, prior: Option<KeyValues>, mandatory: Key,
                                 combos: seq<Combination>, readText: string -> string)
    requires Match(parsed, prior, mandatory, combos, readText).Ok?
    ensures var m := Match(parsed, prior, mandatory, combos, readText).value;
      WithPemFile(parsed, readText).Keys <= m.kv.Keys <= KeySet(m.combo)
  {
  }

  /** Finishing keeps the key/values within the combination and the mandatory value as the database. */
  lemma FinishKeysInCombination(m: Matched, schema: string, mandatory: Key, prompt: string -> string)
    requires mandatory in m.kv && m.kv.Keys <= KeySet(m.combo)
    requires Finish(m, schema, mandatory, prompt).Ok?
    ensures var r := Finish(m, schema, mandatory, prompt).value;
      && r.kv.Keys <= KeySet(r.combo) && mandatory in r.kv
      && (mandatory !in SECRET_KEYS ==> r.databaseName == r.kv[mandatory])
  {
    var r := Finish(m, schema, mandatory, prompt).value;
    if r.prompts != [] {
      var s := SecretToPrompt(m.kv, m.combo).value;
      assert s in SECRET_KEYS * KeySet(m.combo);
    }
  }

  /** The final key/values of a whole resolution stay within the selected combination. */
  lemma ResolvedKeysInCombination(parsed: KeyValues, prior: Option<KeyValues>, schema: string, mandatory: Key,
                                  combos: seq<Combination>, readText: string -> string, prompt: string -> string)
    requires Resolve(parsed, prior, schema, mandatory, combos, readText, prompt).Ok?
    ensures var r := Resolve(parsed, prior, schema, mandatory, combos, readText, prompt).value;
      && r.kv.Keys <= KeySet(r.combo) && r.combo in combos && mandatory in r.kv
  {
    var m := Match(parsed, prior, mandatory, combos, readText).value;
    assert Resolve(parsed, prior, schema, mandatory, combos, readText, prompt) == Finish(m, schema, mandatory, prompt);
    FinishKeysInCombination(m, schema, mandatory, prompt);
  }

  /** The prompt: it is asked for exactly when the combination's only secret is absent or a placeholder. */
  lemma PromptExactlyWhenSecretMissing(kv: KeyValues, combo: Combination)
    ensures SecretToPrompt(kv, combo).Some? <==>
      exists s :: SECRET_KEYS * KeySet(combo) == {s} && (s !in kv || kv[s] == Placeholder(s))
  {
    var secrets := SECRET_KEYS * KeySet(combo);
    if exists s :: secrets == {s} && (s !in kv || kv[s] == Placeholder(s)) {
      var s :| secrets == {s} && (s !in kv || kv[s] == Placeholder(s));
      assert |secrets| == 1;
      assert s in secrets;
    }
  }

  // ---------------------------------------------------------------------------
  // The bind URL

  /** The rendered parts are exactly one `key('value')` per key of the combination not excluded. */
  lemma {:induction false} UrlPartsMembers(combo: Combination, kv: KeyValues)
    ensures forall p :: p in UrlParts(combo, kv) <==>
      exists k :: k in combo && k !in EXCLUDE_FROM_URL_KEYS && p == UrlPart(k, ValueText(kv, k))
  {
    if combo != [] {
      UrlPartsMembers(combo[1..], kv);
      forall p ensures p in UrlParts(combo, kv) <==>
        exists k :: k in combo && k !in EXCLUDE_FROM_URL_KEYS && p == UrlPart(k, ValueText(kv, k))
      {
        if exists k :: k in combo && k !in EXCLUDE_FROM_URL_KEYS && p == UrlPart(k, ValueText(kv, k)) {
          var k :| k in combo && k !in EXCLUDE_FROM_URL_KEYS && p == UrlPart(k, ValueText(kv, k));
          if k != combo[0] {
            assert k in combo[1..];
          }
        }
        if p in UrlParts(combo[1..], kv) {
          var k :| k in combo[1..] && k !in EXCLUDE_FROM_URL_KEYS && p == UrlPart(k, ValueText(kv, k));
          assert k in combo;
        }
      }
    }
  }

  /** The values of `database` and `alias` never reach the bind URL. */
  lemma {:induction false} BindUrlIgnoresExcluded(schema: string, combo: Combination, kv1: KeyValues, kv2: KeyValues)
    requires forall k :: k in combo && k !in EXCLUDE_FROM_URL_KEYS ==> ValueText(kv1, k) == ValueText(kv2, k)
    ensures BindUrl(schema, combo, kv1) == BindUrl(schema, combo, kv2)
  {
    UrlPartsAgree(combo, kv1, kv2);
  }

  lemma {:induction false} UrlPartsAgree(combo: Combination, kv1: KeyValues, kv2: KeyValues)
    requires forall k :: k in combo && k !in EXCLUDE_FROM_URL_KEYS ==> ValueText(kv1, k) == ValueText(kv2, k)
    ensures UrlParts(combo, kv1) == UrlParts(combo, kv2)
  {
    if combo != [] {
      assert forall k :: k in combo[1..] ==> k in combo;
      UrlPartsAgree(combo[1..], kv1, kv2);
    }
  }

  /** A secret obtained from the prompt is rendered into the bind URL. */
  lemma PromptedSecretInBindUrl(m: Matched, schema: string, mandatory: Key, prompt: string -> string)
    requires mandatory in m.kv
    requires Finish(m, schema, mandatory, prompt).Ok?
    requires Finish(m, schema, mandatory, prompt).value.prompts != []
    ensures var r := Finish(m, schema, mandatory, prompt).value;
      var s := SecretToPrompt(m.kv, m.combo).value;
      UrlPart(s, prompt(r.prompts[0])) in UrlParts(m.combo, r.kv)
  {
    var r := Finish(m, schema, mandatory, prompt).value;
    var s := SecretToPrompt(m.kv, m.combo).value;
    assert s in SECRET_KEYS * KeySet(m.combo);
    assert s in m.combo && s !in EXCLUDE_FROM_URL_KEYS;
    assert ValueText(r.kv, s) == prompt(r.prompts[0]);
    UrlPartsMembers(m.combo, r.kv);
  }

  // ---------------------------------------------------------------------------
  // Worked examples: schema "foo", mandatory key `database`

  const EXAMPLE_COMBOS: seq<Combination> :=
    [[CLUSTER, DATABASE, TENANT, CLIENTID, CERTIFICATE], [CLUSTER, DATABASE, USERNAME, PASSWORD]]

  /** The second example combination, the one a user name selects. */
  const USER_COMBO: Combination := [CLUSTER, DATABASE, USERNAME, PASSWORD]

  lemma ExampleCombos()
    ensures EXAMPLE_COMBOS[1] == USER_COMBO
    ensures USERNAME !in KeySet(EXAMPLE_COMBOS[0])
    ensures KeySet(USER_COMBO) == {CLUSTER, DATABASE, USERNAME, PASSWORD}
    ensures KeySet(USER_COMBO) <= AllKeys(EXAMPLE_COMBOS)
    ensures SECRET_KEYS * KeySet(USER_COMBO) == {PASSWORD}
    ensures CLIENTID !in USER_COMBO
  {
    assert USER_COMBO[2] == USERNAME;
  }

  /** A key set with a user name, within the second combination, is covered by it alone. */
  lemma ExampleSelection(kv: KeyValues)
    requires USERNAME in kv && kv.Keys <= KeySet(USER_COMBO) && CERTIFICATE_PEM_FILE !in kv
    ensures forall readText :: WithPemFile(kv, readText) == kv
    ensures kv.Keys <= AllKeys(EXAMPLE_COMBOS)
    ensures Covering(kv.Keys, EXAMPLE_COMBOS) == [USER_COMBO]
    ensures Select(Covering(kv.Keys, [USER_COMBO])) == Ok(USER_COMBO)
  {
    ExampleCombos();
    assert Covering(kv.Keys, EXAMPLE_COMBOS[2..]) == [];
    assert EXAMPLE_COMBOS[1..] == [USER_COMBO];
    assert Covering(kv.Keys, [USER_COMBO]) == [USER_COMBO] by {
      assert [USER_COMBO][1..] == [];
    }
  }

  /** Without a current connection, the key checks of such a key set reduce to the final checks. */
  lemma ExampleMatch(kv: KeyValues, readText: string -> string)
    requires USERNAME in kv && DATABASE in kv && kv.Keys <= KeySet(USER_COMBO) && CERTIFICATE_PEM_FILE !in kv
    ensures Match(kv, None, DATABASE, EXAMPLE_COMBOS, readText) == CheckKeys(kv, USER_COMBO)
  {
    ExampleSelection(kv);
    assert Disambiguate(kv, [USER_COMBO], None) == Ok(kv);
    assert InheritBound(kv, USER_COMBO, None) == kv;
  }

  /**
   * `foo://database('d1').username('u').password('p')` without a current
   * connection: only the second combination covers the keys, only `cluster`
   * of the inheritable keys is missing, so nothing is inherited and the
   * resolution fails naming `cluster`.
   */
  lemma ExampleWithoutClusterFails(readText: string -> string)
    ensures Match(map[DATABASE := "d1", USERNAME := "u", PASSWORD := "p"], None, DATABASE,
                  EXAMPLE_COMBOS, readText) == Err(MissingKeys({CLUSTER}))
  {
    var kv := map[DATABASE := "d1", USERNAME := "u", PASSWORD := "p"];
    assert kv.Keys == {DATABASE, USERNAME, PASSWORD};
    ExampleCombos();
    ExampleMatch(kv, readText);
    ExampleMissingCluster(kv);
  }

  lemma ExampleMissingCluster(kv: KeyValues)
    requires kv.Keys == {DATABASE, USERNAME, PASSWORD}
    ensures CheckKeys(kv, USER_COMBO) == Err(MissingKeys({CLUSTER}))
  {
    ExampleCombos();
    assert MissingRequired(kv, USER_COMBO) == {CLUSTER};
  }

  /** The checks pass for `cluster`, `database` and `username` with plain values, with or without a password. */
  lemma ExampleChecksPass(kv: KeyValues)
    requires kv.Keys == {CLUSTER, DATABASE, USERNAME} || kv.Keys == {CLUSTER, DATABASE, USERNAME, PASSWORD}
    requires kv[CLUSTER] == "c" && kv[DATABASE] == "d1" && kv[USERNAME] == "u"
    ensures CheckKeys(kv, USER_COMBO) == Ok(Matched(kv, USER_COMBO))
  {
    ExampleCombos();
    assert MissingRequired(kv, USER_COMBO) == {};
    assert BadValues(kv) == {} by {
      forall k | k in kv ensures ValueOk(k, kv[k]) {
        assert k in SECRET_KEYS || kv[k] in {"c", "d1", "u"};
      }
    }
  }

  /** The bind URL of the second combination: `database` is left out. */
  lemma ExampleBindUrl(kv: KeyValues)
    requires CLUSTER in kv && USERNAME in kv && PASSWORD in kv
    ensures BindUrl("foo", USER_COMBO, kv) ==
      "foo://" + UrlPart(CLUSTER, kv[CLUSTER]) + "." + UrlPart(USERNAME, kv[USERNAME]) + "." + UrlPart(PASSWORD, kv[PASSWORD])
  {
    var a, b, c := UrlPart(CLUSTER, kv[CLUSTER]), UrlPart(USERNAME, kv[USERNAME]), UrlPart(PASSWORD, kv[PASSWORD]);
    assert UrlParts([PASSWORD], kv) == [c] by {
      assert [PASSWORD][1..] == [];
    }
    assert UrlParts([USERNAME, PASSWORD], kv) == [b, c] by {
      assert [USERNAME, PASSWORD][1..] == [PASSWORD];
    }
    assert UrlParts([DATABASE, USERNAME, PASSWORD], kv) == [b, c] by {
      assert [DATABASE, USERNAME, PASSWORD][1..] == [USERNAME, PASSWORD];
    }
    assert UrlParts(USER_COMBO, kv) == [a, b, c] by {
      assert USER_COMBO[1..] == [DATABASE, USERNAME, PASSWORD];
    }
    assert Join(".", [b, c]) == b + "." + c by {
      assert [b, c][1..] == [c];
    }
    assert Join(".", [a, b, c]) == a + "." + b + "." + c by {
      assert [a, b, c][1..] == [b, c];
    }
  }

  lemma ExampleUrlText()
    ensures "foo://" + UrlPart(CLUSTER, "c") + "." + UrlPart(USERNAME, "u") + "." + UrlPart(PASSWORD, "p")
      == "foo://cluster('c').username('u').password('p')"
  {
    ExamplePromptedUrlText("p");
  }

  lemma ExamplePromptedUrlText(secret: string)
    ensures "foo://" + UrlPart(CLUSTER, "c") + "." + UrlPart(USERNAME, "u") + "." + UrlPart(PASSWORD, secret)
      == "foo://cluster('c').username('u').password('" + secret + "')"
  {
    ExampleUrlHead();
    ExamplePasswordPart(secret);
  }

  lemma ExampleUrlHead()
    ensures "foo://" + UrlPart(CLUSTER, "c") + "." + UrlPart(USERNAME, "u") + "." == "foo://cluster('c').username('u')."
  {
  }

  lemma ExamplePasswordPart(secret: string)
    ensures UrlPart(PASSWORD, secret) == "password('" + secret + "')"
  {
  }

  /** The password is asked for exactly when it is absent or the placeholder `<password>`. */
  lemma ExampleSecret(kv: KeyValues)
    ensures PASSWORD !in kv || kv[PASSWORD] == Placeholder(PASSWORD) ==> SecretToPrompt(kv, USER_COMBO) == Some(PASSWORD)
    ensures PASSWORD in kv && kv[PASSWORD] != Placeholder(PASSWORD) ==> SecretToPrompt(kv, USER_COMBO) == None
  {
    ExampleCombos();
    assert |SECRET_KEYS * KeySet(USER_COMBO)| == 1;
  }

  lemma ExampleConnName()
    ensures ConnName(Some("d1"), Some("c"), None) == Ok("d1@c")
  {
    assert "d1" != "" && "c" != "";
    assert "d1" + "@" + "c" == "d1@c";
  }

  /** Finishing the example without a password: one prompt, named after `d1@c`. */
  lemma ExampleFinishPrompted(kv: KeyValues, prompt: string -> string)
    requires kv.Keys == {CLUSTER, DATABASE, USERNAME}
    requires kv[CLUSTER] == "c" && kv[DATABASE] == "d1"
    ensures var message := PromptMessage("d1@c", PASSWORD);
      var final := kv[PASSWORD := prompt(message)];
      Finish(Matched(kv, USER_COMBO), "foo", DATABASE, prompt) ==
      Ok(Resolved(final, USER_COMBO, "c", "d1", None, [message], BindUrl("foo", USER_COMBO, final)))
  {
    ExampleCombos();
    ExampleSecret(kv);
    assert ALIAS !in kv;
    ExampleConnName();
  }

  /** Whole resolutions of the example key sets: the key checks, then Finish. */
  lemma ExampleResolve(kv: KeyValues, readText: string -> string, prompt: string -> string)
    requires kv.Keys == {CLUSTER, DATABASE, USERNAME} || kv.Keys == {CLUSTER, DATABASE, USERNAME, PASSWORD}
    requires kv[CLUSTER] == "c" && kv[DATABASE] == "d1" && kv[USERNAME] == "u"
    ensures Resolve(kv, None, "foo", DATABASE, EXAMPLE_COMBOS, readText, prompt) ==
      Finish(Matched(kv, USER_COMBO), "foo", DATABASE, prompt)
  {
    ExampleCombos();
    ExampleMatch(kv, readText);
    ExampleChecksPass(kv);
  }

  /** Finishing the example with a password: no prompt, the values unchanged. */
  lemma ExampleFinishDirect(kv: KeyValues, prompt: string -> string)
    requires kv.Keys == {CLUSTER, DATABASE, USERNAME, PASSWORD}
    requires kv[CLUSTER] == "c" && kv[DATABASE] == "d1" && kv[PASSWORD] == "p"
    ensures Finish(Matched(kv, USER_COMBO), "foo", DATABASE, prompt) ==
      Ok(Resolved(kv, USER_COMBO, "c", "d1", None, [], BindUrl("foo", USER_COMBO, kv)))
  {
    ExampleCombos();
    ExampleSecret(kv);
    assert ALIAS !in kv;
  }

  /** With `cluster('c')` added the same string resolves, with no prompt. */
  lemma ExampleWithClusterResolves(readText: string -> string, prompt: string -> string)
    ensures var kv := map[CLUSTER := "c", DATABASE := "d1", USERNAME := "u", PASSWORD := "p"];
      Resolve(kv, None, "foo", DATABASE, EXAMPLE_COMBOS, readText, prompt) ==
      Ok(Resolved(kv, USER_COMBO, "c", "d1", None, [], "foo://cluster('c').username('u').password('p')"))
  {
    var kv := map[CLUSTER := "c", DATABASE := "d1", USERNAME := "u", PASSWORD := "p"];
    ExampleCombos();
    assert kv.Keys == {CLUSTER, DATABASE, USERNAME, PASSWORD};
    ExampleResolve(kv, readText, prompt);
    ExampleFinishDirect(kv, prompt);
    ExampleBindUrl(kv);
    ExampleUrlText();
  }

  /** Without the password, the user is prompted once and the answer is rendered into the bind URL. */
  lemma ExamplePromptsForPassword(readText: string -> string, prompt: string -> string)
    ensures var kv := map[CLUSTER := "c", DATABASE := "d1", USERNAME := "u"];
      var message := PromptMessage("d1@c", PASSWORD);
      Resolve(kv, None, "foo", DATABASE, EXAMPLE_COMBOS, readText, prompt) ==
      Ok(Resolved(kv[PASSWORD := prompt(message)], USER_COMBO, "c", "d1", None, [message],
                  "foo://cluster('c').username('u').password('" + prompt(message) + "')"))
  {
    var kv := map[CLUSTER := "c", DATABASE := "d1", USERNAME := "u"];
    var message := PromptMessage("d1@c", PASSWORD);
    ExampleCombos();
    assert kv.Keys == {CLUSTER, DATABASE, USERNAME};
    ExampleResolve(kv, readText, prompt);
    ExampleFinishPrompted(kv, prompt);
    var final := kv[PASSWORD := prompt(message)];
    ExampleBindUrl(final);
    ExamplePromptedUrlText(prompt(message));
  }
}
