/**
 * Properties of the connection registry that relate several of its
 * operations: the schema lookup, the `database@cluster` shortcut and its
 * error rules, registration followed by selection, and the listings.
 */
module ConnectionProperties {
  import opened Errors
  import opened Strings
  import opened Resolver
  import opened Connections

  // ---------------------------------------------------------------------------
  // Engine lookup

  /** The schema is the text before the first `://`; it is looked up normalized. */
  lemma FindEngineSplitsAtFirst(p: string, rest: string, engineMap: map<string, EngineClass>)
    requires !Contains(p, "://")
    ensures FindEngine(Some(p + "://" + rest), engineMap) == Get(engineMap, Normalize(p))
  {
    var s := p + "://" + rest;
    assert OccursAt(s, "://", |p|) by {
      assert s[|p|..|p| + 3] == "://";
    }
    forall j | 0 <= j < |p| ensures !OccursAt(s, "://", j) {
      if j + 3 <= |p| {
        // wholly inside p, where the pattern does not occur
        assert s[j..j + 3] == p[j..j + 3];
        assert !OccursAt(p, "://", j);
      } else if j + 2 == |p| {
        // the pattern would need '/' where the separator starts with ':'
        assert s[j..j + 3][2] == s[|p|] == ':';
      } else {
        assert s[j..j + 3][1] == s[|p|] == ':';
      }
    }
    assert IndexOf(s, "://", 0) == Some(|p|);
    assert s[..|p|] == p;
  }

  lemma {:induction false} LowerOfLower(s: string)
    requires forall c :: c in s ==> !('A' <= c <= 'Z')
    ensures Lower(s) == s
  {
    forall i | 0 <= i < |s| ensures Lower(s)[i] == s[i] {
      assert s[i] in s;
    }
  }

  /** Normalizing twice is normalizing once: a normalized schema looks itself up. */
  lemma NormalizeIdempotent(schema: string)
    ensures Normalize(Normalize(schema)) == Normalize(schema)
  {
    var r := Normalize(schema);
    LowerOfLower(r);
  }

  /** Normalizing works piece by piece: the order and repetitions of the kept characters are preserved. */
  lemma {:induction false} NormalizeAppend(a: string, b: string)
    ensures Normalize(a + b) == Normalize(a) + Normalize(b)
  {
    LowerAppend(a, b);
    RemoveAppend(Lower(a), Lower(b), '_');
    RemoveAppend(Remove(Lower(a), '_'), Remove(Lower(b), '_'), '-');
  }

  /** One character is dropped when it is `_` or `-`, and lower-cased otherwise. */
  lemma {:induction false} NormalizeChar(c: char)
    ensures Normalize([c]) == if c == '_' || c == '-' then "" else [LowerChar(c)]
  {
    assert Lower([c]) == [LowerChar(c)];
    var l := LowerChar(c);
    assert [l][1..] == [];
    assert Remove([l][1..], '_') == "" && Remove([l][1..], '-') == "";
  }

  /** The empty schema normalizes to itself. */
  lemma NormalizeEmpty()
    ensures Normalize("") == ""
  {
    assert Lower("") == "";
  }

  /** A schema that is already lower case, without `_` and `-`, is looked up as written. */
  lemma NormalizeKeepsNormalized(schema: string)
    requires forall c :: c in schema ==> !('A' <= c <= 'Z') && c != '_' && c != '-'
    ensures Normalize(schema) == schema
  {
    LowerOfLower(schema);
  }

  /** The lookup does not distinguish upper from lower case. */
  lemma NormalizeIgnoresCase(schema: string)
    ensures Normalize(Lower(schema)) == Normalize(schema)
  {
    var lower := Lower(schema);
    assert Lower(lower) == lower by {
      forall i | 0 <= i < |lower| ensures Lower(lower)[i] == lower[i] { }
    }
  }

  // ---------------------------------------------------------------------------
  // The `database@cluster` shortcut

  lemma SplitAtOnly(d: string, c: string)
    requires '@' !in d && '@' !in c
    ensures Split(d + "@" + c, '@') == [d, c]
  {
    var s := d + "@" + c;
    assert s[|d|] == '@';
    assert '@' in s;
    var i := FirstIndex(s, '@');
    forall j | 0 <= j < |d| ensures s[j] != '@' {
      assert s[j] == d[j] && d[j] in d;
    }
    assert forall j :: 0 <= j < i ==> s[..i][j] != '@';
    assert i == |d|;
    assert s[..i] == d;
    assert s[i + 1..] == c;
  }

  /** A string `d@c` without `://` is the shortcut for database `d` on cluster `c`. */
  lemma RouteOfDatabaseAtCluster(d: string, c: string, engineMap: map<string, EngineClass>)
    requires '@' !in d && '@' !in c
    requires !Contains(d + "@" + c, "://")
    ensures RouteOf(d + "@" + c, engineMap) == Ok(KustoDatabase(d, c))
  {
    var s := d + "@" + c;
    assert s[|d|] == '@';
    SplitAtOnly(d, c);
  }

  /** Conversely, a shortcut route names the two halves around the only `@`. */
  lemma RouteOfDatabaseSplits(s: string, engineMap: map<string, EngineClass>)
    requires RouteOf(s, engineMap).Ok? && RouteOf(s, engineMap).value.KustoDatabase?
    ensures var r := RouteOf(s, engineMap).value;
      && s == r.database + "@" + r.cluster
      && '@' !in r.database && '@' !in r.cluster
  {
    var parts := Split(s, '@');
    assert |parts| == 2;
    assert parts[1..] == [parts[1]];
    assert Join("@", parts) == parts[0] + "@" + parts[1];
  }

  /** The shortcut cannot name a schema as its cluster; the connections are left as they were. */
  lemma DatabaseAtSchemaRejected(reg: Registry, engineMap: map<string, EngineClass>, d: string, c: string,
                                 build: EngineRequest -> Result<Engine>)
    requires '@' !in d && '@' !in c && !Contains(d + "@" + c, "://")
    requires c in engineMap
    ensures ConnectStep(reg, engineMap, d + "@" + c, build) == Step(reg, Fail(DatabaseAtClusterForSchema))
  {
    RouteOfDatabaseAtCluster(d, c, engineMap);
  }

  /** The shortcut needs an earlier connection to the cluster, registered as `@cluster`. */
  lemma DatabaseWithoutClusterRejected(reg: Registry, engineMap: map<string, EngineClass>, d: string, c: string,
                                       build: EngineRequest -> Result<Engine>)
    requires '@' !in d && '@' !in c && !Contains(d + "@" + c, "://")
    requires c !in engineMap && "@" + c !in reg.connections
    ensures ConnectStep(reg, engineMap, d + "@" + c, build) == Step(reg, Fail(NoClusterConnection))
  {
    RouteOfDatabaseAtCluster(d, c, engineMap);
  }

  /** With the cluster connection present, the shortcut builds the database engine and makes it current. */
  lemma DatabaseAtKnownCluster(reg: Registry, engineMap: map<string, EngineClass>, d: string, c: string,
                               build: EngineRequest -> Result<Engine>)
    requires '@' !in d && '@' !in c && !Contains(d + "@" + c, "://")
    requires c !in engineMap && "@" + c in reg.connections
    requires build(FromDetails(d, c, None)).Ok?
    ensures var e := build(FromDetails(d, c, None)).value;
      ConnectStep(reg, engineMap, d + "@" + c, build) == SetCurrentStep(reg, e, None)
  {
    RouteOfDatabaseAtCluster(d, c, engineMap);
  }

  // ---------------------------------------------------------------------------
  // Registration and selection

  /** An engine registered under a name is selected again by that name, without a new connection. */
  lemma RegisteredThenSelected(reg: Registry, e: Engine, connName: Option<string>,
                               engineMap: map<string, EngineClass>, build: EngineRequest -> Result<Engine>)
    requires e.bindUrl !in reg.connections
    requires RegisteredName(e, connName).Ok? && RegisteredName(e, connName).value != ""
    ensures var registered := SetCurrentStep(reg, e, connName).reg;
      var r := GetConnectionStep(registered, engineMap, Some(RegisteredName(e, connName).value), build);
      && r.result == Ok(e)
      && r.reg.connections == registered.connections
      && r.reg.lastByEngine == reg.lastByEngine[e.kind := e]
  {
    SetCurrentRegistersNew(reg, e, connName);
  }

  /** Selecting a registered engine twice is selecting it once. */
  lemma SelectIdempotent(reg: Registry, engineMap: map<string, EngineClass>, d: string,
                         build: EngineRequest -> Result<Engine>)
    requires d != "" && d in reg.connections
    ensures var once := GetConnectionStep(reg, engineMap, Some(d), build);
      GetConnectionStep(once.reg, engineMap, Some(d), build) == once
  {
    var once := GetConnectionStep(reg, engineMap, Some(d), build);
    var e := reg.connections[d];
    assert once.reg == reg.(current := Some(e), lastByEngine := reg.lastByEngine[e.kind := e]);
  }

  // ---------------------------------------------------------------------------
  // Listings

  /** The listing is the one sorted sequence of the displayed names. */
  lemma ConnectionListUnique(connections: map<string, Engine>, r: seq<string>)
    requires StrictlySorted(r)
    requires forall k :: k in r <==> k in connections && !StartsWith(k, "@") && connections[k].bindUrl != k
    ensures r == ConnectionList(connections)
  {
    StrictlySortedUnique(r, ConnectionList(connections));
  }

  /** A new engine registered under a plain name (not `@...`, not its bind URL) is listed under it. */
  lemma RegisteredNameListed(reg: Registry, e: Engine, connName: Option<string>)
    requires e.bindUrl !in reg.connections
    requires RegisteredName(e, connName).Ok?
    requires var n := RegisteredName(e, connName).value; !StartsWith(n, "@") && n != e.bindUrl
    ensures RegisteredName(e, connName).value in ConnectionList(SetCurrentStep(reg, e, connName).reg.connections)
  {
    SetCurrentRegistersNew(reg, e, connName);
  }

  /** The bind-URL entries and the `@cluster` entries are never listed. */
  lemma BindUrlAndClusterEntriesHidden(reg: Registry, e: Engine, connName: Option<string>)
    requires e.bindUrl !in reg.connections
    requires RegisteredName(e, connName).Ok? && RegisteredName(e, connName).value != e.bindUrl
    ensures var r := SetCurrentStep(reg, e, connName).reg;
      && e.bindUrl !in ConnectionList(r.connections)
      && (StartsWith(RegisteredName(e, connName).value, "@") ==>
            RegisteredName(e, connName).value !in ConnectionList(r.connections))
  {
    SetCurrentRegistersNew(reg, e, connName);
  }
}
