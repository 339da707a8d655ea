/**
 * The connection registry (class Connection): the engine lookup by URI
 * schema, the dispatch of a connection string to an engine, the registration
 * of engines under their names and bind URLs, and the listings.
 *
 * An engine is represented in the registry by the record of the fields the
 * registry reads. The engine constructors are not part of this model: they
 * are the parameter `build`, which maps a construction request to an engine
 * or a failure.
 */
module Connections {
  import opened Errors
  import opened Strings
  import opened Resolver
  import opened Kql

  /** The engine classes that the schema names map to. */
  datatype EngineClass = KustoEngine | AppinsightsEngine | LoganalyticsEngine | CacheEngine

  datatype Engine = Engine(kind: EngineClass, bindUrl: string, database: Option<string>,
                           cluster: Option<string>, alias: Option<string>)

  /** A call of an engine constructor. */
  datatype EngineRequest =
    // an engine class built from a connection string and the last current engine of its class
    | FromConnectionString(kind: EngineClass, connectStr: string, last: Option<Engine>)
    // a Kusto engine built from the database, cluster and alias of a database@cluster connection
    | FromDetails(database: string, cluster: string, alias: Option<string>)

  /** `get_conn_name` of an engine. */
  function ConnNameOf(e: Engine): (r: Result<string>)
    ensures r.Ok? <==> Truthy(e.database) && Truthy(e.cluster)
  {
    ConnName(e.database, e.cluster, e.alias)
  }

  /** `a == b` on engines (KqlEngine.__eq__). */
  function Same(a: Engine, b: Engine): (r: bool)
    ensures r <==> a.bindUrl != "" && a.bindUrl == b.bindUrl
  {
    SameBinding(Some(a.bindUrl), Some(b.bindUrl))
  }

  // ---------------------------------------------------------------------------
  // Engine lookup

  /** The schema as looked up: lower case, without `_` and `-`. */
  function Normalize(schema: string): (r: string)
    ensures '_' !in r && '-' !in r
    ensures forall c :: c in r ==> !('A' <= c <= 'Z')
    ensures forall c :: c in r ==> exists d :: d in schema && c == LowerChar(d)
    ensures forall d :: d in schema && d != '_' && d != '-' ==> LowerChar(d) in r
  {
    var lower := Lower(schema);
    forall d | d in schema && d != '_' && d != '-' ensures LowerChar(d) in Remove(Remove(lower, '_'), '-') {
      var i :| 0 <= i < |schema| && schema[i] == d;
      assert lower[i] == LowerChar(d) && lower[i] in lower;
    }
    assert forall c :: c in lower ==> exists d :: d in schema && c == LowerChar(d) by {
      forall c | c in lower ensures exists d :: d in schema && c == LowerChar(d) {
        var i :| 0 <= i < |lower| && lower[i] == c;
        assert schema[i] in schema;
      }
    }
    Remove(Remove(lower, '_'), '-')
  }

  /**
   * `_find_engine`: the engine class of the schema before the first `://`,
   * or None when there is no string, no `://` or no such schema.
   */
  function FindEngine(connectStr: Option<string>, engineMap: map<string, EngineClass>): (r: Option<EngineClass>)
    ensures connectStr.None? ==> r.None?
    ensures connectStr.Some? && !Contains(connectStr.value, "://") ==> r.None?
    ensures r.Some? ==> r.value in engineMap.Values
  {
    match connectStr
    case None => None
    case Some(s) =>
      match IndexOf(s, "://", 0)
      case None => None
      case Some(i) => Get(engineMap, Normalize(s[..i]))
  }

  /** How `__init__` builds the engine of a connection string. */
  datatype Route =
    // a non-Kusto engine, built from the string itself
    | Direct(kind: EngineClass)
    // a Kusto cluster connection string, registered first as "@cluster"
    | KustoCluster
    // the `database@cluster` shortcut
    | KustoDatabase(database: string, cluster: string)

  /** The dispatch of `__init__`, before anything is built. */
  function RouteOf(s: string, engineMap: map<string, EngineClass>): (r: Result<Route>)
    ensures r.Err? ==> r.error == UnknownSchema || r.error == UnpackError
    ensures r == Err(UnknownSchema) <==> FindEngine(Some(s), engineMap).None? && '@' !in s
    ensures r.Ok? && r.value.Direct? ==> r.value.kind != KustoEngine && FindEngine(Some(s), engineMap) == Some(r.value.kind)
    ensures r.Ok? && r.value.KustoDatabase? ==> !Contains(s, "://")
    ensures var found := FindEngine(Some(s), engineMap);
      found.Some? && found.value != KustoEngine ==> r == Ok(Direct(found.value))
    ensures var found := FindEngine(Some(s), engineMap);
      r == Ok(KustoCluster) <==> Contains(s, "://") && (found == Some(KustoEngine) || (found.None? && '@' in s))
    ensures !Contains(s, "://") && '@' in s && |Split(s, '@')| != 2 ==> r == Err(UnpackError)
  {
    var found := FindEngine(Some(s), engineMap);
    if found.None? && '@' !in s then Err(UnknownSchema)
    else
      var kind := if found.Some? then found.value else KustoEngine;
      if kind != KustoEngine then Ok(Direct(kind))
      else if Contains(s, "://") then Ok(KustoCluster)
      else
        var parts := Split(s, '@');
        if |parts| != 2 then Err(UnpackError) else Ok(KustoDatabase(parts[0], parts[1]))
  }

  /** The error rules of the `database@cluster` shortcut, then the construction. */
  function KustoDatabaseEngine(database: string, cluster: string, alias: Option<string>,
                               connections: map<string, Engine>, engineMap: map<string, EngineClass>,
                               build: EngineRequest -> Result<Engine>): (r: Result<Engine>)
    ensures cluster in engineMap ==> r == Err(DatabaseAtClusterForSchema)
    ensures cluster !in engineMap && "@" + cluster !in connections ==> r == Err(NoClusterConnection)
    ensures cluster !in engineMap && "@" + cluster in connections ==>
      r == build(FromDetails(database, cluster, alias))
  {
    if cluster in engineMap then Err(DatabaseAtClusterForSchema)
    else if "@" + cluster !in connections then Err(NoClusterConnection)
    else build(FromDetails(database, cluster, alias))
  }

  // ---------------------------------------------------------------------------
  // The registry as a value, and the steps that change it

  datatype Registry = Registry(current: Option<Engine>, connections: map<string, Engine>,
                               lastByEngine: map<EngineClass, Engine>)

  /**
   * What the registry keeps true: every registered engine is also registered
   * under its bind URL, and nothing is registered before a current engine is set.
   */
  predicate Consistent(reg: Registry) {
    && (forall k {:trigger reg.connections[k]} :: k in reg.connections ==> reg.connections[k].bindUrl in reg.connections)
    && (reg.current.None? ==> reg.connections == map[])
  }

  datatype Step = Step(reg: Registry, outcome: Outcome)

  /** The name under which a new engine is registered: `conn_name or conn_engine.get_conn_name()`. */
  function RegisteredName(e: Engine, connName: Option<string>): (r: Result<string>)
    ensures Truthy(connName) ==> r == Ok(connName.value)
    ensures !Truthy(connName) ==> r == ConnNameOf(e)
    ensures r.Ok? ==> r.value != ""
    ensures r.Err? ==> r.error == ConnNameUndefined
  {
    if Truthy(connName) then Ok(connName.value) else ConnNameOf(e)
  }

  /**
   * `_set_current`: an engine whose bind URL is registered is replaced by the
   * registered one; a new engine is registered under its name and its bind URL.
   */
  function SetCurrentStep(reg: Registry, e: Engine, connName: Option<string>): (r: Step)
    ensures r.reg.lastByEngine == reg.lastByEngine
    ensures reg.connections.Keys <= r.reg.connections.Keys
    ensures r.outcome.Pass? ==> e.bindUrl in r.reg.connections && r.reg.current == Some(r.reg.connections[e.bindUrl])
    ensures r.outcome.Fail? <==> e.bindUrl !in reg.connections && !Truthy(connName) && ConnNameOf(e).Err?
    ensures r.outcome.Fail? ==>
      (r.outcome.error == ConnNameUndefined && r.reg.current == Some(e) && r.reg.connections == reg.connections)
    ensures e.bindUrl in reg.connections ==> r.reg.connections == reg.connections
    ensures r.reg.current.Some?
    ensures Consistent(reg) ==> Consistent(r.reg)
  {
    if e.bindUrl in reg.connections then
      Step(reg.(current := Some(reg.connections[e.bindUrl])), Pass)
    else
      match RegisteredName(e, connName)
      case Err(err) => Step(reg.(current := Some(e)), Fail(err))
      case Ok(n) =>
        Step(reg.(current := Some(e), connections := reg.connections[n := e][e.bindUrl := e]), Pass)
  }

  /** Registering changes the entries under the name and the bind URL, and no other. */
  lemma SetCurrentChangesOnlyItsKeys(reg: Registry, e: Engine, connName: Option<string>, k: string)
    requires k in reg.connections
    requires RegisteredName(e, connName).Ok? ==> k != RegisteredName(e, connName).value
    requires k != e.bindUrl
    ensures k in SetCurrentStep(reg, e, connName).reg.connections
    ensures SetCurrentStep(reg, e, connName).reg.connections[k] == reg.connections[k]
  {
  }

  /** A new engine that can be named is registered under both keys. */
  lemma SetCurrentRegistersNew(reg: Registry, e: Engine, connName: Option<string>)
    requires e.bindUrl !in reg.connections
    requires RegisteredName(e, connName).Ok?
    ensures var r := SetCurrentStep(reg, e, connName);
      && r.outcome == Pass && r.reg.current == Some(e)
      && r.reg.connections.Keys == reg.connections.Keys + {RegisteredName(e, connName).value, e.bindUrl}
      && r.reg.connections[RegisteredName(e, connName).value] == e
  {
  }

  /** The database engine of `database@cluster`, made current. */
  function DatabaseStep(reg: Registry, engineMap: map<string, EngineClass>, database: string, cluster: string,
                        alias: Option<string>, build: EngineRequest -> Result<Engine>): (r: Step)
    ensures var built := KustoDatabaseEngine(database, cluster, alias, reg.connections, engineMap, build);
      && (built.Err? ==> r == Step(reg, Fail(built.error)))
      && (built.Ok? ==> r == SetCurrentStep(reg, built.value, None))
    ensures r.outcome.Pass? ==> r.reg.current.Some?
    ensures reg.connections.Keys <= r.reg.connections.Keys
    ensures r.reg.lastByEngine == reg.lastByEngine
    ensures Consistent(reg) ==> Consistent(r.reg)
  {
    match KustoDatabaseEngine(database, cluster, alias, reg.connections, engineMap, build)
    case Err(err) => Step(reg, Fail(err))
    case Ok(e) => SetCurrentStep(reg, e, None)
  }

  /** The previous Kusto engine's cluster connection (`"@" + last.get_cluster()`), if there was one. */
  function PriorClusterConnection(last: Option<Engine>, connections: map<string, Engine>): (r: Result<Option<Engine>>)
    ensures last.None? ==> r == Ok(None)
    ensures last.Some? && !Truthy(last.value.cluster) ==> r == Err(ClusterUndefined)
    ensures last.Some? && Truthy(last.value.cluster) ==> r == Ok(Get(connections, "@" + last.value.cluster.value))
  {
    match last
    case None => Ok(None)
    case Some(e) =>
      match Defined(e.cluster, ClusterUndefined)
      case Err(err) => Err(err)
      case Ok(cluster) => Ok(Get(connections, "@" + cluster))
  }

  /** A Kusto cluster connection string: the cluster engine is registered as "@cluster", then its database. */
  function ClusterStep(reg: Registry, engineMap: map<string, EngineClass>, s: string,
                       build: EngineRequest -> Result<Engine>): (r: Step)
    ensures var prior := PriorClusterConnection(Get(reg.lastByEngine, KustoEngine), reg.connections);
      prior.Err? ==> r == Step(reg, Fail(prior.error))
    ensures var prior := PriorClusterConnection(Get(reg.lastByEngine, KustoEngine), reg.connections);
      prior.Ok? ==>
        var built := build(FromConnectionString(KustoEngine, s, prior.value));
        && (built.Err? ==> r == Step(reg, Fail(built.error)))
        && (built.Ok? && !Truthy(built.value.cluster) ==> r == Step(reg, Fail(ClusterUndefined)))
        && (built.Ok? && Truthy(built.value.cluster) ==>
              var ce := built.value;
              var registered := SetCurrentStep(reg, ce, Some("@" + ce.cluster.value)).reg;
              && (ce.bindUrl !in reg.connections ==> "@" + ce.cluster.value in r.reg.connections)
              && (!Truthy(ce.database) ==> r == Step(registered, Fail(DatabaseUndefined)))
              && (Truthy(ce.database) ==>
                    r == DatabaseStep(registered, engineMap, ce.database.value, ce.cluster.value, ce.alias, build)))
    ensures r.outcome.Pass? ==> r.reg.current.Some?
    ensures reg.connections.Keys <= r.reg.connections.Keys
    ensures r.reg.lastByEngine == reg.lastByEngine
    ensures Consistent(reg) ==> Consistent(r.reg)
  {
    match PriorClusterConnection(Get(reg.lastByEngine, KustoEngine), reg.connections)
    case Err(err) => Step(reg, Fail(err))
    case Ok(prior) =>
      match build(FromConnectionString(KustoEngine, s, prior))
      case Err(err) => Step(reg, Fail(err))
      case Ok(ce) =>
        match Defined(ce.cluster, ClusterUndefined)
        case Err(err) => Step(reg, Fail(err))
        case Ok(cluster) =>
          var registered := SetCurrentStep(reg, ce, Some("@" + cluster)).reg;
          match Defined(ce.database, DatabaseUndefined)
          case Err(err) => Step(registered, Fail(err))
          case Ok(database) => DatabaseStep(registered, engineMap, database, cluster, ce.alias, build)
  }

  /** `Connection(connect_str)`: dispatch, construction and registration of the new engine. */
  function ConnectStep(reg: Registry, engineMap: map<string, EngineClass>, s: string,
                       build: EngineRequest -> Result<Engine>): (r: Step)
    ensures RouteOf(s, engineMap).Err? ==> r == Step(reg, Fail(RouteOf(s, engineMap).error))
    ensures RouteOf(s, engineMap).Ok? && RouteOf(s, engineMap).value.Direct? ==>
      var kind := RouteOf(s, engineMap).value.kind;
      var built := build(FromConnectionString(kind, s, Get(reg.lastByEngine, kind)));
      && (built.Err? ==> r == Step(reg, Fail(built.error)))
      && (built.Ok? ==> r == SetCurrentStep(reg, built.value, None))
    ensures RouteOf(s, engineMap) == Ok(KustoCluster) ==> r == ClusterStep(reg, engineMap, s, build)
    ensures RouteOf(s, engineMap).Ok? && RouteOf(s, engineMap).value.KustoDatabase? ==>
      var route := RouteOf(s, engineMap).value;
      r == DatabaseStep(reg, engineMap, route.database, route.cluster, None, build)
    ensures r.outcome.Pass? ==> r.reg.current.Some?
    ensures reg.connections.Keys <= r.reg.connections.Keys
    ensures r.reg.lastByEngine == reg.lastByEngine
    ensures Consistent(reg) ==> Consistent(r.reg)
  {
    match RouteOf(s, engineMap)
    case Err(err) => Step(reg, Fail(err))
    case Ok(Direct(kind)) =>
      (match build(FromConnectionString(kind, s, Get(reg.lastByEngine, kind)))
       case Err(err) => Step(reg, Fail(err))
       case Ok(e) => SetCurrentStep(reg, e, None))
    case Ok(KustoCluster) => ClusterStep(reg, engineMap, s, build)
    case Ok(KustoDatabase(database, cluster)) => DatabaseStep(reg, engineMap, database, cluster, None, build)
  }

  datatype Reply = Reply(reg: Registry, result: Result<Engine>)

  /** The current engine becomes the last current one of its class. */
  function Record(reg: Registry): (r: Reply)
    requires reg.current.Some?
    ensures r.result == Ok(reg.current.value)
    ensures r.reg.lastByEngine == reg.lastByEngine[reg.current.value.kind := reg.current.value]
    ensures r.reg.current == reg.current && r.reg.connections == reg.connections
  {
    Reply(reg.(lastByEngine := reg.lastByEngine[reg.current.value.kind := reg.current.value]), Ok(reg.current.value))
  }

  /** `get_connection(descriptor)`: select a registered engine, or connect, or keep the current one. */
  function GetConnectionStep(reg: Registry, engineMap: map<string, EngineClass>, descriptor: Option<string>,
                             build: EngineRequest -> Result<Engine>): (r: Reply)
    ensures !Truthy(descriptor) && reg.current.None? ==> r == Reply(reg, Err(NoCurrentConnection))
    ensures r.result.Ok? ==> && r.reg.current == Some(r.result.value)
                             && r.result.value.kind in r.reg.lastByEngine
                             && r.reg.lastByEngine[r.result.value.kind] == r.result.value
    ensures Truthy(descriptor) && descriptor.value in reg.connections ==>
      r.result == Ok(reg.connections[descriptor.value]) && r.reg.connections == reg.connections
    ensures !Truthy(descriptor) && reg.current.Some? ==>
      r.result == Ok(reg.current.value) && r.reg.connections == reg.connections
    ensures Truthy(descriptor) && descriptor.value !in reg.connections ==>
      var c := ConnectStep(reg, engineMap, descriptor.value, build);
      && (c.outcome.Fail? ==> r == Reply(c.reg, Err(c.outcome.error)))
      && (c.outcome.Pass? ==> r == Record(c.reg))
    ensures r.result.Ok? ==> r.reg.lastByEngine == reg.lastByEngine[r.result.value.kind := r.result.value]
    ensures r.result.Err? ==> r.reg.lastByEngine == reg.lastByEngine
    ensures Consistent(reg) ==> Consistent(r.reg)
  {
    if Truthy(descriptor) then
      var d := descriptor.value;
      if d in reg.connections then Record(reg.(current := Some(reg.connections[d])))
      else
        var connected := ConnectStep(reg, engineMap, d, build);
        if connected.outcome.Fail? then Reply(connected.reg, Err(connected.outcome.error))
        else Record(connected.reg)
    else if reg.current.None? then Reply(reg, Err(NoCurrentConnection))
    else Record(reg)
  }

  // ---------------------------------------------------------------------------
  // Listings

  /** The displayed names: sorted, without the "@cluster" entries and the bind-URL entries. */
  function ConnectionList(connections: map<string, Engine>): (r: seq<string>)
    ensures StrictlySorted(r)
    ensures forall k :: k in r <==> k in connections && !StartsWith(k, "@") && connections[k].bindUrl != k
    ensures forall i :: 0 <= i < |r| ==> r[i] in connections
    ensures connections == map[] ==> r == []
  {
    Filter(SortedKeys(connections.Keys), k => k in connections && !StartsWith(k, "@") && connections[k].bindUrl != k)
  }

  /** The displayed names whose engine's bind URL has the schema `schema`. */
  function ConnectionListBySchema(connections: map<string, Engine>, schema: string): (r: seq<string>)
    ensures StrictlySorted(r)
    ensures forall k :: k in r <==> k in ConnectionList(connections) && StartsWith(connections[k].bindUrl, schema + "://")
    ensures Subsequence(r, ConnectionList(connections))
  {
    var prefix := schema + "://";
    Filter(ConnectionList(connections), k => k in connections && StartsWith(connections[k].bindUrl, prefix))
  }

  /** `connections[key] == current`; the registry has entries only once a current engine is set. */
  predicate IsCurrent(e: Engine, current: Option<Engine>) {
    current.Some? && Same(e, current.value)
  }

  /** A line of the formatted list: `" * "` before the current engine's name, three spaces before the others. */
  predicate FormattedLine(line: string, key: string, isCurrent: bool) {
    && |line| == 3 + |key| && line[3..] == key
    && (line[..3] == " * " <==> isCurrent)
    && (line[..3] == "   " <==> !isCurrent)
  }

  /** The loop of `get_connection_list_formatted`, over the displayed names `keys`. */
  method FormatList(keys: seq<string>, connections: map<string, Engine>, current: Option<Engine>)
    returns (lines: seq<string>)
    requires forall i :: 0 <= i < |keys| ==> keys[i] in connections
    ensures |lines| == |keys|
    ensures forall i :: 0 <= i < |lines| ==> FormattedLine(lines[i], keys[i], IsCurrent(connections[keys[i]], current))
  {
    lines := [];
    for i := 0 to |keys|
      invariant |lines| == i
      invariant forall j :: 0 <= j < i ==> FormattedLine(lines[j], keys[j], IsCurrent(connections[keys[j]], current))
    {
      var key := keys[i];
      var template := if IsCurrent(connections[key], current) then " * " else "   ";
      lines := lines + [template + key];
      assert lines[i][..3] == template && lines[i][3..] == key;
    }
  }

  // ---------------------------------------------------------------------------
  // The class-level state

  class Connection {
    /** `_ENGINE_MAP`: schema name to engine class. */
    const engineMap: map<string, EngineClass>
    var current: Option<Engine>
    var connections: map<string, Engine>
    var lastCurrentByEngine: map<EngineClass, Engine>

    constructor(engineMap: map<string, EngineClass>)
      ensures this.engineMap == engineMap
      ensures current.None? && connections == map[] && lastCurrentByEngine == map[]
      ensures Valid()
    {
      this.engineMap := engineMap;
      current := None;
      connections := map[];
      lastCurrentByEngine := map[];
    }

    function State(): Registry
      reads this
    {
      Registry(current, connections, lastCurrentByEngine)
    }

    predicate Valid()
      reads this
    {
      Consistent(State())
    }

    method SetCurrent(e: Engine, connName: Option<string>) returns (outcome: Outcome)
      requires Valid()
      modifies this`current, this`connections
      ensures Valid()
      ensures Step(State(), outcome) == SetCurrentStep(old(State()), e, connName)
    {
      var existing := Get(connections, e.bindUrl);
      if existing.Some? {
        current := existing;
        return Pass;
      }
      current := Some(e);
      var name := RegisteredName(e, connName);
      if name.Err? {
        return Fail(name.error);
      }
      connections := connections[name.value := e];
      connections := connections[e.bindUrl := e];
      return Pass;
    }

    /** `Connection(connect_str)`; a failure leaves what was registered before it. */
    method Connect(s: string, build: EngineRequest -> Result<Engine>) returns (outcome: Outcome)
      requires Valid()
      modifies this`current, this`connections
      ensures Valid()
      ensures Step(State(), outcome) == ConnectStep(old(State()), engineMap, s, build)
    {
      var route := RouteOf(s, engineMap);
      if route.Err? {
        return Fail(route.error);
      }
      match route.value
      case Direct(kind) =>
        var engine := build(FromConnectionString(kind, s, Get(lastCurrentByEngine, kind)));
        if engine.Err? {
          return Fail(engine.error);
        }
        outcome := SetCurrent(engine.value, None);
      case KustoCluster =>
        outcome := ConnectCluster(s, build);
      case KustoDatabase(database, cluster) =>
        outcome := ConnectDatabase(database, cluster, None, build);
    }

    method ConnectCluster(s: string, build: EngineRequest -> Result<Engine>) returns (outcome: Outcome)
      requires Valid()
      modifies this`current, this`connections
      ensures Valid()
      ensures Step(State(), outcome) == ClusterStep(old(State()), engineMap, s, build)
    {
      var prior := PriorClusterConnection(Get(lastCurrentByEngine, KustoEngine), connections);
      if prior.Err? {
        return Fail(prior.error);
      }
      var clusterEngine := build(FromConnectionString(KustoEngine, s, prior.value));
      if clusterEngine.Err? {
        return Fail(clusterEngine.error);
      }
      var ce := clusterEngine.value;
      var cluster := Defined(ce.cluster, ClusterUndefined);
      if cluster.Err? {
        return Fail(cluster.error);
      }
      outcome := SetCurrent(ce, Some("@" + cluster.value));
      var database := Defined(ce.database, DatabaseUndefined);
      if database.Err? {
        return Fail(database.error);
      }
      outcome := ConnectDatabase(database.value, cluster.value, ce.alias, build);
    }

    method ConnectDatabase(database: string, cluster: string, alias: Option<string>,
                           build: EngineRequest -> Result<Engine>) returns (outcome: Outcome)
      requires Valid()
      modifies this`current, this`connections
      ensures Valid()
      ensures Step(State(), outcome) == DatabaseStep(old(State()), engineMap, database, cluster, alias, build)
    {
      var engine := KustoDatabaseEngine(database, cluster, alias, connections, engineMap, build);
      if engine.Err? {
        return Fail(engine.error);
      }
      outcome := SetCurrent(engine.value, None);
    }

    /** `get_connection(descriptor)`. */
    method GetConnection(descriptor: Option<string>, build: EngineRequest -> Result<Engine>)
      returns (r: Result<Engine>)
      requires Valid()
      modifies this`current, this`connections, this`lastCurrentByEngine
      ensures Valid()
      ensures Reply(State(), r) == GetConnectionStep(old(State()), engineMap, descriptor, build)
    {
      if Truthy(descriptor) {
        var registered := Get(connections, descriptor.value);
        if registered.Some? {
          current := registered;
        } else {
          var outcome := Connect(descriptor.value, build);
          if outcome.Fail? {
            return Err(outcome.error);
          }
        }
      } else if current.None? {
        return Err(NoCurrentConnection);
      }
      var engine := current.value;
      lastCurrentByEngine := lastCurrentByEngine[engine.kind := engine];
      return Ok(engine);
    }

    /** `get_connection_list_formatted`: one line per displayed name, marked when it is the current engine. */
    method GetConnectionListFormatted() returns (lines: seq<string>)
      requires current.None? ==> connections == map[]
      ensures var keys := ConnectionList(connections);
        && |lines| == |keys|
        && forall i :: 0 <= i < |lines| ==> FormattedLine(lines[i], keys[i], IsCurrent(connections[keys[i]], current))
      ensures current.None? ==> lines == []
    {
      var keys := ConnectionList(connections);
      lines := FormatList(keys, connections, current);
    }

    /** `get_current_connection_formatted`; without a current engine the attribute access fails. */
    function CurrentConnectionFormatted(): (r: Result<string>)
      reads this
      ensures current.None? ==> r == Err(CurrentIsNone)
      ensures r.Ok? <==> current.Some? && ConnNameOf(current.value).Ok?
      ensures r.Ok? ==> r.value == " * " + ConnNameOf(current.value).value
      ensures r.Ok? ==> FormattedLine(r.value, ConnNameOf(current.value).value, true)
    {
      if current.None? then Err(CurrentIsNone)
      else
        var name :- ConnNameOf(current.value);
        var line := " * " + name;
        assert line[..3] == " * " && line[3..] == name;
        Ok(line)
    }
  }
}
