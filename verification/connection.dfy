/** The process-wide connection registry of mongoengine/connection.py: the
    settings each named connection was configured with, the client and the
    database handle cached per connection name and per process identity,
    and connect(), which configures a name and resolves its database.

    The driver is not modelled: whether `Connection(host)` succeeds and
    whether `db.authenticate(...)` accepts the credentials are inputs, and a
    client is identified by the host it was built for and by a serial number
    counting the clients built so far. */
module Connection {
  import opened Values

  /** The `conn_name` key: None for the unnamed connection. */
  type ConnName = Option<string>

  /** A connection's settings dict. */
  type Settings = map<string, Value>

  /** A pymongo Connection: the host it was opened on and which client it is. */
  datatype Client = Client(host: Value, serial: nat)

  /** `conn[db_name]`: a database handle on a client. */
  datatype Database = Database(client: Client, name: Value)

  /** The three module dictionaries, and how many clients have been built. */
  datatype Tables = Tables(
    settings: map<ConnName, Settings>,
    connections: map<ConnName, map<int, Client>>,
    dbs: map<ConnName, map<int, Database>>,
    built: nat)

  /** _connection_defaults (lines 7-10). */
  const Defaults: Settings := map["host" := VStr("localhost:27017"), "db_name" := VStr("test")]

  const CannotConnect: string := "Cannot connect to the database"
  const AuthenticationFailed: string := "Authentication failed with username %s"

  /** get_identity() (lines 66-69): 0 for a process without an identity
      tuple (the main process), otherwise the tuple's first element. */
  function GetIdentity(processIdentity: seq<int>): (r: int)
    ensures processIdentity == [] ==> r == 0
    ensures processIdentity != [] ==> r == processIdentity[0]
  {
    if |processIdentity| == 0 then 0 else processIdentity[0]
  }

  /** The settings connect() stores (lines 78-85): the defaults, overridden
      by the keyword arguments, db_name set to `db`, db_username set to the
      username when one is given and db_password set -- to the USERNAME --
      when a password is given. */
  function NewSettings(db: Value, username: Value, password: Value, kwargs: Settings): (r: Settings)
    ensures "db_name" in r && r["db_name"] == db
    ensures "host" in r && r["host"] == if "host" in kwargs then kwargs["host"] else VStr("localhost:27017")
    ensures "db_username" in r <==> Truthy(username) || "db_username" in kwargs
    ensures Truthy(username) ==> r["db_username"] == username
    ensures "db_password" in r <==> Truthy(password) || "db_password" in kwargs
    ensures Truthy(password) ==> r["db_password"] == username
    ensures !Truthy(username) && "db_username" in kwargs ==> r["db_username"] == kwargs["db_username"]
    ensures !Truthy(password) && "db_password" in kwargs ==> r["db_password"] == kwargs["db_password"]
    ensures forall k :: k in kwargs && k !in {"db_name", "db_username", "db_password"} ==> k in r && r[k] == kwargs[k]
    ensures forall k :: k in Defaults && k !in kwargs && k != "db_name" ==> k in r && r[k] == Defaults[k]
    ensures r.Keys == Defaults.Keys + kwargs.Keys + (if Truthy(username) then {"db_username"} else {})
                      + (if Truthy(password) then {"db_password"} else {})
  {
    var merged := (Defaults + kwargs)["db_name" := db];
    var withUser := if Truthy(username) then merged["db_username" := username] else merged;
    if Truthy(password) then withUser["db_password" := username] else withUser
  }

  /** _get_connection(conn_name, reconnect) (lines 21-37) on the tables:
      the tables afterwards and the client returned (None when the name was
      never configured), or ConnectionError when the client cannot be
      built. `reachable` says whether Connection(host) succeeds. */
  function GetConnectionSpec(t: Tables, conn: ConnName, reconnect: bool, identity: int, reachable: bool)
    : (res: (Tables, Result<Option<Client>>))
    ensures conn !in t.settings ==> res == (t, Success(None))
    ensures res.0.settings == t.settings && res.0.dbs == t.dbs
    ensures forall c :: c != conn ==> (c in res.0.connections <==> c in t.connections)
    ensures forall c :: c != conn && c in t.connections ==> res.0.connections[c] == t.connections[c]
    ensures conn in t.settings ==> conn in res.0.connections
    ensures conn in t.settings ==>
      var cached := if conn in t.connections then t.connections[conn] else map[];
      var build := identity !in cached || reconnect;
      && (!build ==> res == (t, Success(Some(cached[identity]))))
      && (build && reachable && "host" in t.settings[conn] ==>
            var client := Client(t.settings[conn]["host"], t.built);
            res == (t.(connections := t.connections[conn := cached[identity := client]], built := t.built + 1),
                    Success(Some(client))))
      && (build && !(reachable && "host" in t.settings[conn]) ==>
            res.1 == Failure(ConnectionFailed(CannotConnect)) && res.0.built == t.built
            && res.0.connections[conn] == cached)
  {
    if conn !in t.settings then (t, Success(None))
    else
      var t1 := if conn in t.connections then t else t.(connections := t.connections[conn := map[]]);
      var cached := t1.connections[conn];
      if identity in cached && !reconnect then (t1, Success(Some(cached[identity])))
      else if reachable && "host" in t.settings[conn] then
        var client := Client(t.settings[conn]["host"], t.built);
        (t.(connections := t.connections[conn := cached[identity := client]], built := t.built + 1), Success(Some(client)))
      else (t1, Failure(ConnectionFailed(CannotConnect)))
  }

  /** The database names `client[name]` accepts (pymongo's Database
      constructor): a non-empty string with no space, `.`, `$`, `/`, `\`
      or NUL in it. */
  predicate ValidDbName(name: Value)
  {
    name.VStr? && name.s != "" && forall i :: 0 <= i < |name.s| ==> name.s[i] !in {' ', '.', '$', '/', '\\', '\0'}
  }

  /** What `client[name]` raises for a name it refuses: TypeError for a
      name that is not a string, InvalidName for a bad string. */
  function DbNameError(name: Value): Error
  {
    if name.VStr? then InvalidName else TypeError
  }

  /** _get_connection neither reads the database cache nor writes it. */
  lemma GetConnectionIgnoresDbs(t: Tables, dbs: map<ConnName, map<int, Database>>, conn: ConnName, reconnect: bool,
                                identity: int, reachable: bool)
    ensures var a := GetConnectionSpec(t.(dbs := dbs), conn, reconnect, identity, reachable);
      var b := GetConnectionSpec(t, conn, reconnect, identity, reachable);
      a.1 == b.1 && a.0 == b.0.(dbs := dbs)
  {
  }

  /** _get_db(conn_name, reconnect) (lines 39-64) on the tables. A database
      cached for this name and process is returned as it is, whatever
      `reconnect` says. Otherwise the client is resolved, the database
      selected, the credentials checked when both db_username and
      db_password are set (`authOk` is what authenticate() answers), and
      the database cached. */
  function GetDbSpec(t: Tables, conn: ConnName, reconnect: bool, identity: int, reachable: bool, authOk: bool)
    : (res: (Tables, Result<Option<Database>>))
    ensures conn !in t.settings ==> res == (t, Success(None))
    ensures res.0.settings == t.settings
    ensures forall c :: c != conn ==> (c in res.0.dbs <==> c in t.dbs)
    ensures forall c :: c != conn && c in t.dbs ==> res.0.dbs[c] == t.dbs[c]
    ensures conn in t.settings ==> conn in res.0.dbs
    ensures conn in t.settings && conn in t.dbs && identity in t.dbs[conn] ==>
      res == (t, Success(Some(t.dbs[conn][identity])))
    ensures res.1.Success? && res.1.value.Some? ==>
      conn in res.0.dbs && identity in res.0.dbs[conn] && res.0.dbs[conn][identity] == res.1.value.value
    ensures res.1.Failure? ==> conn in res.0.dbs && identity !in res.0.dbs[conn]
    ensures conn in t.settings && !(conn in t.dbs && identity in t.dbs[conn]) ==>
      var got := GetConnectionSpec(t, conn, reconnect, identity, reachable);
      res.0.connections == got.0.connections && res.0.built == got.0.built
    ensures conn in t.settings && !(conn in t.dbs && identity in t.dbs[conn]) ==>
      var got := GetConnectionSpec(t, conn, reconnect, identity, reachable).1;
      var s := t.settings[conn];
      && (got.Failure? ==> res.1 == Failure(got.error))
      && (got.Success? && "db_name" !in s ==> res.1 == Failure(KeyError("db_name")))
      && (got.Success? && "db_name" in s && !ValidDbName(s["db_name"]) ==>
            res.1 == Failure(DbNameError(s["db_name"])))
      && (got.Success? && "db_name" in s && ValidDbName(s["db_name"])
          && "db_username" in s && "db_password" in s && !authOk ==>
            res.1 == Failure(ConnectionFailed(AuthenticationFailed)))
      && (got.Success? && "db_name" in s && ValidDbName(s["db_name"])
          && !("db_username" in s && "db_password" in s && !authOk) ==>
            got.value.Some? && res.1 == Success(Some(Database(got.value.value, s["db_name"]))))
  {
    if conn !in t.settings then (t, Success(None))
    else
      var t1 := if conn in t.dbs then t else t.(dbs := t.dbs[conn := map[]]);
      var cachedDbs := t1.dbs[conn];
      if identity in cachedDbs then (t1, Success(Some(cachedDbs[identity])))
      else
        var settings := t.settings[conn];
        GetConnectionIgnoresDbs(t, t1.dbs, conn, reconnect, identity, reachable);
        var (t2, got) := GetConnectionSpec(t1, conn, reconnect, identity, reachable);
        if got.Failure? then (t2, Failure(got.error))
        else if "db_name" !in settings then (t2, Failure(KeyError("db_name")))
        else if !ValidDbName(settings["db_name"]) then (t2, Failure(DbNameError(settings["db_name"])))
        else
          var db := Database(got.value.value, settings["db_name"]);
          if "db_username" in settings && "db_password" in settings && !authOk then
            (t2, Failure(ConnectionFailed(AuthenticationFailed)))
          else (t2.(dbs := t2.dbs[conn := cachedDbs[identity := db]]), Success(Some(db)))
  }

  /** connect(db, username, password, conn_name, **kwargs) (lines 71-87):
      the name's settings are replaced wholesale, then its database is
      resolved with reconnect=True. */
  function ConnectSpec(t: Tables, db: Value, username: Value, password: Value, conn: ConnName, kwargs: Settings,
                       identity: int, reachable: bool, authOk: bool): (res: (Tables, Result<Option<Database>>))
    ensures conn in res.0.settings && res.0.settings[conn] == NewSettings(db, username, password, kwargs)
    ensures forall c :: c != conn ==> (c in res.0.settings <==> c in t.settings)
    ensures forall c :: c != conn && c in t.settings ==> res.0.settings[c] == t.settings[c]
    ensures res.1.Success? ==> res.1.value.Some?
  {
    var t1 := t.(settings := t.settings[conn := NewSettings(db, username, password, kwargs)]);
    GetDbSpec(t1, conn, true, identity, reachable, authOk)
  }

  /** Every configured name has a host and a database name: connect()
      establishes it and nothing else writes the settings. */
  predicate Configured(t: Tables)
  {
    forall c :: c in t.settings ==> "host" in t.settings[c] && "db_name" in t.settings[c]
  }

  /** The module's dictionaries, as one object. */
  class Registry {
    var settings: map<ConnName, Settings>
    var connections: map<ConnName, map<int, Client>>
    var dbs: map<ConnName, map<int, Database>>
    var built: nat

    /** The state at import: every dictionary empty. */
    constructor ()
      ensures State() == Tables(map[], map[], map[], 0)
    {
      settings := map[];
      connections := map[];
      dbs := map[];
      built := 0;
    }

    function State(): Tables
      reads this
    {
      Tables(settings, connections, dbs, built)
    }

    /** _get_connection (lines 21-37). */
    method GetConnection(conn: ConnName, reconnect: bool, processIdentity: seq<int>, reachable: bool)
      returns (r: Result<Option<Client>>)
      modifies this
      ensures (State(), r) == GetConnectionSpec(old(State()), conn, reconnect, GetIdentity(processIdentity), reachable)
    {
      var identity := GetIdentity(processIdentity);
      if conn !in settings {
        return Success(None);
      }
      if conn !in connections {
        connections := connections[conn := map[]];
      }
      if identity !in connections[conn] || reconnect {
        if !reachable || "host" !in settings[conn] {
          return Failure(ConnectionFailed(CannotConnect));
        }
        var client := Client(settings[conn]["host"], built);
        built := built + 1;
        connections := connections[conn := connections[conn][identity := client]];
        assert connections == old(connections)[conn := old(if conn in connections then connections[conn] else map[])[identity := client]];
      }
      return Success(Some(connections[conn][identity]));
    }

    /** _get_db (lines 39-64). */
    method GetDb(conn: ConnName, reconnect: bool, processIdentity: seq<int>, reachable: bool, authOk: bool)
      returns (r: Result<Option<Database>>)
      modifies this
      ensures (State(), r) == GetDbSpec(old(State()), conn, reconnect, GetIdentity(processIdentity), reachable, authOk)
    {
      var identity := GetIdentity(processIdentity);
      if conn !in settings {
        return Success(None);
      }
      if conn !in dbs {
        dbs := dbs[conn := map[]];
      }
      if identity !in dbs[conn] {
        var connSettings := settings[conn];
        var got := GetConnection(conn, reconnect, processIdentity, reachable);
        if got.Failure? {
          return Failure(got.error);
        }
        if "db_name" !in connSettings {
          return Failure(KeyError("db_name"));
        }
        if !ValidDbName(connSettings["db_name"]) {
          return Failure(DbNameError(connSettings["db_name"]));
        }
        var db := Database(got.value.value, connSettings["db_name"]);
        if "db_username" in connSettings && "db_password" in connSettings && !authOk {
          return Failure(ConnectionFailed(AuthenticationFailed));
        }
        dbs := dbs[conn := dbs[conn][identity := db]];
      }
      return Success(Some(dbs[conn][identity]));
    }

    /** connect (lines 71-87). */
    method Connect(db: Value, username: Value, password: Value, conn: ConnName, kwargs: Settings,
                   processIdentity: seq<int>, reachable: bool, authOk: bool)
      returns (r: Result<Option<Database>>)
      modifies this
      ensures (State(), r) == ConnectSpec(old(State()), db, username, password, conn, kwargs,
                                          GetIdentity(processIdentity), reachable, authOk)
    {
      var entry := Defaults + kwargs;
      entry := entry["db_name" := db];
      if Truthy(username) {
        entry := entry["db_username" := username];
      }
      if Truthy(password) {
        entry := entry["db_password" := username];
      }
      settings := settings[conn := entry];
      r := GetDb(conn, true, processIdentity, reachable, authOk);
    }
  }

  /** connect() leaves every configured name with a host and a database
      name, so _get_db never fails on a missing `db_name`: connect fails
      only with a ConnectionError, or with the driver's error for a
      database name it refuses. */
  lemma ConnectKeepsConfigured(t: Tables, db: Value, username: Value, password: Value, conn: ConnName, kwargs: Settings,
                               identity: int, reachable: bool, authOk: bool)
    requires Configured(t)
    ensures Configured(ConnectSpec(t, db, username, password, conn, kwargs, identity, reachable, authOk).0)
    ensures var r := ConnectSpec(t, db, username, password, conn, kwargs, identity, reachable, authOk).1;
      r.Failure? ==> r.error.ConnectionFailed? || (!ValidDbName(db) && r.error == DbNameError(db))
  {
    var t1 := t.(settings := t.settings[conn := NewSettings(db, username, password, kwargs)]);
    var res := GetDbSpec(t1, conn, true, identity, reachable, authOk);
    forall c | c in res.0.settings ensures "host" in res.0.settings[c] && "db_name" in res.0.settings[c] {
      if c != conn {
        assert res.0.settings[c] == t.settings[c];
      }
    }
  }

  /** Once a process has a database for a name, connecting that name again
      -- with other settings, even to another database -- returns the
      database cached before and builds no client. */
  lemma SecondConnectReturnsCachedDb(t: Tables, db1: Value, db2: Value, username: Value, password: Value, conn: ConnName,
                                     kwargs1: Settings, kwargs2: Settings, identity: int, reachable: bool, authOk: bool)
    requires ConnectSpec(t, db1, username, password, conn, kwargs1, identity, reachable, authOk).1.Success?
    ensures var first := ConnectSpec(t, db1, username, password, conn, kwargs1, identity, reachable, authOk);
      var second := ConnectSpec(first.0, db2, username, password, conn, kwargs2, identity, reachable, authOk);
      && second.1 == first.1
      && second.0.connections == first.0.connections
      && second.0.built == first.0.built
  {
  }

  /** connect() on a name never resolved before in this process builds a
      client for the configured host and, unless the driver refuses the
      name `db` or authentication is required and refused, caches and
      returns the database named `db` on it. */
  lemma FirstConnectBuildsClient(t: Tables, db: Value, username: Value, password: Value, conn: ConnName,
                                 kwargs: Settings, identity: int, authOk: bool)
    requires conn !in t.dbs || identity !in t.dbs[conn]
    ensures var res := ConnectSpec(t, db, username, password, conn, kwargs, identity, true, authOk);
      var s := NewSettings(db, username, password, kwargs);
      var client := Client(s["host"], t.built);
      && res.0.built == t.built + 1
      && res.0.connections[conn][identity] == client
      && (!ValidDbName(db) ==>
            res.1 == Failure(DbNameError(db)) && identity !in res.0.dbs[conn])
      && (ValidDbName(db) && (!("db_username" in s && "db_password" in s) || authOk) ==>
            res.1 == Success(Some(Database(client, db))) && res.0.dbs[conn][identity] == Database(client, db))
      && (ValidDbName(db) && "db_username" in s && "db_password" in s && !authOk ==>
            res.1 == Failure(ConnectionFailed(AuthenticationFailed)) && identity !in res.0.dbs[conn])
  {
  }

  /** An unreachable server leaves no client and no database behind. */
  lemma UnreachableCachesNothing(t: Tables, db: Value, username: Value, password: Value, conn: ConnName,
                                 kwargs: Settings, identity: int, authOk: bool)
    requires conn !in t.dbs || identity !in t.dbs[conn]
    requires conn !in t.connections || identity !in t.connections[conn]
    ensures var res := ConnectSpec(t, db, username, password, conn, kwargs, identity, false, authOk);
      && res.1 == Failure(ConnectionFailed(CannotConnect))
      && conn in res.0.connections && identity !in res.0.connections[conn]
      && conn in res.0.dbs && identity !in res.0.dbs[conn]
      && res.0.built == t.built
  {
    var t1 := t.(settings := t.settings[conn := NewSettings(db, username, password, kwargs)]);
    var t2 := if conn in t1.dbs then t1 else t1.(dbs := t1.dbs[conn := map[]]);
    var got := GetConnectionSpec(t2, conn, true, identity, false);
    assert got.1 == Failure(ConnectionFailed(CannotConnect));
    assert GetDbSpec(t1, conn, true, identity, false, authOk) == (got.0, Failure(got.1.error));
  }

  /** The answer of authenticate() matters only when the name's settings
      hold both db_username and db_password. */
  lemma AuthenticatesOnlyWithBothCredentials(t: Tables, conn: ConnName, reconnect: bool, identity: int, reachable: bool)
    requires conn in t.settings
    requires "db_username" !in t.settings[conn] || "db_password" !in t.settings[conn]
    ensures GetDbSpec(t, conn, reconnect, identity, reachable, false) == GetDbSpec(t, conn, reconnect, identity, reachable, true)
  {
    if conn !in t.dbs || identity !in t.dbs[conn] {
      var t1 := if conn in t.dbs then t else t.(dbs := t.dbs[conn := map[]]);
      GetConnectionIgnoresDbs(t, t1.dbs, conn, reconnect, identity, reachable);
    }
  }

  /** A successful authenticate() never makes get_db fail with an
      authentication error. */
  lemma AuthenticationAcceptedNeverFails(t: Tables, conn: ConnName, reconnect: bool, identity: int, reachable: bool)
    ensures GetDbSpec(t, conn, reconnect, identity, reachable, true).1 != Failure(ConnectionFailed(AuthenticationFailed))
  {
    if conn in t.settings && (conn !in t.dbs || identity !in t.dbs[conn]) {
      var t1 := if conn in t.dbs then t else t.(dbs := t.dbs[conn := map[]]);
      GetConnectionIgnoresDbs(t, t1.dbs, conn, reconnect, identity, reachable);
    }
  }

  /** A refused authenticate() is the only thing between a fresh database
      and a ConnectionError: get_db fails with it exactly when the database
      is not cached yet, the connection succeeds, and the settings hold a
      database name the driver accepts and both credentials. */
  lemma AuthenticationRefusedFails(t: Tables, conn: ConnName, reconnect: bool, identity: int, reachable: bool)
    ensures GetDbSpec(t, conn, reconnect, identity, reachable, false).1 == Failure(ConnectionFailed(AuthenticationFailed)) <==>
      && conn in t.settings
      && (conn !in t.dbs || identity !in t.dbs[conn])
      && GetConnectionSpec(t, conn, reconnect, identity, reachable).1.Success?
      && "db_name" in t.settings[conn] && ValidDbName(t.settings[conn]["db_name"])
      && "db_username" in t.settings[conn] && "db_password" in t.settings[conn]
  {
    if conn in t.settings && (conn !in t.dbs || identity !in t.dbs[conn]) {
      var t1 := if conn in t.dbs then t else t.(dbs := t.dbs[conn := map[]]);
      GetConnectionIgnoresDbs(t, t1.dbs, conn, reconnect, identity, reachable);
    }
  }
}
