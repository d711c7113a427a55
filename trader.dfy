/**
 * The account and connection registry `DhanTrader` (core/dhan_trader.py): the configuration it
 * holds, the connections it has opened, and the operations that change them.
 */
module Trader {
  import opened Wrappers
  import opened OrderedDict
  import opened Vault
  import opened Broker
  import opened Margins

  /** `config['MASTER']`: `{client_id, access_token}`. */
  datatype MasterRecord = MasterRecord(clientId: string, accessToken: Ciphertext)

  /** `config['CHILD'][name]`: `{client_id, access_token, multiplier, enabled}`; `enabled` is 'Y' or anything else. */
  datatype ChildRecord = ChildRecord(clientId: string, accessToken: Ciphertext, multiplier: real, enabled: string)

  /**
   * The configuration dictionary. Either key may be missing: `master` is `config.get('MASTER')`,
   * `children` is `config.get('CHILD')`, in the file's order.
   */
  datatype Config = Config(master: Option<MasterRecord>, children: Option<Dict<ChildRecord>>) {

    ghost predicate Valid() {
      children.Some? ==> children.value.Valid()
    }

    /** `config.get('CHILD', {})` */
    function ChildTable(): (t: Dict<ChildRecord>)
      requires Valid()
      ensures t.Valid()
    {
      children.GetOr(Empty())
    }
  }

  /** What `load_config` returns when there is no config.json. */
  function DefaultConfig(): (c: Config)
    ensures c.Valid() && c.children == Some(Empty())
  {
    Config(Some(MasterRecord("", Opaque(""))), Some(Empty()))
  }

  /** config.json as the program finds it: absent, present but not parseable, or parsed. */
  datatype Stored = Missing | Corrupt | Json(config: Config)

  /**
   * `load_config`: a missing file yields the built-in default (an empty MASTER record and an empty
   * CHILD table); a file that does not parse raises (`None`); otherwise the parsed configuration.
   */
  function LoadConfig(file: Stored): (r: Option<Config>)
    ensures r.None? <==> file.Corrupt?
    ensures file.Missing? ==> r == Some(DefaultConfig()) && r.value.children == Some(Empty())
    ensures file.Json? ==> r == Some(file.config)
  {
    match file
    case Missing => Some(DefaultConfig())
    case Corrupt => None
    case Json(c) => Some(c)
  }

  /** `child_connections[name]`: `{connection, client_id, multiplier}`. */
  datatype ChildConnection = ChildConnection(session: Session, clientId: string, multiplier: real)

  /**
   * `create_dhan_connection`: decrypt the token, open a session and probe it with
   * `get_fund_limits`. A session comes back only when the token decrypts and the probe reports
   * 'success'; in every other case the call raises (`None` here) and no session escapes.
   */
  function CreateConnection(key: string, api: Api, clientId: string, token: Ciphertext): (r: Option<Session>)
    requires key != ""
    ensures r.Some? <==> Decrypt(key, token).Some? && ProbeOk(api(clientId, Decrypt(key, token).value))
    ensures r.Some? ==> r.value.clientId == clientId && Decrypt(key, token) == Some(r.value.token)
  {
    match Decrypt(key, token)
    case None => None
    case Some(plain) => if ProbeOk(api(clientId, plain)) then Some(Session(clientId, plain)) else None
  }

  /** Initialisation tries a master only when its client id and its token are both non-empty. */
  function MasterAttempted(config: Config): (r: bool)
    ensures r ==>
      && config.master.Some?
      && MasterKey(config) == config.master.value.clientId
      && config.master.value.clientId != ""
    ensures config.master.None? ==> !r
  {
    config.master.Some? && config.master.value.clientId != "" && Truthy(config.master.value.accessToken)
  }

  /** The master is tried and its connection attempt raises. */
  predicate MasterFails(key: string, api: Api, config: Config)
    requires key != ""
  {
    MasterAttempted(config)
    && CreateConnection(key, api, config.master.value.clientId, config.master.value.accessToken).None?
  }

  /** Initialisation tries a child only when it is enabled ('Y') and has a non-empty client id. */
  function Eligible(rec: ChildRecord): (r: bool)
    ensures r <==> rec.enabled == "Y" && |rec.clientId| > 0
  {
    rec.enabled == "Y" && rec.clientId != ""
  }

  /** The session initialisation obtains for a child, if any. */
  function ChildSession(key: string, api: Api, rec: ChildRecord): (r: Option<Session>)
    requires key != ""
    ensures r.Some? <==> Eligible(rec) && CreateConnection(key, api, rec.clientId, rec.accessToken).Some?
  {
    if Eligible(rec) then CreateConnection(key, api, rec.clientId, rec.accessToken) else None
  }

  /** The names, among `names`, of the children initialisation connects, in order. */
  function Admitted(key: string, api: Api, table: Dict<ChildRecord>, names: seq<string>): (r: seq<string>)
    requires key != ""
    requires forall n :: n in names ==> n in table.entries
    ensures |r| <= |names|
    ensures forall n :: n in r ==> n in names
    decreases |names|
  {
    if names == [] then []
    else
      var n := names[|names| - 1];
      Admitted(key, api, table, names[..|names| - 1])
        + (if ChildSession(key, api, table.entries[n]).Some? then [n] else [])
  }

  /** The connection dictionary after initialisation has registered the children of `names`. */
  function Register(conns: Dict<ChildConnection>, key: string, api: Api, table: Dict<ChildRecord>, names: seq<string>): (r: Dict<ChildConnection>)
    requires key != "" && conns.Valid()
    requires forall n :: n in names ==> n in table.entries
    ensures r.Valid()
    ensures forall n :: n in conns.entries ==> n in r.entries
    ensures forall n :: n in r.entries ==> n in conns.entries || n in names
    decreases |names|
  {
    if names == [] then conns
    else
      var n := names[|names| - 1];
      var prev := Register(conns, key, api, table, names[..|names| - 1]);
      var rec := table.entries[n];
      match ChildSession(key, api, rec)
      case None => prev
      case Some(s) => prev.Put(n, ChildConnection(s, rec.clientId, rec.multiplier))
  }

  /** A registered connection agrees with the enabled record it was opened for. */
  ghost predicate Mirrors(conn: ChildConnection, rec: ChildRecord) {
    conn.clientId == rec.clientId && conn.multiplier == rec.multiplier && rec.enabled == "Y"
  }

  /** `connected` lists each key of `conns` exactly once, and nothing else. */
  ghost predicate Listed(connected: seq<string>, conns: Dict<ChildConnection>) {
    Distinct(connected) && forall n :: n in connected <==> n in conns.entries
  }

  /** Every connection in `conns` mirrors the record of the same name in `table`. */
  ghost predicate Backed(conns: Dict<ChildConnection>, table: Dict<ChildRecord>) {
    forall n :: n in conns.entries ==> n in table.entries && Mirrors(conns.entries[n], table.entries[n])
  }

  /**
   * Removing a name from the list (when present), the dictionary and the table keeps the list and
   * the dictionary in step and every remaining connection backed, and the name is gone from both.
   */
  lemma RemovalKeepsRegistry(connected: seq<string>, conns: Dict<ChildConnection>, table: Dict<ChildRecord>, name: string)
    requires conns.Valid() && table.Valid()
    ensures Listed(connected, conns) ==>
      && Listed(RemoveFirst(connected, name), conns.Del(name))
      && name !in RemoveFirst(connected, name)
    ensures Backed(conns, table) ==> Backed(conns.Del(name), table.Del(name))
  {
    if Listed(connected, conns) {
      RemoveFirstDistinct(connected, name);
    }
  }

  /** Adding a name that is not yet connected keeps the list and the dictionary in step. */
  lemma ListedAfterAdd(connected: seq<string>, conns: Dict<ChildConnection>, name: string, c: ChildConnection)
    requires conns.Valid() && Listed(connected, conns) && name !in conns.entries
    ensures Listed(connected + [name], conns.Put(name, c))
  {
  }

  /** Upserting a record for a name that is not yet connected keeps every connection backed; an enabled one may be registered. */
  lemma BackedAfterAdd(conns: Dict<ChildConnection>, table: Dict<ChildRecord>, name: string, rec: ChildRecord, c: ChildConnection)
    requires conns.Valid() && table.Valid() && Backed(conns, table) && name !in conns.entries
    ensures Backed(conns, table.Put(name, rec))
    ensures Mirrors(c, rec) ==> Backed(conns.Put(name, c), table.Put(name, rec))
  {
  }

  /** When the list and the dictionary are in step, the list is as long as the dictionary has keys. */
  lemma ListedCount(connected: seq<string>, conns: Dict<ChildConnection>)
    requires conns.Valid() && Listed(connected, conns)
    ensures |conns.entries| == |connected|
  {
    DistinctCardinality(connected);
    assert conns.entries.Keys == set x | x in connected;
  }

  /**
   * A child is connected by initialisation exactly when it is listed, enabled, has a client id and
   * its probe succeeds.
   */
  lemma {:induction false} AdmittedMembers(key: string, api: Api, table: Dict<ChildRecord>, names: seq<string>, n: string)
    requires key != ""
    requires forall m :: m in names ==> m in table.entries
    ensures n in Admitted(key, api, table, names) <==>
      n in names && table.entries[n].enabled == "Y" && table.entries[n].clientId != ""
      && CreateConnection(key, api, table.entries[n].clientId, table.entries[n].accessToken).Some?
  {
    if names != [] {
      var init := names[..|names| - 1];
      AdmittedMembers(key, api, table, init, n);
      assert names == init + [names[|names| - 1]];
    }
  }

  /**
   * Failures are isolated: the children connected from one list followed by another are those
   * connected from each list alone, in the same order, whatever happens to any other child.
   */
  lemma {:induction false} AdmittedAppend(key: string, api: Api, table: Dict<ChildRecord>, a: seq<string>, b: seq<string>)
    requires key != ""
    requires forall n :: n in a + b ==> n in table.entries
    ensures Admitted(key, api, table, a + b) == Admitted(key, api, table, a) + Admitted(key, api, table, b)
  {
    if b == [] {
      assert a + b == a;
    } else {
      var init := b[..|b| - 1];
      assert (a + b)[..|a + b| - 1] == a + init;
      assert (a + b)[|a + b| - 1] == b[|b| - 1];
      AdmittedAppend(key, api, table, a, init);
    }
  }

  /** Children initialisation tries: listed, enabled, with a client id. */
  function Candidates(table: Dict<ChildRecord>, names: seq<string>): seq<string>
    requires forall n :: n in names ==> n in table.entries
    decreases |names|
  {
    if names == [] then []
    else
      var n := names[|names| - 1];
      Candidates(table, names[..|names| - 1]) + (if Eligible(table.entries[n]) then [n] else [])
  }

  /** Children initialisation tries and fails to connect. */
  function Refused(key: string, api: Api, table: Dict<ChildRecord>, names: seq<string>): seq<string>
    requires key != ""
    requires forall n :: n in names ==> n in table.entries
    decreases |names|
  {
    if names == [] then []
    else
      var n := names[|names| - 1];
      var rec := table.entries[n];
      Refused(key, api, table, names[..|names| - 1])
        + (if Eligible(rec) && CreateConnection(key, api, rec.clientId, rec.accessToken).None? then [n] else [])
  }

  /** With N children tried and M of them failing, exactly N - M end up connected. */
  lemma {:induction false} AdmittedCount(key: string, api: Api, table: Dict<ChildRecord>, names: seq<string>)
    requires key != ""
    requires forall n :: n in names ==> n in table.entries
    ensures |Admitted(key, api, table, names)| == |Candidates(table, names)| - |Refused(key, api, table, names)|
  {
    if names != [] {
      AdmittedCount(key, api, table, names[..|names| - 1]);
    }
  }

  /** A list without duplicate names yields connected children without duplicates. */
  lemma {:induction false} AdmittedDistinct(key: string, api: Api, table: Dict<ChildRecord>, names: seq<string>)
    requires key != ""
    requires forall n :: n in names ==> n in table.entries
    requires Distinct(names)
    ensures Distinct(Admitted(key, api, table, names))
  {
    if names != [] {
      var init, last := names[..|names| - 1], names[|names| - 1];
      AdmittedDistinct(key, api, table, init);
      AdmittedMembers(key, api, table, init, last);
      assert last !in init by {
        assert forall i :: 0 <= i < |init| ==> init[i] == names[i];
      }
    }
  }

  /**
   * Registration adds exactly the admitted children to the connection dictionary, each with its
   * session, client id and multiplier, and leaves every other entry as it was.
   */
  lemma {:induction false} RegisterEntries(conns: Dict<ChildConnection>, key: string, api: Api, table: Dict<ChildRecord>, names: seq<string>, n: string)
    requires key != "" && conns.Valid()
    requires forall m :: m in names ==> m in table.entries
    ensures var r := Register(conns, key, api, table, names);
      && (n in r.entries <==> n in conns.entries || n in Admitted(key, api, table, names))
      && (n in Admitted(key, api, table, names) ==>
            && n in table.entries && ChildSession(key, api, table.entries[n]).Some?
            && r.entries[n] == ChildConnection(ChildSession(key, api, table.entries[n]).value,
                                               table.entries[n].clientId, table.entries[n].multiplier))
      && (n !in Admitted(key, api, table, names) && n in conns.entries ==> r.entries[n] == conns.entries[n])
  {
    if names != [] {
      var init := names[..|names| - 1];
      RegisterEntries(conns, key, api, table, init, n);
      AdmittedMembers(key, api, table, names, n);
    }
  }

  /**
   * A child that is disabled or has no client id is never connected by initialisation, and
   * registration leaves its entry as it found it.
   */
  lemma IneligibleNeverConnected(conns: Dict<ChildConnection>, key: string, api: Api, table: Dict<ChildRecord>, names: seq<string>, n: string)
    requires key != "" && conns.Valid()
    requires forall m :: m in names ==> m in table.entries
    requires n in table.entries && !Eligible(table.entries[n])
    ensures n !in Admitted(key, api, table, names)
    ensures n in Register(conns, key, api, table, names).entries <==> n in conns.entries
    ensures n in conns.entries ==> Register(conns, key, api, table, names).entries[n] == conns.entries[n]
  {
    AdmittedMembers(key, api, table, names, n);
    RegisterEntries(conns, key, api, table, names, n);
  }

  /** Registering into an empty dictionary lists the connections in the order the children were admitted. */
  lemma {:induction false} RegisterOrder(key: string, api: Api, table: Dict<ChildRecord>, names: seq<string>)
    requires key != ""
    requires forall m :: m in names ==> m in table.entries
    requires Distinct(names)
    ensures Register(Empty(), key, api, table, names).order == Admitted(key, api, table, names)
  {
    if names != [] {
      var init, last := names[..|names| - 1], names[|names| - 1];
      RegisterOrder(key, api, table, init);
      RegisterEntries(Empty(), key, api, table, init, last);
      AdmittedMembers(key, api, table, init, last);
      assert last !in init by {
        assert forall i :: 0 <= i < |init| ==> init[i] == names[i];
      }
    }
  }

  /**
   * Initialising from no connections leaves a connected list and a connection dictionary that
   * name the same children once each, every connection mirroring its enabled record.
   */
  lemma InitialisedRegistry(key: string, api: Api, table: Dict<ChildRecord>)
    requires key != "" && table.Valid()
    ensures Listed(Admitted(key, api, table, table.order), Register(Empty(), key, api, table, table.order))
    ensures Backed(Register(Empty(), key, api, table, table.order), table)
  {
    AdmittedDistinct(key, api, table, table.order);
    forall n
      ensures (n in Admitted(key, api, table, table.order) <==> n in Register(Empty(), key, api, table, table.order).entries)
      ensures n in Register(Empty(), key, api, table, table.order).entries ==>
                n in table.entries && Mirrors(Register(Empty(), key, api, table, table.order).entries[n], table.entries[n])
    {
      RegisterEntries(Empty(), key, api, table, table.order, n);
      AdmittedMembers(key, api, table, table.order, n);
    }
  }

  /** The accounts `get_all_margins` queries for the given child connections, in dictionary order. */
  function ChildSources(conns: Dict<ChildConnection>, names: seq<string>): (ss: seq<Source>)
    requires forall n :: n in names ==> n in conns.entries
    ensures |ss| == |names|
    ensures forall i :: 0 <= i < |names| ==>
      ss[i] == Source(conns.entries[names[i]].clientId, conns.entries[names[i]].session,
                      ChildAccount(conns.entries[names[i]].multiplier, names[i]))
  {
    seq(|names|, i requires 0 <= i < |names| =>
      var c := conns.entries[names[i]];
      Source(c.clientId, c.session, ChildAccount(c.multiplier, names[i])))
  }

  /** `config.get('MASTER', {}).get('client_id', 'MASTER')` */
  function MasterKey(config: Config): (k: string)
    ensures config.master.Some? ==> k == config.master.value.clientId
    ensures config.master.None? ==> k == "MASTER"
  {
    match config.master
    case Some(m) => m.clientId
    case None => "MASTER"
  }

  /**
   * The child loop of `initialize_connections`: every configured child, in order, that is enabled
   * and has a client id is connected, and each that connects is stored under its name and appended
   * to the connected list.
   */
  method ConnectChildren(key: string, api: Api, table: Dict<ChildRecord>, conns: Dict<ChildConnection>)
    returns (registered: Dict<ChildConnection>, connected: seq<string>)
    requires key != "" && table.Valid() && conns.Valid()
    ensures registered.Valid()
    ensures registered == Register(conns, key, api, table, table.order)
    ensures connected == Admitted(key, api, table, table.order)
  {
    registered, connected := conns, [];
    for i := 0 to |table.order|
      invariant registered.Valid()
      invariant connected == Admitted(key, api, table, table.order[..i])
      invariant registered == Register(conns, key, api, table, table.order[..i])
    {
      var name := table.order[i];
      var rec := table.entries[name];
      assert table.order[..i + 1][..i] == table.order[..i];
      if rec.enabled == "Y" && rec.clientId != "" {
        var conn := CreateConnection(key, api, rec.clientId, rec.accessToken);
        if conn.Some? {
          registered := registered.Put(name, ChildConnection(conn.value, rec.clientId, rec.multiplier));
          connected := connected + [name];
        }
      }
    }
    assert table.order[..|table.order|] == table.order;
  }

  class DhanTrader {
    /** The encryption key the `EncryptionManager` was built with; its presence is assumed. */
    const key: string
    var config: Config
    var masterConnection: Option<Session>
    var childConnections: Dict<ChildConnection>
    var masterConnected: bool
    var connectedChildren: seq<string>
    var isInitialized: bool
    var isActive: bool

    ghost predicate Valid()
      reads this
    {
      key != "" && config.Valid() && childConnections.Valid()
    }

    /** The connected-children list names each registered connection exactly once, and nothing else. */
    ghost predicate Consistent()
      reads this
    {
      Listed(connectedChildren, childConnections)
    }

    /** Every registered connection belongs to a configured, enabled child with the same client id and multiplier. */
    ghost predicate Tracked()
      reads this
      requires Valid()
    {
      Backed(childConnections, config.ChildTable())
    }

    /**
     * The state `DhanTrader()` leaves behind for `config`: inactive; if the master is tried and its
     * connection raises, uninitialised with no connections at all; otherwise initialised, the master
     * connected exactly when it was tried, and the children connected as `Admitted` and `Register`
     * say, listed in the dictionary's order.
     */
    ghost predicate Built(api: Api)
      reads this
    {
      && Valid() && Consistent() && Tracked() && !isActive
      && (MasterFails(key, api, config) ==>
            && !isInitialized && !masterConnected && masterConnection == None
            && connectedChildren == [] && childConnections == Empty())
      && (!MasterFails(key, api, config) ==>
            && isInitialized
            && masterConnected == MasterAttempted(config)
            && masterConnection ==
                 (if MasterAttempted(config)
                  then CreateConnection(key, api, config.master.value.clientId, config.master.value.accessToken)
                  else None)
            && connectedChildren == Admitted(key, api, config.ChildTable(), config.ChildTable().order)
            && childConnections == Register(Empty(), key, api, config.ChildTable(), config.ChildTable().order)
            && childConnections.order == connectedChildren)
    }

    /** `DhanTrader()`: takes the loaded configuration and initialises the connections. */
    constructor (key: string, config: Config, api: Api)
      requires key != "" && config.Valid()
      ensures Valid() && Consistent() && Tracked()
      ensures this.key == key && this.config == config && !isActive
      ensures Built(api)
    {
      this.key := key;
      this.config := config;
      masterConnection := None;
      childConnections := Empty();
      masterConnected := false;
      connectedChildren := [];
      isInitialized := false;
      isActive := false;
      new;
      InitializeConnections(api);
      if !MasterFails(key, api, config) {
        RegisterOrder(key, api, config.ChildTable(), config.ChildTable().order);
      }
    }

    /**
     * `initialize_connections`. A failing master raises out of the whole method: nothing else is
     * tried and the trader is not initialised. Otherwise the connected-children list is rebuilt
     * from the configured children in order, each child connected independently of the others.
     */
    method InitializeConnections(api: Api)
      requires Valid()
      modifies this
      ensures Valid() && config == old(config) && isActive == old(isActive)
      ensures MasterFails(key, api, config) ==>
        && !isInitialized
        && masterConnection == old(masterConnection) && masterConnected == old(masterConnected)
        && connectedChildren == old(connectedChildren) && childConnections == old(childConnections)
      ensures !MasterFails(key, api, config) ==>
        && isInitialized
        && (MasterAttempted(config) ==>
              masterConnected
              && masterConnection == CreateConnection(key, api, config.master.value.clientId, config.master.value.accessToken))
        && (!MasterAttempted(config) ==> masterConnected == old(masterConnected) && masterConnection == old(masterConnection))
        && connectedChildren == Admitted(key, api, config.ChildTable(), config.ChildTable().order)
        && childConnections == Register(old(childConnections), key, api, config.ChildTable(), config.ChildTable().order)
      ensures old(childConnections) == Empty() && old(connectedChildren) == [] ==> Consistent() && Tracked()
    {
      var master := config.master;
      if master.Some? && master.value.clientId != "" && Truthy(master.value.accessToken) {
        var conn := CreateConnection(key, api, master.value.clientId, master.value.accessToken);
        if conn.None? {
          isInitialized := false;
          return;
        }
        masterConnection := conn;
        masterConnected := true;
      }
      var table := config.ChildTable();
      var conns, connected := ConnectChildren(key, api, table, childConnections);
      ghost var start := childConnections;
      childConnections, connectedChildren := conns, connected;
      isInitialized := true;
      if start == Empty() {
        InitialisedRegistry(key, api, table);
      }
    }

    /** The accounts `get_all_margins` queries: the master if it has a connection, then every child connection. */
    function Sources(): (ss: seq<Source>)
      reads this
      requires Valid()
      ensures |ss| == (if masterConnection.Some? then 1 else 0) + |childConnections.order|
      ensures masterConnection.Some? ==> ss[0] == Source(MasterKey(config), masterConnection.value, MasterAccount)
      ensures ss[|ss| - |childConnections.order|..] == ChildSources(childConnections, childConnections.order)
    {
      var master := if masterConnection.Some? then [Source(MasterKey(config), masterConnection.value, MasterAccount)] else [];
      var children := ChildSources(childConnections, childConnections.order);
      assert (master + children)[|master|..] == children;
      master + children
    }

    /**
     * `get_all_margins`: queries the master (keyed by its configured client id) and then every child
     * connection (keyed by its client id, tagged with its multiplier and name). `None` is the
     * `TypeError` raised when an account's normaliser returned nothing.
     */
    method GetAllMargins(api: Api) returns (r: Option<map<string, Entry>>)
      requires Valid()
      ensures r == Collect(Sources(), api, AccountMargins)
    {
      var accounts := Sources();
      var margins: map<string, Entry> := map[];
      for j := 0 to |accounts|
        invariant Collect(accounts[..j], api, AccountMargins) == Some(margins)
      {
        var account := accounts[j];
        var m := AccountMargins(FundLimits(api, account.session));
        if m.None? {
          CollectExtend(accounts, j, api, AccountMargins);
          CollectPrefixFails(accounts, j + 1, api);
          return None;
        }
        CollectStep(accounts, j, api, AccountMargins, margins, m.value);
        margins := margins[account.clientId := Entry(m.value, account.kind)];
      }
      assert accounts[..|accounts|] == accounts;
      r := Some(margins);
    }

    /** `start_trading`: only an initialised trader becomes active. */
    method StartTrading() returns (started: bool)
      modifies this`isActive
      ensures started == isInitialized
      ensures isActive == (old(isActive) || isInitialized)
    {
      if isInitialized {
        isActive := true;
        return true;
      }
      return false;
    }

    /** `stop_trading`: always inactive afterwards. */
    method StopTrading()
      modifies this`isActive
      ensures !isActive
    {
      isActive := false;
    }

    /**
     * `add_child_account`: probes first; if the probe fails, or the configuration has no CHILD
     * table to write into, it raises (`ok` false) and nothing has changed. Otherwise the record is
     * upserted under `name` whatever `enabled` says, and only an enabled child is registered and
     * appended to the connected list.
     */
    method AddChildAccount(name: string, clientId: string, token: Ciphertext, multiplier: real, enabled: string, api: Api)
      returns (ok: bool)
      requires Valid()
      modifies this
      ensures Valid()
      ensures ok <==> CreateConnection(key, api, clientId, token).Some? && old(config.children).Some?
      ensures !ok ==> unchanged(this)
      ensures ok ==> config == old(config).(children := Some(old(config.children.value).Put(name, ChildRecord(clientId, token, multiplier, enabled))))
      ensures ok && enabled == "Y" ==>
        && childConnections == old(childConnections).Put(name, ChildConnection(CreateConnection(key, api, clientId, token).value, clientId, multiplier))
        && connectedChildren == old(connectedChildren) + [name]
      ensures enabled != "Y" ==> childConnections == old(childConnections) && connectedChildren == old(connectedChildren)
      ensures masterConnection == old(masterConnection) && masterConnected == old(masterConnected)
      ensures isInitialized == old(isInitialized) && isActive == old(isActive)
      ensures old(Consistent()) && old(Tracked()) && name !in old(childConnections.entries) ==> Consistent() && Tracked()
    {
      var conn := CreateConnection(key, api, clientId, token);
      if conn.None? || config.children.None? {
        return false;
      }
      var rec := ChildRecord(clientId, token, multiplier, enabled);
      var table := config.children.value;
      var c := ChildConnection(conn.value, clientId, multiplier);
      if Listed(connectedChildren, childConnections) && Backed(childConnections, table) && name !in childConnections.entries {
        ListedAfterAdd(connectedChildren, childConnections, name, c);
        BackedAfterAdd(childConnections, table, name, rec, c);
      }
      config := config.(children := Some(table.Put(name, rec)));
      if enabled == "Y" {
        childConnections := childConnections.Put(name, ChildConnection(conn.value, clientId, multiplier));
        connectedChildren := connectedChildren + [name];
      }
      ok := true;
    }

    /**
     * `remove_child_account`: deletes the name from the CHILD table, the connection dictionary and
     * the connected list, each only if present, and returns true. Only a configuration without a
     * CHILD table makes it fail (false), changing nothing.
     */
    method RemoveChildAccount(name: string) returns (ok: bool)
      requires Valid()
      modifies this
      ensures Valid()
      ensures ok == old(config.children).Some?
      ensures !ok ==> unchanged(this)
      ensures ok ==> config == old(config).(children := Some(old(config.children.value).Del(name)))
      ensures ok ==> childConnections == old(childConnections).Del(name)
      ensures ok ==> connectedChildren == RemoveFirst(old(connectedChildren), name)
      ensures masterConnection == old(masterConnection) && masterConnected == old(masterConnected)
      ensures isInitialized == old(isInitialized) && isActive == old(isActive)
      ensures old(Consistent()) ==> Consistent()
      ensures ok && old(Consistent()) ==> name !in connectedChildren && name !in childConnections.entries
      ensures old(Tracked()) ==> Tracked()
    {
      if config.children.None? {
        return false;
      }
      var table := config.children.value;
      RemovalKeepsRegistry(connectedChildren, childConnections, table, name);
      var connected := connectedChildren;
      if name in connected {
        connected := RemoveFirst(connected, name);
      }
      config := config.(children := Some(table.Del(name)));
      childConnections, connectedChildren := childConnections.Del(name), connected;
      ok := true;
    }

    /**
     * `update_master_account`: probes first; on failure it raises with nothing changed, on success
     * it replaces the MASTER record and the master connection.
     */
    method UpdateMasterAccount(clientId: string, token: Ciphertext, api: Api) returns (ok: bool)
      requires Valid()
      modifies this
      ensures Valid()
      ensures ok == CreateConnection(key, api, clientId, token).Some?
      ensures !ok ==> unchanged(this)
      ensures ok ==> config == old(config).(master := Some(MasterRecord(clientId, token)))
                     && masterConnection == CreateConnection(key, api, clientId, token) && masterConnected
      ensures childConnections == old(childConnections) && connectedChildren == old(connectedChildren)
      ensures isInitialized == old(isInitialized) && isActive == old(isActive)
    {
      var conn := CreateConnection(key, api, clientId, token);
      if conn.None? {
        return false;
      }
      config := config.(master := Some(MasterRecord(clientId, token)));
      masterConnection := conn;
      masterConnected := true;
      ok := true;
    }
  }

  /** Once some prefix of the accounts fails, the whole snapshot fails. */
  lemma CollectPrefixFails(ss: seq<Source>, j: nat, api: Api)
    requires j <= |ss| && Collect(ss[..j], api, AccountMargins).None?
    ensures Collect(ss, api, AccountMargins).None?
  {
    CollectAppend(ss[..j], ss[j..], api, AccountMargins);
    assert ss[..j] + ss[j..] == ss;
  }

  /**
   * A freshly built trader that initialised holds a master session exactly when the master was
   * tried, and that session belongs to the client id its margins are keyed by.
   */
  lemma MasterSessionTracksAttempt(t: DhanTrader, api: Api)
    requires t.Built(api) && t.isInitialized
    ensures t.masterConnection.Some? <==> MasterAttempted(t.config)
    ensures t.masterConnection.Some? ==> t.masterConnection.value.clientId == MasterKey(t.config)
  {
  }
}
