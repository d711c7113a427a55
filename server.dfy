/**
 * The JSON account and status endpoints of the Flask application (app.py): the master account
 * (GET/POST /api/accounts/master), the child accounts (GET/POST /api/accounts/children, PUT/DELETE
 * /api/accounts/children/<name>), the margins (GET /api/margins) and the trading status
 * (GET /api/trading/status). The application owns config.json and the global `trader`, which
 * stays `null` when it could not be built.
 */
module Server {
  import opened Wrappers
  import opened OrderedDict
  import opened Vault
  import opened Broker
  import opened Trader
  import opened Margins

  /** What `float(...)` makes of a JSON multiplier: a number, or a value it cannot convert (raises). */
  datatype Mult = Number(value: real) | NotNumber

  /** The JSON body of POST /api/accounts/master; an absent key is `None`. */
  datatype MasterRequest = MasterRequest(clientId: Option<string>, accessToken: Option<string>)

  /** The JSON body of POST /api/accounts/children; an absent key is `None`. */
  datatype ChildRequest = ChildRequest(
    name: Option<string>, clientId: Option<string>, accessToken: Option<string>,
    multiplier: Option<Mult>, enabled: Option<string>)

  /** The JSON body of PUT /api/accounts/children/<name>; every key is optional. */
  datatype ChildUpdate = ChildUpdate(
    clientId: Option<string>, accessToken: Option<string>, multiplier: Option<Mult>, enabled: Option<string>)

  /** The `error` of a failed JSON reply. `Thrown` is an exception's text returned as the error. */
  datatype Problem = MissingFields | NameExists | AccountNotFound | ConfigNotFound | NotInitialized | DeleteFailed | Thrown

  /** A JSON reply: `{'success': True, ...}` (status 200), or `{'success': False, 'error': ...}` with its status code. */
  datatype Reply = Done | Failure(code: int, problem: Problem)

  /** GET /api/accounts/master: the configured client id and whether the trader's master is connected; no token. */
  datatype MasterView = MasterView(clientId: string, connected: bool)

  /** One entry of GET /api/accounts/children; the token is left out. */
  datatype ChildView = ChildView(clientId: string, multiplier: real, enabled: string, connected: bool)

  /** GET /api/trading/status, without the `last_update` clock reading. */
  datatype Status = Status(active: bool, masterConnected: bool, childrenCount: nat)

  /** `float(data.get('multiplier', fallback))`: the fallback when absent, `None` when conversion raises. */
  function AsFloat(given: Option<Mult>, fallback: real): (r: Option<real>)
    ensures given.None? ==> r == Some(fallback)
    ensures r.None? <==> given == Some(NotNumber)
    ensures given.Some? && given.value.Number? ==> r == Some(given.value.value)
  {
    match given
    case None => Some(fallback)
    case Some(Number(v)) => Some(v)
    case Some(NotNumber) => None
  }

  /** The client id GET /api/accounts/master reports: the MASTER record's, or '' when there is none or the file cannot be read. */
  function ConfiguredMasterId(file: Stored): (id: string)
    ensures file.Json? && file.config.master.Some? ==> id == file.config.master.value.clientId
    ensures !file.Json? || file.config.master.None? ==> id == ""
  {
    if file.Json? && file.config.master.Some? then file.config.master.value.clientId else ""
  }

  /** The CHILD table as the handlers read it from config.json: `config.get('CHILD', {})`, `None` when the file cannot be read. */
  function FileChildren(file: Stored): (r: Option<Dict<ChildRecord>>)
    requires file.Json? ==> file.config.Valid()
    ensures r.Some? <==> file.Json?
    ensures r.Some? ==> r.value.Valid() && r.value == file.config.ChildTable()
  {
    if file.Json? then Some(file.config.ChildTable()) else None
  }

  /** The entry GET /api/accounts/children shows for one record. */
  function Describe(rec: ChildRecord, connected: bool): ChildView {
    ChildView(rec.clientId, rec.multiplier, rec.enabled, connected)
  }

  /**
   * The safe listing of a CHILD table: the same names in the same order, each with its client id,
   * multiplier, enabled flag and whether it is on the trader's connected list.
   */
  function ChildViews(table: Dict<ChildRecord>, connected: seq<string>): (r: Dict<ChildView>)
    requires table.Valid()
    ensures r.Valid() && r.order == table.order
    ensures forall n :: n in r.entries <==> n in table.entries
    ensures forall n :: n in r.entries ==>
      && r.entries[n].clientId == table.entries[n].clientId
      && r.entries[n].multiplier == table.entries[n].multiplier
      && r.entries[n].enabled == table.entries[n].enabled
      && (r.entries[n].connected <==> n in connected)
  {
    Dict(table.order, map n | n in table.entries :: Describe(table.entries[n], n in connected))
  }

  /** Two tables that differ at most in their tokens. */
  ghost predicate SameButTokens(t1: Dict<ChildRecord>, t2: Dict<ChildRecord>) {
    && t1.order == t2.order
    && t1.entries.Keys == t2.entries.Keys
    && forall n :: n in t1.entries ==>
         t1.entries[n].(accessToken := Opaque("")) == t2.entries[n].(accessToken := Opaque(""))
  }

  /** The listing reveals nothing about the tokens: tables that differ only in tokens list the same. */
  lemma ViewsHideTokens(t1: Dict<ChildRecord>, t2: Dict<ChildRecord>, connected: seq<string>)
    requires t1.Valid() && t2.Valid() && SameButTokens(t1, t2)
    ensures ChildViews(t1, connected) == ChildViews(t2, connected)
  {
    var v1, v2 := ChildViews(t1, connected), ChildViews(t2, connected);
    forall n | n in v1.entries
      ensures v1.entries[n] == v2.entries[n]
    {
      assert t1.entries[n].(accessToken := Opaque("")) == t2.entries[n].(accessToken := Opaque(""));
    }
    assert v1.entries == v2.entries;
  }

  /**
   * The configuration POST /api/accounts/master writes: the file's configuration when it can be
   * read, else an empty dictionary, with MASTER replaced by the new record.
   */
  function PostedMasterConfig(file: Stored, rec: MasterRecord): (c: Config)
    requires file.Json? ==> file.config.Valid()
    ensures c.Valid() && c.master == Some(rec)
    ensures file.Json? ==> c.children == file.config.children
    ensures !file.Json? ==> c.children.None?
  {
    var base := if file.Json? then file.config else Config(None, None);
    base.(master := Some(rec))
  }

  /**
   * The configuration the master POST evidently means to write: like `PostedMasterConfig`, but an
   * unreadable file starts from the default configuration, and a CHILD table is always present.
   */
  function PostedMasterConfigFixed(file: Stored, rec: MasterRecord): (c: Config)
    requires file.Json? ==> file.config.Valid()
    ensures c.Valid() && c.master == Some(rec) && c.children.Some?
    ensures file.Json? ==> c.ChildTable() == file.config.ChildTable()
    ensures file.Json? && file.config.children.Some? ==> c.children == file.config.children
  {
    var base := if file.Json? then file.config else DefaultConfig();
    base.(master := Some(rec), children := Some(base.ChildTable()))
  }

  /**
   * The token PUT stores: the new one, encrypted, when the body carries a non-empty token, else the
   * record's existing ciphertext.
   */
  function UpdatedToken(key: string, nonce: nat, existing: ChildRecord, req: ChildUpdate): (t: Ciphertext)
    requires key != ""
    ensures req.accessToken.Some? && req.accessToken.value != "" ==> Decrypt(key, t) == Some(req.accessToken.value)
    ensures req.accessToken.None? || req.accessToken.value == "" ==> t == existing.accessToken
  {
    if req.accessToken.Some? && req.accessToken.value != "" then Encrypt(key, nonce, req.accessToken.value)
    else existing.accessToken
  }

  /**
   * The record PUT asks `add_child_account` to store: each field the body gives replaces the old
   * one, each it omits keeps the old value; `None` when the multiplier does not convert.
   */
  function Merged(existing: ChildRecord, req: ChildUpdate, token: Ciphertext): (r: Option<ChildRecord>)
    ensures r.None? <==> req.multiplier == Some(NotNumber)
    ensures r.Some? ==>
      && r.value.clientId == req.clientId.GetOr(existing.clientId)
      && r.value.accessToken == token
      && r.value.enabled == req.enabled.GetOr(existing.enabled)
      && (req.multiplier.None? ==> r.value.multiplier == existing.multiplier)
      && (req.multiplier.Some? ==> r.value.multiplier == req.multiplier.value.value)
  {
    match AsFloat(req.multiplier, existing.multiplier)
    case None => None
    case Some(m) => Some(ChildRecord(req.clientId.GetOr(existing.clientId), token, m, req.enabled.GetOr(existing.enabled)))
  }

  /** A PUT with an empty body stores the record exactly as it was, token included. */
  lemma EmptyUpdateKeepsRecord(key: string, nonce: nat, existing: ChildRecord)
    requires key != ""
    ensures Merged(existing, ChildUpdate(None, None, None, None),
                   UpdatedToken(key, nonce, existing, ChildUpdate(None, None, None, None))) == Some(existing)
  {
  }

  /** A PUT that only changes the multiplier keeps the client id, the token and the enabled flag. */
  lemma MultiplierOnlyUpdate(key: string, nonce: nat, existing: ChildRecord, m: real)
    requires key != ""
    ensures var req := ChildUpdate(None, None, Some(Number(m)), None);
      Merged(existing, req, UpdatedToken(key, nonce, existing, req)) == Some(existing.(multiplier := m))
  {
  }

  class App {
    /** The encryption key every `EncryptionManager` reads from the environment; its presence is assumed. */
    const key: string
    /** config.json. */
    var file: Stored
    /** The global `trader`; `null` until a `DhanTrader()` succeeds. */
    var trader: DhanTrader?

    /**
     * The trader, when there is one, is valid, its list and dictionary are in step and backed by its
     * configuration, and that configuration is what config.json holds, or the built-in default
     * while the file is still missing.
     */
    ghost predicate Valid()
      reads this, trader
    {
      && key != ""
      && (file.Json? ==> file.config.Valid())
      && (trader != null ==>
            && trader.key == key && trader.Valid() && trader.Consistent() && trader.Tracked()
            && (file == Json(trader.config) || (file == Missing && trader.config == DefaultConfig())))
    }

    /** Start-up: `initialize_trader()`; the trader stays `null` when config.json cannot be parsed. */
    constructor (key: string, file: Stored, api: Api)
      requires key != "" && (file.Json? ==> file.config.Valid())
      ensures Valid() && this.key == key && this.file == file
      ensures trader == null <==> file.Corrupt?
      ensures trader != null ==> fresh(trader) && trader.config == LoadConfig(file).value && trader.Built(api)
    {
      this.key := key;
      this.file := file;
      var loaded := LoadConfig(file);
      if loaded.Some? {
        trader := new DhanTrader(key, loaded.value, api);
      } else {
        trader := null;
      }
    }

    /** GET /api/accounts/master. */
    method GetMaster() returns (v: MasterView)
      requires Valid()
      ensures v.clientId == ConfiguredMasterId(file)
      ensures v.connected <==> file.Json? && trader != null && trader.masterConnected
    {
      v := MasterView(ConfiguredMasterId(file), file.Json? && trader != null && trader.masterConnected);
    }

    /**
     * POST /api/accounts/master: with a client id and a token, writes the configuration with the new
     * MASTER record (token encrypted) and rebuilds the trader from it; a missing key raises with
     * nothing written.
     */
    method PostMaster(req: MasterRequest, nonce: nat, api: Api) returns (reply: Reply)
      requires Valid()
      modifies this
      ensures Valid()
      ensures reply.Done? <==> req.clientId.Some? && req.accessToken.Some?
      ensures !reply.Done? ==> reply == Failure(400, Thrown) && unchanged(this)
      ensures reply.Done? ==>
        && file == Json(PostedMasterConfig(old(file), MasterRecord(req.clientId.value, Encrypt(key, nonce, req.accessToken.value))))
        && ConfiguredMasterId(file) == req.clientId.value
        && trader != null && fresh(trader) && trader.config == file.config && trader.Built(api)
    {
      if req.accessToken.None? || req.clientId.None? {
        return Failure(400, Thrown);
      }
      var token := Encrypt(key, nonce, req.accessToken.value);
      var written := PostedMasterConfig(file, MasterRecord(req.clientId.value, token));
      file := Json(written);
      trader := new DhanTrader(key, written, api);
      reply := Done;
    }

    /**
     * GET /api/accounts/children: the CHILD table of config.json without tokens, each name marked
     * connected when it is on the trader's list; an empty listing when the file cannot be read.
     */
    method GetChildren() returns (views: Dict<ChildView>)
      requires Valid()
      ensures views.Valid()
      ensures FileChildren(file).None? ==> views.entries == map[]
      ensures FileChildren(file).Some? ==>
        views == ChildViews(FileChildren(file).value, if trader != null then trader.connectedChildren else [])
      ensures trader != null ==> forall n :: n in views.entries ==>
        (views.entries[n].connected <==> n in trader.childConnections.entries)
    {
      var table := FileChildren(file);
      if table.None? {
        return Empty();
      }
      var connected := if trader != null then trader.connectedChildren else [];
      views := ChildViews(table.value, connected);
    }

    /**
     * POST /api/accounts/children: needs a name, a client id and a token; refuses a name config.json
     * already lists; encrypts the token; then, only if there is a trader, converts the multiplier
     * (default 1.0) and calls `add_child_account` (enabled defaults to 'Y'), which saves config.json.
     */
    method PostChild(req: ChildRequest, nonce: nat, api: Api) returns (reply: Reply)
      requires Valid()
      modifies this, trader
      ensures Valid() && trader == old(trader)
      ensures reply == Failure(400, MissingFields) <==> req.name.None? || req.clientId.None? || req.accessToken.None?
      ensures reply == Failure(400, NameExists) <==>
        && req.name.Some? && req.clientId.Some? && req.accessToken.Some?
        && FileChildren(old(file)).Some? && req.name.value in FileChildren(old(file)).value.entries
      ensures reply.Done? <==>
        && req.name.Some? && req.clientId.Some? && req.accessToken.Some?
        && (FileChildren(old(file)).Some? ==> req.name.value !in FileChildren(old(file)).value.entries)
        && trader != null && AsFloat(req.multiplier, 1.0).Some?
        && CreateConnection(key, api, req.clientId.value, Encrypt(key, nonce, req.accessToken.value)).Some?
        && old(trader.config.children).Some?
      ensures || reply.Done? || reply == Failure(400, MissingFields) || reply == Failure(400, NameExists)
              || reply == (if trader == null then Failure(500, NotInitialized) else Failure(400, Thrown))
      ensures !reply.Done? ==> file == old(file) && (trader != null ==> unchanged(trader))
      ensures reply.Done? ==>
        && file == Json(trader.config) && req.name.value in file.config.ChildTable().entries
        && var rec := file.config.ChildTable().entries[req.name.value];
        && rec == ChildRecord(req.clientId.value, rec.accessToken, AsFloat(req.multiplier, 1.0).value, req.enabled.GetOr("Y"))
        && Decrypt(key, rec.accessToken) == Some(req.accessToken.value)
      ensures reply.Done? ==>
        var name, token := req.name.value, Encrypt(key, nonce, req.accessToken.value);
        var multiplier, enabled := AsFloat(req.multiplier, 1.0).value, req.enabled.GetOr("Y");
        var conn := CreateConnection(key, api, req.clientId.value, token).value;
        && trader.config == old(trader.config).(children := Some(old(trader.config).ChildTable().Put(name, ChildRecord(req.clientId.value, token, multiplier, enabled))))
        && (enabled == "Y" ==>
              && trader.childConnections == old(trader.childConnections).Put(name, ChildConnection(conn, req.clientId.value, multiplier))
              && trader.connectedChildren == old(trader.connectedChildren) + [name])
        && (enabled != "Y" ==>
              trader.childConnections == old(trader.childConnections) && trader.connectedChildren == old(trader.connectedChildren))
        && trader.masterConnection == old(trader.masterConnection) && trader.masterConnected == old(trader.masterConnected)
        && trader.isInitialized == old(trader.isInitialized) && trader.isActive == old(trader.isActive)
    {
      if req.name.None? || req.clientId.None? || req.accessToken.None? {
        return Failure(400, MissingFields);
      }
      var name := req.name.value;
      var table := FileChildren(file);
      if table.Some? && name in table.value.entries {
        return Failure(400, NameExists);
      }
      var token := Encrypt(key, nonce, req.accessToken.value);
      if trader == null {
        return Failure(500, NotInitialized);
      }
      var multiplier := AsFloat(req.multiplier, 1.0);
      if multiplier.None? {
        return Failure(400, Thrown);
      }
      assert name !in trader.childConnections.entries;
      var ok := trader.AddChildAccount(name, req.clientId.value, token, multiplier.value, req.enabled.GetOr("Y"), api);
      if !ok {
        return Failure(400, Thrown);
      }
      file := Json(trader.config);
      reply := Done;
    }

    /**
     * PUT /api/accounts/children/<name>: needs config.json to list the name; removes the account
     * through the trader, then re-adds it with each field the body gives and the old value of each it
     * omits. A failure after the removal (an unconvertible multiplier, a failed probe) leaves the
     * account removed.
     */
    method PutChild(name: string, req: ChildUpdate, nonce: nat, api: Api) returns (reply: Reply)
      requires Valid()
      modifies this, trader
      ensures Valid() && trader == old(trader)
      ensures reply == Failure(500, ConfigNotFound) <==> FileChildren(old(file)).None?
      ensures reply == Failure(404, AccountNotFound) <==>
        FileChildren(old(file)).Some? && name !in FileChildren(old(file)).value.entries
      ensures FileChildren(old(file)).Some? && name in FileChildren(old(file)).value.entries ==>
        var old_rec := FileChildren(old(file)).value.entries[name];
        var rec := Merged(old_rec, req, UpdatedToken(key, nonce, old_rec, req));
        && (reply.Done? <==>
              trader != null && rec.Some? && CreateConnection(key, api, rec.value.clientId, rec.value.accessToken).Some?)
        && (reply.Done? ==>
              FileChildren(file).Some? && name in FileChildren(file).value.entries
              && FileChildren(file).value.entries[name] == rec.value)
        && (trader != null && !reply.Done? ==> FileChildren(file).Some? && name !in FileChildren(file).value.entries)
        && (trader == null ==> reply == Failure(500, NotInitialized) && file == old(file))
        && (trader != null ==>
              var rest, kept := old(trader.childConnections).Del(name), RemoveFirst(old(trader.connectedChildren), name);
              && (reply.Done? && rec.value.enabled == "Y" ==>
                    var conn := CreateConnection(key, api, rec.value.clientId, rec.value.accessToken).value;
                    && trader.childConnections == rest.Put(name, ChildConnection(conn, rec.value.clientId, rec.value.multiplier))
                    && trader.connectedChildren == kept + [name])
              && (!reply.Done? || rec.value.enabled != "Y" ==>
                    trader.childConnections == rest && trader.connectedChildren == kept)
              && trader.masterConnection == old(trader.masterConnection) && trader.masterConnected == old(trader.masterConnected)
              && trader.isInitialized == old(trader.isInitialized) && trader.isActive == old(trader.isActive))
      ensures reply == Failure(404, AccountNotFound) || reply == Failure(500, ConfigNotFound) ==>
        file == old(file) && (trader != null ==> unchanged(trader))
      ensures trader != null && FileChildren(old(file)).Some? && name in FileChildren(old(file)).value.entries ==>
        var old_rec := FileChildren(old(file)).value.entries[name];
        var rec := Merged(old_rec, req, UpdatedToken(key, nonce, old_rec, req));
        var rest := old(trader.config).ChildTable().Del(name);
        && trader.config == old(trader.config).(children := Some(if reply.Done? then rest.Put(name, rec.value) else rest))
        && file == Json(trader.config)
        && (!reply.Done? ==> reply == Failure(400, Thrown))
    {
      var table := FileChildren(file);
      if table.None? {
        return Failure(500, ConfigNotFound);
      }
      if name !in table.value.entries {
        return Failure(404, AccountNotFound);
      }
      var existing := table.value.entries[name];
      if trader != null {
        var removed := trader.RemoveChildAccount(name);
        file := Json(trader.config);
      }
      var token := UpdatedToken(key, nonce, existing, req);
      if trader == null {
        return Failure(500, NotInitialized);
      }
      var rec := Merged(existing, req, token);
      if rec.None? {
        return Failure(400, Thrown);
      }
      var ok := trader.AddChildAccount(name, rec.value.clientId, rec.value.accessToken, rec.value.multiplier, rec.value.enabled, api);
      if !ok {
        return Failure(400, Thrown);
      }
      file := Json(trader.config);
      reply := Done;
    }

    /**
     * DELETE /api/accounts/children/<name>: needs config.json to list the name; then removes it
     * through the trader, which saves config.json.
     */
    method DeleteChild(name: string) returns (reply: Reply)
      requires Valid()
      modifies this, trader
      ensures Valid() && trader == old(trader)
      ensures reply == Failure(500, ConfigNotFound) <==> FileChildren(old(file)).None?
      ensures reply == Failure(404, AccountNotFound) <==>
        FileChildren(old(file)).Some? && name !in FileChildren(old(file)).value.entries
      ensures reply == Failure(500, NotInitialized) <==>
        FileChildren(old(file)).Some? && name in FileChildren(old(file)).value.entries && trader == null
      ensures reply != Failure(400, DeleteFailed)
      ensures reply.Done? <==>
        FileChildren(old(file)).Some? && name in FileChildren(old(file)).value.entries && trader != null
      ensures reply.Done? ==>
        && FileChildren(file).Some? && FileChildren(file).value == FileChildren(old(file)).value.Del(name)
        && name !in trader.childConnections.entries && name !in trader.connectedChildren
        && trader.config == old(trader.config).(children := Some(old(trader.config).ChildTable().Del(name)))
        && trader.childConnections == old(trader.childConnections).Del(name)
        && trader.connectedChildren == RemoveFirst(old(trader.connectedChildren), name)
        && trader.masterConnection == old(trader.masterConnection) && trader.masterConnected == old(trader.masterConnected)
        && trader.isInitialized == old(trader.isInitialized) && trader.isActive == old(trader.isActive)
      ensures !reply.Done? ==> file == old(file) && (trader != null ==> unchanged(trader))
    {
      var table := FileChildren(file);
      if table.None? {
        return Failure(500, ConfigNotFound);
      }
      if name !in table.value.entries {
        return Failure(404, AccountNotFound);
      }
      if trader == null {
        return Failure(500, NotInitialized);
      }
      var ok := trader.RemoveChildAccount(name);
      if !ok {
        return Failure(400, DeleteFailed);
      }
      file := Json(trader.config);
      reply := Done;
    }

    /**
     * GET /api/margins: an empty snapshot unless there is an initialised trader, and otherwise the
     * trader's snapshot; `None` is the exception that ends the request.
     */
    method GetMargins(api: Api) returns (r: Option<map<string, Entry>>)
      requires Valid()
      ensures trader == null || !trader.isInitialized ==> r == Some(map[])
      ensures trader != null && trader.isInitialized ==> r == Collect(trader.Sources(), api, AccountMargins)
    {
      if trader == null || !trader.isInitialized {
        return Some(map[]);
      }
      r := trader.GetAllMargins(api);
    }

    /**
     * GET /api/trading/status: the trader's flags and the length of its connected list, which is the
     * number of live child connections; all false and zero without a trader.
     */
    method TradingStatus() returns (s: Status)
      requires Valid()
      ensures trader == null ==> s == Status(false, false, 0)
      ensures trader != null ==>
        && s.active == trader.isActive && s.masterConnected == trader.masterConnected
        && s.childrenCount == |trader.connectedChildren| == |trader.childConnections.entries|
    {
      if trader == null {
        return Status(false, false, 0);
      }
      ListedCount(trader.connectedChildren, trader.childConnections);
      s := Status(trader.isActive, trader.masterConnected, |trader.connectedChildren|);
    }
  }

  /**
   * A fresh install (no config.json): the master POST succeeds, but every later child POST fails,
   * even when the child's probe would succeed, because the written file has no CHILD table.
   */
  method FreshInstallRejectsChildren(key: string, api: Api, masterId: string, masterToken: string, child: ChildRequest, n1: nat, n2: nat)
    returns (master: Reply, added: Reply)
    requires key != ""
    requires child.name.Some? && child.clientId.Some? && child.accessToken.Some? && child.multiplier != Some(NotNumber)
    ensures master == Done
    ensures added == Failure(400, Thrown)
  {
    var app := new App(key, Missing, api);
    master := app.PostMaster(MasterRequest(Some(masterId), Some(masterToken)), n1, api);
    assert app.trader.config.children.None? && app.file.config.ChildTable() == Empty();
    added := app.PostChild(child, n2, api);
  }

  /** With the corrected master POST, a trader built on a fresh install accepts any child whose probe succeeds. */
  method FixedInstallAcceptsChildren(key: string, api: Api, master: MasterRecord, name: string, clientId: string,
                                     token: Ciphertext, multiplier: real, enabled: string)
    returns (ok: bool)
    requires key != ""
    ensures ok <==> CreateConnection(key, api, clientId, token).Some?
  {
    var trader := new DhanTrader(key, PostedMasterConfigFixed(Missing, master), api);
    ok := trader.AddChildAccount(name, clientId, token, multiplier, enabled, api);
  }
}
