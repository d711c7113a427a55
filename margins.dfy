/**
 * Margin normalisation and aggregation (`get_account_margins`, `get_all_margins` in
 * core/dhan_trader.py). The aggregate is specified here as a function of the list of accounts to
 * query, in query order; the trader's method is proved equal to it.
 */
module Margins {
  import opened Wrappers
  import opened Broker

  /** A normalised margin record: `status: 'success'` with three amounts, or `status: 'error'`. */
  datatype Margin = Funds(available: int, used: int, cash: int) | Failed(reason: string)

  /** The tags `get_all_margins` adds: `type: 'master'`, or `type: 'child'` with multiplier and name. */
  datatype Kind = MasterAccount | ChildAccount(multiplier: real, name: string)

  datatype Entry = Entry(margin: Margin, kind: Kind)

  /** One account to query: the snapshot key (its client id), its session and its tag. */
  datatype Source = Source(clientId: string, session: Session, kind: Kind)

  /** A per-account normaliser; `None` is Python's `None` coming back from it. */
  type Normaliser = Response -> Option<Margin>

  /**
   * `get_account_margins`: a success reply is normalised, an exception (a raised call or a missing
   * `status`/`data` key) becomes an error record, and any other status falls off the end of the
   * function, which returns `None`.
   */
  function AccountMargins(resp: Response): (r: Option<Margin>)
    ensures r.None? <==> resp.Reply? && resp.status.Some? && resp.status.value != "success"
    ensures (r.Some? && r.value.Funds?) <==> ProbeOk(resp) && resp.data.Some?
    ensures r.Some? && r.value.Funds? ==>
      var f := resp.data.value;
      r.value == Funds(f.equityAmount.GetOr(0) + f.commodityAmount.GetOr(0), f.utilisedAmount.GetOr(0), f.openingBalance.GetOr(0))
  {
    match resp
    case Raised(e) => Some(Failed(e))
    case Reply(status, data) =>
      if status.None? then Some(Failed("'status'"))
      else if status.value != "success" then None
      else if data.None? then Some(Failed("'data'"))
      else
        var f := data.value;
        Some(Funds(f.equityAmount.GetOr(0) + f.commodityAmount.GetOr(0), f.utilisedAmount.GetOr(0), f.openingBalance.GetOr(0)))
  }

  /** What one account contributes, as the normaliser sees its fund-limits reply. */
  function Fetched(s: Source, api: Api, norm: Normaliser): Option<Margin> {
    norm(FundLimits(api, s.session))
  }

  /**
   * The snapshot after querying `sources` in order: each account writes its entry under its client
   * id, overwriting an earlier one; `None` is the `TypeError` raised when the normaliser returned
   * nothing and the loop then tags that `None`.
   */
  function Collect(sources: seq<Source>, api: Api, norm: Normaliser): (r: Option<map<string, Entry>>)
    ensures sources == [] ==> r == Some(map[])
    ensures r.Some? && sources != [] ==>
      var last := sources[|sources| - 1];
      && Fetched(last, api, norm).Some? && last.clientId in r.value
      && r.value[last.clientId] == Entry(Fetched(last, api, norm).value, last.kind)
    decreases |sources|
  {
    if sources == [] then Some(map[])
    else
      var last := sources[|sources| - 1];
      match Collect(sources[..|sources| - 1], api, norm)
      case None => None
      case Some(m) =>
        match Fetched(last, api, norm)
        case None => None
        case Some(g) => Some(m[last.clientId := Entry(g, last.kind)])
  }

  /** Querying one more account extends the snapshot of the accounts before it by that account's entry. */
  lemma CollectExtend(ss: seq<Source>, j: nat, api: Api, norm: Normaliser)
    requires j < |ss|
    ensures Collect(ss[..j + 1], api, norm)
         == if Collect(ss[..j], api, norm).Some? && Fetched(ss[j], api, norm).Some?
            then Some(Collect(ss[..j], api, norm).value[ss[j].clientId := Entry(Fetched(ss[j], api, norm).value, ss[j].kind)])
            else None
  {
    assert ss[..j + 1][..j] == ss[..j];
  }

  /** One successful query extends the snapshot of the accounts before it by that account's entry. */
  lemma CollectStep(ss: seq<Source>, j: nat, api: Api, norm: Normaliser, m: map<string, Entry>, g: Margin)
    requires j < |ss| && Collect(ss[..j], api, norm) == Some(m) && Fetched(ss[j], api, norm) == Some(g)
    ensures Collect(ss[..j + 1], api, norm) == Some(m[ss[j].clientId := Entry(g, ss[j].kind)])
  {
    CollectExtend(ss, j, api, norm);
  }

  /** The snapshot is lost exactly when some account's normalised reply is nothing. */
  lemma {:induction false} CollectFails(ss: seq<Source>, api: Api, norm: Normaliser)
    ensures Collect(ss, api, norm).None? <==> exists i :: 0 <= i < |ss| && Fetched(ss[i], api, norm).None?
  {
    if ss != [] {
      var init := ss[..|ss| - 1];
      CollectFails(init, api, norm);
      assert forall i :: 0 <= i < |init| ==> init[i] == ss[i];
    }
  }

  /** A snapshot has one key per distinct client id queried, and no other. */
  lemma {:induction false} CollectKeys(ss: seq<Source>, api: Api, norm: Normaliser)
    requires Collect(ss, api, norm).Some?
    ensures Collect(ss, api, norm).value.Keys == set i | 0 <= i < |ss| :: ss[i].clientId
  {
    if ss != [] {
      var init := ss[..|ss| - 1];
      CollectKeys(init, api, norm);
      assert forall i :: 0 <= i < |init| ==> init[i] == ss[i];
      assert (set i | 0 <= i < |ss| :: ss[i].clientId)
          == (set i | 0 <= i < |init| :: init[i].clientId) + {ss[|ss| - 1].clientId};
    }
  }

  /** Querying one list after another: the later accounts' entries win on a shared client id. */
  lemma {:induction false} CollectAppend(a: seq<Source>, b: seq<Source>, api: Api, norm: Normaliser)
    ensures Collect(a + b, api, norm)
         == if Collect(a, api, norm).Some? && Collect(b, api, norm).Some?
            then Some(Collect(a, api, norm).value + Collect(b, api, norm).value)
            else None
  {
    if b == [] {
      assert a + b == a;
      if Collect(a, api, norm).Some? {
        var ma := Collect(a, api, norm).value;
        assert ma + map[] == ma;
      }
    } else {
      var init, last := b[..|b| - 1], b[|b| - 1];
      CollectAppend(a, init, api, norm);
      assert (a + b)[..|a + b| - 1] == a + init;
      assert (a + b)[|a + b| - 1] == last;
      if Collect(a, api, norm).Some? && Collect(init, api, norm).Some? && Fetched(last, api, norm).Some? {
        var ma, mi := Collect(a, api, norm).value, Collect(init, api, norm).value;
        var e := Entry(Fetched(last, api, norm).value, last.kind);
        assert (ma + mi)[last.clientId := e] == ma + mi[last.clientId := e];
      }
    }
  }

  /** Every entry of a snapshot is the normalised reply of a queried account with that client id, with its tag. */
  lemma {:induction false} CollectProvenance(ss: seq<Source>, api: Api, norm: Normaliser, k: string)
    requires Collect(ss, api, norm).Some? && k in Collect(ss, api, norm).value
    ensures exists i :: 0 <= i < |ss| && ss[i].clientId == k && Fetched(ss[i], api, norm).Some?
                        && Collect(ss, api, norm).value[k] == Entry(Fetched(ss[i], api, norm).value, ss[i].kind)
  {
    var n := |ss|;
    var init := ss[..n - 1];
    if ss[n - 1].clientId != k {
      CollectProvenance(init, api, norm, k);
      var i :| 0 <= i < |init| && init[i].clientId == k && Fetched(init[i], api, norm).Some?
               && Collect(init, api, norm).value[k] == Entry(Fetched(init[i], api, norm).value, init[i].kind);
      assert init[i] == ss[i];
    } else {
      assert ss[n - 1].clientId == k;
    }
  }

  /**
   * A child whose client id equals the master's replaces the master's entry: the master is queried
   * first and the snapshot is keyed by client id.
   */
  lemma ChildOverridesMaster(master: Source, children: seq<Source>, api: Api, norm: Normaliser, i: nat)
    requires master.kind == MasterAccount
    requires forall j :: 0 <= j < |children| ==> children[j].kind.ChildAccount?
    requires i < |children| && children[i].clientId == master.clientId
    requires Collect([master] + children, api, norm).Some?
    ensures master.clientId in Collect([master] + children, api, norm).value
    ensures Collect([master] + children, api, norm).value[master.clientId].kind.ChildAccount?
  {
    CollectAppend([master], children, api, norm);
    CollectKeys(children, api, norm);
    CollectProvenance(children, api, norm, master.clientId);
  }

  /**
   * As written, one account whose fund-limits reply has a status other than 'success' makes the
   * whole snapshot fail, whatever the other accounts answer.
   */
  lemma NonSuccessStatusBlanksSnapshot(ss: seq<Source>, api: Api, i: nat)
    requires i < |ss|
    requires FundLimits(api, ss[i].session).Reply?
    requires FundLimits(api, ss[i].session).status.Some? && FundLimits(api, ss[i].session).status.value != "success"
    ensures Collect(ss, api, AccountMargins) == None
  {
    CollectFails(ss, api, AccountMargins);
    assert Fetched(ss[i], api, AccountMargins).None?;
  }

  /**
   * The normaliser as evidently intended: a reply with a status other than 'success' is reported
   * as an error record instead of nothing; every other reply is normalised as before.
   */
  function ReportedMargins(resp: Response): (m: Margin)
    ensures AccountMargins(resp).Some? ==> m == AccountMargins(resp).value
    ensures m.Funds? <==> ProbeOk(resp) && resp.data.Some?
  {
    match AccountMargins(resp)
    case Some(g) => g
    case None => Failed("status " + resp.status.value)
  }

  /** `ReportedMargins` in the normaliser's shape. */
  function Reported(resp: Response): Option<Margin> {
    Some(ReportedMargins(resp))
  }

  /**
   * With the corrected normaliser the snapshot always exists and holds an entry for every queried
   * client id, however the individual accounts answer.
   */
  lemma IsolatedSnapshotComplete(ss: seq<Source>, api: Api)
    ensures Collect(ss, api, Reported).Some?
    ensures Collect(ss, api, Reported).value.Keys == set i | 0 <= i < |ss| :: ss[i].clientId
  {
    CollectFails(ss, api, Reported);
    CollectKeys(ss, api, Reported);
  }

  /** Where the code as written produces a snapshot, the corrected one produces the same snapshot. */
  lemma {:induction false} IsolatedAgreesWhenAllSucceed(ss: seq<Source>, api: Api)
    requires Collect(ss, api, AccountMargins).Some?
    ensures Collect(ss, api, Reported) == Collect(ss, api, AccountMargins)
  {
    if ss != [] {
      IsolatedAgreesWhenAllSucceed(ss[..|ss| - 1], api);
    }
  }
}
