# Dhan copy-trader account core, modelled in Dafny

This project models the account-management core of Dhan_CopyTrader, a copy-trading tool. The tool
keeps one master brokerage account and any number of child accounts in `config.json`, with their
access tokens encrypted. It tries the master only when its record has both a client id and a
token, and a child only when it is enabled and has a client id; a tried account gets a broker
session when its probe (`get_fund_limits`) succeeds. It also offers JSON endpoints that list, add, update and delete
accounts and that report margins and trading status.

The model covers these parts:

- `DhanTrader` (core/dhan_trader.py) is a class, `Trader.DhanTrader`. Its configuration, master
  session, child-connection dictionary, connected-children list and flags are fields that its
  methods update.
  - Python's insertion-ordered `dict` is `OrderedDict.Dict`, an order plus a map. `list.remove` is
    `OrderedDict.RemoveFirst`.
  - Initialisation, add, remove and master update are methods. Initialisation is proved against
    specification functions: `Admitted` (the children it connects, in order) and `Register` (the
    connection dictionary it builds). Add and remove state their new state with `Dict.Put`,
    `Dict.Del` and `RemoveFirst`. Master update states its new MASTER record and session.
  - Two invariants are proved to be kept:
    - `Consistent`: the connected list names each connection exactly once.
    - `Tracked`: every connection mirrors an enabled record of the CHILD table.
- Margin aggregation (`get_account_margins`, `get_all_margins`) is specified by `Margins.Collect`, a
  function over the list of accounts in query order. The trader's loop is proved equal to it.
- The Flask handlers (app.py) are methods of `Server.App`, which holds config.json and the global
  `trader`. They cover the master account (GET/POST), the child accounts (GET/POST, PUT/DELETE by
  name), the margins and the trading status. Each reply is a `Reply`: success, or a status code with an error.
- The broker (`dhanhq`) is an oracle parameter `Api`. It maps a client id and a plaintext token to
  the fund-limits reply. Fernet encryption (core/encryption.py) is a symbolic `Ciphertext`. A random
  `nonce` parameter stands for Fernet's IV and timestamp.
- `validate_credentials` (streamlit-app/src/utils/dhan_helper.py) is `Credentials.ValidateCredentials`.

Where the code writes `save_config()`, the model has the calling handler store the trader's new
configuration in `App.file` right after the successful `add_child_account` or
`remove_child_account`. The `save_config()` inside `update_master_account` has no counterpart (see
"Left out").

A PUT removes the account first and only then re-adds it. When the re-add fails (a multiplier that
does not convert, a failed probe), the account stays removed. `Server.App.PutChild` states this
behaviour as it is.

## Model

| member | source | states |
|---|---|---|
| OrderedDict.RemoveFirst | core/dhan_trader.py:197-198 | `list.remove` after the membership test: an absent element leaves the list as it is; a present one makes it exactly one shorter |
| OrderedDict.RemoveFirstMultiset | core/dhan_trader.py:197-198 | the removal takes away one occurrence of the element and nothing else |
| OrderedDict.RemoveFirstCutsOne | core/dhan_trader.py:197-198 | the removal cuts out the first position holding the element and keeps the others in order |
| OrderedDict.RemoveFirstDistinct | core/dhan_trader.py:197-198 | on a list without duplicates the result has no duplicates, and its members are exactly the others |
| OrderedDict.Dict.Put | core/dhan_trader.py:162-176 | storing under a key sets that key's value and nothing else; an existing key keeps its place, a new key goes last |
| OrderedDict.Dict.Del | core/dhan_trader.py:190-195 | `del` removes the key and leaves every other entry; the order loses that key's first occurrence and keeps the rest in place; an absent key changes nothing |
| Vault.Encrypt | core/encryption.py:16-20 | a token encrypts to a non-empty ciphertext under the manager's key |
| Vault.Decrypt | core/encryption.py:22-26 | decryption succeeds exactly for a ciphertext made under the same key |
| Vault.RoundTrip | core/encryption.py:16-26 | decrypting an encrypted token gives the token back |
| Vault.ForeignKeyFails | core/encryption.py:8-26 | a token encrypted under one key does not decrypt under another |
| Margins.AccountMargins | core/dhan_trader.py:105-119 | an exception or a missing `status`/`data` gives an error record; 'success' with data gives the three amounts, missing amounts counting 0; any other status gives nothing |
| Margins.Collect | core/dhan_trader.py:121-140 | no accounts give an empty snapshot; in a snapshot the last account queried owns the entry under its client id, holding its normalised reply tagged with its kind |
| Margins.CollectFails | core/dhan_trader.py:121-140 | the snapshot is lost exactly when some account's normalised reply is nothing |
| Margins.CollectKeys | core/dhan_trader.py:121-140 | a snapshot has one key per distinct client id queried and no other |
| Margins.CollectAppend | core/dhan_trader.py:121-140 | querying one list after another merges the snapshots, the later accounts winning on a shared client id |
| Margins.CollectProvenance | core/dhan_trader.py:121-140 | every entry is the normalised reply of a queried account with that client id, tagged with its kind |
| Margins.ChildOverridesMaster | core/dhan_trader.py:126-138 | a child that shares the master's client id replaces the master's entry |
| Margins.NonSuccessStatusBlanksSnapshot | core/dhan_trader.py:105-140 | as written, one reply with a status other than 'success' makes the whole snapshot fail |
| Margins.ReportedMargins | core/dhan_trader.py:105-119 | the corrected normaliser agrees with the original wherever that returns something, and reports funds exactly for a successful reply with data |
| Margins.IsolatedSnapshotComplete | core/dhan_trader.py:121-140 | with the corrected normaliser the snapshot always exists and covers every queried client id |
| Margins.IsolatedAgreesWhenAllSucceed | core/dhan_trader.py:121-140 | where the original produces a snapshot, the corrected one produces the same snapshot |
| Trader.Config.ChildTable | core/dhan_trader.py:78 | `config.get('CHILD', {})` is a well-formed ordered table |
| Trader.DefaultConfig | core/dhan_trader.py:35-40 | the built-in configuration has an empty CHILD table |
| Trader.LoadConfig | core/dhan_trader.py:29-40 | a missing file gives the default configuration, an unparsable one raises, a parsed one is returned as it is |
| Trader.CreateConnection | core/dhan_trader.py:47-62 | a session comes back exactly when the token decrypts and the fund-limits probe reports 'success'; it carries the client id and the decrypted token |
| Trader.MasterKey | core/dhan_trader.py:127-128 | the master's margin entry is keyed by the configured client id, or by 'MASTER' when no MASTER record exists |
| Trader.MasterAttempted | core/dhan_trader.py:68-69 | the master is tried only when a MASTER record exists; a tried master has a non-empty client id, which is also its margin key |
| Trader.MasterSessionTracksAttempt | core/dhan_trader.py:64-75 | after an initialisation that did not raise, the trader holds a master session exactly when the master was tried, and the session belongs to the client id the master's margins are keyed by |
| Trader.Eligible | core/dhan_trader.py:82 | a child is tried exactly when its `enabled` flag is 'Y' and its client id is non-empty |
| Trader.IneligibleNeverConnected | core/dhan_trader.py:81-96 | a disabled child or one without a client id is never connected, and registration leaves its dictionary entry as it found it |
| Trader.ChildSession | core/dhan_trader.py:82-87 | initialisation connects a child exactly when it is enabled, has a client id and its connection succeeds |
| Trader.Admitted | core/dhan_trader.py:79-96 | the children connected at initialisation, in table order: never more than the names tried, and only names from the table |
| Trader.Register | core/dhan_trader.py:79-93 | registration keeps every existing connection's name and adds only names from the table |
| Trader.AdmittedMembers | core/dhan_trader.py:81-96 | a child ends up connected exactly when it is listed, enabled, has a client id and its probe succeeds |
| Trader.AdmittedAppend | core/dhan_trader.py:81-96 | child failures are isolated: the result for two lists in a row is the two results concatenated |
| Trader.AdmittedCount | core/dhan_trader.py:81-96 | the number connected equals the number tried minus the number whose connection raised |
| Trader.AdmittedDistinct | core/dhan_trader.py:79-96 | a table without duplicate names yields a connected list without duplicates |
| Trader.RegisterEntries | core/dhan_trader.py:81-93 | registration stores exactly the connected children, each with its session, client id and multiplier, and leaves other entries as they were |
| Trader.RegisterOrder | core/dhan_trader.py:79-93 | starting from no connections, the dictionary's order is the connected list |
| Trader.InitialisedRegistry | core/dhan_trader.py:64-96 | after initialising from nothing, the list and the dictionary name the same children once each, and each connection mirrors its enabled record |
| Trader.RemovalKeepsRegistry | core/dhan_trader.py:186-199 | removing a name keeps the list and the dictionary in step, keeps the rest backed by the table, and leaves the name in neither |
| Trader.ListedAfterAdd | core/dhan_trader.py:169-176 | appending a name that is not yet connected keeps the list and the dictionary in step |
| Trader.BackedAfterAdd | core/dhan_trader.py:161-176 | upserting a record for a name that is not yet connected keeps every connection backed, including the new one |
| Trader.ListedCount | app.py:320 | when list and dictionary are in step, the list's length is the number of live child connections |
| Trader.ConnectChildren | core/dhan_trader.py:78-96 | the child loop connects and registers exactly `Admitted` and `Register` of the table in table order |
| Trader.DhanTrader.constructor | core/dhan_trader.py:10-96 | a new trader is inactive; if the master's connection raises, it is uninitialised with no master session and no children; otherwise initialised, the master session is the connection when the master was tried and none when it was not, the connected list is `Admitted` and the dictionary is `Register` from empty, in the same order; both invariants hold |
| Trader.DhanTrader.InitializeConnections | core/dhan_trader.py:64-103 | a failing master aborts with nothing changed and not initialised; otherwise master set, children registered as specified, initialised |
| Trader.DhanTrader.Sources | core/dhan_trader.py:126-138 | the accounts queried for margins: the master first, keyed by `MasterKey`, when it has a session, then one source per child connection in dictionary order |
| Trader.DhanTrader.GetAllMargins | core/dhan_trader.py:121-140 | the result is `Collect` over the master (keyed by the configured client id) followed by the child connections in dictionary order |
| Trader.DhanTrader.StartTrading | core/dhan_trader.py:142-148 | only an initialised trader becomes active, and the result says whether it did |
| Trader.DhanTrader.StopTrading | core/dhan_trader.py:150-153 | the trader is inactive afterwards |
| Trader.DhanTrader.AddChildAccount | core/dhan_trader.py:155-184 | succeeds exactly when the probe succeeds and a CHILD table exists; on failure nothing changes; on success the record is upserted, and only an enabled child is registered and listed; the invariants are kept for a name not yet connected |
| Trader.DhanTrader.RemoveChildAccount | core/dhan_trader.py:186-206 | fails (nothing changed) exactly when there is no CHILD table; otherwise removes the name from table, dictionary and list; the invariants are kept and the name is gone |
| Trader.DhanTrader.UpdateMasterAccount | core/dhan_trader.py:208-230 | succeeds exactly when the probe succeeds; on success replaces the MASTER record and the master session; children untouched |
| Server.AsFloat | app.py:217 | `float(data.get('multiplier', d))` is the default when absent, the number when numeric, and raises otherwise |
| Server.ConfiguredMasterId | app.py:129-131 | the master client id shown is the MASTER record's, or '' when config.json is unreadable or has no MASTER record |
| Server.FileChildren | app.py:176 | the handlers' view of the CHILD table exists exactly when config.json can be read |
| Server.ChildViews | app.py:176-185 | the listing has the table's names in the table's order, each with client id, multiplier, enabled flag and connected flag |
| Server.ViewsHideTokens | app.py:176-185 | tables that differ only in their tokens give the same listing |
| Server.PostedMasterConfig | app.py:141-158 | the written configuration has the new MASTER record; a readable file's CHILD entry is kept, an unreadable file leaves none |
| Server.PostedMasterConfigFixed | app.py:141-158 | corrected: the written configuration always has a CHILD table, the file's table when it is readable |
| Server.UpdatedToken | app.py:250-258 | a non-empty new token is stored encrypted, so it decrypts back to itself; otherwise the old ciphertext is kept unchanged |
| Server.Merged | app.py:261-267 | each field the PUT body gives replaces the old one (a multiplier as its converted value), each it omits keeps the old value; an unconvertible multiplier raises |
| Server.EmptyUpdateKeepsRecord | app.py:250-267 | a PUT with an empty body re-adds the record exactly as it was |
| Server.MultiplierOnlyUpdate | app.py:250-267 | a PUT with only a multiplier changes only the multiplier |
| Server.App.constructor | app.py:62-70 | start-up builds a trader unless config.json does not parse; the trader's configuration is what `load_config` gives, and its connections are as the trader's constructor states |
| Server.App.GetMaster | app.py:124-135 | reports the configured master client id ('' when unreadable); connected exactly when config.json is readable and the trader's master is connected |
| Server.App.PostMaster | app.py:137-166 | without client id or token, fails with 400 and nothing changes; otherwise writes the new MASTER record (token decryptable) and rebuilds the trader from the written file, whose connections are as the trader's constructor states |
| Server.App.GetChildren | app.py:171-188 | lists config.json's children without tokens (nothing when unreadable); a child shows connected exactly when it has a live connection |
| Server.App.PostChild | app.py:190-228 | missing fields give 400; a listed name gives 400; no trader gives 500; otherwise succeeds exactly when the multiplier converts, the probe succeeds and a CHILD table exists; on success the file and the trader hold the new record with its token decryptable, an enabled child is registered with its session and appended to the connected list, and nothing else changes; on failure nothing changes |
| Server.App.PutChild | app.py:230-277 | unreadable file gives 500, unknown name 404; 404 and 500 change nothing; otherwise the account is removed from the trader and succeeds exactly when the merged record converts and connects. On success the configuration is the old one with the name moved to the end of the CHILD table holding the merged record, and an enabled child is re-registered at the end of the list and dictionary. Every failure after the removal answers 400 and leaves the account removed. Other records, the MASTER record, the master session and the flags are untouched |
| Server.App.DeleteChild | app.py:279-302 | unreadable file gives 500, unknown name 404, no trader 500; a listed name with a trader always succeeds: the name leaves the file's and the trader's table, the dictionary (`Del`) and the list (`RemoveFirst`), and nothing else changes; the trader's own failure (400) cannot happen |
| Server.App.GetMargins | app.py:303-310 | an empty snapshot unless an initialised trader exists; otherwise the trader's `get_all_margins` result |
| Server.App.TradingStatus | app.py:312-323 | reports the trader's flags and the connected count, which equals the number of live child connections; all false and zero without a trader |
| Server.FreshInstallRejectsChildren | app.py:137-228 | on a fresh install, the master POST succeeds but the next child POST fails with 400 |
| Server.FixedInstallAcceptsChildren | app.py:137-162 | with the corrected master POST, a child is accepted exactly when its probe succeeds |
| Credentials.ValidateCredentials | streamlit-app/src/utils/dhan_helper.py:1-7 | accepts exactly when both the client id and the token are non-empty |
| Credentials.EmptyClientIdRefused | streamlit-app/src/utils/dhan_helper.py:7 | an empty client id is refused whatever the token |
| Credentials.EmptyTokenRefused | streamlit-app/src/utils/dhan_helper.py:7 | an empty token is refused whatever the client id |

## Left out

- Login, CSRF, the HTML pages, Socket.IO and the live-update thread are not modelled.
- Logging and the `last_update`/`timestamp` clock readings are not modelled.
- Fernet is symbolic. A ciphertext opens under its own key and no other; the cryptography itself is not modelled.
- The encryption key is assumed present (`key != ""` on every operation that needs it). Without it, the code raises from every `EncryptionManager()`.
- The broker is an oracle function. A session is its client id and plaintext token, and every call takes the oracle as a parameter, so the broker may answer differently from one call to the next.
- Trader.DhanTrader.UpdateMasterAccount: the `save_config()` it calls is not modelled, because the trader holds no file; no handler in app.py calls `update_master_account`.
- Margins.AccountMargins: the fund-limits amounts are integers, so float rounding in their sums is not modelled. An amount that is present is assumed to be a number; a `null` amount, which makes the sum raise `TypeError` and gives an error record, is not modelled.
- File writes cannot fail in the model. `save_config` is the handler storing the trader's configuration.
- JSON values are assumed to be strings, and `multiplier` a number, with records complete. The `.get` defaults for hand-edited records missing `client_id`, `multiplier` or `enabled` are not modelled.
- Float conversion is abstracted to `Mult`: a number, or a value that does not convert.
- A request without a JSON body is not modelled.
- Requests are handled one at a time; concurrency is not modelled.
- The `DONOTPROCESSPROD` list of the default configuration is not modelled, because no core operation reads it.
- Trader.DhanTrader.AddChildAccount: keeps `Consistent` and `Tracked` only for a name that is not yet connected. Re-adding a connected name lists it twice, as the code does. The handlers never do that.
- Trader.DhanTrader.GetAllMargins: a `TypeError` from indexing a `None` margin is the whole result `None`. Which account raised is not kept.
- Server.App.TradingStatus: the `hasattr` fallbacks are left out, because a `DhanTrader` always has those attributes.

## Findings

| source | as written | input that shows it | evidently intended | confidence | as-written member | corrected member |
|---|---|---|---|---|---|---|
| core/dhan_trader.py:105-140 | `get_account_margins` falls off its end and returns `None` for a reply whose status is not 'success'. `get_all_margins` then assigns `['type']` on that `None`, which raises `TypeError`, so no snapshot is returned for any account | one connected account whose fund-limits reply is `{'status': 'failure', ...}` | record an error entry for that account and keep the others' entries | likely; not executed | Margins.NonSuccessStatusBlanksSnapshot | Margins.IsolatedSnapshotComplete |
| app.py:137-162 | the master POST starts from `{}` when config.json cannot be read, so it writes a file with MASTER and no CHILD. Every later `add_child_account` then fails on `self.config['CHILD']` (core/dhan_trader.py:162) with `KeyError`, so the child POST answers 400 | fresh install with no config.json: POST the master, then POST any child whose probe succeeds | start from the default configuration, so a CHILD table always exists and children can be added | likely; not executed | Server.FreshInstallRejectsChildren | Server.FixedInstallAcceptsChildren |
