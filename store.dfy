/**
  The per-user remote store the dashboard's control plane talks to, modelled
  as four in-memory tables:

  - `user_settings` and `engine_status`: one row per user, keyed by user id;
  - `trading_assets`: rows in insertion order, each with a row id that the
    store hands out from a counter;
  - `manual_orders`: an insert-only list (the position of a row is its id).

  Every call takes its outcome as a parameter: on `Ok` the write happens, on
  `Err` the table is left as it was. Upserts merge: on an existing row only
  the columns written change.
*/
module Store {
  import opened Seqs

  datatype Option<T> = None | Some(value: T)

  /** What a store call reports: success, or an error with its code. */
  datatype Outcome = Ok | Err(code: string)

  type UserId = string
  type RowId = nat
  /** An ISO-8601 time stamp; reading the clock is outside the model. */
  type Timestamp = string

  /** The closed universe of tradable symbols (both the asset panel and the order panel list it). */
  const AssetSymbols: seq<string> := ["BTC", "ETH", "BNB", "USDT", "XRP", "SOL"]

  /** A `user_settings` row; stored credentials are nullable columns. */
  datatype SettingsRow = SettingsRow(
    binanceApiKeyEncrypted: Option<string>,
    binanceApiSecretEncrypted: Option<string>,
    minProfitPercentage: real,
    maxProfitPercentage: real,
    minUsdtPerOrder: real,
    maxUsdtPerOrder: real,
    walletSplitLevels: int,
    accountActive: bool)

  /** An `engine_status` row. */
  datatype EngineRow = EngineRow(isRunning: bool, lastStartedAt: Option<Timestamp>, lastStoppedAt: Option<Timestamp>)

  /** A `trading_assets` row as the store returns it. */
  datatype AssetRow = AssetRow(
    id: RowId,
    userId: UserId,
    assetSymbol: string,
    isActive: bool,
    currentProfitPercent: real,
    engineDecision: string)

  /** A `trading_assets` row as a client inserts it; the store adds the id. */
  datatype NewAsset = NewAsset(
    userId: UserId,
    assetSymbol: string,
    isActive: bool,
    currentProfitPercent: real,
    engineDecision: string)

  /** A `manual_orders` row. */
  datatype OrderRow = OrderRow(
    userId: UserId,
    assetSymbol: string,
    orderType: string,
    orderSide: string,
    amountUsdt: real,
    status: string)

  /** The `data` of a `maybeSingle` read by user id: absent when the call fails or no row exists. */
  function ReadOne<V>(table: map<UserId, V>, u: UserId, outcome: Outcome): (data: Option<V>)
    ensures data.Some? <==> outcome.Ok? && u in table
    ensures data.Some? ==> data.value == table[u]
  {
    if outcome.Ok? && u in table then Some(table[u]) else None
  }

  // ---------------------------------------------------------------- user_settings

  /** Upsert of a complete `user_settings` row for `u`: the row is replaced or created, no other user's row changes. */
  function SettingsUpserted(table: map<UserId, SettingsRow>, u: UserId, row: SettingsRow): (t: map<UserId, SettingsRow>)
    ensures t.Keys == table.Keys + {u}
    ensures t[u] == row
    ensures forall v :: v in table && v != u ==> t[v] == table[v]
  {
    table[u := row]
  }

  /**
    Upsert of the single column `account_active` for `u`: an existing row keeps
    every other column, a new row takes the column defaults for them.
  */
  function AccountActiveUpserted(table: map<UserId, SettingsRow>, defaults: SettingsRow, u: UserId, active: bool): (t: map<UserId, SettingsRow>)
    ensures t.Keys == table.Keys + {u}
    ensures t[u].accountActive == active
    ensures var base := if u in table then table[u] else defaults;
      t[u].(accountActive := base.accountActive) == base
    ensures forall v :: v in table && v != u ==> t[v] == table[v]
  {
    var base := if u in table then table[u] else defaults;
    table[u := base.(accountActive := active)]
  }

  // ---------------------------------------------------------------- engine_status

  /**
    Upsert of `is_running = true` and `last_started_at = now` for `u`; the stop
    stamp is kept, and a new row takes the column default for it.
  */
  function EngineStarted(table: map<UserId, EngineRow>, defaults: EngineRow, u: UserId, now: Timestamp): (t: map<UserId, EngineRow>)
    ensures t.Keys == table.Keys + {u}
    ensures t[u].isRunning && t[u].lastStartedAt == Some(now)
    ensures t[u].lastStoppedAt == if u in table then table[u].lastStoppedAt else defaults.lastStoppedAt
    ensures forall v :: v in table && v != u ==> t[v] == table[v]
  {
    var base := if u in table then table[u] else defaults;
    table[u := base.(isRunning := true, lastStartedAt := Some(now))]
  }

  /**
    Upsert of `is_running = false` and `last_stopped_at = now` for `u`; the start
    stamp is kept, and a new row takes the column default for it.
  */
  function EngineStopped(table: map<UserId, EngineRow>, defaults: EngineRow, u: UserId, now: Timestamp): (t: map<UserId, EngineRow>)
    ensures t.Keys == table.Keys + {u}
    ensures !t[u].isRunning && t[u].lastStoppedAt == Some(now)
    ensures t[u].lastStartedAt == if u in table then table[u].lastStartedAt else defaults.lastStartedAt
    ensures forall v :: v in table && v != u ==> t[v] == table[v]
  {
    var base := if u in table then table[u] else defaults;
    table[u := base.(isRunning := false, lastStoppedAt := Some(now))]
  }

  /**
    A start followed by a stop leaves the engine stopped, with both stamps of
    the two transitions, whatever the row held before and whatever the defaults.
  */
  lemma StartThenStop(table: map<UserId, EngineRow>, defaults: EngineRow, u: UserId, started: Timestamp, stopped: Timestamp)
    ensures EngineStopped(EngineStarted(table, defaults, u, started), defaults, u, stopped)[u] == EngineRow(false, Some(started), Some(stopped))
  {
  }

  // ---------------------------------------------------------------- trading_assets

  /** Row ids strictly increase along the table, so no id occurs twice. */
  ghost predicate IncreasingIds(rows: seq<AssetRow>) {
    forall i, j :: 0 <= i < j < |rows| ==> rows[i].id < rows[j].id
  }

  /** The rows of user `u`, in table order (a read filtered by `user_id`). */
  function UserAssets(rows: seq<AssetRow>, u: UserId): (r: seq<AssetRow>)
    ensures forall a :: a in r <==> a in rows && a.userId == u
    ensures |r| <= |rows|
  {
    if rows == [] then []
    else if rows[0].userId == u then [rows[0]] + UserAssets(rows[1..], u)
    else UserAssets(rows[1..], u)
  }

  lemma {:induction false} UserAssetsAppend(a: seq<AssetRow>, b: seq<AssetRow>, u: UserId)
    ensures UserAssets(a + b, u) == UserAssets(a, u) + UserAssets(b, u)
  {
    if a == [] {
      assert a + b == b;
    } else {
      assert (a + b)[0] == a[0];
      assert (a + b)[1..] == a[1..] + b;
      UserAssetsAppend(a[1..], b, u);
    }
  }

  /** Reading back rows that all belong to `u` gives exactly those rows. */
  lemma {:induction false} UserAssetsOfOwnRows(rows: seq<AssetRow>, u: UserId)
    requires forall i :: 0 <= i < |rows| ==> rows[i].userId == u
    ensures UserAssets(rows, u) == rows
  {
    if rows != [] {
      UserAssetsOfOwnRows(rows[1..], u);
    }
  }

  /** Rows that all belong to other users contribute nothing to a read for `u`. */
  lemma UserAssetsOfForeignRows(rows: seq<AssetRow>, u: UserId)
    requires forall i :: 0 <= i < |rows| ==> rows[i].userId != u
    ensures UserAssets(rows, u) == []
  {
  }

  /** In a table with increasing ids, every later row has a larger id than the first. */
  lemma FirstIdIsLeast(rows: seq<AssetRow>)
    requires IncreasingIds(rows) && rows != []
    ensures IncreasingIds(rows[1..])
    ensures forall a :: a in rows[1..] ==> rows[0].id < a.id
  {
    forall a | a in rows[1..] ensures rows[0].id < a.id {
      var k :| 0 <= k < |rows| - 1 && rows[1..][k] == a;
      assert rows[k + 1] == a;
    }
  }

  /** Putting a row in front of rows with larger ids keeps ids increasing. */
  lemma ConsIncreasingIds(x: AssetRow, rest: seq<AssetRow>)
    requires IncreasingIds(rest)
    requires forall a :: a in rest ==> x.id < a.id
    ensures IncreasingIds([x] + rest)
  {
    var r := [x] + rest;
    forall i, j | 0 <= i < j < |r| ensures r[i].id < r[j].id {
      assert r[j] == rest[j - 1];
      if i == 0 {
        assert rest[j - 1] in rest;
      } else {
        assert r[i] == rest[i - 1];
      }
    }
  }

  /** A read by user keeps ids strictly increasing. */
  lemma {:induction false} UserAssetsKeepIncreasingIds(rows: seq<AssetRow>, u: UserId)
    requires IncreasingIds(rows)
    ensures IncreasingIds(UserAssets(rows, u))
  {
    if rows != [] {
      FirstIdIsLeast(rows);
      UserAssetsKeepIncreasingIds(rows[1..], u);
      if rows[0].userId == u {
        ConsIncreasingIds(rows[0], UserAssets(rows[1..], u));
      }
    }
  }

  /** The row the store keeps for an inserted row, under the id it assigns. */
  function Stored(n: NewAsset, id: RowId): AssetRow {
    AssetRow(id, n.userId, n.assetSymbol, n.isActive, n.currentProfitPercent, n.engineDecision)
  }

  /** The rows an insert of `news` adds, with consecutive ids from `first`. */
  function Assign(news: seq<NewAsset>, first: RowId): (r: seq<AssetRow>)
    ensures |r| == |news|
    ensures forall i :: 0 <= i < |r| ==> r[i] == Stored(news[i], first + i)
    decreases |news|
  {
    if news == [] then [] else [Stored(news[0], first)] + Assign(news[1..], first + 1)
  }

  /**
    `is_active := active` on every row whose id is `id` (the store's update by
    id, and equally the panel's `map` over its local list): no other column and
    no other row changes.
  */
  function SetActive(rows: seq<AssetRow>, id: RowId, active: bool): (r: seq<AssetRow>)
    ensures |r| == |rows|
    ensures forall i :: 0 <= i < |rows| ==> r[i].(isActive := rows[i].isActive) == rows[i]
    ensures forall i :: 0 <= i < |rows| ==> r[i].isActive == if rows[i].id == id then active else rows[i].isActive
  {
    if rows == [] then []
    else [if rows[0].id == id then rows[0].(isActive := active) else rows[0]] + SetActive(rows[1..], id, active)
  }

  /** With unique ids, an update by the id of row `k` changes only `is_active` of row `k`. */
  lemma SetActiveTouchesOneRow(rows: seq<AssetRow>, id: RowId, active: bool, k: nat)
    requires IncreasingIds(rows)
    requires k < |rows| && rows[k].id == id
    ensures SetActive(rows, id, active)[k] == rows[k].(isActive := active)
    ensures forall i :: 0 <= i < |rows| && i != k ==> SetActive(rows, id, active)[i] == rows[i]
  {
    var r := SetActive(rows, id, active);
    forall i | 0 <= i < |rows| && i != k ensures r[i] == rows[i] {
      assert rows[i].id != id by {
        if i < k { assert rows[i].id < rows[k].id; } else { assert rows[k].id < rows[i].id; }
      }
      assert r[i].(isActive := rows[i].isActive) == rows[i];
    }
    assert r[k].(isActive := rows[k].isActive) == rows[k];
  }

  /** Updating the table and then reading a user's rows gives that user's rows updated the same way. */
  lemma {:induction false} SetActiveCommutesWithRead(rows: seq<AssetRow>, id: RowId, active: bool, u: UserId)
    ensures UserAssets(SetActive(rows, id, active), u) == SetActive(UserAssets(rows, u), id, active)
  {
    if rows != [] {
      var r := SetActive(rows, id, active);
      assert r[0].(isActive := rows[0].isActive) == rows[0];
      assert r[1..] == SetActive(rows[1..], id, active);
      SetActiveCommutesWithRead(rows[1..], id, active, u);
    }
  }

  /** The tables of the store. */
  class Store {
    var userSettings: map<UserId, SettingsRow>
    var engineStatus: map<UserId, EngineRow>
    var tradingAssets: seq<AssetRow>
    var nextId: RowId
    var manualOrders: seq<OrderRow>
    /** The database's column defaults for a `user_settings` row created by a partial upsert. */
    const settingsDefaults: SettingsRow
    /** The database's column defaults for an `engine_status` row created by an upsert. */
    const engineDefaults: EngineRow

    ghost predicate Valid()
      reads this
    {
      IncreasingIds(tradingAssets) &&
      forall i :: 0 <= i < |tradingAssets| ==> tradingAssets[i].id < nextId
    }

    constructor (settingsDefaults: SettingsRow, engineDefaults: EngineRow)
      ensures Valid()
      ensures userSettings == map[] && engineStatus == map[] && tradingAssets == [] && manualOrders == []
      ensures this.settingsDefaults == settingsDefaults && this.engineDefaults == engineDefaults
    {
      userSettings, engineStatus := map[], map[];
      tradingAssets, nextId := [], 0;
      manualOrders := [];
      this.settingsDefaults := settingsDefaults;
      this.engineDefaults := engineDefaults;
    }

    method UpsertSettings(u: UserId, row: SettingsRow, outcome: Outcome)
      modifies this`userSettings
      ensures userSettings == if outcome.Ok? then SettingsUpserted(old(userSettings), u, row) else old(userSettings)
    {
      if outcome.Ok? {
        userSettings := SettingsUpserted(userSettings, u, row);
      }
    }

    method UpsertAccountActive(u: UserId, active: bool, outcome: Outcome)
      modifies this`userSettings
      ensures userSettings == if outcome.Ok? then AccountActiveUpserted(old(userSettings), settingsDefaults, u, active) else old(userSettings)
    {
      if outcome.Ok? {
        userSettings := AccountActiveUpserted(userSettings, settingsDefaults, u, active);
      }
    }

    method UpsertEngineStart(u: UserId, now: Timestamp, outcome: Outcome)
      modifies this`engineStatus
      ensures engineStatus == if outcome.Ok? then EngineStarted(old(engineStatus), engineDefaults, u, now) else old(engineStatus)
    {
      if outcome.Ok? {
        engineStatus := EngineStarted(engineStatus, engineDefaults, u, now);
      }
    }

    method UpsertEngineStop(u: UserId, now: Timestamp, outcome: Outcome)
      modifies this`engineStatus
      ensures engineStatus == if outcome.Ok? then EngineStopped(old(engineStatus), engineDefaults, u, now) else old(engineStatus)
    {
      if outcome.Ok? {
        engineStatus := EngineStopped(engineStatus, engineDefaults, u, now);
      }
    }

    /** Insert of several `trading_assets` rows, all or nothing, under fresh ids. */
    method InsertAssets(news: seq<NewAsset>, outcome: Outcome)
      requires Valid()
      modifies this`tradingAssets, this`nextId
      ensures Valid()
      ensures tradingAssets == if outcome.Ok? then old(tradingAssets) + Assign(news, old(nextId)) else old(tradingAssets)
      ensures nextId == if outcome.Ok? then old(nextId) + |news| else old(nextId)
    {
      if outcome.Ok? {
        var added := Assign(news, nextId);
        var rows := tradingAssets + added;
        forall i, j | 0 <= i < j < |rows| ensures rows[i].id < rows[j].id {
          if j < |tradingAssets| {
            assert rows[i] == tradingAssets[i] && rows[j] == tradingAssets[j];
          } else if i < |tradingAssets| {
            assert rows[i] == tradingAssets[i] && rows[j] == added[j - |tradingAssets|];
          } else {
            assert rows[i] == added[i - |tradingAssets|] && rows[j] == added[j - |tradingAssets|];
          }
        }
        tradingAssets, nextId := rows, nextId + |news|;
      }
    }

    /** Update of `is_active` on the rows with id `id`. */
    method UpdateAssetActive(id: RowId, active: bool, outcome: Outcome)
      requires Valid()
      modifies this`tradingAssets
      ensures Valid()
      ensures tradingAssets == if outcome.Ok? then SetActive(old(tradingAssets), id, active) else old(tradingAssets)
    {
      if outcome.Ok? {
        var rows := SetActive(tradingAssets, id, active);
        assert forall i :: 0 <= i < |rows| ==> rows[i].id == tradingAssets[i].id by {
          forall i | 0 <= i < |rows| ensures rows[i].id == tradingAssets[i].id {
            assert rows[i].(isActive := tradingAssets[i].isActive) == tradingAssets[i];
          }
        }
        tradingAssets := rows;
      }
    }

    /** Insert of one `manual_orders` row. */
    method InsertOrder(row: OrderRow, outcome: Outcome)
      modifies this`manualOrders
      ensures manualOrders == if outcome.Ok? then old(manualOrders) + [row] else old(manualOrders)
    {
      if outcome.Ok? {
        manualOrders := manualOrders + [row];
      }
    }
  }
}
