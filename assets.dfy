/**
  The asset activation panel: on load it makes sure the user has one
  `trading_assets` row per symbol of the fixed universe, inserting default rows
  for the symbols that are missing, and shows the user's rows; a switch per row
  flips that row's `is_active`.
*/
module Assets {
  import opened Seqs
  import opened Store

  /** The symbols of the rows read (the `map` of `asset_symbol`). */
  function SymbolsOf(rows: seq<AssetRow>): (r: seq<string>)
    ensures |r| == |rows|
    ensures forall i :: 0 <= i < |rows| ==> r[i] == rows[i].assetSymbol
  {
    if rows == [] then [] else [rows[0].assetSymbol] + SymbolsOf(rows[1..])
  }

  lemma SymbolsOfAppend(a: seq<AssetRow>, b: seq<AssetRow>)
    ensures SymbolsOf(a + b) == SymbolsOf(a) + SymbolsOf(b)
  {
    var l, r := SymbolsOf(a + b), SymbolsOf(a) + SymbolsOf(b);
    forall i | 0 <= i < |l| ensures l[i] == r[i] {
      if i < |a| { assert (a + b)[i] == a[i]; } else { assert (a + b)[i] == b[i - |a|]; }
    }
  }

  /**
    The symbols of `universe` that are not among `existing`: exactly those,
    in universe order, each once when the universe lists it once.
  */
  function Missing(universe: seq<string>, existing: seq<string>): (r: seq<string>)
    ensures forall s :: s in r <==> s in universe && s !in existing
    ensures IsSubsequence(r, universe)
    ensures NoDuplicates(universe) ==> NoDuplicates(r)
    decreases |universe|
  {
    if universe == [] then []
    else if universe[0] in existing then Missing(universe[1..], existing)
    else [universe[0]] + Missing(universe[1..], existing)
  }

  /** When every universe symbol already exists, nothing is missing. */
  lemma {:induction false} NothingMissing(universe: seq<string>, existing: seq<string>)
    requires forall s :: s in universe ==> s in existing
    ensures Missing(universe, existing) == []
    decreases |universe|
  {
    if universe != [] {
      assert universe[0] in universe;
      NothingMissing(universe[1..], existing);
    }
  }

  /** The rows inserted for the missing symbols: owned by `u`, active, zero profit, decision HOLD. */
  function DefaultRows(u: UserId, symbols: seq<string>): (r: seq<NewAsset>)
    ensures |r| == |symbols|
    ensures forall i :: 0 <= i < |r| ==> r[i] == NewAsset(u, symbols[i], true, 0.0, "HOLD")
  {
    if symbols == [] then [] else [NewAsset(u, symbols[0], true, 0.0, "HOLD")] + DefaultRows(u, symbols[1..])
  }

  /** What a load inserts for `u` into a table holding `rows`. */
  function LoadInserts(rows: seq<AssetRow>, u: UserId): seq<NewAsset> {
    DefaultRows(u, Missing(AssetSymbols, SymbolsOf(UserAssets(rows, u))))
  }

  /** A load inserts nothing exactly when the user already has a row for every symbol of the universe. */
  lemma LoadInsertsNothingIffCovered(rows: seq<AssetRow>, u: UserId)
    ensures LoadInserts(rows, u) == [] <==> forall s :: s in AssetSymbols ==> s in SymbolsOf(UserAssets(rows, u))
  {
    var existing := SymbolsOf(UserAssets(rows, u));
    if forall s :: s in AssetSymbols ==> s in existing {
      NothingMissing(AssetSymbols, existing);
    }
  }

  /** The table after a load for `u` whose insert succeeded, the new rows numbered from `nextId`. */
  function AfterLoad(rows: seq<AssetRow>, nextId: RowId, u: UserId): seq<AssetRow> {
    rows + Assign(LoadInserts(rows, u), nextId)
  }

  /**
    The rows a load adds: one per missing symbol, in universe order, each owned
    by `u`, active, with zero profit and decision HOLD.
  */
  lemma {:induction false} InsertedRowsAreDefaults(rows: seq<AssetRow>, nextId: RowId, u: UserId)
    ensures var added := Assign(LoadInserts(rows, u), nextId);
      && SymbolsOf(added) == Missing(AssetSymbols, SymbolsOf(UserAssets(rows, u)))
      && forall i :: 0 <= i < |added| ==>
           added[i].userId == u && added[i].isActive && added[i].currentProfitPercent == 0.0 &&
           added[i].engineDecision == "HOLD"
  {
    var missing := Missing(AssetSymbols, SymbolsOf(UserAssets(rows, u)));
    var added := Assign(LoadInserts(rows, u), nextId);
    assert |SymbolsOf(added)| == |missing|;
    forall i | 0 <= i < |added| ensures SymbolsOf(added)[i] == missing[i] {
      assert added[i] == Stored(LoadInserts(rows, u)[i], nextId + i);
    }
  }

  /** A user's rows after the load are the rows before it followed by the inserted ones. */
  lemma {:induction false} LoadReadsOldThenNew(rows: seq<AssetRow>, nextId: RowId, u: UserId)
    ensures UserAssets(AfterLoad(rows, nextId, u), u) == UserAssets(rows, u) + Assign(LoadInserts(rows, u), nextId)
  {
    var added := Assign(LoadInserts(rows, u), nextId);
    InsertedRowsAreDefaults(rows, nextId, u);
    UserAssetsAppend(rows, added, u);
    UserAssetsOfOwnRows(added, u);
  }

  /** A load for `u` leaves every other user's rows exactly as they were. */
  lemma {:induction false} LoadLeavesOtherUsers(rows: seq<AssetRow>, nextId: RowId, u: UserId, v: UserId)
    requires v != u
    ensures UserAssets(AfterLoad(rows, nextId, u), v) == UserAssets(rows, v)
  {
    var added := Assign(LoadInserts(rows, u), nextId);
    InsertedRowsAreDefaults(rows, nextId, u);
    UserAssetsAppend(rows, added, v);
    UserAssetsOfForeignRows(added, v);
  }

  /** After a load whose insert succeeded, the user has a row for every symbol of the universe. */
  lemma {:induction false} LoadCoversUniverse(rows: seq<AssetRow>, nextId: RowId, u: UserId)
    ensures forall s :: s in AssetSymbols ==> s in SymbolsOf(UserAssets(AfterLoad(rows, nextId, u), u))
  {
    var before := UserAssets(rows, u);
    var added := Assign(LoadInserts(rows, u), nextId);
    LoadReadsOldThenNew(rows, nextId, u);
    InsertedRowsAreDefaults(rows, nextId, u);
    SymbolsOfAppend(before, added);
  }

  /** So a second load after a successful one finds nothing missing and inserts nothing. */
  lemma LoadIsIdempotent(rows: seq<AssetRow>, nextId: RowId, u: UserId)
    ensures LoadInserts(AfterLoad(rows, nextId, u), u) == []
  {
    LoadCoversUniverse(rows, nextId, u);
    NothingMissing(AssetSymbols, SymbolsOf(UserAssets(AfterLoad(rows, nextId, u), u)));
  }

  /** The universe lists each symbol once. */
  lemma AssetSymbolsDistinct()
    ensures NoDuplicates(AssetSymbols)
  {
    var u := AssetSymbols;
    forall i, j | 0 <= i < j < |u| ensures u[i] != u[j] {
      assert u[0] == "BTC" && u[1] == "ETH" && u[2] == "BNB" && u[3] == "USDT" && u[4] == "XRP" && u[5] == "SOL";
    }
  }

  /** A load never puts a second row for a symbol the user already has, nor two rows for a new one. */
  lemma {:induction false} LoadKeepsSymbolsUnique(rows: seq<AssetRow>, nextId: RowId, u: UserId)
    requires NoDuplicates(SymbolsOf(UserAssets(rows, u)))
    ensures NoDuplicates(SymbolsOf(UserAssets(AfterLoad(rows, nextId, u), u)))
  {
    var before := UserAssets(rows, u);
    var added := Assign(LoadInserts(rows, u), nextId);
    var existing := SymbolsOf(before);
    var missing := Missing(AssetSymbols, existing);
    LoadReadsOldThenNew(rows, nextId, u);
    InsertedRowsAreDefaults(rows, nextId, u);
    SymbolsOfAppend(before, added);
    AssetSymbolsDistinct();
    assert NoDuplicates(missing);
    assert forall x :: x in existing ==> x !in missing;
    ConcatNoDuplicates(existing, missing);
  }

  /** The panel: the rows shown and the spinner flag; the store is shared with the other panels. */
  class AssetActivation {
    const store: Store
    var assets: seq<AssetRow>
    var loading: bool

    ghost predicate Valid()
      reads this, store
    {
      store.Valid() && IncreasingIds(assets)
    }

    constructor (store: Store)
      requires store.Valid()
      ensures Valid()
      ensures this.store == store && assets == [] && loading
    {
      this.store := store;
      assets := [];
      loading := true;
    }

    /**
      Load: read the user's rows; insert default rows for the missing symbols
      (the insert's error is not looked at) and read again, or show the rows read.
      A failed first read keeps the rows shown. Without a user nothing happens,
      and the spinner stays on.
    */
    method LoadAssets(user: Option<UserId>, readOutcome: Outcome, insertOutcome: Outcome, rereadOutcome: Outcome)
      requires Valid()
      modifies this`assets, this`loading, store`tradingAssets, store`nextId
      ensures Valid()
      ensures user.None? ==>
        assets == old(assets) && loading == old(loading) &&
        store.tradingAssets == old(store.tradingAssets) && store.nextId == old(store.nextId)
      ensures user.Some? ==> !loading
      ensures user.Some? && readOutcome.Err? ==>
        assets == old(assets) && store.tradingAssets == old(store.tradingAssets) && store.nextId == old(store.nextId)
      ensures user.Some? && readOutcome.Ok? ==>
        var inserts := LoadInserts(old(store.tradingAssets), user.value);
        && store.tradingAssets == (if inserts != [] && insertOutcome.Ok? then AfterLoad(old(store.tradingAssets), old(store.nextId), user.value)
                                   else old(store.tradingAssets))
        && store.nextId == (if inserts != [] && insertOutcome.Ok? then old(store.nextId) + |inserts| else old(store.nextId))
        && assets == (if inserts == [] then UserAssets(store.tradingAssets, user.value)
                      else if rereadOutcome.Ok? then UserAssets(store.tradingAssets, user.value)
                      else [])
      ensures old(store.tradingAssets) <= store.tradingAssets
      ensures user.Some? && readOutcome.Ok? && insertOutcome.Ok? && rereadOutcome.Ok? ==>
        forall s :: s in AssetSymbols ==> s in SymbolsOf(assets)
    {
      if user.None? {
        return;
      }
      var u := user.value;
      if readOutcome.Err? {
        // the error is thrown, logged and swallowed
        loading := false;
        return;
      }
      var data := UserAssets(store.tradingAssets, u);
      var missing := Missing(AssetSymbols, SymbolsOf(data));
      assert LoadInserts(store.tradingAssets, u) == DefaultRows(u, missing);
      if |missing| > 0 {
        ghost var rows, first := store.tradingAssets, store.nextId;
        store.InsertAssets(DefaultRows(u, missing), insertOutcome);
        if rereadOutcome.Ok? {
          assets := UserAssets(store.tradingAssets, u);
          UserAssetsKeepIncreasingIds(store.tradingAssets, u);
        } else {
          assets := [];
        }
        if insertOutcome.Ok? {
          LoadCoversUniverse(rows, first, u);
        }
      } else {
        assets := data;
        UserAssetsKeepIncreasingIds(store.tradingAssets, u);
      }
      loading := false;
    }

    /**
      Toggle: write `is_active = !currentState` to the row with id `assetId`;
      only when the write succeeds, set the same value on that row of the list shown.
    */
    method ToggleAsset(assetId: RowId, currentState: bool, outcome: Outcome)
      requires Valid()
      modifies this`assets, store`tradingAssets
      ensures Valid()
      ensures store.tradingAssets == if outcome.Ok? then SetActive(old(store.tradingAssets), assetId, !currentState) else old(store.tradingAssets)
      ensures assets == if outcome.Ok? then SetActive(old(assets), assetId, !currentState) else old(assets)
    {
      store.UpdateAssetActive(assetId, !currentState, outcome);
      if outcome.Ok? {
        var shown := SetActive(assets, assetId, !currentState);
        forall i | 0 <= i < |shown| ensures shown[i].id == assets[i].id {
          assert shown[i].(isActive := assets[i].isActive) == assets[i];
        }
        assets := shown;
      }
    }
  }

  /**
    A panel that shows exactly the user's rows keeps doing so across a
    successful toggle: the local update and the store update agree.
  */
  method ToggleKeepsViewInSync(panel: AssetActivation, u: UserId, assetId: RowId, currentState: bool)
    requires panel.Valid()
    requires panel.assets == UserAssets(panel.store.tradingAssets, u)
    modifies panel`assets, panel.store`tradingAssets
    ensures panel.Valid()
    ensures panel.assets == UserAssets(panel.store.tradingAssets, u)
  {
    ghost var rows := panel.store.tradingAssets;
    panel.ToggleAsset(assetId, currentState, Ok);
    SetActiveCommutesWithRead(rows, assetId, !currentState, u);
  }

  /** Two successful loads in a row: the second inserts nothing and shows the same rows as the first. */
  method LoadTwice(panel: AssetActivation, u: UserId)
    requires panel.Valid()
    modifies panel`assets, panel`loading, panel.store`tradingAssets, panel.store`nextId
    ensures panel.Valid()
    ensures panel.store.tradingAssets == AfterLoad(old(panel.store.tradingAssets), old(panel.store.nextId), u)
    ensures panel.assets == UserAssets(panel.store.tradingAssets, u)
  {
    panel.LoadAssets(Some(u), Ok, Ok, Ok);
    ghost var afterFirst := panel.store.tradingAssets;
    ghost var shownFirst := panel.assets;
    LoadIsIdempotent(old(panel.store.tradingAssets), old(panel.store.nextId), u);
    panel.LoadAssets(Some(u), Ok, Ok, Ok);
    assert panel.store.tradingAssets == afterFirst;
    assert panel.assets == shownFirst;
  }
}
