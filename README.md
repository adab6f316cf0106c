# TradeSync control plane, modelled in Dafny

This project models the control plane of the TradeSync trading dashboard. That is the five stateful
panels that decide whether automated trading may run, and with which risk parameters:

- **asset activation**: ensures one `trading_assets` row per symbol of the fixed universe
  BTC, ETH, BNB, USDT, XRP, SOL, and toggles each row's `is_active`;
- **engine controls**: a stopped/running machine with start and stop buttons, and two "force" actions;
- **account activation**: one on/off flag in `user_settings.account_active`;
- **manual order panel**: appends `pending` rows to `manual_orders`;
- **risk settings page**: an eight-field form that is loaded from `user_settings` and saved back to it.

Each panel is a class whose methods are its handlers. The fields are the panel's React state
(`isRunning`, `loading`, `assets`, `settings`, …). All panels share one `Store` object. It holds the
four tables:

- `user_settings` and `engine_status` are maps keyed by user id;
- `trading_assets` is a sequence of rows, with row ids handed out by a counter; a read by user
  returns that user's rows in the sequence's order, which the model fixes as insertion order;
- `manual_orders` is an insert-only sequence; a row's position is its id.

Every store call takes its outcome (`Ok` or `Err(code)`) as a parameter. On `Err` the table is left
unchanged. Upserts merge: on an existing row, only the columns written change. A `user_settings` row
created by the account switch's one-column upsert gets its other columns from
`Store.settingsDefaults`, and an `engine_status` row created by a start or stop upsert gets its
unwritten stamp from `Store.engineDefaults`; both stand for the database's column defaults.

The signed-in user comes from the identity provider. It is an `Option<UserId>` parameter of each
handler that checks it. Time stamps and the results of `parseFloat`/`parseInt` are also parameters.

Files: `seqs.dfy` (generic sequence facts), `store.dfy` (tables, row types and table operations),
`assets.dfy`, `engine.dfy`, `account.dfy`, `orders.dfy` and `settings.dfy` (one module per panel).

Checks one might expect but that the code does not perform, and which the model therefore does not claim:

- No settings validation runs before a save: min ≤ max for both bounds and split levels in [1,10]
  are never checked. `SettingsPage.InvertedBoundsArePersisted` shows inverted bounds and a split
  count of 0 being saved and reloaded.
- Order amounts are not checked for being positive; only an empty amount text is refused.
  `Orders.NegativeAmountIsQueued` shows a −5 USDT order being queued.
- The engine buttons do not consult the account flag.
- Every handler persists first and changes local state only after an error-free write. The one
  exception is the asset load: its insert's error is never looked at, and a failed re-read shows
  an empty list.

## Model

| member | source | states |
|---|---|---|
| Store.ReadOne | src/pages/Settings.tsx:33-37 | Definition of a `maybeSingle` read by user id (also AccountActivation.tsx:19-23 and EngineControls.tsx:20-24): a row exactly when the call succeeds and the user has one, and then that row; no row is not an error |
| Store.SettingsUpserted | src/pages/Settings.tsx:67-79 | A full upsert creates or replaces exactly the user's row and leaves every other user's row alone |
| Store.AccountActiveUpserted | src/components/AccountActivation.tsx:41-46 | Writing only `account_active` sets that column. An existing row keeps all its other columns; a new row takes the column defaults. Other users are untouched |
| Store.EngineStarted | src/components/EngineControls.tsx:39-43 | A start upsert makes the row running and stamps `last_started_at`, keeps the previous stop stamp (the column default for a new row), and touches no other user |
| Store.EngineStopped | src/components/EngineControls.tsx:59-63 | A stop upsert makes the row stopped and stamps `last_stopped_at`, keeps the previous start stamp (the column default for a new row), and touches no other user |
| Store.StartThenStop | src/components/EngineControls.tsx:34-72 | A start followed by a stop leaves the row stopped, holding both transitions' stamps, whatever the row and the column defaults were |
| Store.UserAssets | src/components/AssetActivation.tsx:29-32 | A read by user returns exactly the rows owned by that user |
| Store.UserAssetsKeepIncreasingIds | src/components/AssetActivation.tsx:29-32 | The rows read for one user have distinct, increasing ids |
| Store.Assign | src/components/AssetActivation.tsx:48 | An insert stores each new row once, under consecutive fresh ids |
| Store.SetActive | src/components/AssetActivation.tsx:75-79 | An update by id changes only `is_active`, and only on rows with that id; the list keeps its length and order |
| Store.SetActiveTouchesOneRow | src/components/AssetActivation.tsx:68-79 | With unique ids, toggling row k's id changes row k's `is_active` and no other row |
| Store.SetActiveCommutesWithRead | src/components/AssetActivation.tsx:67-79 | Updating the table and then reading a user's rows gives the same list as updating that user's list the same way |
| Store.Store.UpsertSettings | src/pages/Settings.tsx:67-79 | A successful call applies the full upsert; a failed one changes nothing |
| Store.Store.UpsertAccountActive | src/components/AccountActivation.tsx:41-46 | A successful call applies the one-column upsert; a failed one changes nothing |
| Store.Store.UpsertEngineStart | src/components/EngineControls.tsx:39-43 | A successful call applies the start upsert; a failed one changes nothing |
| Store.Store.UpsertEngineStop | src/components/EngineControls.tsx:59-63 | A successful call applies the stop upsert; a failed one changes nothing |
| Store.Store.InsertAssets | src/components/AssetActivation.tsx:48 | A successful insert appends all new rows under fresh ids, keeping ids unique; a failed one inserts none |
| Store.Store.UpdateAssetActive | src/components/AssetActivation.tsx:68-71 | A successful update sets `is_active` on the rows with the id, keeping ids unique; a failed one changes nothing |
| Store.Store.InsertOrder | src/components/ManualOrderPanel.tsx:23-30 | A successful insert appends exactly one order row; a failed one appends none |
| Assets.SymbolsOf | src/components/AssetActivation.tsx:36 | The existing symbols, one per row read, in row order |
| Assets.Missing | src/components/AssetActivation.tsx:36-37 | A symbol is missing iff it is in the universe and has no row. Missing symbols keep universe order and, for a duplicate-free universe, appear once each |
| Assets.NothingMissing | src/components/AssetActivation.tsx:37-39 | When every universe symbol already has a row, the missing list is empty, so the insert branch is skipped |
| Assets.AssetSymbolsDistinct | src/components/AssetActivation.tsx:19 | The six-symbol universe has no duplicates |
| Assets.DefaultRows | src/components/AssetActivation.tsx:40-46 | One new row per missing symbol, in order, carrying the user's id, `is_active = true`, profit 0 and decision HOLD |
| Assets.LoadInserts | src/components/AssetActivation.tsx:36-46 | Definition of the rows a load inserts: the default rows for the missing symbols |
| Assets.LoadInsertsNothingIffCovered | src/components/AssetActivation.tsx:36-39 | The insert branch is skipped exactly when the user already has a row for every universe symbol |
| Assets.InsertedRowsAreDefaults | src/components/AssetActivation.tsx:40-48 | The rows a load adds have exactly the missing symbols, and each is owned by the user, active, at zero profit, HOLD |
| Assets.LoadReadsOldThenNew | src/components/AssetActivation.tsx:48-55 | After a successful insert, the re-read shows the user's earlier rows unchanged, followed by the inserted rows |
| Assets.LoadLeavesOtherUsers | src/components/AssetActivation.tsx:40-48 | A load for one user leaves every other user's rows exactly as they were |
| Assets.LoadCoversUniverse | src/components/AssetActivation.tsx:36-55 | After a successful insert, the user has a row for every universe symbol |
| Assets.LoadIsIdempotent | src/components/AssetActivation.tsx:37-57 | A load after a successful load finds nothing missing, so it inserts nothing |
| Assets.LoadKeepsSymbolsUnique | src/components/AssetActivation.tsx:36-55 | If the user had no duplicate symbols before a load, there are none after it |
| Assets.AssetActivation.constructor | src/components/AssetActivation.tsx:16-17 | The panel starts with no rows shown and the spinner on |
| Assets.AssetActivation.LoadAssets | src/components/AssetActivation.tsx:25-64 | No user: nothing changes and the spinner stays on. Failed first read: rows shown and table unchanged. Nothing missing: no insert, and the rows read are shown. Otherwise: the defaults are inserted if the (unchecked) insert succeeds, taking the next ids, and the re-read is shown, or nothing if it fails. Existing rows are never altered, the spinner goes off, and after a fully successful load every symbol is shown |
| Assets.AssetActivation.ToggleAsset | src/components/AssetActivation.tsx:66-83 | Writes `!currentState` to the row with the id. Only after a successful write does the shown list get the same update; a failed write changes nothing |
| Assets.ToggleKeepsViewInSync | src/components/AssetActivation.tsx:66-79 | A panel showing exactly the user's rows still does so after a successful toggle |
| Assets.LoadTwice | src/components/AssetActivation.tsx:25-58 | Two successful loads in a row: the second changes no table row and shows exactly the user's rows |
| Engine.StartEnabled | src/components/EngineControls.tsx:104 | Definition of the start button's enable rule: no call in flight and the engine stopped |
| Engine.StopEnabled | src/components/EngineControls.tsx:113 | Definition of the stop button's enable rule: no call in flight and the engine running |
| Engine.ForceEnabled | src/components/EngineControls.tsx:123-133 | Definition of both force buttons' enable rule: the engine running |
| Engine.EnableRules | src/components/EngineControls.tsx:102-133 | Start and stop are never both enabled, and exactly one is when idle. Both are disabled while loading. A stopped engine disables both force actions |
| Engine.EngineControls.constructor | src/components/EngineControls.tsx:8-10 | The engine starts stopped, not loading, with the force-sell menu closed |
| Engine.EngineControls.LoadEngineStatus | src/components/EngineControls.tsx:16-32 | With a user and a row read, `isRunning` takes the stored value; otherwise it is kept. Without a user nothing is read |
| Engine.EngineControls.HandleStartEngine | src/components/EngineControls.tsx:34-52 | Without a user nothing happens. Otherwise the start upsert is attempted, `isRunning` becomes true only if it succeeded, and `loading` ends false |
| Engine.EngineControls.HandleStopEngine | src/components/EngineControls.tsx:54-72 | Without a user nothing happens. Otherwise the stop upsert is attempted, `isRunning` becomes false only if it succeeded, and `loading` ends false |
| Engine.EngineControls.ToggleForceSellMenu | src/components/EngineControls.tsx:132 | The force-sell button flips the menu's visibility |
| Engine.EngineControls.HandleForceTakeProfit | src/components/EngineControls.tsx:74-76 | Force take batch profit only logs; the method has no frame, so no state changes |
| Engine.EngineControls.HandleForceSell | src/components/EngineControls.tsx:78-81 | Force sell closes the menu and changes nothing else |
| Engine.StartThenStopEngine | src/components/EngineControls.tsx:34-72 | From stopped and idle, a successful start then stop ends stopped and idle with the start button enabled again, and leaves a row with both stamps |
| Account.AccountActivation.constructor | src/components/AccountActivation.tsx:8-9 | The account starts active and loading, so nothing is rendered |
| Account.AccountActivation.Renders | src/components/AccountActivation.tsx:56-58 | Definition of the render rule: the panel shows nothing while loading |
| Account.AccountActivation.LoadAccountStatus | src/components/AccountActivation.tsx:15-33 | With a user, a row read overwrites the flag, loading ends and the panel renders. Without a user nothing changes and loading stays on |
| Account.AccountActivation.ToggleAccount | src/components/AccountActivation.tsx:35-54 | Without a user nothing is written. Otherwise `!accountActive` is upserted as the only column, and the flag takes it only if the write succeeded |
| Account.ToggleTwice | src/components/AccountActivation.tsx:39-50 | Two successful toggles restore the flag, and the stored value equals the original |
| Orders.PlaceOrderEnabled | src/components/ManualOrderPanel.tsx:117 | Definition of the submit button's enable rule: no call in flight and a non-empty amount text |
| Orders.Accepted | src/components/ManualOrderPanel.tsx:18 | Definition of the handler's guard, used by `HandlePlaceOrder`: a signed-in user and a non-empty amount text |
| Orders.EnabledPassesGuard | src/components/ManualOrderPanel.tsx:117 | For a signed-in user, an enabled submit button always passes the handler's guard (line 18), and when no call is in flight the two rules agree exactly |
| Orders.ManualOrderPanel.constructor | src/components/ManualOrderPanel.tsx:8-13 | The form starts at BTC, MARKET, BUY with an empty amount, not loading, no success banner |
| Orders.ManualOrderPanel.SelectAsset | src/components/ManualOrderPanel.tsx:62-71 | The asset is one of the six universe symbols |
| Orders.ManualOrderPanel.SelectOrderType | src/components/ManualOrderPanel.tsx:77-84 | The order type is MARKET or LIMIT |
| Orders.ManualOrderPanel.SelectOrderSide | src/components/ManualOrderPanel.tsx:91-98 | The side is BUY or SELL |
| Orders.ManualOrderPanel.EditAmount | src/components/ManualOrderPanel.tsx:107-108 | The amount field holds the text typed |
| Orders.ManualOrderPanel.HandlePlaceOrder | src/components/ManualOrderPanel.tsx:17-42 | No user or empty amount: nothing happens. Otherwise, exactly one pending row with the selections and the parsed amount of any sign is inserted if the write succeeds. Success also clears the amount and raises `success`; an error keeps the form. `loading` ends false |
| Orders.EnabledSubmitQueuesOne | src/components/ManualOrderPanel.tsx:17-36 | From any state where the submit button is enabled, a signed-in user's successful submit appends exactly one pending row with the selections, clears the amount, raises `success`, and leaves the button disabled |
| Orders.NegativeAmountIsQueued | src/components/ManualOrderPanel.tsx:18-30 | Amount text "-5" passes the guard, and a pending −5 USDT order for a universe symbol is queued |
| SettingsPage.FromRow | src/pages/Settings.tsx:41-51 | Definition of the form filled from a stored row, null credentials read as "" |
| SettingsPage.ToRow | src/pages/Settings.tsx:69-79 | Definition of the row a save writes: all eight fields as held |
| SettingsPage.LoadAfterSave | src/pages/Settings.tsx:41-79 | Reloading saved settings gives back all eight fields exactly, whatever their values |
| SettingsPage.SaveAfterLoad | src/pages/Settings.tsx:43-44 | Saving what was loaded reproduces the row iff neither credential column was null; a null credential comes back as "" |
| SettingsPage.ApplyEdit | src/pages/Settings.tsx:140-270 | Each input sets its own field to the value entered, unchecked, and leaves the other seven fields, including the account flag, as they were |
| SettingsPage.Settings.constructor | src/pages/Settings.tsx:8-23 | Settings start with the defaults: empty credentials, profit 0.5/2.5, order 10/500, split 4, active. The page starts loading, not saving (so save is enabled), no banner |
| SettingsPage.Settings.SaveEnabled | src/pages/Settings.tsx:281 | Definition of the save button's enable rule: no save in flight; the page starts with it enabled |
| SettingsPage.Settings.LoadSettings | src/pages/Settings.tsx:29-58 | With a user, a row read replaces all eight fields (null credentials become "") and loading ends. With no row or any error the settings are kept. Without a user nothing changes |
| SettingsPage.Settings.Edit | src/pages/Settings.tsx:140-270 | An input handler updates the form by exactly that field's edit |
| SettingsPage.Settings.HandleSaveSettings | src/pages/Settings.tsx:60-90 | Without a user nothing happens. Otherwise all eight fields are upserted as held, with no bound check. `success` equals "the write succeeded" and `saving` ends false |
| SettingsPage.InvertedBoundsArePersisted | src/pages/Settings.tsx:60-79 | Min profit 2.5 above max 0.5, and split levels 0, are saved and read back unchanged |
| SettingsPage.AccountToggleSeenBySettings | src/components/AccountActivation.tsx:41-46 | After a successful account toggle, the settings page reloads the new flag, with every other field as stored before |

## Left out

- The store's transport, row-level security, table constraints (such as uniqueness of user and
  symbol) and the upsert conflict target are not modelled. Upserts are taken to be keyed by user id.
  The values of the database's column defaults are opaque (`Store.settingsDefaults`).
- Overlapping calls are not modelled, because every handler completes atomically.
- The order of a user's `trading_assets` rows: both reads (AssetActivation.tsx:29-32, 50-53) have no
  `order` clause, so the database returns them in no fixed order, and an update may move a row.
  The model chooses one order, the order rows were inserted in, and keeps it across updates.
  Store.UserAssets, Assets.AssetActivation.LoadAssets, Assets.LoadReadsOldThenNew,
  Assets.ToggleKeepsViewInSync and Assets.LoadTwice state exact sequences, and these hold only
  under that choice.
- Engine.EngineControls.HandleStartEngine: `loading` being true while the write is in flight cannot
  be observed, because the handler is atomic; the contract states only that it ends false.
- Engine.EngineControls.HandleStopEngine: the same; `loading` during the call is not observable.
- Orders.ManualOrderPanel.HandlePlaceOrder: the same for `loading`. The amount string and its
  parsed value are separate inputs, because `parseFloat` is outside the model (so is its NaN).
- SettingsPage.Settings.HandleSaveSettings: the same for `saving`.
- The 3-second `setTimeout` resets of the success banners (ManualOrderPanel.tsx:36,
  Settings.tsx:84) are not modelled: timers are outside the model.
- Engine.EngineControls.HandleForceTakeProfit: it only writes a log line, so it is an empty method
  without a frame. Console logging is dropped everywhere.
- `new Date()` is not modelled: time stamps are opaque parameters.
- `parseInt` for the split levels and `parseFloat` for the numeric settings are not modelled: each
  edit receives the parsed number. NaN is not represented.
- The show/hide toggles for the API key and secret (Settings.tsx:11-12, 146, 168) are not
  modelled: they only change how a field is displayed.
- Rendering, CSS classes and the `useEffect` hooks are not modelled. The caller invokes the load
  handlers directly.
- The dashboard's mocked figures and random drift, the marketing pages, contact form, navigation
  and footer carry no control logic, so they are not modelled.
