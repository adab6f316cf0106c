/**
  The risk settings page: an eight-field form with defaults, filled from the
  user's `user_settings` row on load, edited one field at a time, and saved
  by upserting all eight fields as held. No bound is checked before the save.
*/
module SettingsPage {
  import opened Store
  import Account

  /** The form's eight fields. */
  datatype RiskSettings = RiskSettings(
    binanceApiKey: string,
    binanceApiSecret: string,
    minProfitPercentage: real,
    maxProfitPercentage: real,
    minUsdtPerOrder: real,
    maxUsdtPerOrder: real,
    walletSplitLevels: int,
    accountActive: bool)

  /** The values the form shows before a row is loaded. */
  const DefaultSettings: RiskSettings := RiskSettings("", "", 0.5, 2.5, 10.0, 500.0, 4, true)

  /** A stored credential, with a null column read as the empty string. */
  function OrEmpty(credential: Option<string>): string {
    match credential
    case Some(s) => s
    case None => ""
  }

  /** The form filled from a stored row. */
  function FromRow(row: SettingsRow): RiskSettings {
    RiskSettings(
      OrEmpty(row.binanceApiKeyEncrypted), OrEmpty(row.binanceApiSecretEncrypted),
      row.minProfitPercentage, row.maxProfitPercentage,
      row.minUsdtPerOrder, row.maxUsdtPerOrder,
      row.walletSplitLevels, row.accountActive)
  }

  /** The row a save writes: every field as held, credentials always non-null. */
  function ToRow(s: RiskSettings): SettingsRow {
    SettingsRow(
      Some(s.binanceApiKey), Some(s.binanceApiSecret),
      s.minProfitPercentage, s.maxProfitPercentage,
      s.minUsdtPerOrder, s.maxUsdtPerOrder,
      s.walletSplitLevels, s.accountActive)
  }

  /** Loading what was saved gives back the form exactly, whatever its values (no field is clamped or checked). */
  lemma LoadAfterSave(s: RiskSettings)
    ensures FromRow(ToRow(s)) == s
  {
  }

  /** Saving what was loaded rewrites the row unchanged exactly when neither credential column was null. */
  lemma SaveAfterLoad(row: SettingsRow)
    ensures ToRow(FromRow(row)) == row <==>
      row.binanceApiKeyEncrypted.Some? && row.binanceApiSecretEncrypted.Some?
  {
  }

  datatype Field = ApiKey | ApiSecret | MinProfit | MaxProfit | MinUsdt | MaxUsdt | SplitLevels | Active

  /** `a` and `b` hold the same value in field `f`. */
  predicate AgreeOn(a: RiskSettings, b: RiskSettings, f: Field) {
    match f
    case ApiKey => a.binanceApiKey == b.binanceApiKey
    case ApiSecret => a.binanceApiSecret == b.binanceApiSecret
    case MinProfit => a.minProfitPercentage == b.minProfitPercentage
    case MaxProfit => a.maxProfitPercentage == b.maxProfitPercentage
    case MinUsdt => a.minUsdtPerOrder == b.minUsdtPerOrder
    case MaxUsdt => a.maxUsdtPerOrder == b.maxUsdtPerOrder
    case SplitLevels => a.walletSplitLevels == b.walletSplitLevels
    case Active => a.accountActive == b.accountActive
  }

  /**
    One keystroke in one of the form's seven inputs; the numeric ones carry the
    value `parseFloat` / `parseInt` produced. The account flag has no input here.
  */
  datatype FieldEdit =
    | EditApiKey(key: string)
    | EditApiSecret(secret: string)
    | EditMinProfit(minProfit: real)
    | EditMaxProfit(maxProfit: real)
    | EditMinUsdt(minUsdt: real)
    | EditMaxUsdt(maxUsdt: real)
    | EditSplitLevels(levels: int)

  function FieldOf(e: FieldEdit): Field {
    match e
    case EditApiKey(_) => ApiKey
    case EditApiSecret(_) => ApiSecret
    case EditMinProfit(_) => MinProfit
    case EditMaxProfit(_) => MaxProfit
    case EditMinUsdt(_) => MinUsdt
    case EditMaxUsdt(_) => MaxUsdt
    case EditSplitLevels(_) => SplitLevels
  }

  /** `s` holds the value edit `e` entered, in the field `e` edits. */
  predicate Holds(s: RiskSettings, e: FieldEdit) {
    match e
    case EditApiKey(v) => s.binanceApiKey == v
    case EditApiSecret(v) => s.binanceApiSecret == v
    case EditMinProfit(v) => s.minProfitPercentage == v
    case EditMaxProfit(v) => s.maxProfitPercentage == v
    case EditMinUsdt(v) => s.minUsdtPerOrder == v
    case EditMaxUsdt(v) => s.maxUsdtPerOrder == v
    case EditSplitLevels(v) => s.walletSplitLevels == v
  }

  /**
    An edit sets its own field to the value entered, unchecked, and leaves the
    other seven fields, the account flag among them, as they were.
  */
  function ApplyEdit(s: RiskSettings, e: FieldEdit): (r: RiskSettings)
    ensures Holds(r, e)
    ensures forall f :: f != FieldOf(e) ==> AgreeOn(s, r, f)
    ensures r.accountActive == s.accountActive
  {
    match e
    case EditApiKey(v) => s.(binanceApiKey := v)
    case EditApiSecret(v) => s.(binanceApiSecret := v)
    case EditMinProfit(v) => s.(minProfitPercentage := v)
    case EditMaxProfit(v) => s.(maxProfitPercentage := v)
    case EditMinUsdt(v) => s.(minUsdtPerOrder := v)
    case EditMaxUsdt(v) => s.(maxUsdtPerOrder := v)
    case EditSplitLevels(v) => s.(walletSplitLevels := v)
  }

  class Settings {
    const store: Store
    var loading: bool
    var saving: bool
    var success: bool
    var settings: RiskSettings

    constructor (store: Store)
      ensures this.store == store
      ensures loading && !saving && !success && settings == DefaultSettings
      ensures SaveEnabled()
    {
      this.store := store;
      loading, saving, success := true, false, false;
      settings := DefaultSettings;
    }

    /** The save button is enabled unless a save is in flight. */
    predicate SaveEnabled()
      reads this
    {
      !saving
    }

    /**
      Load: replace all eight fields from the user's row when the read returns
      one; keep them when there is no row (not an error for `maybeSingle`) or the
      read fails. Error code PGRST116 (more than one row) is not reported; any
      other error is. Then stop loading. Without a user nothing happens.
    */
    method LoadSettings(user: Option<UserId>, outcome: Outcome)
      modifies this`settings, this`loading
      ensures user.None? ==> settings == old(settings) && loading == old(loading)
      ensures user.Some? ==>
        && !loading
        && settings == match ReadOne(store.userSettings, user.value, outcome)
                       case Some(row) => FromRow(row)
                       case None => old(settings)
    {
      if user.None? {
        return;
      }
      var data := ReadOne(store.userSettings, user.value, outcome);
      if outcome.Err? && outcome.code != "PGRST116" {
        // thrown, logged and swallowed
      } else if data.Some? {
        settings := FromRow(data.value);
      }
      loading := false;
    }

    /** One of the seven input handlers. */
    method Edit(e: FieldEdit)
      modifies this`settings
      ensures settings == ApplyEdit(old(settings), e)
    {
      settings := ApplyEdit(settings, e);
    }

    /**
      Save: upsert all eight fields as held, with no check of their values;
      `success` is cleared first and raised only by a successful write.
    */
    method HandleSaveSettings(user: Option<UserId>, outcome: Outcome)
      modifies this`saving, this`success, store`userSettings
      ensures user.None? ==>
        saving == old(saving) && success == old(success) && store.userSettings == old(store.userSettings)
      ensures user.Some? ==>
        && !saving
        && success == outcome.Ok?
        && store.userSettings == if outcome.Ok? then SettingsUpserted(old(store.userSettings), user.value, ToRow(settings))
                                 else old(store.userSettings)
    {
      if user.None? {
        return;
      }
      saving := true;
      success := false;
      store.UpsertSettings(user.value, ToRow(settings), outcome);
      if outcome.Ok? {
        success := true;
      }
      saving := false;
    }
  }

  /**
    Inverted bounds and an out-of-range split count are saved as entered, and
    a reload shows them back.
  */
  method InvertedBoundsArePersisted(page: Settings, u: UserId)
    modifies page`settings, page`loading, page`saving, page`success, page.store`userSettings
    ensures page.settings.minProfitPercentage == 2.5 && page.settings.maxProfitPercentage == 0.5
    ensures page.settings.walletSplitLevels == 0
    ensures u in page.store.userSettings && page.store.userSettings[u].minProfitPercentage == 2.5
    ensures page.success
  {
    page.Edit(EditMinProfit(2.5));
    page.Edit(EditMaxProfit(0.5));
    page.Edit(EditSplitLevels(0));
    page.HandleSaveSettings(Some(u), Ok);
    ghost var saved := page.settings;
    LoadAfterSave(saved);
    page.LoadSettings(Some(u), Ok);
  }

  /**
    The account switch and this page share the user's `user_settings` row: after
    a successful toggle, a reload of the page shows the new flag and, for a row
    that existed, every other field as stored before.
  */
  method AccountToggleSeenBySettings(panel: Account.AccountActivation, page: Settings, u: UserId)
    requires panel.store == page.store
    requires u in panel.store.userSettings
    modifies panel`accountActive, panel.store`userSettings, page`settings, page`loading
    ensures page.settings == FromRow(old(panel.store.userSettings[u]).(accountActive := !old(panel.accountActive)))
    ensures page.settings.accountActive == panel.accountActive
  {
    panel.ToggleAccount(Some(u), Ok);
    page.LoadSettings(Some(u), Ok);
  }
}
