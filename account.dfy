/**
  The account activation switch: a flag that is on until a load says
  otherwise, flipped by a toggle that persists the new value to
  `user_settings.account_active` and shows it only when the write succeeds.
*/
module Account {
  import opened Store

  class AccountActivation {
    const store: Store
    var accountActive: bool
    var loading: bool

    constructor (store: Store)
      ensures this.store == store
      ensures accountActive && loading && !Renders()
    {
      this.store := store;
      accountActive, loading := true, true;
    }

    /** Nothing is shown while loading. */
    predicate Renders()
      reads this
    {
      !loading
    }

    /** Load: take `account_active` from the user's row when the read returns one; then stop loading. */
    method LoadAccountStatus(user: Option<UserId>, outcome: Outcome)
      modifies this`accountActive, this`loading
      ensures user.None? ==> accountActive == old(accountActive) && loading == old(loading)
      ensures user.Some? ==>
        && !loading && Renders()
        && accountActive == match ReadOne(store.userSettings, user.value, outcome)
                            case Some(row) => row.accountActive
                            case None => old(accountActive)
    {
      if user.None? {
        return;
      }
      var data := ReadOne(store.userSettings, user.value, outcome);
      if data.Some? {
        accountActive := data.value.accountActive;
      }
      loading := false;
    }

    /** Toggle: upsert `account_active = !accountActive` for the user; show it only after a successful write. */
    method ToggleAccount(user: Option<UserId>, outcome: Outcome)
      modifies this`accountActive, store`userSettings
      ensures user.None? ==> accountActive == old(accountActive) && store.userSettings == old(store.userSettings)
      ensures user.Some? ==>
        && accountActive == (if outcome.Ok? then !old(accountActive) else old(accountActive))
        && store.userSettings == if outcome.Ok? then AccountActiveUpserted(old(store.userSettings), store.settingsDefaults, user.value, !old(accountActive))
                                 else old(store.userSettings)
    {
      if user.None? {
        return;
      }
      var newStatus := !accountActive;
      store.UpsertAccountActive(user.value, newStatus, outcome);
      if outcome.Ok? {
        accountActive := newStatus;
      }
    }
  }

  /**
    Two successful toggles restore the flag, and the stored row then holds the
    original value again; the row's other columns are those the first write left.
  */
  method ToggleTwice(panel: AccountActivation, u: UserId)
    modifies panel`accountActive, panel.store`userSettings
    ensures panel.accountActive == old(panel.accountActive)
    ensures u in panel.store.userSettings && panel.store.userSettings[u].accountActive == old(panel.accountActive)
  {
    panel.ToggleAccount(Some(u), Ok);
    assert panel.accountActive == !old(panel.accountActive);
    panel.ToggleAccount(Some(u), Ok);
  }
}
