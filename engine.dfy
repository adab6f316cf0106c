/**
  The engine controls: a two-state machine, stopped or running, driven by a
  start and a stop button that persist `engine_status` first and flip the
  local flag only when the write succeeds; plus two "force" actions that only
  a running engine enables.
*/
module Engine {
  import opened Store

  /** The start button is enabled unless a call is in flight or the engine already runs. */
  predicate StartEnabled(loading: bool, isRunning: bool) {
    !(loading || isRunning)
  }

  /** The stop button is enabled unless a call is in flight or the engine is stopped. */
  predicate StopEnabled(loading: bool, isRunning: bool) {
    !(loading || !isRunning)
  }

  /** Both force buttons are enabled exactly while the engine runs. */
  predicate ForceEnabled(isRunning: bool) {
    isRunning
  }

  /**
    Start and stop are never both enabled; when no call is in flight exactly
    one of them is; a stopped engine disables both force actions.
  */
  lemma EnableRules(loading: bool, isRunning: bool)
    ensures !(StartEnabled(loading, isRunning) && StopEnabled(loading, isRunning))
    ensures !loading ==> (StartEnabled(loading, isRunning) <==> !StopEnabled(loading, isRunning))
    ensures loading ==> !StartEnabled(loading, isRunning) && !StopEnabled(loading, isRunning)
    ensures !isRunning ==> !ForceEnabled(isRunning)
  {
  }

  /** The price a forced sell aims at. */
  datatype PriceType = Max | Min

  class EngineControls {
    const store: Store
    var isRunning: bool
    var loading: bool
    var showForceSell: bool

    constructor (store: Store)
      ensures this.store == store
      ensures !isRunning && !loading && !showForceSell
    {
      this.store := store;
      isRunning, loading, showForceSell := false, false, false;
    }

    /** Load: take `is_running` from the user's row when the read returns one; otherwise keep the flag. */
    method LoadEngineStatus(user: Option<UserId>, outcome: Outcome)
      modifies this`isRunning
      ensures user.None? ==> isRunning == old(isRunning)
      ensures user.Some? ==>
        isRunning == match ReadOne(store.engineStatus, user.value, outcome)
                     case Some(row) => row.isRunning
                     case None => old(isRunning)
    {
      if user.None? {
        return;
      }
      var data := ReadOne(store.engineStatus, user.value, outcome);
      if data.Some? {
        isRunning := data.value.isRunning;
      }
    }

    /** Start: upsert `is_running = true` stamped `now`; the local flag follows only a successful write. */
    method HandleStartEngine(user: Option<UserId>, now: Timestamp, outcome: Outcome)
      modifies this`isRunning, this`loading, store`engineStatus
      ensures user.None? ==>
        isRunning == old(isRunning) && loading == old(loading) && store.engineStatus == old(store.engineStatus)
      ensures user.Some? ==>
        && !loading
        && isRunning == (if outcome.Ok? then true else old(isRunning))
        && store.engineStatus == if outcome.Ok? then EngineStarted(old(store.engineStatus), store.engineDefaults, user.value, now)
                                 else old(store.engineStatus)
    {
      if user.None? {
        return;
      }
      loading := true;
      store.UpsertEngineStart(user.value, now, outcome);
      if outcome.Ok? {
        isRunning := true;
      }
      loading := false;
    }

    /** Stop: upsert `is_running = false` stamped `now`; the local flag follows only a successful write. */
    method HandleStopEngine(user: Option<UserId>, now: Timestamp, outcome: Outcome)
      modifies this`isRunning, this`loading, store`engineStatus
      ensures user.None? ==>
        isRunning == old(isRunning) && loading == old(loading) && store.engineStatus == old(store.engineStatus)
      ensures user.Some? ==>
        && !loading
        && isRunning == (if outcome.Ok? then false else old(isRunning))
        && store.engineStatus == if outcome.Ok? then EngineStopped(old(store.engineStatus), store.engineDefaults, user.value, now)
                                 else old(store.engineStatus)
    {
      if user.None? {
        return;
      }
      loading := true;
      store.UpsertEngineStop(user.value, now, outcome);
      if outcome.Ok? {
        isRunning := false;
      }
      loading := false;
    }

    /** Force take batch profit only writes a log line: it has no frame, so it changes nothing. */
    method HandleForceTakeProfit() {
    }

    /** The force-sell button opens or closes the price menu. */
    method ToggleForceSellMenu()
      modifies this`showForceSell
      ensures showForceSell == !old(showForceSell)
    {
      showForceSell := !showForceSell;
    }

    /** Force sell logs the chosen price type and closes the menu; no engine state changes. */
    method HandleForceSell(priceType: PriceType)
      modifies this`showForceSell
      ensures !showForceSell
    {
      showForceSell := false;
    }
  }

  /**
    A started-then-stopped engine: both transitions persist, the flag ends
    where it began, start is enabled again, and the row holds both stamps.
  */
  method StartThenStopEngine(panel: EngineControls, u: UserId, started: Timestamp, stopped: Timestamp)
    requires !panel.isRunning && !panel.loading
    modifies panel`isRunning, panel`loading, panel.store`engineStatus
    ensures !panel.isRunning && !panel.loading && StartEnabled(panel.loading, panel.isRunning)
    ensures u in panel.store.engineStatus
    ensures panel.store.engineStatus[u] == EngineRow(false, Some(started), Some(stopped))
  {
    assert StartEnabled(panel.loading, panel.isRunning);
    panel.HandleStartEngine(Some(u), started, Ok);
    assert StopEnabled(panel.loading, panel.isRunning) && ForceEnabled(panel.isRunning);
    ghost var table := old(panel.store.engineStatus);
    panel.HandleStopEngine(Some(u), stopped, Ok);
    StartThenStop(table, panel.store.engineDefaults, u, started, stopped);
  }
}
