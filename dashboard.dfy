/**
 * The player's dashboard (webapp/src/components/Dashboard.jsx): the stat cards,
 * which session rows are locked, the expanded row and the three action buttons.
 */
module Dashboard {
  import opened Optional
  import opened Js
  import opened Context
  import opened Api

  const NotAvailable := "N/A"
  const DataRefreshed := "Data refreshed!"

  /** `<StatCard value={v}>` shows `v ?? 'N/A'`. */
  function StatCardText(v: Value): (text: string)
    ensures (v.Undefined? || v.Null?) ==> text == NotAvailable
    ensures !(v.Undefined? || v.Null?) ==> text == ToStr(v)
  {
    ToStr(Coalesce(v, Str(NotAvailable)))
  }

  /** Unlike `||`, `??` keeps a zero count: a card for 0 shows "0", not "N/A". */
  lemma StatCardKeepsZero()
    ensures StatCardText(Int(0)) == "0"
    ensures !Truthy(Int(0))
  {
    assert NatToString(0) == [DigitChar(0)];
  }

  /** The make and miss counts of `playerData.stats`; `None` when the field is missing. */
  datatype Stats = Stats(totalMakes: Option<nat>, totalMisses: Option<nat>)

  /** `count || 0` */
  function CountOrZero(count: Option<nat>): (n: nat)
    ensures count.None? ==> n == 0
    ensures count.Some? ==> n == count.value
  {
    if count.Some? && count.value != 0 then count.value else 0
  }

  /** `(stats.total_makes || 0) + (stats.total_misses || 0)` */
  function TotalPutts(stats: Stats): (total: nat)
    ensures total == (if stats.totalMakes.Some? then stats.totalMakes.value else 0)
                   + (if stats.totalMisses.Some? then stats.totalMisses.value else 0)
    ensures total >= CountOrZero(stats.totalMakes) && total >= CountOrZero(stats.totalMisses)
  {
    CountOrZero(stats.totalMakes) + CountOrZero(stats.totalMisses)
  }

  /** The accuracy card shows "N/A" rather than a percentage when there are no putts. */
  predicate AccuracyNotAvailable(stats: Stats) {
    !(TotalPutts(stats) > 0)
  }

  /** Accuracy is "N/A" exactly when both counts are missing or zero. */
  lemma AccuracyNotAvailableIff(stats: Stats)
    ensures AccuracyNotAvailable(stats) <==> TotalPutts(stats) == 0
    ensures AccuracyNotAvailable(stats) <==>
              (stats.totalMakes.None? || stats.totalMakes.value == 0)
              && (stats.totalMisses.None? || stats.totalMisses.value == 0)
  {
  }

  /** `isLocked={!isSubscribed && index > 0}` */
  predicate IsLocked(subscribed: bool, index: nat) {
    !subscribed && index > 0
  }

  /** A subscriber sees every row; anyone else sees only the first. */
  lemma LockedRows(subscribed: bool, sessionCount: nat)
    ensures subscribed ==> forall i :: 0 <= i < sessionCount ==> !IsLocked(subscribed, i)
    ensures !subscribed ==> forall i :: 0 <= i < sessionCount ==> (IsLocked(subscribed, i) <==> i != 0)
  {
  }

  /** `prevId === sessionId ? null : sessionId` */
  function Toggled(prev: Option<int>, sessionId: int): (next: Option<int>)
    ensures next.None? <==> prev == Some(sessionId)
    ensures next.Some? ==> next.value == sessionId
  {
    if prev == Some(sessionId) then None else Some(sessionId)
  }

  /** At most one row is expanded, and toggling the same row twice from a collapsed table collapses it again. */
  lemma ToggleTwice(prev: Option<int>, sessionId: int)
    ensures prev != Some(sessionId) ==> Toggled(Toggled(prev, sessionId), sessionId) == None
    ensures prev == Some(sessionId) ==> Toggled(Toggled(prev, sessionId), sessionId) == prev
  {
  }

  class DashboardPage {
    const player: Player
    var expandedSessionId: Option<int>
    var actionError: string
    var notification: Option<Notice>   // the page's own toast; its 4-second clearing timer is left out
    var sent: seq<Request>
    var refreshes: seq<int>            // player ids passed to `refreshData`

    constructor (player: Player)
      ensures this.player == player
      ensures expandedSessionId == None && actionError == "" && notification == None
      ensures sent == [] && refreshes == []
    {
      this.player := player;
      expandedSessionId, actionError, notification := None, "", None;
      sent, refreshes := [], [];
    }

    /** `isSubscribed` of the signed-in player. */
    predicate Subscribed()
    {
      IsSubscribed(Some(player))
    }

    /** Whether the session row at `index` is drawn locked. */
    predicate RowLocked(index: nat)
    {
      IsLocked(Subscribed(), index)
    }

    method HandleToggleExpand(sessionId: int)
      modifies this`expandedSessionId
      ensures expandedSessionId == Toggled(old(expandedSessionId), sessionId)
    {
      expandedSessionId := if expandedSessionId == Some(sessionId) then None else Some(sessionId);
    }

    /** `handleStartSessionClick`: a free practice session, so no duel and no league round. */
    method HandleStartSessionClick(started: Settled<string>)
      modifies this`actionError, this`notification, this`sent
      ensures sent == old(sent) + [StartSession(Int(player.playerId), Null, Null)]
      ensures started.Resolved? ==> actionError == "" && notification == Some(Notice(started.value, false))
      ensures started.Rejected? ==>
                actionError == started.message && notification == Some(Notice(started.message, true))
    {
      actionError := "";
      sent := sent + [StartSession(Int(player.playerId), Null, Null)];
      match started {
        case Resolved(message) =>
          notification := Some(Notice(message, false));
        case Rejected(message) =>
          actionError := message;
          notification := Some(Notice(message, true));
      }
    }

    /** `handleCalibrateClick` */
    method HandleCalibrateClick(started: Settled<string>)
      modifies this`actionError, this`notification, this`sent
      ensures sent == old(sent) + [StartCalibration(player.playerId)]
      ensures started.Resolved? ==> actionError == "" && notification == Some(Notice(started.value, false))
      ensures started.Rejected? ==>
                actionError == started.message && notification == Some(Notice(started.message, true))
    {
      actionError := "";
      sent := sent + [StartCalibration(player.playerId)];
      match started {
        case Resolved(message) =>
          notification := Some(Notice(message, false));
        case Rejected(message) =>
          actionError := message;
          notification := Some(Notice(message, true));
      }
    }

    /** `handleRefreshClick`: the refresh is not awaited, so the toast is shown at once. */
    method HandleRefreshClick()
      modifies this`actionError, this`notification, this`refreshes
      ensures actionError == "" && refreshes == old(refreshes) + [player.playerId]
      ensures notification == Some(Notice(DataRefreshed, false))
    {
      actionError := "";
      refreshes := refreshes + [player.playerId];
      notification := Some(Notice(DataRefreshed, false));
    }
  }
}
