/**
 * The paginated session history (webapp/src/components/SessionHistoryPage.jsx):
 * which rows are locked on which page, the page changes and the fetch.
 */
module SessionHistory {
  import opened Optional
  import opened Js
  import opened Context
  import opened Api
  import Dashboard

  const LoadFailure := "Failed to load session history."

  /** `isLocked={!isSubscribed && !(currentPage === 1 && index === 0)}` */
  predicate IsLocked(subscribed: bool, page: int, index: nat) {
    !subscribed && !(page == 1 && index == 0)
  }

  /** A subscriber sees every row of every page. */
  lemma SubscriberSeesAll(page: int, index: nat)
    ensures !IsLocked(true, page, index)
  {
  }

  /** Without a subscription the one unlocked row is the first row of page 1. */
  lemma FreeRowsLocked(page: int, index: nat)
    ensures IsLocked(false, page, index) <==> page != 1 || index != 0
    ensures page != 1 ==> IsLocked(false, page, index)
  {
  }

  /** Page 1 of the history locks the same rows as the dashboard's list. */
  lemma FirstPageMatchesDashboard(subscribed: bool, index: nat)
    ensures IsLocked(subscribed, 1, index) <==> Dashboard.IsLocked(subscribed, index)
  {
  }

  /** What a successful `apiGetPlayerSessions` resolves with. */
  datatype SessionPage<S> = SessionPage(sessions: seq<S>, totalPages: int)

  class SessionHistoryPage<Session> {
    const routePlayerId: string        // `useParams().playerId`
    const player: Option<Player>
    var sessions: seq<Session>
    var currentPage: int
    var totalPages: int
    var isLoading: bool
    var error: string
    var sent: seq<Request>

    constructor (routePlayerId: string, player: Option<Player>)
      ensures this.routePlayerId == routePlayerId && this.player == player
      ensures sessions == [] && currentPage == 1 && totalPages == 1
      ensures isLoading && error == "" && sent == []
    {
      this.routePlayerId, this.player := routePlayerId, player;
      sessions, currentPage, totalPages := [], 1, 1;
      isLoading, error, sent := true, "", [];
    }

    /** Whether the row at `index` of the current page is drawn locked. */
    predicate RowLocked(index: nat)
      reads this
    {
      IsLocked(IsSubscribed(player), currentPage, index)
    }

    /** `handlePageChange`: the page asked for, as given. */
    method HandlePageChange(page: int)
      modifies this`currentPage
      ensures currentPage == page
    {
      currentPage := page;
    }

    /** The effect's `fetchSessions` for the current page, with the call settling as `fetched`. */
    method FetchSessions(fetched: Settled<SessionPage<Session>>)
      modifies this`sessions, this`totalPages, this`isLoading, this`error, this`sent
      ensures routePlayerId == "" ==>
                sessions == old(sessions) && totalPages == old(totalPages) && isLoading == old(isLoading)
                && error == old(error) && sent == old(sent)
      ensures routePlayerId != "" ==> sent == old(sent) + [GetPlayerSessions(routePlayerId, Int(currentPage))] && !isLoading
      ensures routePlayerId != "" && fetched.Resolved? ==>
                error == "" && sessions == fetched.value.sessions && totalPages == fetched.value.totalPages
      ensures routePlayerId != "" && fetched.Rejected? ==>
                error == OrElse(fetched.message, LoadFailure) && error != ""
                && sessions == old(sessions) && totalPages == old(totalPages)
    {
      if routePlayerId == "" {
        return;
      }
      isLoading := true;
      error := "";
      sent := sent + [GetPlayerSessions(routePlayerId, Int(currentPage))];
      match fetched {
        case Resolved(data) =>
          sessions := data.sessions;
          totalPages := data.totalPages;
        case Rejected(message) =>
          error := OrElse(message, LoadFailure);
      }
      isLoading := false;
    }
  }

  /** The URL the fetch of page `page` reaches: the page is written out and the limit is the default 25. */
  lemma FetchUrl(base: string, routePlayerId: string, page: int)
    ensures PlayerSessionsUrl(base, Str(routePlayerId), Int(page), Undefined)
         == base + "/player/" + routePlayerId + "/sessions?page=" + IntToString(page) + "&limit=25"
  {
    DefaultNumerals();
  }
}
