/**
 * The leagues page (webapp/src/components/LeaguesPage.jsx): the three league
 * lists, joining, answering invitations and the subscription gate on creating
 * a league.
 */
module Leagues {
  import opened Optional
  import opened Js
  import opened Context
  import opened Api

  const LoadFailure := "Failed to load leagues."
  const JoinFailure := "Could not join league."
  const CreateRefusal := "You can join leagues as a free user, but creating a league requires a full subscription."

  /** What `apiListLeagues` resolves with. */
  datatype LeagueLists<L> = LeagueLists(myLeagues: seq<L>, publicLeagues: seq<L>, pendingInvites: seq<L>)

  /** The notice after answering an invitation: the action with "d" appended. */
  function InviteNotice(action: string): (message: string)
    ensures |message| == 11 + |action| + 15
    ensures message[..11] == "Invitation " && message[11..11 + |action|] == action
    ensures message[11 + |action|..] == "d successfully."
  {
    "Invitation " + action + "d successfully."
  }

  /** The fallback when answering an invitation fails without a message. */
  function InviteFailure(action: string): (message: string)
    ensures |message| == 10 + |action| + 8
    ensures message[..10] == "Could not " && message[10..10 + |action|] == action
    ensures message[10 + |action|..] == " invite."
  {
    "Could not " + action + " invite."
  }

  /** The Decline button's notice reads "declined". */
  lemma DeclineNotice()
    ensures InviteNotice("decline")[11..19] == "declined"
  {
    var m := InviteNotice("decline");
    assert m[11..18] == "decline" && m[18] == 'd';
    assert m[11..19] == m[11..18] + [m[18]];
  }

  /** The Accept button's notice reads "acceptd", as the template is written. */
  lemma AcceptNotice()
    ensures InviteNotice("accept")[11..18] == "acceptd"
  {
    var m := InviteNotice("accept");
    assert m[11..17] == "accept" && m[17] == 'd';
    assert m[11..18] == m[11..17] + [m[17]];
  }

  datatype PageState<L> = PageState(
    leagues: LeagueLists<L>,
    isLoading: bool,
    error: string,
    showCreateModal: bool,
    notices: seq<Notice>,
    sent: seq<Request>)

  /** What the page draws: a loading line, the error alone, or the lists (and the dialog). */
  datatype Screen<L> = LoadingScreen | ErrorScreen(message: string) | ListsScreen(leagues: LeagueLists<L>, withCreateModal: bool)

  function Render<L>(s: PageState<L>): (screen: Screen<L>)
    ensures screen.LoadingScreen? <==> s.isLoading
    ensures screen.ErrorScreen? <==> !s.isLoading && s.error != ""
    ensures screen.ErrorScreen? ==> screen.message == s.error
    ensures screen.ListsScreen? ==> screen.leagues == s.leagues && screen.withCreateModal == s.showCreateModal
  {
    if s.isLoading then LoadingScreen
    else if s.error != "" then ErrorScreen(s.error)
    else ListsScreen(s.leagues, s.showCreateModal)
  }

  /** `fetchLeagues`: nothing without a player id; the old lists stay on failure. */
  function Fetched<L>(s: PageState<L>, player: Option<Player>, listed: Settled<LeagueLists<L>>): PageState<L> {
    if NoPlayerId(player) then s
    else
      var s1 := s.(sent := s.sent + [ListLeagues(player.value.playerId)], isLoading := false);
      match listed
      case Resolved(lists) => s1.(leagues := lists)
      case Rejected(message) => s1.(error := OrElse(message, LoadFailure))
  }

  /** `handleJoinLeague` */
  function Joined<L>(s: PageState<L>, player: Player, leagueId: int, joined: Settled<()>,
                     listed: Settled<LeagueLists<L>>): PageState<L>
  {
    var s1 := s.(sent := s.sent + [JoinLeague(leagueId, player.playerId)]);
    match joined
    case Resolved(_) => Fetched(s1, Some(player), listed)
    case Rejected(message) => s1.(error := OrElse(message, JoinFailure))
  }

  /** `handleInviteResponse` */
  function InviteAnswered<L>(s: PageState<L>, player: Player, leagueId: int, action: string,
                             answered: Settled<()>, listed: Settled<LeagueLists<L>>): PageState<L>
  {
    var s1 := s.(sent := s.sent + [RespondToLeagueInvite(leagueId, player.playerId, action)]);
    match answered
    case Resolved(_) => Fetched(s1.(notices := s1.notices + [Notice(InviteNotice(action), false)]), Some(player), listed)
    case Rejected(message) => s1.(notices := s1.notices + [Notice(OrElse(message, InviteFailure(action)), true)])
  }

  /** `handleLeagueCreated` */
  function LeagueCreated<L>(s: PageState<L>, player: Option<Player>, listed: Settled<LeagueLists<L>>): PageState<L> {
    Fetched(s.(showCreateModal := false), player, listed)
  }

  /** `handleCreateLeagueClick` */
  function CreateClicked<L>(s: PageState<L>, player: Option<Player>): PageState<L> {
    if IsSubscribed(player) then s.(showCreateModal := true)
    else s.(notices := s.notices + [Notice(CreateRefusal, true)])
  }

  /** The dialog opens only for a subscriber; anyone else gets the refusal and nothing else changes. */
  lemma CreateNeedsSubscription<L>(s: PageState<L>, player: Option<Player>)
    ensures CreateClicked(s, player).showCreateModal <==> IsSubscribed(player) || s.showCreateModal
    ensures !IsSubscribed(player) ==>
              CreateClicked(s, player) == s.(notices := s.notices + [Notice(CreateRefusal, true)])
  {
  }

  /** A failed join keeps the lists and makes no further request; the page then shows only the error. */
  lemma JoinFailureShowsError<L>(s: PageState<L>, player: Player, leagueId: int, message: string,
                                 listed: Settled<LeagueLists<L>>)
    requires !s.isLoading
    ensures var t := Joined(s, player, leagueId, Rejected(message), listed);
      t.leagues == s.leagues && t.sent == s.sent + [JoinLeague(leagueId, player.playerId)]
      && Render(t) == ErrorScreen(OrElse(message, JoinFailure))
      && (message != "" ==> Render(t) == ErrorScreen(message))
  {
  }

  /** A failed invitation answer shows the thrown message, or the "Could not …" fallback, as an error notice. */
  lemma InviteFailureNotice<L>(s: PageState<L>, player: Player, leagueId: int, action: string, message: string,
                               listed: Settled<LeagueLists<L>>)
    ensures var t := InviteAnswered(s, player, leagueId, action, Rejected(message), listed);
      t.leagues == s.leagues && t.error == s.error
      && t.notices == s.notices + [Notice(if message != "" then message else InviteFailure(action), true)]
  {
  }

  /** After a successful answer the page re-fetches the lists with the same player. */
  lemma InviteSuccessRefetches<L>(s: PageState<L>, player: Player, leagueId: int, action: string,
                                  listed: Settled<LeagueLists<L>>)
    requires player.playerId != 0
    ensures var t := InviteAnswered(s, player, leagueId, action, Resolved(()), listed);
      t.sent == s.sent + [RespondToLeagueInvite(leagueId, player.playerId, action), ListLeagues(player.playerId)]
      && t.notices == s.notices + [Notice(InviteNotice(action), false)]
      && (listed.Resolved? ==> t.leagues == listed.value)
  {
    var request := RespondToLeagueInvite(leagueId, player.playerId, action);
    assert s.sent + [request] + [ListLeagues(player.playerId)] == s.sent + [request, ListLeagues(player.playerId)];
  }

  /** Creating a league closes the dialog and re-fetches. */
  lemma LeagueCreatedClosesAndRefetches<L>(s: PageState<L>, player: Option<Player>, listed: Settled<LeagueLists<L>>)
    requires !NoPlayerId(player)
    ensures var t := LeagueCreated(s, player, listed);
      !t.showCreateModal && t.sent == s.sent + [ListLeagues(player.value.playerId)] && !t.isLoading
  {
  }

  /** No fetch clears an error: once the error screen shows, later fetches keep it. */
  lemma {:induction false} ErrorIsSticky<L>(s: PageState<L>, player: Option<Player>, fetches: seq<Settled<LeagueLists<L>>>)
    requires s.error != ""
    ensures FetchAll(s, player, fetches).error != ""
    decreases |fetches|
  {
    if fetches != [] {
      var t := Fetched(s, player, fetches[0]);
      assert t.error != "";
      ErrorIsSticky(t, player, fetches[1..]);
    }
  }

  /** A run of fetches in a row. */
  function FetchAll<L>(s: PageState<L>, player: Option<Player>, fetches: seq<Settled<LeagueLists<L>>>): PageState<L>
    decreases |fetches|
  {
    if fetches == [] then s else FetchAll(Fetched(s, player, fetches[0]), player, fetches[1..])
  }

  class LeaguesPage<L> {
    const player: Option<Player>
    var leagues: LeagueLists<L>
    var isLoading: bool
    var error: string
    var showCreateModal: bool
    var notices: seq<Notice>
    var sent: seq<Request>

    function State(): PageState<L>
      reads this
    {
      PageState(leagues, isLoading, error, showCreateModal, notices, sent)
    }

    constructor (player: Option<Player>)
      ensures this.player == player
      ensures State() == PageState(LeagueLists([], [], []), true, "", false, [], [])
    {
      this.player := player;
      leagues := LeagueLists([], [], []);
      isLoading, error, showCreateModal := true, "", false;
      notices, sent := [], [];
    }

    method FetchLeagues(listed: Settled<LeagueLists<L>>)
      modifies this
      ensures State() == Fetched(old(State()), player, listed)
    {
      if NoPlayerId(player) {
        return;
      }
      isLoading := true;
      sent := sent + [ListLeagues(player.value.playerId)];
      match listed {
        case Resolved(data) =>
          leagues := data;
        case Rejected(message) =>
          error := OrElse(message, LoadFailure);
      }
      isLoading := false;
    }

    method HandleJoinLeague(leagueId: int, joined: Settled<()>, listed: Settled<LeagueLists<L>>)
      requires player.Some?
      modifies this
      ensures State() == Joined(old(State()), player.value, leagueId, joined, listed)
    {
      sent := sent + [JoinLeague(leagueId, player.value.playerId)];
      match joined {
        case Resolved(_) =>
          FetchLeagues(listed);
        case Rejected(message) =>
          error := OrElse(message, JoinFailure);
      }
    }

    method HandleInviteResponse(leagueId: int, action: string, answered: Settled<()>, listed: Settled<LeagueLists<L>>)
      requires player.Some?
      modifies this
      ensures State() == InviteAnswered(old(State()), player.value, leagueId, action, answered, listed)
    {
      sent := sent + [RespondToLeagueInvite(leagueId, player.value.playerId, action)];
      match answered {
        case Resolved(_) =>
          notices := notices + [Notice("Invitation " + action + "d successfully.", false)];
          FetchLeagues(listed);
        case Rejected(message) =>
          notices := notices + [Notice(OrElse(message, "Could not " + action + " invite."), true)];
      }
    }

    method HandleLeagueCreated(listed: Settled<LeagueLists<L>>)
      modifies this
      ensures State() == LeagueCreated(old(State()), player, listed)
    {
      showCreateModal := false;
      FetchLeagues(listed);
    }

    method HandleCreateLeagueClick()
      modifies this
      ensures State() == CreateClicked(old(State()), player)
    {
      if IsSubscribed(player) {
        showCreateModal := true;
      } else {
        notices := notices + [Notice(CreateRefusal, true)];
      }
    }

    /** The dialog's `onClose`. */
    method CloseCreateModal()
      modifies this`showCreateModal
      ensures State() == old(State()).(showCreateModal := false)
    {
      showCreateModal := false;
    }
  }
}
