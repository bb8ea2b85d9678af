/**
 * The duel presenter (webapp/src/components/DuelsPage.jsx): the per-row
 * derivations of `DuelRow`, the three display buckets, and the `DuelsPage`
 * state that its handlers update.
 */
module Duels {
  import opened Optional
  import opened Js
  import opened Context
  import opened Api

  // ---------------------------------------------------------------------------
  // Data

  datatype Status = Pending | Accepted | Declined | Completed | Expired

  /** A duel record as the list endpoint returns it (fields the presenter reads). */
  datatype Duel = Duel(
    duelId: int,
    creatorId: int,
    invitedPlayerId: int,
    creatorName: string,
    invitedPlayerName: string,
    status: Status,
    invitationExpiryMinutes: Value,
    sessionDurationLimitMinutes: Value,
    creatorSubmittedSessionId: Value,
    invitedPlayerSubmittedSessionId: Value,
    creatorScore: Option<int>,
    invitedPlayerScore: Option<int>,
    creatorDuration: Option<int>,   // seconds
    invitedDuration: Option<int>,   // seconds
    winnerId: Option<int>,          // None is a null winner: a draw
    invitationExpiresAt: Option<int>, // milliseconds since the epoch; None when empty
    endTime: Option<int>)

  /** The status string the source compares against. */
  function StatusName(s: Status): string {
    match s
    case Pending => "pending"
    case Accepted => "accepted"
    case Declined => "declined"
    case Completed => "completed"
    case Expired => "expired"
  }

  const Dash := "\U{2014}"

  // ---------------------------------------------------------------------------
  // Per-player reference definitions (what "the viewer's own" field means)

  predicate IsParticipant(d: Duel, p: int) {
    p == d.creatorId || p == d.invitedPlayerId
  }

  /** Both participants are distinct players. */
  predicate TwoPlayers(d: Duel) {
    d.creatorId != d.invitedPlayerId
  }

  function NameOf(d: Duel, p: int): string
    requires IsParticipant(d, p)
  {
    if p == d.creatorId then d.creatorName else d.invitedPlayerName
  }

  function SubmittedSessionOf(d: Duel, p: int): Value
    requires IsParticipant(d, p)
  {
    if p == d.creatorId then d.creatorSubmittedSessionId else d.invitedPlayerSubmittedSessionId
  }

  // ---------------------------------------------------------------------------
  // DuelRow derivations, chosen by `creator_id === currentUserId`

  predicate IsCreator(d: Duel, viewer: int) {
    d.creatorId == viewer
  }

  function OpponentId(d: Duel, viewer: int): (r: int)
    ensures IsParticipant(d, viewer) && TwoPlayers(d) ==> IsParticipant(d, r) && r != viewer
  {
    if IsCreator(d, viewer) then d.invitedPlayerId else d.creatorId
  }

  function OpponentName(d: Duel, viewer: int): (r: string)
    ensures IsParticipant(d, viewer) && TwoPlayers(d) ==> r == NameOf(d, OpponentId(d, viewer))
  {
    if IsCreator(d, viewer) then d.invitedPlayerName else d.creatorName
  }

  function MyScore(d: Duel, viewer: int): Option<int> {
    if IsCreator(d, viewer) then d.creatorScore else d.invitedPlayerScore
  }

  function OpponentScore(d: Duel, viewer: int): (r: Option<int>)
    ensures IsParticipant(d, viewer) && TwoPlayers(d) ==> r == MyScore(d, OpponentId(d, viewer))
  {
    if IsCreator(d, viewer) then d.invitedPlayerScore else d.creatorScore
  }

  function MyDuration(d: Duel, viewer: int): Option<int> {
    if IsCreator(d, viewer) then d.creatorDuration else d.invitedDuration
  }

  /**
   * Each player's "my" columns read their own fields, and the two players see each
   * other's scores: my score as creator is the invitee's opponent score.
   */
  lemma ScoresSwapWithRole(d: Duel)
    requires TwoPlayers(d)
    ensures MyScore(d, d.creatorId) == OpponentScore(d, d.invitedPlayerId)
    ensures OpponentScore(d, d.creatorId) == MyScore(d, d.invitedPlayerId)
    ensures OpponentId(d, d.creatorId) == d.invitedPlayerId && OpponentId(d, d.invitedPlayerId) == d.creatorId
    ensures MyScore(d, d.creatorId) == d.creatorScore && MyScore(d, d.invitedPlayerId) == d.invitedPlayerScore
    ensures MyDuration(d, d.creatorId) == d.creatorDuration && MyDuration(d, d.invitedPlayerId) == d.invitedDuration
  {
  }

  /** Accept and Decline: a pending duel, seen by the invited player. */
  predicate IsMyTurnToAct(d: Duel, viewer: int) {
    d.status == Pending && d.invitedPlayerId == viewer
  }

  /** Start Session: an accepted duel for which the viewer's own submitted session id is unset. */
  predicate CanStartSession(d: Duel, viewer: int) {
    d.status == Accepted
    && ((IsCreator(d, viewer) && !Truthy(d.creatorSubmittedSessionId))
        || (!IsCreator(d, viewer) && !Truthy(d.invitedPlayerSubmittedSessionId)))
  }

  /** Rematch: a duel that is over. */
  predicate CanRematch(d: Duel) {
    d.status == Completed || d.status == Expired
  }

  /** The gates in terms of the viewer's role: the creator is never offered Accept/Decline. */
  lemma ActionGates(d: Duel, viewer: int)
    requires IsParticipant(d, viewer) && TwoPlayers(d)
    ensures IsMyTurnToAct(d, viewer) <==> d.status == Pending && viewer != d.creatorId
    ensures CanStartSession(d, viewer) <==> d.status == Accepted && !Truthy(SubmittedSessionOf(d, viewer))
    ensures IsMyTurnToAct(d, viewer) ==> !CanStartSession(d, viewer) && !CanRematch(d)
    ensures CanStartSession(d, viewer) ==> !CanRematch(d)
  {
  }

  // ---------------------------------------------------------------------------
  // Session length

  /** `Math.round(seconds / 60)`: the nearest whole minute, halves rounded up. */
  function RoundToMinutes(seconds: int): (m: int)
    ensures 60 * m - 30 <= seconds < 60 * m + 30
  {
    (seconds + 30) / 60
  }

  /** `${count} minute${count !== 1 ? 's' : ''}` */
  function MinutesText(count: Value): string {
    ToStr(count) + " minute" + (if count != Int(1) then "s" else "")
  }

  /** The number at the head of a minutes text is the count, and the plural follows it. */
  lemma MinutesTextOfInt(m: int)
    ensures ParseIntText(MinutesText(Int(m))) == Int(m)
    ensures |MinutesText(Int(m))| > 1
    ensures MinutesText(Int(m))[|MinutesText(Int(m))| - 1] == 's' <==> m != 1
  {
    var suffix := " minute" + (if m != 1 then "s" else "");
    assert MinutesText(Int(m)) == IntToString(m) + suffix;
    ParseIntTextOfNumeral(m, suffix);
  }

  /** `formatDuration(myDuration)` */
  function FormatDuration(seconds: Option<int>): string {
    if seconds.None? then Dash else MinutesText(Int(RoundToMinutes(seconds.value)))
  }

  /** The "Session Length" cell: the limit while the duel is open, the viewer's own duration afterwards. */
  function SessionLengthText(d: Duel, viewer: int): string {
    if d.status == Pending || d.status == Accepted then
      (if Truthy(d.sessionDurationLimitMinutes) then MinutesText(d.sessionDurationLimitMinutes) else Dash)
    else
      FormatDuration(MyDuration(d, viewer))
  }

  lemma SessionLengthDisplay(d: Duel, viewer: int)
    ensures d.status in {Pending, Accepted} ==>
      (SessionLengthText(d, viewer) == Dash <==> !Truthy(d.sessionDurationLimitMinutes))
    ensures d.status in {Pending, Accepted} && d.sessionDurationLimitMinutes.Int? && d.sessionDurationLimitMinutes.i != 0 ==>
      ParseIntText(SessionLengthText(d, viewer)) == d.sessionDurationLimitMinutes
    ensures d.status !in {Pending, Accepted} ==>
      (SessionLengthText(d, viewer) == Dash <==> MyDuration(d, viewer).None?)
    ensures d.status !in {Pending, Accepted} && MyDuration(d, viewer).Some? ==>
      ParseIntText(SessionLengthText(d, viewer)) == Int(RoundToMinutes(MyDuration(d, viewer).value))
  {
    var limit := d.sessionDurationLimitMinutes;
    if d.status in {Pending, Accepted} {
      if Truthy(limit) {
        assert |MinutesText(limit)| > 1;
        if limit.Int? {
          MinutesTextOfInt(limit.i);
        }
      }
    } else if MyDuration(d, viewer).Some? {
      MinutesTextOfInt(RoundToMinutes(MyDuration(d, viewer).value));
    }
  }

  lemma SessionLengthExamples(d: Duel, viewer: int)
    ensures d.status == Accepted && d.sessionDurationLimitMinutes == Int(10) ==> SessionLengthText(d, viewer) == "10 minutes"
    ensures d.status == Completed && MyDuration(d, viewer) == Some(125) ==> SessionLengthText(d, viewer) == "2 minutes"
  {
    assert IntToString(10) == "10" by {
      assert NatToString(1) == [DigitChar(1)];
      assert NatToString(10) == NatToString(1) + [DigitChar(0)];
    }
    assert IntToString(2) == "2" by {
      assert NatToString(2) == [DigitChar(2)];
    }
  }

  // ---------------------------------------------------------------------------
  // Expiration and result columns

  const MsPerHour := 1000 * 60 * 60

  datatype Expiration = NoExpiration | Countdown(endTime: int) | ExpiryDate(date: int)

  /** `(expiresAt.getTime() - now.getTime()) / (1000 * 60 * 60)` */
  function HoursUntil(expiresAt: int, now: int): real {
    (expiresAt - now) as real / (MsPerHour as real)
  }

  /** The "Expiration" cell: only a pending duel with a deadline shows one; a countdown when it is at most 100 hours away. */
  function ExpirationContent(d: Duel, now: int): (r: Expiration)
    ensures r.Countdown? <==> d.status == Pending && d.invitationExpiresAt.Some?
                              && 0 < d.invitationExpiresAt.value - now <= 100 * MsPerHour
    ensures r.ExpiryDate? <==> d.status == Pending && d.invitationExpiresAt.Some?
                               && !(0 < d.invitationExpiresAt.value - now <= 100 * MsPerHour)
    ensures !r.NoExpiration? ==> r == Countdown(d.invitationExpiresAt.value) || r == ExpiryDate(d.invitationExpiresAt.value)
  {
    if d.status == Pending && d.invitationExpiresAt.Some? then
      var hours := HoursUntil(d.invitationExpiresAt.value, now);
      if hours <= 100.0 && hours > 0.0 then Countdown(d.invitationExpiresAt.value)
      else ExpiryDate(d.invitationExpiresAt.value)
    else
      NoExpiration
  }

  /** The "Result Date" cell: the end time of a duel that is over (None renders as a dash). */
  function ResultDate(d: Duel): (r: Option<int>)
    ensures r.Some? <==> d.status in {Completed, Declined, Expired} && d.endTime.Some?
    ensures r.Some? ==> r == d.endTime
  {
    if d.status in {Completed, Declined, Expired} then d.endTime else None
  }

  /** The outcome label, from the viewer's side (`winner_id === parseInt(currentUserId)`). */
  function ResultText(d: Duel, viewer: int): (r: string)
    ensures r == "" <==> d.status != Completed
    ensures r == "Draw" <==> d.status == Completed && d.winnerId.None?
    ensures r == "Won" <==> d.status == Completed && d.winnerId == Some(viewer)
    ensures r == "Lost" <==> d.status == Completed && d.winnerId.Some? && d.winnerId != Some(viewer)
  {
    if d.status != Completed then ""
    else if d.winnerId.None? then "Draw"
    else
      if Int(d.winnerId.value) == ParseInt(Int(viewer)) then "Won" else "Lost"
  }

  /** Of two distinct players, at most one sees "Won", and a draw is a draw for both. */
  lemma OutcomeSymmetry(d: Duel)
    requires TwoPlayers(d) && d.status == Completed
    ensures !(ResultText(d, d.creatorId) == "Won" && ResultText(d, d.invitedPlayerId) == "Won")
    ensures ResultText(d, d.creatorId) == "Draw" <==> ResultText(d, d.invitedPlayerId) == "Draw"
    ensures d.winnerId == Some(d.creatorId) ==> ResultText(d, d.invitedPlayerId) == "Lost"
    ensures d.winnerId == Some(d.invitedPlayerId) ==> ResultText(d, d.creatorId) == "Lost"
  {
  }

  // ---------------------------------------------------------------------------
  // The rendered row

  datatype Category = PendingCategory | ActiveCategory | CompletedCategory

  datatype DateCell = ExpirationCell(expiration: Expiration) | ResultDateCell(date: Option<int>)

  datatype Button = DeclineButton | AcceptButton | StartSessionButton | RematchButton

  datatype DuelView = DuelView(
    statusLabel: string,
    opponent: string,
    opponentId: int,
    dateCell: DateCell,
    myScore: string,
    opponentScore: string,
    sessionLength: string,
    buttons: seq<Button>)

  /** `score ?? '—'` */
  function ScoreCell(score: Option<int>): string {
    if score.None? then Dash else IntToString(score.value)
  }

  /** What `DuelRow` renders for one duel, seen by `viewer` at time `now`, in table `category`. */
  function RowView(d: Duel, viewer: int, now: int, category: Category): (r: DuelView)
    ensures AcceptButton in r.buttons <==> IsMyTurnToAct(d, viewer)
    ensures DeclineButton in r.buttons <==> AcceptButton in r.buttons
    ensures StartSessionButton in r.buttons <==> CanStartSession(d, viewer)
    ensures RematchButton in r.buttons <==> CanRematch(d)
    ensures |r.buttons| <= 2
    ensures d.creatorId == viewer && TwoPlayers(d) ==> AcceptButton !in r.buttons
    ensures category == CompletedCategory ==> r.dateCell == ResultDateCell(ResultDate(d))
    ensures category != CompletedCategory ==> r.dateCell == ExpirationCell(ExpirationContent(d, now))
    ensures d.status == Completed ==> r.statusLabel == ResultText(d, viewer)
    ensures d.status != Completed ==> r.statusLabel == StatusName(d.status)
    ensures r.statusLabel != ""
    ensures viewer == d.creatorId ==>
      r.opponentId == d.invitedPlayerId && r.opponent == d.invitedPlayerName
      && r.myScore == ScoreCell(d.creatorScore) && r.opponentScore == ScoreCell(d.invitedPlayerScore)
    ensures viewer == d.invitedPlayerId && TwoPlayers(d) ==>
      r.opponentId == d.creatorId && r.opponent == d.creatorName
      && r.myScore == ScoreCell(d.invitedPlayerScore) && r.opponentScore == ScoreCell(d.creatorScore)
    ensures r.sessionLength == SessionLengthText(d, viewer)
  {
    var resultText := ResultText(d, viewer);
    var buttons :=
      (if IsMyTurnToAct(d, viewer) then [DeclineButton, AcceptButton] else [])
      + (if CanStartSession(d, viewer) then [StartSessionButton] else [])
      + (if CanRematch(d) then [RematchButton] else []);
    DuelView(
      if resultText != "" then resultText else StatusName(d.status),
      OpponentName(d, viewer),
      OpponentId(d, viewer),
      if category == CompletedCategory then ResultDateCell(ResultDate(d)) else ExpirationCell(ExpirationContent(d, now)),
      ScoreCell(MyScore(d, viewer)),
      ScoreCell(OpponentScore(d, viewer)),
      SessionLengthText(d, viewer),
      buttons)
  }

  // ---------------------------------------------------------------------------
  // Buckets

  /** `duels.filter(d => wanted.includes(d.status))` */
  function WithStatus(duels: seq<Duel>, wanted: set<Status>): (r: seq<Duel>)
    ensures |r| <= |duels|
    ensures forall d :: d in r <==> d in duels && d.status in wanted
  {
    if duels == [] then []
    else (if duels[0].status in wanted then [duels[0]] else []) + WithStatus(duels[1..], wanted)
  }

  /** Filtering keeps the order: it distributes over concatenation. */
  lemma {:induction false} WithStatusAppend(a: seq<Duel>, b: seq<Duel>, wanted: set<Status>)
    ensures WithStatus(a + b, wanted) == WithStatus(a, wanted) + WithStatus(b, wanted)
  {
    if a == [] {
      assert a + b == b;
    } else {
      assert (a + b)[0] == a[0];
      assert (a + b)[1..] == a[1..] + b;
      WithStatusAppend(a[1..], b, wanted);
    }
  }

  /** Filters for disjoint status sets split the count of the filter for their union. */
  lemma {:induction false} WithStatusCount(duels: seq<Duel>, a: set<Status>, b: set<Status>)
    requires a !! b
    ensures |WithStatus(duels, a)| + |WithStatus(duels, b)| == |WithStatus(duels, a + b)|
  {
    if duels != [] {
      WithStatusCount(duels[1..], a, b);
    }
  }

  datatype Buckets = Buckets(pending: seq<Duel>, active: seq<Duel>, completed: seq<Duel>)

  /** `categorizedDuels` */
  function Categorize(duels: seq<Duel>): (b: Buckets)
    ensures forall d :: d in b.pending <==> d in duels && d.status == Pending
    ensures forall d :: d in b.active <==> d in duels && d.status == Accepted
    ensures forall d :: d in b.completed <==> d in duels && (d.status == Completed || d.status == Expired)
    ensures forall d :: d in duels ==> (d in b.pending || d in b.active || d in b.completed <==> d.status != Declined)
    ensures |b.pending| + |b.active| + |b.completed| + |WithStatus(duels, {Declined})| == |duels|
  {
    WithStatusCount(duels, {Pending}, {Accepted});
    assert {Pending} + {Accepted} == {Pending, Accepted};
    WithStatusCount(duels, {Pending, Accepted}, {Completed, Expired});
    assert {Pending, Accepted} + {Completed, Expired} == {Pending, Accepted, Completed, Expired};
    WithStatusCount(duels, {Pending, Accepted, Completed, Expired}, {Declined});
    assert {Pending, Accepted, Completed, Expired} + {Declined} == AllStatuses;
    WithStatusAll(duels);
    Buckets(WithStatus(duels, {Pending}), WithStatus(duels, {Accepted}), WithStatus(duels, {Completed, Expired}))
  }

  const AllStatuses: set<Status> := {Pending, Accepted, Declined, Completed, Expired}

  lemma {:induction false} WithStatusAll(duels: seq<Duel>)
    ensures WithStatus(duels, AllStatuses) == duels
  {
    if duels != [] {
      WithStatusAll(duels[1..]);
      assert duels[0].status in AllStatuses by {
        match duels[0].status
        case Pending =>
        case Accepted =>
        case Declined =>
        case Completed =>
        case Expired =>
      }
      assert duels == [duels[0]] + duels[1..];
    }
  }

  /** The buckets of a concatenated list are the concatenated buckets: each bucket keeps the list order. */
  lemma CategorizeAppend(a: seq<Duel>, b: seq<Duel>)
    ensures Categorize(a + b).pending == Categorize(a).pending + Categorize(b).pending
    ensures Categorize(a + b).active == Categorize(a).active + Categorize(b).active
    ensures Categorize(a + b).completed == Categorize(a).completed + Categorize(b).completed
  {
    WithStatusAppend(a, b, {Pending});
    WithStatusAppend(a, b, {Accepted});
    WithStatusAppend(a, b, {Completed, Expired});
  }

  // ---------------------------------------------------------------------------
  // The page state and its transitions

  const CreateRefusal := "Only full subscribed users can create a duel, free users can accept challenges."
  const RematchRefusal := "Only full subscribed users can create a duel."
  const LoadFailure := "Failed to load duels."

  datatype PageState = PageState(
    duels: seq<Duel>,
    isLoading: bool,
    error: string,
    showCreateModal: bool,
    notices: seq<Notice>,
    sent: seq<Request>)

  /** `fetchDuels`: nothing without a player id; otherwise list, keep the old list on failure. */
  function Fetched(s: PageState, player: Option<Player>, listed: Settled<seq<Duel>>): PageState {
    if NoPlayerId(player) then s
    else
      var s1 := s.(sent := s.sent + [ListDuels(player.value.playerId)], isLoading := false);
      match listed
      case Resolved(duels) => s1.(duels := duels)
      case Rejected(message) => s1.(error := OrElse(message, LoadFailure))
  }

  /** `handleCreateDuelClick` */
  function CreateClicked(s: PageState, player: Option<Player>): PageState {
    if IsSubscribed(player) then s.(showCreateModal := true)
    else s.(notices := s.notices + [Notice(CreateRefusal, true)])
  }

  /** `handleDuelCreated` */
  function DuelCreated(s: PageState, player: Option<Player>, listed: Settled<seq<Duel>>): PageState {
    Fetched(s.(showCreateModal := false), player, listed)
  }

  /** `handleAccept` and `handleReject`: send the request, then either re-fetch or show the error. */
  function Responded(s: PageState, player: Option<Player>, request: Request, success: string,
                     outcome: Settled<()>, listed: Settled<seq<Duel>>): PageState
  {
    var s1 := s.(sent := s.sent + [request]);
    match outcome
    case Resolved(_) => Fetched(s1.(notices := s1.notices + [Notice(success, false)]), player, listed)
    case Rejected(message) => s1.(notices := s1.notices + [Notice(message, true)])
  }

  /** The request `handleRematch` sends for the viewer `me`. */
  function RematchRequest(original: Duel, me: int): Request {
    CreateDuel(Int(me), Int(OpponentId(original, me)),
               original.invitationExpiryMinutes, original.sessionDurationLimitMinutes)
  }

  /** `handleRematch` */
  function Rematched(s: PageState, player: Option<Player>, original: Duel,
                     created: Settled<()>, listed: Settled<seq<Duel>>): PageState
  {
    if !IsSubscribed(player) then s.(notices := s.notices + [Notice(RematchRefusal, true)])
    else
      var me := player.value.playerId;
      var success := "Rematch challenge sent to " + OpponentName(original, me) + "!";
      Responded(s, player, RematchRequest(original, me), success, created, listed)
  }

  /** `handleStartSession`: the response's message or the error is shown; no re-fetch. */
  function SessionStarted(s: PageState, player: Player, duelId: int, started: Settled<string>): PageState {
    var s1 := s.(sent := s.sent + [StartSession(Int(player.playerId), Int(duelId), Null)]);
    match started
    case Resolved(message) => s1.(notices := s1.notices + [Notice(message, false)])
    case Rejected(message) => s1.(notices := s1.notices + [Notice(message, true)])
  }

  /** The create dialog opens only for a subscriber; anyone else gets the refusal and nothing else changes. */
  lemma CreateNeedsSubscription(s: PageState, player: Option<Player>)
    ensures CreateClicked(s, player).showCreateModal <==> IsSubscribed(player) || s.showCreateModal
    ensures !IsSubscribed(player) ==>
              CreateClicked(s, player) == s.(notices := s.notices + [Notice(CreateRefusal, true)])
    ensures IsSubscribed(player) ==> CreateClicked(s, player) == s.(showCreateModal := true)
  {
  }

  /** A failed accept, reject or rematch leaves the list, and so every bucket, as it was, and shows the message. */
  lemma FailedActionKeepsDuels(s: PageState, player: Option<Player>, request: Request, success: string,
                               message: string, listed: Settled<seq<Duel>>)
    ensures var t := Responded(s, player, request, success, Rejected(message), listed);
      t.duels == s.duels && Categorize(t.duels) == Categorize(s.duels)
      && t.error == s.error && t.isLoading == s.isLoading
      && t.sent == s.sent + [request] && t.notices == s.notices + [Notice(message, true)]
  {
  }

  /** A successful accept, reject or rematch is followed by a full re-fetch for the viewer. */
  lemma SuccessfulActionRefetches(s: PageState, player: Option<Player>, request: Request, success: string,
                                  listed: Settled<seq<Duel>>)
    requires !NoPlayerId(player)
    ensures var t := Responded(s, player, request, success, Resolved(()), listed);
      t.sent == s.sent + [request, ListDuels(player.value.playerId)]
      && t.notices == s.notices + [Notice(success, false)]
      && t.duels == (if listed.Resolved? then listed.value else s.duels)
      && !t.isLoading
  {
    assert s.sent + [request] + [ListDuels(player.value.playerId)] == s.sent + [request, ListDuels(player.value.playerId)];
  }

  /** An unsubscribed viewer's rematch makes no request and changes nothing but the notices. */
  lemma RematchNeedsSubscription(s: PageState, player: Option<Player>, original: Duel,
                                 created: Settled<()>, listed: Settled<seq<Duel>>)
    requires !IsSubscribed(player)
    ensures Rematched(s, player, original, created, listed) == s.(notices := s.notices + [Notice(RematchRefusal, true)])
  {
  }

  /** A subscribed viewer's rematch challenges the other participant with the original terms. */
  lemma RematchTargetsOpponent(s: PageState, player: Option<Player>, original: Duel,
                               created: Settled<()>, listed: Settled<seq<Duel>>)
    requires IsSubscribed(player)
    requires IsParticipant(original, player.value.playerId) && TwoPlayers(original)
    ensures var t := Rematched(s, player, original, created, listed);
      |t.sent| > |s.sent| && t.sent[|s.sent|] == RematchRequest(original, player.value.playerId)
    ensures var r := RematchRequest(original, player.value.playerId);
      r.creatorId == Int(player.value.playerId)
      && r.invitedPlayerId.Int? && IsParticipant(original, r.invitedPlayerId.i) && r.invitedPlayerId.i != player.value.playerId
      && r.invitationExpiryMinutes == original.invitationExpiryMinutes
      && r.sessionDurationLimitMinutes == original.sessionDurationLimitMinutes
  {
  }

  class DuelsPage {
    const player: Option<Player>
    var duels: seq<Duel>
    var isLoading: bool
    var error: string
    var showCreateModal: bool
    var notices: seq<Notice>
    var sent: seq<Request>

    function State(): PageState
      reads this
    {
      PageState(duels, isLoading, error, showCreateModal, notices, sent)
    }

    constructor (player: Option<Player>)
      ensures this.player == player
      ensures State() == PageState([], true, "", false, [], [])
    {
      this.player := player;
      duels, isLoading, error, showCreateModal := [], true, "", false;
      notices, sent := [], [];
    }

    /** `categorizedDuels` of the current list. */
    function Buckets(): Buckets
      reads this
    {
      Categorize(duels)
    }

    method FetchDuels(listed: Settled<seq<Duel>>)
      modifies this
      ensures State() == Fetched(old(State()), player, listed)
    {
      if NoPlayerId(player) {
        return;
      }
      isLoading := true;
      sent := sent + [ListDuels(player.value.playerId)];
      match listed {
        case Resolved(data) =>
          duels := data;
        case Rejected(message) =>
          error := OrElse(message, LoadFailure);
      }
      isLoading := false;
    }

    method HandleCreateDuelClick()
      modifies this
      ensures State() == CreateClicked(old(State()), player)
    {
      if IsSubscribed(player) {
        showCreateModal := true;
      } else {
        notices := notices + [Notice(CreateRefusal, true)];
      }
    }

    method HandleDuelCreated(listed: Settled<seq<Duel>>)
      modifies this
      ensures State() == DuelCreated(old(State()), player, listed)
    {
      showCreateModal := false;
      FetchDuels(listed);
    }

    method HandleAccept(duelId: int, accepted: Settled<()>, listed: Settled<seq<Duel>>)
      requires player.Some?
      modifies this
      ensures State() == Responded(old(State()), player, AcceptDuel(duelId, player.value.playerId), "Duel accepted!", accepted, listed)
    {
      sent := sent + [AcceptDuel(duelId, player.value.playerId)];
      match accepted {
        case Resolved(_) =>
          notices := notices + [Notice("Duel accepted!", false)];
          FetchDuels(listed);
        case Rejected(message) =>
          notices := notices + [Notice(message, true)];
      }
    }

    method HandleReject(duelId: int, rejected: Settled<()>, listed: Settled<seq<Duel>>)
      requires player.Some?
      modifies this
      ensures State() == Responded(old(State()), player, RejectDuel(duelId, player.value.playerId), "Duel rejected.", rejected, listed)
    {
      sent := sent + [RejectDuel(duelId, player.value.playerId)];
      match rejected {
        case Resolved(_) =>
          notices := notices + [Notice("Duel rejected.", false)];
          FetchDuels(listed);
        case Rejected(message) =>
          notices := notices + [Notice(message, true)];
      }
    }

    method HandleRematch(original: Duel, created: Settled<()>, listed: Settled<seq<Duel>>)
      modifies this
      ensures State() == Rematched(old(State()), player, original, created, listed)
    {
      if !IsSubscribed(player) {
        notices := notices + [Notice(RematchRefusal, true)];
        return;
      }
      var me := player.value.playerId;
      var opponentId := if original.creatorId == me then original.invitedPlayerId else original.creatorId;
      var opponentName := if original.creatorId == me then original.invitedPlayerName else original.creatorName;
      sent := sent + [CreateDuel(Int(me), Int(opponentId), original.invitationExpiryMinutes, original.sessionDurationLimitMinutes)];
      match created {
        case Resolved(_) =>
          notices := notices + [Notice("Rematch challenge sent to " + opponentName + "!", false)];
          FetchDuels(listed);
        case Rejected(message) =>
          notices := notices + [Notice(message, true)];
      }
    }

    method HandleStartSession(duelId: int, started: Settled<string>)
      requires player.Some?
      modifies this
      ensures State() == SessionStarted(old(State()), player.value, duelId, started)
    {
      sent := sent + [StartSession(Int(player.value.playerId), Int(duelId), Null)];
      match started {
        case Resolved(message) =>
          notices := notices + [Notice(message, false)];
        case Rejected(message) =>
          notices := notices + [Notice(message, true)];
      }
    }
  }
}
