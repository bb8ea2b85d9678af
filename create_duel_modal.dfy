/**
 * The "Create a New Duel" dialog (webapp/src/components/CreateDuelModal.jsx):
 * the player search, the selection, the validation of the form and the
 * request it sends.
 */
module DuelModal {
  import opened Optional
  import opened Js
  import opened Context
  import opened Api

  /** A search hit: `{ player_id, name }`. */
  datatype PlayerHit = PlayerHit(playerId: int, name: string)

  const InvalidForm := "Please select a player and provide valid time limits."
  const ChallengeSent := "Challenge Sent"
  const DefaultExpiryHours := 72
  const DefaultSessionMinutes := 5

  /** `results.filter(p => p.player_id !== me)`, keeping the order. */
  function ExcludePlayer(hits: seq<PlayerHit>, me: int): (r: seq<PlayerHit>)
    ensures forall p :: p in r <==> p in hits && p.playerId != me
    ensures |r| <= |hits|
    ensures (forall p :: p in hits ==> p.playerId != me) ==> r == hits
  {
    if hits == [] then []
    else (if hits[0].playerId != me then [hits[0]] else []) + ExcludePlayer(hits[1..], me)
  }

  /** One step of the filter: the first hit is kept or dropped, then the rest is filtered. */
  lemma ExcludePlayerCons(hit: PlayerHit, rest: seq<PlayerHit>, me: int)
    ensures ExcludePlayer([hit] + rest, me) == (if hit.playerId != me then [hit] else []) + ExcludePlayer(rest, me)
  {
    assert ([hit] + rest)[1..] == rest;
  }

  /** Filtering keeps the order of the hits: it distributes over concatenation. */
  lemma {:induction false} ExcludePlayerAppend(a: seq<PlayerHit>, b: seq<PlayerHit>, me: int)
    ensures ExcludePlayer(a + b, me) == ExcludePlayer(a, me) + ExcludePlayer(b, me)
  {
    if a == [] {
      assert a + b == b;
    } else {
      var rest := a[1..];
      var head := if a[0].playerId != me then [a[0]] else [];
      assert a == [a[0]] + rest;
      assert a + b == [a[0]] + (rest + b);
      calc {
        ExcludePlayer(a + b, me);
        ExcludePlayer([a[0]] + (rest + b), me);
        { ExcludePlayerCons(a[0], rest + b, me); }
        head + ExcludePlayer(rest + b, me);
        { ExcludePlayerAppend(rest, b, me); }
        head + (ExcludePlayer(rest, me) + ExcludePlayer(b, me));
        (head + ExcludePlayer(rest, me)) + ExcludePlayer(b, me);
        { ExcludePlayerCons(a[0], rest, me); }
        ExcludePlayer(a, me) + ExcludePlayer(b, me);
      }
    }
  }

  /** A search term shorter than two characters is not sent. */
  predicate SearchesFor(term: string) {
    |term| >= 2
  }

  /**
   * The submit guard: `selectedPlayer` set, and neither time limit NaN or non-positive.
   * The expiry is `parseInt` of the input, so it is an integer or NaN.
   */
  predicate FormValid(selected: Option<PlayerHit>, sessionDuration: int, invitationExpiry: Value) {
    selected.Some? && sessionDuration > 0 && invitationExpiry.Int? && invitationExpiry.i > 0
  }

  /** `apiCreateDuel(me, searchTerm, invitationExpiry * 60, sessionDuration)` */
  function DuelRequest(me: int, searchTerm: string, expiryHours: int, sessionMinutes: int): Request {
    CreateDuel(Int(me), Str(searchTerm), Int(expiryHours * 60), Int(sessionMinutes))
  }

  /** The body the request carries: the typed name as invitee, the expiry in minutes, the duration as chosen. */
  lemma DuelRequestBody(me: int, searchTerm: string, expiryHours: int, sessionMinutes: int)
    ensures var r := DuelRequest(me, searchTerm, expiryHours, sessionMinutes);
      var body := CreateDuelBody(r.creatorId, r.invitedPlayerId, r.invitationExpiryMinutes, r.sessionDurationLimitMinutes);
      Lookup(body, "creator_id") == Int(me)
      && Lookup(body, "invited_player_id") == Str(searchTerm)
      && Lookup(body, "invitation_expiry_minutes") == Int(60 * expiryHours)
      && Lookup(body, "session_duration_limit_minutes") == Int(sessionMinutes)
  {
  }

  class CreateDuelModal {
    const player: Player
    var searchTerm: string
    var searchResults: seq<PlayerHit>
    var selectedPlayer: Option<PlayerHit>
    var invitationExpiry: Value   // hours
    var sessionDuration: int      // minutes
    var isLoading: bool
    var error: string
    var notices: seq<Notice>
    var sent: seq<Request>
    var duelCreated: bool         // `onDuelCreated()` and `onClose()` have been called

    /** The expiry is an integer or NaN, and the listed results never offer the viewer. */
    ghost predicate Valid()
      reads this
    {
      (invitationExpiry.Int? || invitationExpiry.NaN?)
      && forall p :: p in searchResults ==> p.playerId != player.playerId
    }

    /** `disabled={!selectedPlayer || isLoading}` */
    predicate SubmitDisabled()
      reads this
    {
      selectedPlayer.None? || isLoading
    }

    constructor (player: Player)
      ensures Valid() && this.player == player
      ensures searchTerm == "" && searchResults == [] && selectedPlayer == None
      ensures invitationExpiry == Int(DefaultExpiryHours) && sessionDuration == DefaultSessionMinutes
      ensures !isLoading && error == "" && notices == [] && sent == [] && !duelCreated
      ensures SubmitDisabled()
    {
      this.player := player;
      searchTerm, searchResults, selectedPlayer := "", [], None;
      invitationExpiry, sessionDuration := Int(DefaultExpiryHours), DefaultSessionMinutes;
      isLoading, error := false, "";
      notices, sent, duelCreated := [], [], false;
    }

    /** The search box's onChange: typing replaces the term and clears the selection. */
    method HandleSearchTermChange(value: string)
      requires Valid()
      modifies this`searchTerm, this`selectedPlayer
      ensures Valid()
      ensures searchTerm == value && selectedPlayer == None
      ensures SubmitDisabled()
    {
      searchTerm := value;
      selectedPlayer := None;
    }

    /** The expiry input's onChange: `parseInt(e.target.value, 10)`. */
    method HandleExpiryChange(text: string)
      requires Valid()
      modifies this`invitationExpiry
      ensures Valid() && invitationExpiry == ParseIntText(text)
    {
      invitationExpiry := ParseIntText(text);
    }

    /** The duration select's onChange: `Number(e.target.value)` of one of its options. */
    method HandleDurationChange(minutes: int)
      requires Valid()
      modifies this`sessionDuration
      ensures Valid() && sessionDuration == minutes
    {
      sessionDuration := minutes;
    }

    /** `searchPlayers(term)`, with the search call settling as `found`. */
    method Search(term: string, found: Settled<seq<PlayerHit>>)
      requires Valid()
      modifies this`searchResults, this`isLoading, this`error, this`sent
      ensures Valid()
      ensures !SearchesFor(term) ==> searchResults == [] && sent == old(sent)
                                     && isLoading == old(isLoading) && error == old(error)
      ensures SearchesFor(term) ==> sent == old(sent) + [SearchPlayers(term)] && !isLoading
      ensures SearchesFor(term) && found.Resolved? ==>
                searchResults == ExcludePlayer(found.value, player.playerId) && error == old(error)
      ensures SearchesFor(term) && found.Rejected? ==>
                searchResults == old(searchResults) && error == found.message
    {
      if |term| < 2 {
        searchResults := [];
        return;
      }
      isLoading := true;
      sent := sent + [SearchPlayers(term)];
      match found {
        case Resolved(results) =>
          searchResults := ExcludePlayer(results, player.playerId);
        case Rejected(message) =>
          error := message;
      }
      isLoading := false;
    }

    /** `handleSelectPlayer(p)`: the name goes into the search box and the list closes. */
    method HandleSelectPlayer(p: PlayerHit)
      requires Valid()
      modifies this`selectedPlayer, this`searchTerm, this`searchResults
      ensures Valid()
      ensures selectedPlayer == Some(p) && searchTerm == p.name && searchResults == []
      ensures SubmitDisabled() <==> isLoading
    {
      selectedPlayer := Some(p);
      searchTerm := p.name;
      searchResults := [];
    }

    /** `handleSubmit`, with the create call settling as `created`. */
    method HandleSubmit(created: Settled<()>)
      requires Valid()
      modifies this`isLoading, this`error, this`notices, this`sent, this`duelCreated
      ensures Valid()
      ensures !FormValid(selectedPlayer, sessionDuration, invitationExpiry) ==>
                error == InvalidForm && sent == old(sent) && notices == old(notices)
                && isLoading == old(isLoading) && duelCreated == old(duelCreated)
      ensures FormValid(selectedPlayer, sessionDuration, invitationExpiry) ==>
                sent == old(sent) + [DuelRequest(player.playerId, searchTerm, invitationExpiry.i, sessionDuration)]
                && !isLoading && error == old(error)
      ensures FormValid(selectedPlayer, sessionDuration, invitationExpiry) && created.Resolved? ==>
                notices == old(notices) + [Notice(ChallengeSent, false)] && duelCreated
      ensures FormValid(selectedPlayer, sessionDuration, invitationExpiry) && created.Rejected? ==>
                notices == old(notices) + [Notice(created.message, true)] && duelCreated == old(duelCreated)
    {
      if selectedPlayer.None? || sessionDuration <= 0 || invitationExpiry.NaN? || invitationExpiry.i <= 0 {
        error := InvalidForm;
        return;
      }
      isLoading := true;
      sent := sent + [CreateDuel(Int(player.playerId), Str(searchTerm), Int(invitationExpiry.i * 60), Int(sessionDuration))];
      match created {
        case Resolved(_) =>
          notices := notices + [Notice(ChallengeSent, false)];
          duelCreated := true;
        case Rejected(message) =>
          notices := notices + [Notice(message, true)];
      }
      isLoading := false;
    }
  }
}
