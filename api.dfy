/**
 * The HTTP client of the web app (webapp/src/api.js) without the `fetch` calls:
 * how a response is turned into a result or a thrown Error, how request bodies
 * and query strings are built, and the calls the pages issue.
 */
module Api {
  import opened Optional
  import opened Js

  /** How an awaited call settled: resolved with a value, or rejected with an Error carrying `message`. */
  datatype Settled<T> = Resolved(value: T) | Rejected(message: string)

  /** A call a page issues through the client, with the arguments it passes. */
  datatype Request =
    | ListDuels(playerId: int)
    | AcceptDuel(duelId: int, playerId: int)
    | RejectDuel(duelId: int, playerId: int)
    | CreateDuel(creatorId: Value, invitedPlayerId: Value, invitationExpiryMinutes: Value, sessionDurationLimitMinutes: Value)
    | StartSession(starterId: Value, sessionDuelId: Value, leagueRoundId: Value)
    | StartCalibration(playerId: int)
    | SearchPlayers(searchTerm: string)
    | GetPlayerSessions(routePlayerId: string, page: Value)
    | ListLeagues(playerId: int)
    | JoinLeague(leagueId: int, playerId: int)
    | RespondToLeagueInvite(leagueId: int, playerId: int, action: string)
    | CreateLeague(creatorId: Value, name: string, description: string, privacyType: string, settings: map<string, Value>)
    | UpdateLeagueSettings(leagueId: int, editorId: int, settings: map<string, Value>)

  // ---------------------------------------------------------------------------
  // JSON object bodies, as ordered members

  type Fields = seq<(string, Value)>

  function Keys(body: Fields): seq<string> {
    if body == [] then [] else [body[0].0] + Keys(body[1..])
  }

  /** `body[key]`: the value of the first member with that key, undefined when there is none. */
  function Lookup(body: Fields, key: string): Value {
    if body == [] then Undefined
    else if body[0].0 == key then body[0].1
    else Lookup(body[1..], key)
  }

  lemma KeysLookupCons(member: (string, Value), rest: Fields)
    ensures Keys([member] + rest) == [member.0] + Keys(rest)
    ensures forall key :: Lookup([member] + rest, key) == if member.0 == key then member.1 else Lookup(rest, key)
  {
    assert ([member] + rest)[1..] == rest;
  }

  // ---------------------------------------------------------------------------
  // handleResponse

  const HttpErrorPrefix := "HTTP error! status: "
  const UnknownError := "An unknown error occurred"
  const UnparsableErrorBody := "An unknown error occurred parsing the error response."

  /** What `response.json()` would make of the body: an object (with its `error` member) or a syntax error. */
  datatype Payload = Json(errorMember: Value) | Malformed

  /** The parts of a `fetch` Response that handleResponse reads. */
  datatype Response = Response(ok: bool, status: int, contentType: Option<string>, payload: Payload, text: string)

  /** How handleResponse settles. */
  datatype Handled =
    | ParsedJson             // resolves with `response.json()`
    | RejectedJson           // `response.json()` rejects with the engine's SyntaxError
    | PlainText(text: string) // resolves with `response.text()`
    | Thrown(message: string) // throws `new Error(message)`

  /** `contentType && contentType.indexOf("application/json") !== -1` */
  predicate IsJsonType(contentType: Option<string>) {
    contentType.Some? && contentType.value != "" && Contains(contentType.value, "application/json")
  }

  function HttpErrorMessage(status: int): string {
    HttpErrorPrefix + IntToString(status)
  }

  /** The status can be read back from the generic HTTP error message. */
  lemma HttpErrorMessageStatus(status: int)
    ensures HttpErrorMessage(status)[..|HttpErrorPrefix|] == HttpErrorPrefix
    ensures ParseIntText(HttpErrorMessage(status)[|HttpErrorPrefix|..]) == Int(status)
  {
    assert HttpErrorMessage(status)[|HttpErrorPrefix|..] == IntToString(status) + "";
    ParseIntTextOfNumeral(status, "");
  }

  method HandleResponse(response: Response) returns (r: Handled)
    ensures r.Thrown? <==> !response.ok
    ensures !response.ok && !IsJsonType(response.contentType) ==> r == Thrown(HttpErrorMessage(response.status))
    ensures !response.ok && IsJsonType(response.contentType) && response.payload.Malformed? ==> r == Thrown(UnparsableErrorBody)
    ensures !response.ok && IsJsonType(response.contentType) && response.payload.Json? ==>
      r == Thrown(if Truthy(response.payload.errorMember) then ToStr(response.payload.errorMember) else UnknownError)
    ensures response.ok && IsJsonType(response.contentType) ==>
      r == (if response.payload.Json? then ParsedJson else RejectedJson)
    ensures response.ok && !IsJsonType(response.contentType) ==> r == PlainText(response.text)
    ensures r.Thrown? ==> r.message != ""
  {
    var contentType := response.contentType;
    if !response.ok {
      var errorData := Str(HttpErrorMessage(response.status));
      if IsJsonType(contentType) {
        errorData := match response.payload
          case Json(e) => e
          case Malformed => Str(UnparsableErrorBody);
      }
      if Truthy(errorData) {
        TruthyToStrNonEmpty(errorData);
        return Thrown(ToStr(errorData));
      }
      return Thrown(UnknownError);
    }
    if IsJsonType(contentType) {
      return if response.payload.Json? then ParsedJson else RejectedJson;
    }
    return PlainText(response.text);
  }

  // ---------------------------------------------------------------------------
  // Request builders

  /**
   * `apiGetPlayerSessions(playerId, page = 1, limit = 25)`: the URL it fetches.
   * A parameter left undefined takes its default.
   */
  function PlayerSessionsUrl(base: string, playerId: Value, page: Value, limit: Value): string {
    var p := if page.Undefined? then Int(1) else page;
    var l := if limit.Undefined? then Int(25) else limit;
    base + "/player/" + ToStr(playerId) + "/sessions?page=" + ToStr(p) + "&limit=" + ToStr(l)
  }

  /** The numerals of the two default arguments. */
  lemma DefaultNumerals()
    ensures IntToString(1) == "1" && IntToString(25) == "25"
  {
    assert NatToString(1) == [DigitChar(1)];
    assert NatToString(2) == [DigitChar(2)];
    assert NatToString(25) == NatToString(2) + [DigitChar(5)];
  }

  /** Leaving out the page and the limit asks for page 1 with 25 sessions. */
  lemma PlayerSessionsUrlDefaults(base: string, playerId: Value)
    ensures PlayerSessionsUrl(base, playerId, Undefined, Undefined) == PlayerSessionsUrl(base, playerId, Int(1), Int(25))
    ensures PlayerSessionsUrl(base, playerId, Undefined, Undefined)
         == base + "/player/" + ToStr(playerId) + "/sessions?page=" + "1" + "&limit=" + "25"
  {
    DefaultNumerals();
  }

  /** An explicit page and limit are the ones sent. */
  lemma PlayerSessionsUrlExplicit(base: string, playerId: Value, page: int, limit: int)
    ensures PlayerSessionsUrl(base, playerId, Int(page), Int(limit))
         == base + "/player/" + ToStr(playerId) + "/sessions?page=" + IntToString(page) + "&limit=" + IntToString(limit)
  {
  }

  /**
   * `apiStartSession(playerId, duelId = null, leagueRoundId = null)`: the body object,
   * filled one member at a time as the source does.
   */
  method StartSessionBody(playerId: Value, duelId: Value, leagueRoundId: Value) returns (body: Fields)
    ensures Keys(body) == ["player_id"]
                        + (if Truthy(duelId) then ["duel_id"] else [])
                        + (if Truthy(leagueRoundId) then ["league_round_id"] else [])
    ensures Lookup(body, "player_id") == playerId
    ensures Lookup(body, "duel_id") == if Truthy(duelId) then duelId else Undefined
    ensures Lookup(body, "league_round_id") == if Truthy(leagueRoundId) then leagueRoundId else Undefined
  {
    body := [("player_id", playerId)];
    if Truthy(duelId) {
      body := body + [("duel_id", duelId)];
    }
    if Truthy(leagueRoundId) {
      body := body + [("league_round_id", leagueRoundId)];
    }
    var tail := body[1..];
    assert body == [("player_id", playerId)] + tail;
    KeysLookupCons(("player_id", playerId), tail);
    if Truthy(duelId) {
      var rest := tail[1..];
      assert tail == [("duel_id", duelId)] + rest;
      KeysLookupCons(("duel_id", duelId), rest);
      if Truthy(leagueRoundId) {
        KeysLookupCons(("league_round_id", leagueRoundId), []);
      }
    } else if Truthy(leagueRoundId) {
      KeysLookupCons(("league_round_id", leagueRoundId), []);
      assert tail == [("league_round_id", leagueRoundId)] + [];
    } else {
      assert tail == [];
    }
  }

  /** `apiCreateDuel(creatorId, invitedPlayerId, invitationExpiryMinutes, sessionDurationLimitMinutes)`: its body. */
  function CreateDuelBody(creatorId: Value, invitedPlayerId: Value, expiryMinutes: Value, durationMinutes: Value): (body: Fields)
    ensures Keys(body) == ["creator_id", "invited_player_id", "invitation_expiry_minutes", "session_duration_limit_minutes"]
    ensures Lookup(body, "creator_id") == creatorId
    ensures Lookup(body, "invited_player_id") == invitedPlayerId
    ensures Lookup(body, "invitation_expiry_minutes") == expiryMinutes
    ensures Lookup(body, "session_duration_limit_minutes") == durationMinutes
  {
    var m4 := ("session_duration_limit_minutes", durationMinutes);
    var m3 := ("invitation_expiry_minutes", expiryMinutes);
    var m2 := ("invited_player_id", invitedPlayerId);
    var m1 := ("creator_id", creatorId);
    KeysLookupCons(m4, []);
    KeysLookupCons(m3, [m4]);
    KeysLookupCons(m2, [m3] + [m4]);
    KeysLookupCons(m1, [m2] + ([m3] + [m4]));
    [m1] + ([m2] + ([m3] + [m4]))
  }

  /** The notifications URL before the optional status filter. */
  function NotificationsBaseUrl(base: string, playerId: Value, limit: Value, offset: Value): string {
    base + "/notifications/" + ToStr(playerId) + "?limit=" + ToStr(limit) + "&offset=" + ToStr(offset)
  }

  /** `apiGetNotifications(playerId, limit, offset, status)`: the URL, extended with `+=` when a status is given. */
  method NotificationsUrl(base: string, playerId: Value, limit: Value, offset: Value, status: Value) returns (url: string)
    ensures NotificationsBaseUrl(base, playerId, limit, offset) <= url
    ensures Truthy(status) ==> url == NotificationsBaseUrl(base, playerId, limit, offset) + "&status=" + ToStr(status)
    ensures !Truthy(status) ==> url == NotificationsBaseUrl(base, playerId, limit, offset)
  {
    url := base + "/notifications/" + ToStr(playerId) + "?limit=" + ToStr(limit) + "&offset=" + ToStr(offset);
    if Truthy(status) {
      url := url + "&status=" + ToStr(status);
    }
  }
}
