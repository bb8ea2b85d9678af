/**
 * The "Create New League" dialog (webapp/src/components/CreateLeagueModal.jsx):
 * its form defaults, the name check and the `settings` object it sends.
 */
module LeagueModal {
  import opened Js
  import opened Context
  import opened Api

  const NameRequired := "League name is required."
  const CreateFailed := "Failed to create league."

  /** The keys of the `settings` object, in the order the source writes them. */
  const SettingKeys: set<string> := {"num_rounds", "round_duration_hours", "time_limit_minutes",
                                     "start_offset_hours", "allow_late_joiners", "members_can_invite"}

  /**
   * The `settings` object of `handleSubmit`. The four select values are passed
   * through `parseInt`; they are integers until a select changes them and the
   * option's text afterwards.
   */
  function LeagueSettings(numRounds: Value, roundDuration: Value, timeLimit: Value, startOffset: Value,
                          allowLateJoiners: bool, privacy: string, membersCanInvite: bool): (settings: map<string, Value>)
    ensures settings.Keys == SettingKeys
    ensures settings["num_rounds"] == ParseInt(numRounds)
    ensures settings["round_duration_hours"] == ParseInt(roundDuration)
    ensures settings["time_limit_minutes"] == ParseInt(timeLimit)
    ensures settings["start_offset_hours"] == ParseInt(startOffset)
    ensures settings["allow_late_joiners"] == Bool(allowLateJoiners)
    ensures privacy != "private" ==> settings["members_can_invite"] == Bool(true)
    ensures privacy == "private" ==> settings["members_can_invite"] == Bool(membersCanInvite)
    ensures forall k :: k in {"num_rounds", "round_duration_hours", "time_limit_minutes", "start_offset_hours"} ==>
              settings[k].Int? || settings[k].NaN?
  {
    map["num_rounds" := ParseInt(numRounds),
        "round_duration_hours" := ParseInt(roundDuration),
        "time_limit_minutes" := ParseInt(timeLimit),
        "start_offset_hours" := ParseInt(startOffset),
        "allow_late_joiners" := Bool(allowLateJoiners),
        "members_can_invite" := if privacy == "private" then Bool(membersCanInvite) else Bool(true)]
  }

  /** A select set to option `n` holds the text of `n`, and `parseInt` gives `n` back. */
  lemma SelectedOptionParses(n: int)
    ensures ParseInt(Str(IntToString(n))) == Int(n)
  {
    ParseIntTextOfNumeral(n, "");
    assert IntToString(n) + "" == IntToString(n);
  }

  /** Values chosen from the selects reach the settings as the integers they show. */
  lemma LeagueSettingsOfSelections(numRounds: int, roundDuration: int, timeLimit: int, startOffset: int,
                                   allowLateJoiners: bool, privacy: string, membersCanInvite: bool)
    ensures var settings := LeagueSettings(Str(IntToString(numRounds)), Str(IntToString(roundDuration)),
                                           Str(IntToString(timeLimit)), Str(IntToString(startOffset)),
                                           allowLateJoiners, privacy, membersCanInvite);
      settings["num_rounds"] == Int(numRounds)
      && settings["round_duration_hours"] == Int(roundDuration)
      && settings["time_limit_minutes"] == Int(timeLimit)
      && settings["start_offset_hours"] == Int(startOffset)
  {
    SelectedOptionParses(numRounds);
    SelectedOptionParses(roundDuration);
    SelectedOptionParses(timeLimit);
    SelectedOptionParses(startOffset);
  }

  /** The settings an untouched form sends: 4 rounds of 168 hours, 5-minute sessions, a one-day start offset. */
  lemma DefaultSettings()
    ensures LeagueSettings(Int(4), Int(168), Int(5), Int(24), true, "private", false)
         == map["num_rounds" := Int(4), "round_duration_hours" := Int(168), "time_limit_minutes" := Int(5),
                "start_offset_hours" := Int(24), "allow_late_joiners" := Bool(true),
                "members_can_invite" := Bool(false)]
  {
  }

  /** `!name.trim()`, read character by character: the name is empty or made only of whitespace. */
  predicate NameMissing(name: string) {
    name == [] || (IsWhitespace(name[0]) && NameMissing(name[1..]))
  }

  lemma {:induction false} NameMissingIsBlank(name: string)
    ensures NameMissing(name) <==> forall i :: 0 <= i < |name| ==> IsWhitespace(name[i])
  {
    if name != [] {
      NameMissingIsBlank(name[1..]);
      assert forall i :: 1 <= i < |name| ==> name[i] == name[1..][i - 1];
    }
  }

  /** The character-by-character reading agrees with `trim`. */
  lemma NameMissingIsTrimEmpty(name: string)
    ensures NameMissing(name) <==> Trim(name) == ""
  {
    NameMissingIsBlank(name);
    TrimEmptyIffBlank(name);
  }

  class CreateLeagueModal {
    const player: Player
    var name: string
    var description: string
    var privacy: string
    var numRounds: Value
    var roundDuration: Value     // hours
    var startOffset: Value       // hours
    var timeLimit: Value         // minutes
    var allowLateJoiners: bool
    var membersCanInvite: bool   // no control of the form changes it
    var error: string
    var isLoading: bool
    var sent: seq<Request>
    var leagueCreated: bool      // `onLeagueCreated()` has been called

    /** The settings the form would send now. */
    function Settings(): map<string, Value>
      reads this
    {
      LeagueSettings(numRounds, roundDuration, timeLimit, startOffset, allowLateJoiners, privacy, membersCanInvite)
    }

    /** The privacy is one of the two radio values, and a private league's members cannot invite. */
    ghost predicate Valid()
      reads this
    {
      (privacy == "private" || privacy == "public") && !membersCanInvite
    }

    constructor (player: Player)
      ensures Valid() && this.player == player
      ensures name == "" && description == "" && privacy == "private"
      ensures numRounds == Int(4) && roundDuration == Int(168) && startOffset == Int(24) && timeLimit == Int(5)
      ensures allowLateJoiners && !membersCanInvite
      ensures error == "" && !isLoading && sent == [] && !leagueCreated
    {
      this.player := player;
      name, description, privacy := "", "", "private";
      numRounds, roundDuration, startOffset, timeLimit := Int(4), Int(168), Int(24), Int(5);
      allowLateJoiners, membersCanInvite := true, false;
      error, isLoading, sent, leagueCreated := "", false, [], false;
    }

    method SetName(value: string)
      modifies this`name
      ensures name == value
    {
      name := value;
    }

    method SetDescription(value: string)
      modifies this`description
      ensures description == value
    {
      description := value;
    }

    /** The two radio buttons. */
    method SetPrivacy(value: string)
      requires Valid()
      requires value == "private" || value == "public"
      modifies this`privacy
      ensures Valid() && privacy == value
    {
      privacy := value;
    }

    /** The selects hand over the chosen option's text. */
    method SelectNumRounds(text: string)
      modifies this`numRounds
      ensures numRounds == Str(text)
    {
      numRounds := Str(text);
    }

    method SelectStartOffset(text: string)
      modifies this`startOffset
      ensures startOffset == Str(text)
    {
      startOffset := Str(text);
    }

    method SelectRoundDuration(text: string)
      modifies this`roundDuration
      ensures roundDuration == Str(text)
    {
      roundDuration := Str(text);
    }

    method SelectTimeLimit(text: string)
      modifies this`timeLimit
      ensures timeLimit == Str(text)
    {
      timeLimit := Str(text);
    }

    method SetAllowLateJoiners(checked: bool)
      modifies this`allowLateJoiners
      ensures allowLateJoiners == checked
    {
      allowLateJoiners := checked;
    }

    /** `handleSubmit`, with the create call settling as `created`. */
    method HandleSubmit(created: Settled<()>)
      requires Valid()
      modifies this`error, this`isLoading, this`sent, this`leagueCreated
      ensures Valid()
      ensures NameMissing(name) ==>
                error == NameRequired && sent == old(sent) && isLoading == old(isLoading)
                && leagueCreated == old(leagueCreated)
      ensures !NameMissing(name) ==>
                sent == old(sent) + [CreateLeague(Int(player.playerId), name, description, privacy, Settings())]
                && !isLoading
      ensures !NameMissing(name) && created.Resolved? ==> error == "" && leagueCreated
      ensures !NameMissing(name) && created.Rejected? ==>
                error == OrElse(created.message, CreateFailed) && leagueCreated == old(leagueCreated)
    {
      error := "";
      if NameMissing(name) {
        error := NameRequired;
        return;
      }
      isLoading := true;
      var settings := LeagueSettings(numRounds, roundDuration, timeLimit, startOffset,
                                     allowLateJoiners, privacy, membersCanInvite);
      sent := sent + [CreateLeague(Int(player.playerId), name, description, privacy, settings)];
      match created {
        case Resolved(_) =>
          leagueCreated := true;
        case Rejected(message) =>
          error := OrElse(message, CreateFailed);
      }
      isLoading := false;
    }
  }
}
