/**
 * The "Edit League Schedule" dialog (webapp/src/components/EditLeagueModal.jsx):
 * the form starts from the league's settings, and the settings it sends are
 * the old ones with the two schedule keys replaced.
 */
module LeagueEditor {
  import opened Js
  import opened Context
  import opened Api

  const UpdateFailed := "Failed to update league settings."

  /** The fields of the `league` prop the dialog reads. */
  datatype League = League(leagueId: int, settings: map<string, Value>)

  /** `settings[key]`: undefined for a key the object lacks. */
  function Setting(settings: map<string, Value>, key: string): (v: Value)
    ensures key in settings ==> v == settings[key]
    ensures key !in settings ==> v.Undefined?
  {
    if key in settings then settings[key] else Undefined
  }

  /** `{ ...settings, num_rounds: parseInt(numRounds, 10), round_duration_hours: parseInt(roundDuration, 10) }` */
  function MergeSettings(settings: map<string, Value>, numRounds: Value, roundDuration: Value): (r: map<string, Value>)
    ensures r.Keys == settings.Keys + {"num_rounds", "round_duration_hours"}
    ensures forall k :: k in settings && k != "num_rounds" && k != "round_duration_hours" ==> r[k] == settings[k]
    ensures r["num_rounds"] == ParseInt(numRounds) && r["round_duration_hours"] == ParseInt(roundDuration)
    ensures r["num_rounds"].Int? || r["num_rounds"].NaN?
  {
    settings["num_rounds" := ParseInt(numRounds)]["round_duration_hours" := ParseInt(roundDuration)]
  }

  /** Saving the form untouched, when both schedule settings are integers, sends the settings back as they were. */
  lemma MergeUntouched(settings: map<string, Value>)
    requires Setting(settings, "num_rounds").Int? && Setting(settings, "round_duration_hours").Int?
    ensures MergeSettings(settings, Setting(settings, "num_rounds"), Setting(settings, "round_duration_hours")) == settings
  {
    var r := MergeSettings(settings, Setting(settings, "num_rounds"), Setting(settings, "round_duration_hours"));
    assert forall k :: k in r ==> r[k] == settings[k];
  }

  /** Re-selecting the options that show the current values also sends the settings back as they were. */
  lemma MergeReselected(settings: map<string, Value>)
    requires Setting(settings, "num_rounds").Int? && Setting(settings, "round_duration_hours").Int?
    ensures MergeSettings(settings, Str(IntToString(settings["num_rounds"].i)),
                          Str(IntToString(settings["round_duration_hours"].i))) == settings
  {
    var rounds, hours := settings["num_rounds"].i, settings["round_duration_hours"].i;
    ParseIntTextOfNumeral(rounds, "");
    ParseIntTextOfNumeral(hours, "");
    assert IntToString(rounds) + "" == IntToString(rounds);
    assert IntToString(hours) + "" == IntToString(hours);
    var r := MergeSettings(settings, Str(IntToString(rounds)), Str(IntToString(hours)));
    assert forall k :: k in r ==> r[k] == settings[k];
  }

  /** A schedule setting the league lacks reaches the server as NaN. */
  lemma MergeMissingSetting(settings: map<string, Value>, roundDuration: Value)
    requires "num_rounds" !in settings
    ensures MergeSettings(settings, Setting(settings, "num_rounds"), roundDuration)["num_rounds"] == NaN
  {
    assert ToStr(Undefined) == "undefined";
    assert DigitPrefix("undefined") == [];
  }

  class EditLeagueModal {
    const player: Player
    const league: League
    var numRounds: Value
    var roundDuration: Value     // hours
    var error: string
    var isLoading: bool
    var sent: seq<Request>
    var leagueUpdated: bool      // `onLeagueUpdated()` has been called

    /** The settings the form would send now. */
    function NewSettings(): map<string, Value>
      reads this
    {
      MergeSettings(league.settings, numRounds, roundDuration)
    }

    constructor (player: Player, league: League)
      ensures this.player == player && this.league == league
      ensures numRounds == Setting(league.settings, "num_rounds")
      ensures roundDuration == Setting(league.settings, "round_duration_hours")
      ensures error == "" && !isLoading && sent == [] && !leagueUpdated
    {
      this.player, this.league := player, league;
      numRounds := Setting(league.settings, "num_rounds");
      roundDuration := Setting(league.settings, "round_duration_hours");
      error, isLoading, sent, leagueUpdated := "", false, [], false;
    }

    /** The selects hand over the chosen option's text. */
    method SelectNumRounds(text: string)
      modifies this`numRounds
      ensures numRounds == Str(text)
    {
      numRounds := Str(text);
    }

    method SelectRoundDuration(text: string)
      modifies this`roundDuration
      ensures roundDuration == Str(text)
    {
      roundDuration := Str(text);
    }

    /** `handleSubmit`, with the update call settling as `updated`. */
    method HandleSubmit(updated: Settled<()>)
      modifies this`error, this`isLoading, this`sent, this`leagueUpdated
      ensures sent == old(sent) + [UpdateLeagueSettings(league.leagueId, player.playerId, NewSettings())]
      ensures !isLoading
      ensures updated.Resolved? ==> error == "" && leagueUpdated
      ensures updated.Rejected? ==>
                error == OrElse(updated.message, UpdateFailed) && error != "" && leagueUpdated == old(leagueUpdated)
    {
      error := "";
      isLoading := true;
      var newSettings := league.settings["num_rounds" := ParseInt(numRounds)]["round_duration_hours" := ParseInt(roundDuration)];
      sent := sent + [UpdateLeagueSettings(league.leagueId, player.playerId, newSettings)];
      match updated {
        case Resolved(_) =>
          leagueUpdated := true;
        case Rejected(message) =>
          error := OrElse(message, UpdateFailed);
      }
      isLoading := false;
    }
  }
}
