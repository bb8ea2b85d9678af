/**
 * What every page reads from the authentication context: the signed-in player
 * (`playerData`, possibly not loaded yet) and the notification toast it can raise.
 */
module Context {
  import opened Optional

  /** The fields of `playerData` the core pages read. */
  datatype Player = Player(playerId: int, subscriptionStatus: Option<string>)

  /** A toast raised with `showNotification(message, isError)`. */
  datatype Notice = Notice(message: string, isError: bool)

  /** `playerData?.subscription_status === 'active'`: the "full" entitlement. */
  predicate IsSubscribed(player: Option<Player>) {
    player.Some? && player.value.subscriptionStatus == Some("active")
  }

  /** `!playerData?.player_id`: no player, or a player id that is falsy (0). */
  predicate NoPlayerId(player: Option<Player>) {
    player.None? || player.value.playerId == 0
  }
}
