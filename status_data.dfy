/**
 * The status ("server list ping") response of the game protocol and the
 * health checker's latest snapshot. The response is the object the protocol
 * library hands to `beforePing` as a template and the object the checker
 * stores as the backend's live data; only the fields the proxy reads or
 * writes are modelled.
 */
module StatusData {
  import opened Wrappers

  /** `version`: the banner shown by clients and the protocol number. */
  datatype Version = Version(name: string, protocol: int)

  /** `players`: the advertised slot count and the number online (may be missing). */
  datatype PlayerSlots = PlayerSlots(max: int, online: Option<int>)

  /** `description`: the message of the day. */
  datatype Description = Description(text: string)

  /** A status response; `players` and `favicon` may be missing from the live data. */
  datatype Status = Status(
    version: Version,
    players: Option<PlayerSlots>,
    description: Description,
    favicon: Option<string>)

  /**
   * The checker's `currentState`: whether the last probe reached the backend
   * and the last status data it obtained (kept across failed probes).
   */
  datatype Snapshot = Snapshot(active: bool, data: Option<Status>)

  /**
   * The online count the orchestrator reads from the live data:
   * `data && data.players ? data.players.online || 0 : 0`.
   */
  function OnlineCount(data: Option<Status>): (n: int)
    ensures data.None? || data.value.players.None? || data.value.players.value.online.None? ==> n == 0
    ensures data.Some? && data.value.players.Some? && data.value.players.value.online.Some? ==>
              n == data.value.players.value.online.value
  {
    match data
    case None => 0
    case Some(d) =>
      match d.players
      case None => 0
      case Some(p) => if p.online.Some? then p.online.value else 0
  }
}
