/** The login authorisation decision of `handleLogin`. */
module Whitelist {
  import opened Lifecycle

  /** The scan of the parsed whitelist for an entry whose uuid is the client's. */
  method IsWhitelisted(whitelist: seq<string>, uuid: string) returns (found: bool)
    ensures found <==> uuid in whitelist
  {
    found := false;
    var index := 0;
    while index < |whitelist|
      invariant 0 <= index <= |whitelist|
      invariant !found
      invariant forall k :: 0 <= k < index ==> whitelist[k] != uuid
    {
      if whitelist[index] == uuid {
        found := true;
        break;
      }
      index := index + 1;
    }
  }

  /**
   * The state a login asks for: `starting` when the whitelist is off or lists
   * the client, `unauthorized` otherwise. `enabled` means the configured flag
   * compared equal to the string "true".
   */
  function LoginTarget(enabled: bool, whitelist: seq<string>, uuid: string): (s: State)
    ensures s == Starting <==> !enabled || uuid in whitelist
    ensures s == Unauthorized <==> enabled && uuid !in whitelist
  {
    if enabled then (if uuid in whitelist then Starting else Unauthorized) else Starting
  }

  /**
   * What a login does to the lifecycle: an authorised one boots the backend
   * with exactly one `start` unless a boot is already running; a rejected one
   * records `unauthorized` and emits nothing.
   */
  lemma LoginEffect(m: Machine, now: int, enabled: bool, whitelist: seq<string>, uuid: string)
    ensures var r := SetState(m, LoginTarget(enabled, whitelist, uuid), false, now);
      r.players == m.players &&
      (enabled && uuid !in whitelist ==>
         r.current.state == Unauthorized && r.events == m.events) &&
      (!enabled || uuid in whitelist ==>
         r.current.state == Starting &&
         (m.current.state == Starting ==> r == m) &&
         (m.current.state != Starting ==> r.current.time == now && r.events == m.events + [Start]))
  {
  }
}
