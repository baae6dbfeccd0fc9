/**
 * The proxy server object: its lifecycle fields, the transition method, the
 * periodic tick, the login handler and the status-response hook. Each
 * state-changing method is proved equal to its counterpart in `Lifecycle`.
 */
module Server {
  import opened Wrappers
  import opened StatusData
  import opened Lifecycle
  import Whitelist
  import Decimal

  /** The kick message of a login that boots the backend. */
  const BOOT_MESSAGE: string := "Booting the server now. Please reconnect once it's up."
  /** The kick message of a rejected login. */
  const UNAUTHORIZED_MESSAGE: string := "You're not authorized to join this server."

  class ProxyServer {
    var currentState: StateRecord
    var players: PlayerRecord
    /** The `start`/`stop` events emitted so far, oldest first. */
    var events: seq<Event>

    function Model(): Machine
      reads this
    {
      Machine(currentState, players, events)
    }

    /** Both records start at `unknown` and zero players at `now`; the first tick runs at once. */
    constructor (now: int, snap: Snapshot)
      ensures Model() == Tick(Initial(now), now, snap)
    {
      currentState := StateRecord(Unknown, now);
      players := PlayerRecord(0, now);
      events := [];
      new;
      Update(now, snap);
    }

    method SetState(state: State, force: bool, now: int)
      modifies this
      ensures Model() == Lifecycle.SetState(old(Model()), state, force, now)
    {
      if currentState.state == state && !force {
        return;
      }
      currentState := StateRecord(state, now);
      match state {
        case Starting => events := events + [Start];
        case Stopping => events := events + [Stop];
        case _ =>
      }
    }

    /** One tick of the orchestrator, with the checker's snapshot read once at its start. */
    method Update(now: int, snap: Snapshot)
      modifies this
      ensures Model() == Tick(old(Model()), now, snap)
    {
      var active := snap.active;
      ghost var m0 := Model();

      match currentState.state {
        case Stopping =>
          if now - currentState.time > STUCK_TIMEOUT {
            SetState(Stopping, true, now);
          }
        case Starting =>
          if now - currentState.time > STUCK_TIMEOUT {
            SetState(Inactive, false, now);
          }
        case _ =>
      }
      assert Model() == Watchdog(m0, now);
      ghost var m1 := Model();

      if active && currentState.state != Stopping {
        SetState(Active, false, now);
      } else if !active && currentState.state != Starting {
        SetState(Inactive, false, now);
      }
      assert Model() == Reconcile(m1, now, active);

      if currentState.state == Active {
        var count := OnlineCount(snap.data);
        if count != players.count {
          players := PlayerRecord(count, now);
        }
        var playerTime := Max(players.time, currentState.time);
        if players.count == 0 && now - playerTime >= SHUTDOWN_TIMEOUT {
          SetState(Stopping, false, now);
        }
      }
    }

    /**
     * A completed login while the backend is unreachable: boot it when the
     * client may, record the rejection otherwise, and return the message the
     * client is disconnected with.
     */
    method HandleLogin(now: int, whitelistEnabled: bool, whitelist: seq<string>, uuid: string)
      returns (reason: string)
      modifies this
      ensures Model() == Lifecycle.SetState(old(Model()),
                           Whitelist.LoginTarget(whitelistEnabled, whitelist, uuid), false, now)
      ensures reason == if !whitelistEnabled || uuid in whitelist then BOOT_MESSAGE else UNAUTHORIZED_MESSAGE
    {
      if whitelistEnabled {
        var isWhitelisted := Whitelist.IsWhitelisted(whitelist, uuid);
        if isWhitelisted {
          SetState(Starting, false, now);
          reason := BOOT_MESSAGE;
        } else {
          SetState(Unauthorized, false, now);
          reason := UNAUTHORIZED_MESSAGE;
        }
      } else {
        SetState(Starting, false, now);
        reason := BOOT_MESSAGE;
      }
    }

    /**
     * The status response: the live data verbatim while active; otherwise the
     * library's template rewritten to show the lifecycle state, with no free
     * slots and an unsupported protocol so that clients display the banner.
     */
    method BeforePing(template: Status, snap: Snapshot, now: int) returns (r: Option<Status>)
      requires template.players.Some?
      ensures currentState.state == Active ==> r == snap.data
      ensures currentState.state != Active ==>
        r.Some? &&
        r.value.players == Some(template.players.value.(max := 0)) &&
        r.value.version.protocol == 1 &&
        r.value.favicon == (if snap.data.Some? then snap.data.value.favicon else template.favicon)
      ensures currentState.state == Starting ==>
        r.value.version.name == "Booting up" &&
        r.value.description.text ==
          "Please wait while the server starts (" + Decimal.ElapsedText(now - currentState.time) + "s)..."
      ensures currentState.state == Stopping ==>
        r.value.version.name == "Shutting down" &&
        r.value.description.text ==
          "Please wait while the server shuts down (" + Decimal.ElapsedText(now - currentState.time) + "s)..."
      ensures currentState.state == Inactive ==>
        r.value.version.name == "Inactive" &&
        r.value.description.text == "Server inactive; connect to boot it up."
      ensures currentState.state == Unknown || currentState.state == Unauthorized ==>
        r.value.version.name == "Unknown" &&
        r.value.description.text == "Unknown status. Please wait..."
    {
      if currentState.state == Active {
        return snap.data;
      }

      var data := template;
      if snap.data.Some? {
        data := data.(favicon := snap.data.value.favicon);
      }

      data := data.(players := Some(data.players.value.(max := 0)));
      data := data.(version := data.version.(protocol := 1));
      var secSinceChange := Decimal.ElapsedText(now - currentState.time);
      match currentState.state {
        case Starting =>
          data := data.(description := data.description.(
            text := "Please wait while the server starts (" + secSinceChange + "s)..."));
          data := data.(version := data.version.(name := "Booting up"));
        case Stopping =>
          data := data.(description := data.description.(
            text := "Please wait while the server shuts down (" + secSinceChange + "s)..."));
          data := data.(version := data.version.(name := "Shutting down"));
        case Inactive =>
          data := data.(description := data.description.(text := "Server inactive; connect to boot it up."));
          data := data.(version := data.version.(name := "Inactive"));
        case _ =>
          data := data.(description := data.description.(text := "Unknown status. Please wait..."));
          data := data.(version := data.version.(name := "Unknown"));
      }
      return Some(data);
    }
  }
}
