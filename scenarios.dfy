/** Multi-step behaviour of the orchestrator: boots, idle shutdowns and retries across ticks and logins. */
module Scenarios {
  import opened Wrappers
  import opened StatusData
  import opened Lifecycle
  import Whitelist

  /** A probe that reached the backend and read `online` players. */
  function Reachable(online: int): Snapshot {
    Snapshot(true, Some(Status(Version("1.20", 763), Some(PlayerSlots(20, Some(online))), Description("A server"), None)))
  }

  const Unreachable: Snapshot := Snapshot(false, None)

  /**
   * An allowed login while unreachable, then 301 s with the backend still
   * down: `inactive`, `starting`, `inactive`, with exactly one `start` and no `stop`.
   */
  lemma BootTimesOut(uuid: string, whitelist: seq<string>)
    requires uuid in whitelist
    ensures var m0 := Tick(Initial(0), 0, Unreachable);
      var m1 := SetState(m0, Whitelist.LoginTarget(true, whitelist, uuid), false, 1000);
      var m2 := Tick(m1, 1000 + 301000, Unreachable);
      m0.current.state == Inactive && m1.current.state == Starting && m2.current.state == Inactive &&
      Count(m2.events, Start) == 1 && Count(m2.events, Stop) == 0
  {
  }

  /**
   * The count drops to zero at `t0` while active: the backend is stopped, with
   * one `stop`, at the first tick at least SHUTDOWN_TIMEOUT later, and not before.
   */
  lemma IdleShutdown(m: Machine, t0: int, t1: int)
    requires m.current.state == Active && m.current.time <= t0 && m.players.count != 0
    requires t0 <= t1
    ensures var r0 := Tick(m, t0, Reachable(0));
      var r1 := Tick(r0, t1, Reachable(0));
      r0.current == m.current && r0.players == PlayerRecord(0, t0) && r0.events == m.events &&
      (t1 - t0 >= SHUTDOWN_TIMEOUT ==> r1.current == StateRecord(Stopping, t1) && r1.events == m.events + [Stop]) &&
      (t1 - t0 < SHUTDOWN_TIMEOUT ==> r1 == r0)
  {
  }

  /**
   * Once the idle shutdown has fired at `now`, its single `stop` is the only
   * one: any run of reachable ticks up to the watchdog's limit, whatever
   * their data, changes nothing and emits nothing.
   */
  lemma StopFiresOnce(m: Machine, now: int, snap: Snapshot, ticks: seq<TickInput>)
    requires m.current.state == Active
    requires Tick(m, now, snap).current.state == Stopping
    requires forall i :: 0 <= i < |ticks| ==> ticks[i].snap.active && ticks[i].now <= now + STUCK_TIMEOUT
    ensures Tick(m, now, snap).events == m.events + [Stop]
    ensures Run(Tick(m, now, snap), ticks) == Tick(m, now, snap)
  {
    StoppingHoldsWhileReachable(Tick(m, now, snap), ticks);
  }

  /**
   * A rejected login during a boot replaces `starting` by `unauthorized`; the
   * next unreachable tick then records `inactive`, so the boot loses its
   * watchdog, and a later allowed login emits a second `start`.
   */
  lemma RejectedLoginCancelsBoot(m: Machine, t1: int, t2: int, t3: int, whitelist: seq<string>, stranger: string, member: string)
    requires m.current.state == Starting
    requires stranger !in whitelist && member in whitelist
    ensures var r1 := SetState(m, Whitelist.LoginTarget(true, whitelist, stranger), false, t1);
      var r2 := Tick(r1, t2, Unreachable);
      var r3 := SetState(r2, Whitelist.LoginTarget(true, whitelist, member), false, t3);
      r1.current == StateRecord(Unauthorized, t1) && r1.events == m.events &&
      r2.current == StateRecord(Inactive, t2) && r2.events == m.events &&
      r3.current == StateRecord(Starting, t3) && r3.events == m.events + [Start]
  {
  }

  /** A player count that never drops to zero keeps an active backend running. */
  lemma OccupiedNeverStops(m: Machine, now: int, online: int)
    requires m.current.state == Active && online != 0
    ensures Tick(m, now, Reachable(online)).current == m.current
    ensures Tick(m, now, Reachable(online)).events == m.events
  {
  }
}
