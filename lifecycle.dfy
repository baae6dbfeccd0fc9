/**
 * The lifecycle state machine of the proxy, as pure functions over the
 * orchestrator's state: the guarded transition `setState` and the three steps
 * of one `update` tick. The emitted `start`/`stop` events are recorded in an
 * append-only log instead of being sent to listeners.
 */
module Lifecycle {
  import opened Wrappers
  import opened StatusData

  /** The `STATES` enumeration; its numeric codes are only ever compared for identity. */
  datatype State = Unknown | Active | Inactive | Starting | Stopping | Unauthorized

  /** Events the orchestrator emits: `start` asks the invoker to boot the backend, `stop` to shut it down. */
  datatype Event = Start | Stop

  /** `SHUTDOWN_TIMEOUT`, in milliseconds: how long the backend must be idle before it is stopped. */
  const SHUTDOWN_TIMEOUT: int := 5 * 60 * 1000

  /** The watchdog limit for a stuck `starting` or `stopping` state, written out separately in the source. */
  const STUCK_TIMEOUT: int := 5 * 60 * 1000

  /** `currentState`: the state and the time (ms) it was last entered. */
  datatype StateRecord = StateRecord(state: State, time: int)

  /** `players`: the last observed online count and the time (ms) it last changed. */
  datatype PlayerRecord = PlayerRecord(count: int, time: int)

  /** Everything a transition reads or writes: both records and the log of emitted events. */
  datatype Machine = Machine(current: StateRecord, players: PlayerRecord, events: seq<Event>)

  /** The state right after construction, before the first tick. */
  function Initial(now: int): Machine {
    Machine(StateRecord(Unknown, now), PlayerRecord(0, now), [])
  }

  function Max(a: int, b: int): int { if a < b then b else a }

  /** The events emitted on entering `s`. */
  function Emitted(s: State): (e: seq<Event>)
    ensures e == [Start] <==> s == Starting
    ensures e == [Stop] <==> s == Stopping
    ensures e == [] <==> s != Starting && s != Stopping
  {
    match s
    case Starting => [Start]
    case Stopping => [Stop]
    case _ => []
  }

  /** Whether `setState(s, force)` does anything. */
  predicate Effective(m: Machine, s: State, force: bool) {
    force || m.current.state != s
  }

  /** `setState(s, force)` at time `now`. */
  function SetState(m: Machine, s: State, force: bool, now: int): (r: Machine)
    ensures r.players == m.players
    ensures !Effective(m, s, force) ==> r == m
    ensures Effective(m, s, force) ==> r.current == StateRecord(s, now)
    ensures Effective(m, s, force) ==> r.events == m.events + Emitted(s)
  {
    if m.current.state == s && !force then m
    else m.(current := StateRecord(s, now), events := m.events + Emitted(s))
  }

  /** First step of `update`: retry a stuck shutdown, abort a stuck boot. */
  function Watchdog(m: Machine, now: int): (r: Machine)
    ensures r.players == m.players
    ensures m.current.state == Stopping && now - m.current.time > STUCK_TIMEOUT ==>
              r.current == StateRecord(Stopping, now) && r.events == m.events + [Stop]
    ensures m.current.state == Starting && now - m.current.time > STUCK_TIMEOUT ==>
              r.current == StateRecord(Inactive, now) && r.events == m.events
    ensures ((m.current.state != Stopping && m.current.state != Starting) ||
             now - m.current.time <= STUCK_TIMEOUT) ==> r == m
  {
    match m.current.state
    case Stopping =>
      if now - m.current.time > STUCK_TIMEOUT then SetState(m, Stopping, true, now) else m
    case Starting =>
      if now - m.current.time > STUCK_TIMEOUT then SetState(m, Inactive, false, now) else m
    case _ => m
  }

  /** Second step of `update`: follow the checker's reachability, except during an intended transition. */
  function Reconcile(m: Machine, now: int, reachable: bool): (r: Machine)
    ensures r.players == m.players && r.events == m.events
    ensures reachable && m.current.state != Stopping ==> r.current.state == Active
    ensures !reachable && m.current.state != Starting ==> r.current.state == Inactive
    ensures (reachable && m.current.state == Stopping) || (!reachable && m.current.state == Starting) ==> r == m
    ensures r.current.state == m.current.state ==> r == m
    ensures r.current.state != m.current.state ==> r.current.time == now
  {
    if reachable && m.current.state != Stopping then SetState(m, Active, false, now)
    else if !reachable && m.current.state != Starting then SetState(m, Inactive, false, now)
    else m
  }

  /** The online count recorded by the idle step: a new count restarts the idle clock, an unchanged one does not. */
  function ObservePlayers(p: PlayerRecord, count: int, now: int): (q: PlayerRecord)
    ensures q.count == count
    ensures count == p.count ==> q == p
    ensures count != p.count ==> q.time == now
  {
    if count != p.count then PlayerRecord(count, now) else p
  }

  /**
   * Third step of `update`: while active, record the online count and stop
   * the backend once it has had no players for SHUTDOWN_TIMEOUT, measured
   * from the later of the last count change and entering `active`.
   */
  function IdleCheck(m: Machine, now: int, data: Option<Status>): (r: Machine)
    ensures m.current.state != Active ==> r == m
    ensures m.current.state == Active ==> r.players == ObservePlayers(m.players, OnlineCount(data), now)
    ensures m.current.state == Active ==>
              (r.current.state == Stopping <==>
                 OnlineCount(data) == 0 && now - Max(r.players.time, m.current.time) >= SHUTDOWN_TIMEOUT)
    ensures r.current.state == Stopping && m.current.state == Active ==>
              r.current.time == now && r.events == m.events + [Stop]
    ensures r.current.state != Stopping ==> r.current == m.current && r.events == m.events
    ensures OnlineCount(data) != 0 ==> r.current == m.current && r.events == m.events
  {
    if m.current.state != Active then m
    else
      var m1 := m.(players := ObservePlayers(m.players, OnlineCount(data), now));
      if m1.players.count == 0 && now - Max(m1.players.time, m1.current.time) >= SHUTDOWN_TIMEOUT
      then SetState(m1, Stopping, false, now)
      else m1
  }

  /**
   * One `update` tick against the checker's snapshot. A tick never asks for a
   * boot, emits at most one `stop`, and leaves a state consistent with
   * reachability: `active`/`stopping` when reachable, `inactive` or a
   * still-running `starting` when not.
   */
  function Tick(m: Machine, now: int, snap: Snapshot): (r: Machine)
    ensures r.events == m.events || r.events == m.events + [Stop]
    ensures snap.active ==> r.current.state == Active || r.current.state == Stopping
    ensures !snap.active ==> r.current.state == Inactive || r.current.state == Starting
    ensures r.current.state == Starting ==>
              r == m && m.current.state == Starting && now - m.current.time <= STUCK_TIMEOUT
  {
    IdleCheck(Reconcile(Watchdog(m, now), now, snap.active), now, snap.data)
  }

  /** The input of one tick: the clock and the checker's snapshot at that moment. */
  datatype TickInput = TickInput(now: int, snap: Snapshot)

  /** A run of consecutive ticks. */
  function Run(m: Machine, ticks: seq<TickInput>): Machine
    decreases |ticks|
  {
    if ticks == [] then m else Run(Tick(m, ticks[0].now, ticks[0].snap), ticks[1..])
  }

  /** The number of occurrences of `e` in a log. */
  function Count(es: seq<Event>, e: Event): nat {
    if es == [] then 0 else Count(es[..|es| - 1], e) + (if es[|es| - 1] == e then 1 else 0)
  }

  /** A tick never emits `start` and emits `stop` at most once. */
  lemma TickEventCounts(m: Machine, now: int, snap: Snapshot)
    ensures Count(Tick(m, now, snap).events, Start) == Count(m.events, Start)
    ensures Count(Tick(m, now, snap).events, Stop) <= Count(m.events, Stop) + 1
  {
  }

  /** However long it runs, the periodic tick never asks for a boot: only a login does. */
  lemma {:induction false} RunNeverStarts(m: Machine, ticks: seq<TickInput>)
    ensures Count(Run(m, ticks).events, Start) == Count(m.events, Start)
    ensures m.events <= Run(m, ticks).events
    decreases |ticks|
  {
    if ticks != [] {
      var m1 := Tick(m, ticks[0].now, ticks[0].snap);
      TickEventCounts(m, ticks[0].now, ticks[0].snap);
      RunNeverStarts(m1, ticks[1..]);
    }
  }

  /**
   * While the backend stays unreachable, a boot that is in progress or has been
   * aborted is never retried and nothing is emitted: the state only moves
   * from `starting` to `inactive`.
   */
  lemma {:induction false} UnreachableRunIsQuiet(m: Machine, ticks: seq<TickInput>)
    requires m.current.state == Starting || m.current.state == Inactive
    requires forall i :: 0 <= i < |ticks| ==> !ticks[i].snap.active
    ensures Run(m, ticks).events == m.events
    ensures Run(m, ticks).current.state == Starting || Run(m, ticks).current.state == Inactive
    ensures m.current.state == Inactive ==> Run(m, ticks) == m
    decreases |ticks|
  {
    if ticks != [] {
      var m1 := Tick(m, ticks[0].now, ticks[0].snap);
      assert !ticks[0].snap.active;
      assert forall i :: 0 <= i < |ticks[1..]| ==> !ticks[1..][i].snap.active by {
        forall i | 0 <= i < |ticks[1..]| ensures !ticks[1..][i].snap.active {
          assert ticks[1..][i] == ticks[i + 1];
        }
      }
      UnreachableRunIsQuiet(m1, ticks[1..]);
    }
  }

  /**
   * While the backend stays reachable, a `stopping` state is left alone, and
   * nothing is emitted, until the watchdog's retry is due: whatever the
   * snapshots' data, a run of such ticks changes nothing.
   */
  lemma {:induction false} StoppingHoldsWhileReachable(m: Machine, ticks: seq<TickInput>)
    requires m.current.state == Stopping
    requires forall i :: 0 <= i < |ticks| ==>
               ticks[i].snap.active && ticks[i].now - m.current.time <= STUCK_TIMEOUT
    ensures Run(m, ticks) == m
    decreases |ticks|
  {
    if ticks != [] {
      assert Tick(m, ticks[0].now, ticks[0].snap) == m;
      assert forall i :: 0 <= i < |ticks[1..]| ==>
               ticks[1..][i].snap.active && ticks[1..][i].now - m.current.time <= STUCK_TIMEOUT by {
        forall i | 0 <= i < |ticks[1..]|
          ensures ticks[1..][i].snap.active && ticks[1..][i].now - m.current.time <= STUCK_TIMEOUT
        {
          assert ticks[1..][i] == ticks[i + 1];
        }
      }
      StoppingHoldsWhileReachable(m, ticks[1..]);
    }
  }

  /** A shutdown that does not take effect is retried once per STUCK_TIMEOUT while the backend stays reachable. */
  lemma StopRetriedWhileReachable(m: Machine, now: int, snap: Snapshot)
    requires m.current.state == Stopping && snap.active
    ensures now - m.current.time > STUCK_TIMEOUT ==>
              Tick(m, now, snap) == m.(current := StateRecord(Stopping, now), events := m.events + [Stop])
    ensures now - m.current.time <= STUCK_TIMEOUT ==> Tick(m, now, snap) == m
  {
  }

  /** A boot stuck past STUCK_TIMEOUT while unreachable is aborted to `inactive` without a new `start`. */
  lemma StuckStartAborts(m: Machine, now: int, snap: Snapshot)
    requires m.current.state == Starting && !snap.active
    requires now - m.current.time > STUCK_TIMEOUT
    ensures Tick(m, now, snap) == m.(current := StateRecord(Inactive, now))
  {
  }
}
