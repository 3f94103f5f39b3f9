/**
 * What the two entry points do with the builders once configured: the
 * device-up gauge, and when a fresh card-status builder is registered. Time
 * is counted in whole minutes from set-up.
 */
module Watchdog {
  import opened Cards
  import KonnektorGauges
  import EpaGauges

  /** Whether `connect()` on the connection factory returned or threw. */
  datatype ConnectOutcome = Connected | ConnectThrew

  /** The `konnektor_status` gauge callback: 1 when connecting works, 0 on any exception. */
  function KonnektorStatus(outcome: ConnectOutcome): (v: int)
    ensures v == 0 || v == 1
    ensures v == 1 <==> outcome.Connected?
  {
    match outcome
    case Connected => 1
    case ConnectThrew => 0
  }

  const CardUpdateScheduleMinutes: nat := 3

  /**
   * When card-status builders are registered: only once at set-up, or at
   * set-up and then at a fixed rate after an initial delay.
   */
  datatype RefreshPolicy = RegisterOnce | RegisterAtFixedRate(initialDelay: nat, period: nat)

  /** The konnektor watchdog re-registers every 3 minutes, starting 3 minutes after set-up. */
  const KonnektorPolicy := RegisterAtFixedRate(CardUpdateScheduleMinutes, CardUpdateScheduleMinutes)

  /** The ePA watchdog registers its builder once. */
  const EpaPolicy := RegisterOnce

  /** One `gauges.register(builder, true)`: when it happened and the rows the fresh builder yields. */
  datatype Registration = Registration(minute: nat, rows: seq<Row>)

  datatype ScheduleState = ScheduleState(minute: nat, registrations: seq<Registration>)

  /**
   * Whether the periodic task runs at this minute: `scheduleAtFixedRate`
   * runs it at the initial delay and then once per period.
   */
  predicate FiresAt(policy: RefreshPolicy, minute: nat)
    ensures policy.RegisterOnce? ==> !FiresAt(policy, minute)
    ensures policy == KonnektorPolicy ==> (FiresAt(policy, minute) <==> minute > 0 && minute % 3 == 0)
  {
    match policy
    case RegisterOnce => false
    case RegisterAtFixedRate(initialDelay, period) =>
      period > 0 && minute >= initialDelay && (minute - initialDelay) % period == 0
  }

  /** Set-up registers a first builder before the server starts. */
  function Setup(rowsAt: nat -> seq<Row>): (s: ScheduleState)
    ensures s.minute == 0 && |s.registrations| == 1
    ensures s.registrations[0].minute == 0 && s.registrations[0].rows == rowsAt(0)
  {
    ScheduleState(0, [Registration(0, rowsAt(0))])
  }

  /** One minute passes; the periodic task registers a fresh builder when it fires. */
  function Tick(policy: RefreshPolicy, rowsAt: nat -> seq<Row>, s: ScheduleState): (s': ScheduleState)
    ensures s'.minute == s.minute + 1
    ensures FiresAt(policy, s.minute + 1) ==> s'.registrations == s.registrations + [Registration(s.minute + 1, rowsAt(s.minute + 1))]
    ensures !FiresAt(policy, s.minute + 1) ==> s'.registrations == s.registrations
  {
    var m := s.minute + 1;
    ScheduleState(m, if FiresAt(policy, m) then s.registrations + [Registration(m, rowsAt(m))] else s.registrations)
  }

  /** The state `t` minutes after set-up. */
  function StateAt(policy: RefreshPolicy, rowsAt: nat -> seq<Row>, t: nat): (s: ScheduleState)
    ensures s.minute == t
    ensures |s.registrations| >= 1 && s.registrations[0] == Registration(0, rowsAt(0))
  {
    if t == 0 then Setup(rowsAt) else Tick(policy, rowsAt, StateAt(policy, rowsAt, t - 1))
  }

  /**
   * The konnektor watchdog has registered at minutes 0, 3, 6, ... up to `t`:
   * once at set-up, then every 3 minutes with the first periodic run at minute 3.
   */
  lemma {:induction false} KonnektorRegistrations(rowsAt: nat -> seq<Row>, t: nat)
    ensures |StateAt(KonnektorPolicy, rowsAt, t).registrations| == t / 3 + 1
    ensures forall i :: 0 <= i <= t / 3 ==> StateAt(KonnektorPolicy, rowsAt, t).registrations[i] == Registration(3 * i, rowsAt(3 * i))
  {
    if t > 0 {
      KonnektorRegistrations(rowsAt, t - 1);
      var prev := StateAt(KonnektorPolicy, rowsAt, t - 1);
      var s := StateAt(KonnektorPolicy, rowsAt, t);
      assert s == Tick(KonnektorPolicy, rowsAt, prev);
      if t % 3 == 0 {
        assert FiresAt(KonnektorPolicy, t);
        assert t / 3 == (t - 1) / 3 + 1;
        assert 3 * (t / 3) == t;
      } else {
        assert !FiresAt(KonnektorPolicy, t);
        assert t / 3 == (t - 1) / 3;
      }
    }
  }

  /** The latest builder of the konnektor watchdog at minute `t` is the one registered at the last multiple of 3. */
  lemma KonnektorLatestRegistration(rowsAt: nat -> seq<Row>, t: nat)
    ensures var regs := StateAt(KonnektorPolicy, rowsAt, t).registrations;
      regs[|regs| - 1] == Registration(t - t % 3, rowsAt(t - t % 3))
  {
    KonnektorRegistrations(rowsAt, t);
    assert 3 * (t / 3) == t - t % 3;
  }

  /** The ePA watchdog registers exactly once, at set-up, and never again. */
  lemma {:induction false} EpaRegistersOnce(rowsAt: nat -> seq<Row>, t: nat)
    ensures StateAt(EpaPolicy, rowsAt, t).registrations == [Registration(0, rowsAt(0))]
  {
    if t > 0 {
      EpaRegistersOnce(rowsAt, t - 1);
    }
  }

  /** The konnektor watchdog's rows at each minute: those of the konnektor builder on that minute's poll. */
  function KonnektorRowsAt(polls: nat -> Poll): (rowsAt: nat -> seq<Row>)
    ensures forall m: nat :: polls(m).PollFailed? ==> rowsAt(m) == []
    ensures forall m: nat :: polls(m).Listed? ==> |rowsAt(m)| == |polls(m).probes|
    ensures forall m: nat, k :: polls(m).Listed? && 0 <= k < |polls(m).probes| ==>
      rowsAt(m)[k] == KonnektorGauges.CheckCard(polls(m).probes[k])
  {
    (m: nat) => KonnektorGauges.CardRows(polls(m))
  }

  /** The ePA watchdog's rows at each minute: those of the ePA builder on that minute's poll. */
  function EpaRowsAt(polls: nat -> Poll): (rowsAt: nat -> seq<Row>)
    ensures forall m: nat :: polls(m).PollFailed? ==> rowsAt(m) == []
    ensures forall m: nat :: polls(m).Listed? ==> |rowsAt(m)| == |EpaGauges.SmcbOnly(polls(m).probes)|
    ensures forall m: nat, k :: polls(m).Listed? && 0 <= k < |EpaGauges.SmcbOnly(polls(m).probes)| ==>
      rowsAt(m)[k] == EpaGauges.CheckCard(EpaGauges.SmcbOnly(polls(m).probes)[k])
  {
    (m: nat) => EpaGauges.CardRows(polls(m))
  }

  /**
   * A refresh whose poll fails still registers a fresh builder; the fresh
   * registration records no rows.
   */
  lemma KonnektorFailedRefresh(polls: nat -> Poll, i: nat, t: nat)
    requires 0 < i <= t / 3
    requires polls(3 * i).PollFailed?
    ensures var regs := StateAt(KonnektorPolicy, KonnektorRowsAt(polls), t).registrations;
      i < |regs| && regs[i] == Registration(3 * i, [])
  {
    KonnektorRegistrations(KonnektorRowsAt(polls), t);
  }

  /** The only rows the ePA watchdog ever hands over are those of the poll made at set-up. */
  lemma EpaRowsFromSetupPoll(polls: nat -> Poll, t: nat)
    ensures StateAt(EpaPolicy, EpaRowsAt(polls), t).registrations == [Registration(0, EpaGauges.CardRows(polls(0)))]
  {
    EpaRegistersOnce(EpaRowsAt(polls), t);
  }
}
