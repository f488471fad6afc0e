/** Time-based tournament status (src/services/tournamentStatus.service.ts). Times
    are milliseconds; `addMinutes` and `addHours` add whole minutes and hours, and
    `isBefore(a, b)` is `a < b`. The clock is a parameter. */
module TournamentStatus {

  datatype Status = Registering | Running | Completed | Cancelled

  datatype Tournament = Tournament(id: int, startsAt: int, lateRegMin: int, duration: int, status: Status)

  const MinuteMs: int := 60 * 1000
  const HourMs: int := 60 * MinuteMs

  function LateRegEnd(t: Tournament): int { t.startsAt + t.lateRegMin * MinuteMs }
  function TournamentEnd(t: Tournament): int { t.startsAt + t.duration * HourMs }

  /** `getTournamentStatus`: completed once the end is strictly in the past, running
      once late registration has strictly ended, registering otherwise (before the
      start as well as after it); never cancelled. */
  function GetTournamentStatus(t: Tournament, now: int): (s: Status)
    ensures s != Cancelled
    ensures s == Completed <==> TournamentEnd(t) < now
    ensures s == Running <==> !(TournamentEnd(t) < now) && LateRegEnd(t) < now
    ensures s == Registering <==> now <= TournamentEnd(t) && now <= LateRegEnd(t)
  {
    if TournamentEnd(t) < now then Completed
    else if LateRegEnd(t) < now then Running
    else if t.startsAt < now then Registering
    else Registering
  }

  /** The order in which statuses are reached. */
  function Rank(s: Status): nat
  {
    match s
    case Registering => 0
    case Running => 1
    case Completed => 2
    case Cancelled => 3
  }

  /** For a fixed tournament, the status never goes back as the clock advances. */
  lemma StatusMonotoneInTime(t: Tournament, now1: int, now2: int)
    requires now1 <= now2
    ensures Rank(GetTournamentStatus(t, now1)) <= Rank(GetTournamentStatus(t, now2))
  {
  }

  /** A late registration that outlasts the tournament means it is never reported as
      running. */
  lemma NoRunningWhenLateRegOutlasts(t: Tournament, now: int)
    requires LateRegEnd(t) >= TournamentEnd(t)
    ensures GetTournamentStatus(t, now) != Running
  {
  }

  /** The tournaments the periodic update looks at. */
  predicate Active(t: Tournament)
  {
    t.status == Registering || t.status == Running
  }

  datatype StatusWrite = StatusWrite(id: int, from: Status, to: Status)

  /** `updateTournamentStatuses`: the writes it issues, in order: one for each active
      tournament whose computed status differs from the stored one. */
  function StatusWrites(ts: seq<Tournament>, now: int): (w: seq<StatusWrite>)
    ensures |w| <= |ts|
    ensures forall i :: 0 <= i < |w| ==> w[i].from != w[i].to && (w[i].from == Registering || w[i].from == Running)
    ensures forall i :: 0 <= i < |w| ==>
      exists j :: (0 <= j < |ts| && ts[j].id == w[i].id && Active(ts[j]) &&
                   w[i].from == ts[j].status && w[i].to == GetTournamentStatus(ts[j], now))
    ensures forall j :: 0 <= j < |ts| && Active(ts[j]) && GetTournamentStatus(ts[j], now) != ts[j].status ==>
      StatusWrite(ts[j].id, ts[j].status, GetTournamentStatus(ts[j], now)) in w
  {
    if ts == [] then []
    else
      var t := ts[|ts| - 1];
      var s := GetTournamentStatus(t, now);
      var front := StatusWrites(ts[..|ts| - 1], now);
      if Active(t) && t.status != s then front + [StatusWrite(t.id, t.status, s)] else front
  }

  /** The tournaments once the update has written its statuses. */
  function UpdateTournamentStatuses(ts: seq<Tournament>, now: int): (r: seq<Tournament>)
    ensures |r| == |ts|
    ensures forall i :: 0 <= i < |ts| ==> r[i] == ts[i].(status := r[i].status)
    ensures forall i :: 0 <= i < |ts| ==>
      r[i].status == (if Active(ts[i]) then GetTournamentStatus(ts[i], now) else ts[i].status)
  {
    if ts == [] then []
    else
      var t := ts[|ts| - 1];
      UpdateTournamentStatuses(ts[..|ts| - 1], now) +
        [if Active(t) && t.status != GetTournamentStatus(t, now) then t.(status := GetTournamentStatus(t, now)) else t]
  }

  /** A second update at the same instant writes nothing. */
  lemma {:induction false} UpdateSettles(ts: seq<Tournament>, now: int)
    ensures StatusWrites(UpdateTournamentStatuses(ts, now), now) == []
  {
    if ts != [] {
      var u := UpdateTournamentStatuses(ts, now);
      UpdateSettles(ts[..|ts| - 1], now);
      assert u[..|u| - 1] == UpdateTournamentStatuses(ts[..|ts| - 1], now);
      var t := u[|u| - 1];
      assert LateRegEnd(t) == LateRegEnd(ts[|ts| - 1]) && TournamentEnd(t) == TournamentEnd(ts[|ts| - 1]);
    }
  }
}
