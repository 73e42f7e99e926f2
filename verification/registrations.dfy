/** A robot's registration in a competition, and its timed attempts. */
module Registrations {
  import opened Common
  import opened Entities

  datatype RegistrationStatus = Pending | Approved | Rejected

  /** One timed attempt; the duration is an abstract ordered number. */
  datatype Attempt = Attempt(id: Id, time: int)

  /** A registration refers to its competition by id. */
  datatype Registration = Registration(
    id: Id,
    robot: Robot,
    competition: Id,
    status: RegistrationStatus,
    attempts: seq<Attempt>)

  /** A new registration is pending and has no attempts, hence no best time. */
  function NewRegistration(id: Id, robot: Robot, competition: Id): (r: Registration)
    ensures r.id == id && r.robot == robot && r.competition == competition
    ensures r.status == Pending
    ensures r.attempts == []
    ensures BestTime(r) == None
  {
    Registration(id, robot, competition, Pending, [])
  }

  /** `v` is the time of one of the attempts and no attempt is faster. */
  ghost predicate IsMinimum(v: int, attempts: seq<Attempt>)
  {
    && (exists i :: 0 <= i < |attempts| && attempts[i].time == v)
    && (forall i :: 0 <= i < |attempts| ==> v <= attempts[i].time)
  }

  function Min(a: int, b: int): int
  {
    if b < a then b else a
  }

  /** The minimum over the attempts, scanned from first to last and keeping the
      running minimum unless a strictly faster attempt appears. */
  function MinTime(attempts: seq<Attempt>): (r: Option<int>)
    ensures r.None? <==> |attempts| == 0
    ensures r.Some? ==> IsMinimum(r.value, attempts)
    decreases |attempts|
  {
    if |attempts| == 0 then None
    else
      var prefix := attempts[..|attempts| - 1];
      var last := attempts[|attempts| - 1];
      match MinTime(prefix)
      case None => Some(last.time)
      case Some(m) =>
        assert forall i :: 0 <= i < |prefix| ==> prefix[i] == attempts[i];
        Some(Min(m, last.time))
  }

  /** The best (lowest) time of a registration, or None when it has no attempts. */
  function BestTime(r: Registration): (best: Option<int>)
    ensures best.None? <==> r.attempts == []
    ensures best.Some? ==> IsMinimum(best.value, r.attempts)
  {
    MinTime(r.attempts)
  }

  /** Attempts are only ever appended; nothing else about the registration changes. */
  function AddAttempt(r: Registration, a: Attempt): (r': Registration)
    ensures r'.attempts == r.attempts + [a]
    ensures r'.id == r.id && r'.robot == r.robot && r'.competition == r.competition
    ensures r'.status == r.status
  {
    r.(attempts := r.attempts + [a])
  }

  /** The best time after an attempt is the smaller of the best time before it
      and the new attempt's time. */
  lemma AddAttemptBestTime(r: Registration, a: Attempt)
    ensures BestTime(AddAttempt(r, a)) ==
      match BestTime(r)
      case None => Some(a.time)
      case Some(m) => Some(Min(m, a.time))
  {
  }

  /** Appends the attempts one after another, in order. */
  function AddAttempts(r: Registration, attempts: seq<Attempt>): (r': Registration)
    ensures r'.attempts == r.attempts + attempts
    ensures r'.status == r.status && r'.id == r.id && r'.robot == r.robot
    ensures r'.competition == r.competition
    decreases |attempts|
  {
    if |attempts| == 0 then r
    else AddAttempts(AddAttempt(r, attempts[0]), attempts[1..])
  }

  /** Recording more attempts never makes the best time worse. */
  lemma {:induction false} BestTimeNeverIncreases(r: Registration, attempts: seq<Attempt>)
    requires BestTime(r).Some?
    ensures BestTime(AddAttempts(r, attempts)).Some?
    ensures BestTime(AddAttempts(r, attempts)).value <= BestTime(r).value
    decreases |attempts|
  {
    if |attempts| > 0 {
      var r1 := AddAttempt(r, attempts[0]);
      AddAttemptBestTime(r, attempts[0]);
      BestTimeNeverIncreases(r1, attempts[1..]);
    }
  }

  /** The best time is the one value that is an attempt's time and no greater
      than any other, so any such value is the one returned. */
  lemma BestTimeIsTheMinimum(r: Registration, v: int)
    requires IsMinimum(v, r.attempts)
    ensures BestTime(r) == Some(v)
  {
  }
}
