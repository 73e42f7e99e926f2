/** What a judge may do; each action forwards to the fight or the registration. */
module Judges {
  import opened Common
  import opened Registrations
  import opened Fights

  /** Declares the winner of a fight, with exactly the effect of recording the
      fight's result. */
  function DeclareWinner(f: Fight, winner: Id): (r: Step<Fight, ()>)
    ensures r.result.Ok? <==> IsCompetitor(f, winner)
    ensures r.result.Err? ==> r.result.error == InvalidWinner && r.state == f
    ensures r.result.Ok? ==>
      && r.state.winner == Some(winner)
      && r.state.status == Concluded
      && r.state.id == f.id && r.state.round == f.round
      && r.state.competitor1 == f.competitor1 && r.state.competitor2 == f.competitor2
  {
    RecordResult(f, winner)
  }

  /** Records a timed attempt: a new attempt with that time is appended to the
      registration and returned, and the best time becomes the smaller of the
      old best and the new time. */
  function RecordTime(r: Registration, attempt: Id, time: int): (s: Step<Registration, Attempt>)
    ensures s.result == Ok(Attempt(attempt, time))
    ensures s.state.attempts == r.attempts + [Attempt(attempt, time)]
    ensures s.state.status == r.status && s.state.id == r.id && s.state.robot == r.robot
    ensures s.state.competition == r.competition
    ensures BestTime(s.state).Some?
    ensures BestTime(s.state).value <= time
    ensures BestTime(r).Some? ==> BestTime(s.state).value <= BestTime(r).value
  {
    var a := Attempt(attempt, time);
    AddAttemptBestTime(r, a);
    Step(AddAttempt(r, a), Ok(a))
  }
}
