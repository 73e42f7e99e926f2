/** A single fight between two registrations, and how its result is recorded. */
module Fights {
  import opened Common

  datatype FightStatus = Scheduled | InProgress | Concluded

  /** The competitors and the winner are registrations, referred to by id. */
  datatype Fight = Fight(
    id: Id,
    round: int,
    status: FightStatus,
    competitor1: Id,
    competitor2: Id,
    winner: Option<Id>)

  predicate IsCompetitor(f: Fight, r: Id)
  {
    r == f.competitor1 || r == f.competitor2
  }

  /** The state every fight built and updated by this module is in: a winner, once
      there is one, is one of the two competitors, and the fight is concluded
      exactly when it has a winner. */
  predicate Consistent(f: Fight)
  {
    && (f.winner.Some? ==> IsCompetitor(f, f.winner.value))
    && (f.status == Concluded <==> f.winner.Some?)
  }

  /** A new fight is scheduled and has no winner. */
  function NewFight(id: Id, round: int, competitor1: Id, competitor2: Id): (f: Fight)
    ensures f.id == id && f.round == round
    ensures f.competitor1 == competitor1 && f.competitor2 == competitor2
    ensures f.status == Scheduled
    ensures f.winner == None
    ensures Consistent(f)
  {
    Fight(id, round, Scheduled, competitor1, competitor2, None)
  }

  /** Records the winner of a fight. A winner that is neither competitor is
      refused before anything changes; otherwise the fight is concluded with that
      winner, and its round and competitors are left as they were. */
  function RecordResult(f: Fight, winner: Id): (r: Step<Fight, ()>)
    ensures r.result.Ok? <==> IsCompetitor(f, winner)
    ensures r.result.Err? ==> r.result.error == InvalidWinner && r.state == f
    ensures r.result.Ok? ==>
      && r.state.winner == Some(winner)
      && r.state.status == Concluded
      && r.state.id == f.id && r.state.round == f.round
      && r.state.competitor1 == f.competitor1 && r.state.competitor2 == f.competitor2
  {
    if !IsCompetitor(f, winner) then Step(f, Err(InvalidWinner))
    else Step(f.(winner := Some(winner), status := Concluded), Ok(()))
  }

  /** Recording a result, successful or not, keeps a fight consistent. */
  lemma RecordResultPreservesConsistency(f: Fight, winner: Id)
    requires Consistent(f)
    ensures Consistent(RecordResult(f, winner).state)
  {
  }

  /** Recording the same winner twice is the same as recording it once. */
  lemma RecordResultIdempotent(f: Fight, winner: Id)
    ensures RecordResult(RecordResult(f, winner).state, winner) == RecordResult(f, winner)
  {
  }

  /** A concluded fight is not locked: its winner can be replaced by the other
      competitor. */
  lemma ConcludedFightCanBeOverwritten(f: Fight)
    requires Consistent(f) && f.status == Concluded
    requires f.competitor1 != f.competitor2
    ensures
      var other := if f.winner == Some(f.competitor1) then f.competitor2 else f.competitor1;
      && RecordResult(f, other).result.Ok?
      && RecordResult(f, other).state.winner == Some(other)
      && RecordResult(f, other).state.winner != f.winner
  {
  }
}
