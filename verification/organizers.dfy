/** What an organizer may do: create events, add competitions of a named type to
    them, and approve registrations. */
module Organizers {
  import opened Common
  import opened Entities
  import opened Registrations
  import opened Competitions

  /** Lower-cases one character; only the letters A to Z are folded. */
  function LowerChar(ch: char): (r: char)
    ensures 'A' <= ch <= 'Z' ==> r as int == ch as int + 32
    ensures !('A' <= ch <= 'Z') ==> r == ch
    ensures !('A' <= r <= 'Z')
  {
    if 'A' <= ch <= 'Z' then (ch as int + 32) as char else ch
  }

  /** Lower-cases a string character by character. */
  function Lower(s: string): (r: string)
    ensures |r| == |s|
    ensures forall i :: 0 <= i < |s| ==> r[i] == LowerChar(s[i])
  {
    seq(|s|, i requires 0 <= i < |s| => LowerChar(s[i]))
  }

  /** Lower-casing twice is lower-casing once. */
  lemma LowerIdempotent(s: string)
    ensures Lower(Lower(s)) == Lower(s)
  {
  }

  const CombatType: string := "combate"
  const LineFollowerType: string := "seguidor"

  /** A new event, created by this organizer, is planned and empty. */
  function CreateEvent(organizer: Id, id: Id, name: string, start: Day, end: Day): (e: Event)
    ensures e.organizer == organizer && e.id == id && e.name == name
    ensures e.start == start && e.end == end
    ensures e.status == Planned && e.competitions == []
  {
    NewEvent(id, name, start, end, organizer)
  }

  /** Adds a competition of the named type to an event. The type is compared
      ignoring case: "combate" gives a combat competition and "seguidor" a
      line-following one; any other type is refused and the event is unchanged.
      On success the new, empty competition belongs to the event and is appended
      to its competitions. */
  function AddCompetition(e: Event, id: Id, name: string, kind: string): (r: Step<Event, Competition>)
    ensures r.result.Ok? <==> Lower(kind) == CombatType || Lower(kind) == LineFollowerType
    ensures r.result.Err? ==> r.result.error == InvalidCompetitionType && r.state == e
    ensures r.result.Ok? ==>
      && r.state.competitions == e.competitions + [r.result.value]
      && r.state.id == e.id && r.state.status == e.status && r.state.organizer == e.organizer
      && r.state.name == e.name && r.state.start == e.start && r.state.end == e.end
      && r.result.value.id == id && r.result.value.name == name
      && r.result.value.event == e.id
      && r.result.value.registrations == []
      && r.result.value.status == RegistrationsOpen
      && (r.result.value.kind.Combat? <==> Lower(kind) == CombatType)
      && (r.result.value.kind.Combat? ==> r.result.value.kind.bracket == None)
  {
    var lowered := Lower(kind);
    if lowered == CombatType || lowered == LineFollowerType then
      var c := NewCompetition(id, name, e.id, lowered == CombatType);
      Step(Competitions.AddCompetition(e, c), Ok(c))
    else Step(e, Err(InvalidCompetitionType))
  }

  /** The type's case never matters: it is dispatched as its lower-case form is. */
  lemma AddCompetitionIgnoresCase(e: Event, id: Id, name: string, kind: string)
    ensures AddCompetition(e, id, name, kind) == AddCompetition(e, id, name, Lower(kind))
  {
  }

  /** Mixed-case spellings of the two types are accepted; other types are not. */
  lemma AddCompetitionExamples(e: Event, id: Id, name: string)
    ensures AddCompetition(e, id, name, "Combate").result.value.kind == Combat(None)
    ensures AddCompetition(e, id, name, "SEGUIDOR").result.value.kind == LineFollower
    ensures AddCompetition(e, id, name, "drone").result == Err(InvalidCompetitionType)
  {
  }

  /** Approving a registration makes it approved, whatever its status was, and
      changes nothing else. */
  function Approve(r: Registration): (r': Registration)
    ensures r'.status == Approved
    ensures r'.id == r.id && r'.robot == r.robot && r'.competition == r.competition
    ensures r'.attempts == r.attempts
  {
    r.(status := Approved)
  }

  /** Approval as the competition sees it: the registration with that identity,
      which the competition shares, is approved; every other registration and the
      order are kept. */
  function ApproveIn(c: Competition, registration: Id): (c': Competition)
    ensures |c'.registrations| == |c.registrations|
    ensures forall i :: 0 <= i < |c.registrations| ==>
      c'.registrations[i] ==
        if c.registrations[i].id == registration then Approve(c.registrations[i])
        else c.registrations[i]
    ensures c'.id == c.id && c'.kind == c.kind && c'.status == c.status
    ensures c'.name == c.name && c'.event == c.event
  {
    var regs := c.registrations;
    c.(registrations := seq(|regs|, i requires 0 <= i < |regs| =>
      if regs[i].id == registration then Approve(regs[i]) else regs[i]))
  }

  /** Once approved, a registration's robot takes part in the bracket generated
      next. */
  lemma ApprovedRobotEntersBracket(c: Competition, i: nat, bracket: Id)
    requires c.kind.Combat?
    requires i < |c.registrations|
    ensures
      var c' := GenerateStructure(ApproveIn(c, c.registrations[i].id), bracket);
      c.registrations[i].robot in c'.kind.bracket.value.participants
  {
    var approved := ApproveIn(c, c.registrations[i].id);
    assert approved.registrations[i].robot == c.registrations[i].robot;
    ApprovedRobotsComplete(approved.registrations, i);
  }

  /** Approving a registration never removes a robot from the bracket. */
  lemma ApprovalKeepsParticipants(c: Competition, registration: Id, robot: Robot)
    requires robot in ApprovedRobots(c.registrations)
    ensures robot in ApprovedRobots(ApproveIn(c, registration).registrations)
  {
    var regs := c.registrations;
    var k :| 0 <= k < |ApprovedRobots(regs)| && ApprovedRobots(regs)[k] == robot;
    ApprovedRobotsSound(regs, k);
    var j :| 0 <= j < |regs| && regs[j].status == Approved && regs[j].robot == robot;
    assert ApproveIn(c, registration).registrations[j].status == Approved;
    ApprovedRobotsComplete(ApproveIn(c, registration).registrations, j);
  }
}
