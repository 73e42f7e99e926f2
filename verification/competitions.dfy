/** Events, their competitions, the registrations a competition receives, and the
    bracket a combat competition builds from its approved registrations. */
module Competitions {
  import opened Common
  import opened Entities
  import opened Registrations
  import opened Fights

  datatype CompetitionStatus = RegistrationsOpen | Running | Finished

  /** A battle bracket: its format, its fights and the robots taking part. */
  datatype Bracket = Bracket(id: Id, format: string, fights: seq<Fight>, participants: seq<Robot>)

  /** The two kinds of competition. Only combat competitions hold a bracket,
      which is absent until the structure is generated. */
  datatype Kind = Combat(bracket: Option<Bracket>) | LineFollower

  datatype Competition = Competition(
    id: Id,
    name: string,
    event: Id,
    status: CompetitionStatus,
    registrations: seq<Registration>,
    kind: Kind)

  datatype EventStatus = Planned | Ongoing | Done | Cancelled

  /** A calendar day, as an abstract ordered number. */
  type Day = int

  datatype Event = Event(
    id: Id,
    name: string,
    start: Day,
    end: Day,
    status: EventStatus,
    organizer: Id,
    competitions: seq<Competition>)

  /** The only bracket format the system builds. */
  const SingleElimination: string := "Eliminat\U{f3}ria Simples"

  /** A new competition of the given kind: open for registrations and empty;
      a combat competition has no bracket yet. */
  function NewCompetition(id: Id, name: string, event: Id, combat: bool): (c: Competition)
    ensures c.id == id && c.name == name && c.event == event
    ensures c.status == RegistrationsOpen
    ensures c.registrations == []
    ensures c.kind == if combat then Combat(None) else LineFollower
  {
    Competition(id, name, event, RegistrationsOpen, [], if combat then Combat(None) else LineFollower)
  }

  /** Appends one registration; nothing else about the competition changes. */
  function Receive(c: Competition, r: Registration): (c': Competition)
    ensures c'.registrations == c.registrations + [r]
    ensures c'.id == c.id && c'.name == c.name && c'.event == c.event
    ensures c'.status == c.status && c'.kind == c.kind
  {
    c.(registrations := c.registrations + [r])
  }

  /** A new event is planned and holds no competitions. */
  function NewEvent(id: Id, name: string, start: Day, end: Day, organizer: Id): (e: Event)
    ensures e.id == id && e.name == name && e.start == start && e.end == end
    ensures e.organizer == organizer
    ensures e.status == Planned
    ensures e.competitions == []
  {
    Event(id, name, start, end, Planned, organizer, [])
  }

  /** Appends one competition; nothing else about the event changes. */
  function AddCompetition(e: Event, c: Competition): (e': Event)
    ensures e'.competitions == e.competitions + [c]
    ensures e'.id == e.id && e'.name == e.name && e'.status == e.status
    ensures e'.start == e.start && e'.end == e.end && e'.organizer == e.organizer
  {
    e.(competitions := e.competitions + [c])
  }

  /** The robots of the approved registrations, in registration order: at most
      one robot per registration, and none exactly when no registration is
      approved. */
  function ApprovedRobots(regs: seq<Registration>): (robots: seq<Robot>)
    ensures |robots| <= |regs|
    ensures robots == [] <==> forall i :: 0 <= i < |regs| ==> regs[i].status != Approved
    decreases |regs|
  {
    if |regs| == 0 then []
    else
      var rest := ApprovedRobots(regs[1..]);
      assert forall i :: 1 <= i < |regs| ==> regs[i] == regs[1..][i - 1];
      if regs[0].status == Approved then [regs[0].robot] + rest else rest
  }

  /** Every robot listed comes from an approved registration. */
  lemma {:induction false} ApprovedRobotsSound(regs: seq<Registration>, k: nat)
    requires k < |ApprovedRobots(regs)|
    ensures exists i :: 0 <= i < |regs| && regs[i].status == Approved
                        && regs[i].robot == ApprovedRobots(regs)[k]
    decreases |regs|
  {
    var rest := ApprovedRobots(regs[1..]);
    if regs[0].status == Approved && k == 0 {
      assert regs[0].robot == ApprovedRobots(regs)[k];
    } else {
      var k' := if regs[0].status == Approved then k - 1 else k;
      assert ApprovedRobots(regs)[k] == rest[k'];
      ApprovedRobotsSound(regs[1..], k');
      var i :| 0 <= i < |regs[1..]| && regs[1..][i].status == Approved && regs[1..][i].robot == rest[k'];
      assert regs[i + 1] == regs[1..][i];
    }
  }

  /** Every approved registration's robot is listed. */
  lemma {:induction false} ApprovedRobotsComplete(regs: seq<Registration>, i: nat)
    requires i < |regs| && regs[i].status == Approved
    ensures regs[i].robot in ApprovedRobots(regs)
    decreases |regs|
  {
    if i > 0 {
      assert regs[1..][i - 1] == regs[i];
      ApprovedRobotsComplete(regs[1..], i - 1);
    }
  }

  /** Filtering distributes over concatenation, so the filter keeps the
      registrations' order. */
  lemma {:induction false} ApprovedRobotsAppend(a: seq<Registration>, b: seq<Registration>)
    ensures ApprovedRobots(a + b) == ApprovedRobots(a) + ApprovedRobots(b)
    decreases |a|
  {
    if |a| > 0 {
      assert (a + b)[1..] == a[1..] + b;
      ApprovedRobotsAppend(a[1..], b);
    } else {
      assert a + b == b;
    }
  }

  /** A single registration contributes its robot exactly when it is approved. */
  lemma ApprovedRobotsSingle(r: Registration)
    ensures ApprovedRobots([r]) == if r.status == Approved then [r.robot] else []
  {
  }

  /** Generates the competition's structure. A combat competition gets a fresh
      single-elimination bracket, with no fights yet, whose participants are the
      robots of its approved registrations (possibly none); a line-following
      competition is left as it is. The registrations never change. */
  function GenerateStructure(c: Competition, bracket: Id): (c': Competition)
    ensures c'.registrations == c.registrations
    ensures c'.id == c.id && c'.name == c.name && c'.event == c.event && c'.status == c.status
    ensures c'.kind.Combat? <==> c.kind.Combat?
    ensures c.kind.Combat? ==>
      && c'.kind.bracket.Some?
      && c'.kind.bracket.value.id == bracket
      && c'.kind.bracket.value.format == SingleElimination
      && c'.kind.bracket.value.fights == []
      && c'.kind.bracket.value.participants == ApprovedRobots(c.registrations)
    ensures c.kind.LineFollower? ==> c' == c
  {
    match c.kind
    case Combat(_) =>
      c.(kind := Combat(Some(Bracket(bracket, SingleElimination, [], ApprovedRobots(c.registrations)))))
    case LineFollower => c
  }

  /** With no approved registration the bracket is still built, and it is empty. */
  lemma GenerateStructureWithoutApproved(c: Competition, bracket: Id)
    requires c.kind.Combat?
    requires forall i :: 0 <= i < |c.registrations| ==> c.registrations[i].status != Approved
    ensures GenerateStructure(c, bracket).kind.bracket.Some?
    ensures GenerateStructure(c, bracket).kind.bracket.value.participants == []
  {
  }
}
