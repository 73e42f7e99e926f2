/** What a team leader may do: register one team, grow it, and enrol its robots. */
module Leaders {
  import opened Common
  import opened Entities
  import opened Registrations
  import opened Competitions

  /** A team leader, who has at most one team. */
  datatype Leader = Leader(id: Id, name: string, email: string, team: Option<Team>)

  /** A new leader has no team. */
  function NewLeader(id: Id, name: string, email: string): (l: Leader)
    ensures l.id == id && l.name == name && l.email == email
    ensures l.team == None
    ensures WellFormed(l)
  {
    Leader(id, name, email, None)
  }

  /** A leader's team, if any, names that leader. */
  predicate WellFormed(l: Leader)
  {
    l.team.Some? ==> l.team.value.leader == l.id
  }

  /** Registers the leader's team. A leader who already has a team is refused and
      keeps it; otherwise the leader now has a new, empty team that names them. */
  function RegisterTeam(l: Leader, team: Id, name: string): (r: Step<Leader, Team>)
    ensures r.result.Ok? <==> l.team.None?
    ensures r.result.Err? ==> r.result.error == TeamAlreadyRegistered && r.state == l
    ensures r.result.Ok? ==>
      && r.state.team == Some(r.result.value)
      && r.result.value.id == team && r.result.value.name == name
      && r.result.value.leader == l.id
      && r.result.value.members == [] && r.result.value.robots == []
    ensures r.state.id == l.id && r.state.name == l.name && r.state.email == l.email
  {
    if l.team.None? then
      var t := NewTeam(team, name, l.id);
      Step(l.(team := Some(t)), Ok(t))
    else Step(l, Err(TeamAlreadyRegistered))
  }

  /** Adds a member to the leader's team. Without a team the call is refused and
      nothing changes; otherwise exactly that member is appended and the team's
      robots and identity are kept. */
  function AddMember(l: Leader, member: Id, name: string, role: string): (r: Step<Leader, Member>)
    ensures r.result.Ok? <==> l.team.Some?
    ensures r.result.Err? ==> r.result.error == TeamRequired && r.state == l
    ensures r.result.Ok? ==>
      && r.result.value == Member(member, name, role)
      && r.state.team.Some?
      && r.state.team.value.members == l.team.value.members + [r.result.value]
      && r.state.team.value.robots == l.team.value.robots
      && r.state.team.value.id == l.team.value.id
      && r.state.team.value.name == l.team.value.name
      && r.state.team.value.leader == l.team.value.leader
    ensures r.state.id == l.id && r.state.name == l.name && r.state.email == l.email
  {
    match l.team
    case None => Step(l, Err(TeamRequired))
    case Some(t) =>
      var m := NewMember(member, name, role);
      Step(l.(team := Some(Entities.AddMember(t, m))), Ok(m))
  }

  /** Registers a robot for the leader's team. Without a team the call is refused
      and nothing changes; otherwise exactly that (available) robot is appended,
      and the team's members and identity are kept. */
  function RegisterRobot(l: Leader, robot: Id, name: string, weight: int): (r: Step<Leader, Robot>)
    ensures r.result.Ok? <==> l.team.Some?
    ensures r.result.Err? ==> r.result.error == TeamRequired && r.state == l
    ensures r.result.Ok? ==>
      && r.result.value == Robot(robot, name, weight, true)
      && r.state.team.Some?
      && r.state.team.value.robots == l.team.value.robots + [r.result.value]
      && r.state.team.value.members == l.team.value.members
      && r.state.team.value.id == l.team.value.id
      && r.state.team.value.name == l.team.value.name
      && r.state.team.value.leader == l.team.value.leader
      && HasRobot(r.state.team.value, robot)
    ensures r.state.id == l.id && r.state.name == l.name && r.state.email == l.email
  {
    match l.team
    case None => Step(l, Err(TeamRequired))
    case Some(t) =>
      var rb := NewRobot(robot, name, weight);
      Step(l.(team := Some(AddRobot(t, rb))), Ok(rb))
  }

  /** Enrols a robot in a competition. Unless the robot (by identity) belongs to
      the leader's team the call is refused and the competition is unchanged;
      otherwise one new pending registration of that robot, with no attempts, is
      appended to the competition's registrations. */
  function Enrol(l: Leader, robot: Robot, c: Competition, registration: Id): (r: Step<Competition, Registration>)
    ensures r.result.Ok? <==> l.team.Some? && HasRobot(l.team.value, robot.id)
    ensures r.result.Err? ==> r.result.error == RobotNotInTeam && r.state == c
    ensures r.result.Ok? ==>
      && r.state.registrations == c.registrations + [r.result.value]
      && r.result.value.id == registration
      && r.result.value.robot == robot
      && r.result.value.competition == c.id
      && r.result.value.status == Pending
      && r.result.value.attempts == []
    ensures r.state.id == c.id && r.state.kind == c.kind && r.state.status == c.status
    ensures r.state.name == c.name && r.state.event == c.event
  {
    if l.team.Some? && HasRobot(l.team.value, robot.id) then
      var reg := NewRegistration(registration, robot, c.id);
      Step(Receive(c, reg), Ok(reg))
    else Step(c, Err(RobotNotInTeam))
  }

  /** Every leader operation keeps the leader well formed. */
  lemma OperationsPreserveWellFormed(l: Leader, id: Id, name: string, role: string, weight: int)
    requires WellFormed(l)
    ensures WellFormed(RegisterTeam(l, id, name).state)
    ensures WellFormed(AddMember(l, id, name, role).state)
    ensures WellFormed(RegisterRobot(l, id, name, weight).state)
  {
  }

  /** A new registration is pending, so enrolling never changes which robots
      would enter the competition's bracket. */
  lemma EnrolKeepsApprovedRobots(l: Leader, robot: Robot, c: Competition, registration: Id)
    ensures ApprovedRobots(Enrol(l, robot, c, registration).state.registrations)
         == ApprovedRobots(c.registrations)
  {
    var r := Enrol(l, robot, c, registration);
    if r.result.Ok? {
      ApprovedRobotsAppend(c.registrations, [r.result.value]);
      ApprovedRobotsSingle(r.result.value);
    }
  }

  /** A robot the leader has just registered can be enrolled in any competition. */
  lemma RegisteredRobotCanBeEnrolled(
    l: Leader, robot: Id, name: string, weight: int, c: Competition, registration: Id)
    requires l.team.Some?
    ensures
      var s := RegisterRobot(l, robot, name, weight);
      Enrol(s.state, s.result.value, c, registration).result.Ok?
  {
  }

  /** A leader with a team cannot register a second one, and keeps the first. */
  lemma SecondTeamIsRefused(l: Leader, t1: Id, n1: string, t2: Id, n2: string)
    requires l.team.None?
    ensures
      var first := RegisterTeam(l, t1, n1);
      var second := RegisterTeam(first.state, t2, n2);
      && second.result == Err(TeamAlreadyRegistered)
      && second.state.team == Some(first.result.value)
  {
  }
}
