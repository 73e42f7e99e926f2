/** Teams, their members and their robots. */
module Entities {
  import opened Common

  /** A robot; its weight is an abstract ordered number. */
  datatype Robot = Robot(id: Id, name: string, weight: int, available: bool)

  datatype Member = Member(id: Id, name: string, role: string)

  /** A team, led by the leader whose id it records. */
  datatype Team = Team(id: Id, name: string, leader: Id, members: seq<Member>, robots: seq<Robot>)

  /** A freshly built robot is available. */
  function NewRobot(id: Id, name: string, weight: int): (r: Robot)
    ensures r.id == id && r.name == name && r.weight == weight
    ensures r.available
  {
    Robot(id, name, weight, true)
  }

  function NewMember(id: Id, name: string, role: string): (m: Member)
    ensures m.id == id && m.name == name && m.role == role
  {
    Member(id, name, role)
  }

  /** A freshly built team has no members and no robots. */
  function NewTeam(id: Id, name: string, leader: Id): (t: Team)
    ensures t.id == id && t.name == name && t.leader == leader
    ensures t.members == [] && t.robots == []
  {
    Team(id, name, leader, [], [])
  }

  /** Membership as the system tests it: by identity. */
  predicate HasRobot(t: Team, robot: Id)
  {
    exists i :: 0 <= i < |t.robots| && t.robots[i].id == robot
  }

  /** Appends one member; the robots and the team's identity stay as they were. */
  function AddMember(t: Team, m: Member): (t': Team)
    ensures t'.members == t.members + [m]
    ensures t'.robots == t.robots
    ensures t'.id == t.id && t'.name == t.name && t'.leader == t.leader
  {
    t.(members := t.members + [m])
  }

  /** Appends one robot; the members and the team's identity stay as they were. */
  function AddRobot(t: Team, r: Robot): (t': Team)
    ensures t'.robots == t.robots + [r]
    ensures t'.members == t.members
    ensures t'.id == t.id && t'.name == t.name && t'.leader == t.leader
    ensures HasRobot(t', r.id)
    ensures forall k :: HasRobot(t, k) ==> HasRobot(t', k)
  {
    var t' := t.(robots := t.robots + [r]);
    assert t'.robots[|t.robots|] == r;
    assert forall i :: 0 <= i < |t.robots| ==> t'.robots[i] == t.robots[i];
    t'
  }
}
