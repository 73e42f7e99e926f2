# Robotics competition manager — Dafny model

This project models the rule-bearing core of a robotics-competition manager
(`esqueleto.py`). Organizers create events and add competitions to them. A
competition is either a combat or a line-following competition. Team leaders
register one team, add members and robots to it, and enrol their robots in
competitions. Organizers approve registrations. Judges record fight winners and
timed attempts.

The model is functional. Each entity is an immutable datatype: `Robot`, `Member`,
`Team`, `Leader`, `Registration`, `Attempt`, `Fight`, `Bracket`, `Competition` and
`Event`. A Python method that changes an object becomes a pure function. When
the method only changes its object (a list append, an approval), the function
returns the object's new state. When the method also returns a value or can
raise, the function returns a `Step(state, result)`. `state` is the object after
the call. `result` is either what the call returned (`Ok`) or the exception it
raised (`Err`). When the source checks before it assigns, the model proves
`Err ==> state == old`.

Object identity (`id(self)`, and `in` on lists of objects) becomes an explicit
`Id` supplied by the caller. Membership is compared by id. A fight refers to its
competitors and its winner by registration id. A registration refers to its
competition by id.

Modules, one per concern: `Common` (ids, `Option`, errors, `Result`, `Step`),
`Entities` (robots, members, teams), `Registrations` (registrations, attempts,
best time), `Fights` (the fight state machine), `Competitions` (events,
competitions, bracket generation), `Leaders`, `Organizers` and `Judges`.

Facts about the code that the model records:
- Bracket fights, byes, winner advancement and the classification are stubs in
  the code and are not modelled. A generated bracket holds only its participant
  list and no fights.
- A concluded fight's winner can be replaced at any time
  (`Fights.ConcludedFightCanBeOverwritten`).
- A combat competition with no approved registration still gets a bracket, with
  no participants (`Competitions.GenerateStructureWithoutApproved`).
- The code never sets a fight to "in progress"; the status exists only as a value.

## Model

| member | source | states |
|---|---|---|
| `Fights.NewFight` | esqueleto.py:259-265 | A new fight is scheduled, has no winner, keeps the given round and competitors, and is consistent. |
| `Fights.RecordResult` | esqueleto.py:267-272 | Succeeds exactly when the winner is one of the two competitors. On success the winner is recorded, the fight is concluded, and the id, round and competitors are unchanged. Otherwise it raises `InvalidWinner` and the fight is unchanged. |
| `Fights.RecordResultPreservesConsistency` | esqueleto.py:267-272 | After any call, a winner is always a competitor, and a fight is concluded exactly when it has a winner. |
| `Fights.RecordResultIdempotent` | esqueleto.py:267-272 | Recording the same winner twice has the same effect as recording it once. |
| `Fights.ConcludedFightCanBeOverwritten` | esqueleto.py:267-272 | A concluded fight accepts the other competitor as its new winner; no result is locked. |
| `Registrations.NewRegistration` | esqueleto.py:230-236 | A new registration is pending, has no attempts, and has no best time. |
| `Registrations.MinTime` | esqueleto.py:244 | A left-to-right minimum scan yields nothing exactly for no attempts. Otherwise it yields one attempt's time, and that time is no greater than any attempt's. |
| `Registrations.BestTime` | esqueleto.py:241-244 | Gives `None` exactly when there are no attempts. Otherwise it gives the time of one of the attempts, and that time is no greater than any attempt's. |
| `Registrations.AddAttempt` | esqueleto.py:238-239 | The attempts grow by exactly the new attempt, at the end. Id, robot, competition and status are kept. |
| `Registrations.AddAttemptBestTime` | esqueleto.py:238-244 | After an append, the best time is the new time if there was none before. Otherwise it is the minimum of the old best and the new time. |
| `Registrations.AddAttempts` | esqueleto.py:238-239 | Appending a sequence of attempts one by one concatenates them in order and keeps the registration's id, robot, competition and status. |
| `Registrations.BestTimeNeverIncreases` | esqueleto.py:238-244 | Once a best time exists, later attempts never raise it. |
| `Registrations.BestTimeIsTheMinimum` | esqueleto.py:241-244 | Any value that is an attempt's time and is no greater than any attempt's time is the best time. |
| `Entities.NewRobot` | esqueleto.py:167-171 | A new robot keeps its id, name and weight, and is available. |
| `Entities.NewMember` | esqueleto.py:160-164 | A new member keeps its id, name and role. |
| `Entities.NewTeam` | esqueleto.py:145-151 | A new team names its leader and has no members and no robots. |
| `Entities.AddMember` | esqueleto.py:153-154 | Appends exactly one member. Robots and the team's identity are kept. |
| `Entities.AddRobot` | esqueleto.py:156-157 | Appends exactly one robot, which the team then holds by identity. Every robot held before is still held, and members are kept. |
| `Competitions.NewCompetition` | esqueleto.py:189-207 | A new competition is open for registrations, has no registrations, and belongs to its event. A combat competition starts with no bracket. |
| `Competitions.Receive` | esqueleto.py:196-197 | Appends exactly one registration. Everything else is kept. |
| `Competitions.NewEvent` | esqueleto.py:174-181 | A new event is planned, has no competitions, and records its organizer and dates. |
| `Competitions.AddCompetition` | esqueleto.py:183-184 | Appends exactly one competition to the event. Everything else is kept. |
| `Competitions.ApprovedRobots` | esqueleto.py:211 | The filter lists at most one robot per registration. The list is empty exactly when no registration is approved. |
| `Competitions.ApprovedRobotsSound` | esqueleto.py:211 | Every listed robot is the robot of some approved registration. |
| `Competitions.ApprovedRobotsComplete` | esqueleto.py:211 | The robot of every approved registration is listed. |
| `Competitions.ApprovedRobotsAppend` | esqueleto.py:211 | The filter distributes over concatenation of registration lists, so registration order is kept. |
| `Competitions.ApprovedRobotsSingle` | esqueleto.py:211 | One registration contributes its robot exactly when it is approved. |
| `Competitions.GenerateStructure` | esqueleto.py:209-219 | A combat competition gets a single-elimination bracket. It has no fights, and its participants are the robots of the approved registrations. A line-following competition is unchanged. Registrations are never changed. |
| `Competitions.GenerateStructureWithoutApproved` | esqueleto.py:209-212 | With no approved registration the bracket is still created, and it has no participants. |
| `Leaders.NewLeader` | esqueleto.py:84-87 | A new leader has no team. |
| `Leaders.RegisterTeam` | esqueleto.py:89-95 | Succeeds exactly when the leader has no team. The new team is empty, names the leader, and becomes the leader's team. Otherwise it raises and the leader, with the original team, is unchanged. |
| `Leaders.AddMember` | esqueleto.py:97-104 | Raises and changes nothing when the leader has no team. Otherwise it appends exactly the new member. Robots and the team's identity are kept. |
| `Leaders.RegisterRobot` | esqueleto.py:106-113 | Raises and changes nothing when the leader has no team. Otherwise it appends exactly the new, available robot. Members and the team's identity are kept. |
| `Leaders.Enrol` | esqueleto.py:115-122 | Succeeds exactly when the robot, by identity, is in the leader's team. Then one new pending registration of that robot, with no attempts, is appended to the competition, whose id, name, event, kind and status are kept. Otherwise it raises and the competition is unchanged. |
| `Leaders.OperationsPreserveWellFormed` | esqueleto.py:89-113 | Registering a team, adding a member and registering a robot each keep the leader's team naming that leader. |
| `Leaders.EnrolKeepsApprovedRobots` | esqueleto.py:115-122 | Enrolling never changes the robots that would enter the competition's bracket. |
| `Leaders.RegisteredRobotCanBeEnrolled` | esqueleto.py:106-122 | A robot the leader has just registered can be enrolled in any competition. |
| `Leaders.SecondTeamIsRefused` | esqueleto.py:89-95 | After a first team is registered, a second registration raises and the first team is kept. |
| `Organizers.LowerChar` | esqueleto.py:67 | Folds exactly the letters A to Z to lower case and leaves every other character unchanged, so it never yields a letter A to Z. |
| `Organizers.Lower` | esqueleto.py:67 | Lower-cases a string character by character and keeps its length. |
| `Organizers.LowerIdempotent` | esqueleto.py:67 | Lower-casing twice is the same as lower-casing once. |
| `Organizers.CreateEvent` | esqueleto.py:60-63 | A new event is planned, has no competitions, and records the organizer who created it. |
| `Organizers.AddCompetition` | esqueleto.py:65-75 | Succeeds exactly when the type, lower-cased, is "combate" or "seguidor". The matching kind is appended to the event as a new, empty competition, and the event's id, name, dates, status and organizer are kept. Any other type raises and leaves the event unchanged. |
| `Organizers.AddCompetitionIgnoresCase` | esqueleto.py:65-75 | A type and its lower-cased form have exactly the same effect. |
| `Organizers.AddCompetitionExamples` | esqueleto.py:65-75 | "Combate" gives a combat competition and "SEGUIDOR" a line-following one. "drone" is refused. |
| `Organizers.Approve` | esqueleto.py:77-81 | Approval makes a registration approved from any status and changes nothing else. |
| `Organizers.ApproveIn` | esqueleto.py:77-81 | In the competition's list, only the registration with that identity is approved. Order and length are kept, and so are the competition's id, name, event, kind and status. |
| `Organizers.ApprovedRobotEntersBracket` | esqueleto.py:211 | After a registration is approved, its robot is among the next bracket's participants. |
| `Organizers.ApprovalKeepsParticipants` | esqueleto.py:211 | Approving a registration never removes a robot from the approved list. |
| `Judges.DeclareWinner` | esqueleto.py:131-135 | Succeeds only for a competitor, recording that winner and concluding the fight while keeping its id, round and competitors. Otherwise it raises `InvalidWinner` and leaves the fight unchanged. |
| `Judges.RecordTime` | esqueleto.py:137-141 | Appends and returns a new attempt with the given time, keeping the registration's id, robot, competition and status. The best time afterwards is at most that time and at most the previous best. |

## Left out

- Bracket fights, byes and seeding, `ChaveDeBatalha.avancar_vencedor` and `CompeticaoSeguidorDeLinha.gerar_classificacao`: these are stubs with no behaviour to model (esqueleto.py:213, 225-226, 254-255).
- `print` output, `Usuario.login`/`logout` and `PainelDeVisualizacao`: console output only.
- `date.today()` and `datetime.now()` timestamps are omitted. Event start and end dates are abstract day numbers.
- `id(self)` is replaced by ids passed in by the caller. The model assumes the caller supplies distinct ids, as object identity does.
- Passwords, user profiles (`TipoPerfil`) and the never-used competition status transitions are stored data with no rules.
- Weights and times are integers, not IEEE floats. Only comparison and minimum are used, so NaN and rounding are not modelled.
- Organizers.LowerChar: folds only the letters A to Z; every other character, including non-ASCII upper-case letters such as 'É', passes through unchanged, whereas Python's `str.lower` folds all Unicode letters.
- Organizers.Lower: folds only A to Z, and always keeps the string's length. Python's `str.lower` can change the length: it turns U+0130 into two code points. The only non-ASCII character that lowers to one ASCII letter is the Kelvin sign, which lowers to 'k'. Neither "combate" nor "seguidor" contains 'k', so the accept/refuse decision is the same.
- Shared references: a competition added to an event is held by value. Later enrolments in that competition are not seen through the event's list. The one shared-reference effect with a rule, approval seen through the competition's list, is modelled by `Organizers.ApproveIn`.
