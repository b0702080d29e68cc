/**
 * The in-memory data store: five module-level arrays (users, assignments,
 * submissions, schedules, leave requests) and the service functions over them.
 * Readers are `find`/`filter`/`map` expressions and become functions that read
 * the store; `create*` push onto an array and `update*` overwrite one slot, and
 * become methods that modify exactly that array.
 *
 * The fresh id (`uuidv4()`) and the current time (`new Date()`) are parameters.
 */
module MockData {
  import opened Wrappers
  import opened Sequences
  import opened Types

  // ---------------------------------------------------------------------------
  // Enrichment: the stored record with the related record attached by `find`.
  // ---------------------------------------------------------------------------

  function WithTeacher(users: seq<User>, a: Assignment): AssignmentView {
    AssignmentView(a, FindFirst(users, UserId, a.teacherId))
  }

  function WithTeachers(users: seq<User>, xs: seq<Assignment>): (r: seq<AssignmentView>)
    ensures AssignmentsOf(r) == xs
  {
    seq(|xs|, i requires 0 <= i < |xs| => WithTeacher(users, xs[i]))
  }

  function WithStudentAndAssignment(users: seq<User>, assignments: seq<Assignment>, s: Submission): SubmissionView {
    SubmissionView(s, FindFirst(users, UserId, s.studentId), FindFirst(assignments, AssignmentId, s.assignmentId))
  }

  function WithStudentsAndAssignments(users: seq<User>, assignments: seq<Assignment>, xs: seq<Submission>): (r: seq<SubmissionView>)
    ensures SubmissionsOf(r) == xs
  {
    seq(|xs|, i requires 0 <= i < |xs| => WithStudentAndAssignment(users, assignments, xs[i]))
  }

  function ScheduleWithTeacher(users: seq<User>, s: Schedule): ScheduleView {
    ScheduleView(s, FindFirst(users, UserId, s.teacherId))
  }

  function SchedulesWithTeachers(users: seq<User>, xs: seq<Schedule>): (r: seq<ScheduleView>)
    ensures SchedulesOf(r) == xs
  {
    seq(|xs|, i requires 0 <= i < |xs| => ScheduleWithTeacher(users, xs[i]))
  }

  function WithStudent(users: seq<User>, lr: LeaveRequest): LeaveRequestView {
    LeaveRequestView(lr, FindFirst(users, UserId, lr.studentId))
  }

  function WithStudents(users: seq<User>, xs: seq<LeaveRequest>): (r: seq<LeaveRequestView>)
    ensures LeaveRequestsOf(r) == xs
  {
    seq(|xs|, i requires 0 <= i < |xs| => WithStudent(users, xs[i]))
  }

  // The stored records inside a list of enriched records.

  function AssignmentsOf(vs: seq<AssignmentView>): seq<Assignment> {
    seq(|vs|, i requires 0 <= i < |vs| => vs[i].assignment)
  }

  function SubmissionsOf(vs: seq<SubmissionView>): seq<Submission> {
    seq(|vs|, i requires 0 <= i < |vs| => vs[i].submission)
  }

  function SchedulesOf(vs: seq<ScheduleView>): seq<Schedule> {
    seq(|vs|, i requires 0 <= i < |vs| => vs[i].schedule)
  }

  function LeaveRequestsOf(vs: seq<LeaveRequestView>): seq<LeaveRequest> {
    seq(|vs|, i requires 0 <= i < |vs| => vs[i].leaveRequest)
  }

  // ---------------------------------------------------------------------------
  // Seed data the arrays start with.
  // ---------------------------------------------------------------------------

  const SeedUsers: seq<User> := [
    User("t1", "John Smith", "john@example.com", Teacher, 1672531200000, 1672531200000),
    User("t2", "Emma Davis", "emma@example.com", Teacher, 1672617600000, 1672617600000),
    User("s1", "Alice Johnson", "alice@example.com", Student, 1672704000000, 1672704000000),
    User("s2", "Bob Wilson", "bob@example.com", Student, 1672790400000, 1672790400000),
    User("s3", "Charlie Brown", "charlie@example.com", Student, 1672876800000, 1672876800000)
  ]

  const SeedAssignments: seq<Assignment> := [
    Assignment("a1", "Introduction to React",
      "Create a simple React application with components, props, and state.",
      1681516800000, 1680307200000, "t1"),
    Assignment("a2", "Advanced CSS Techniques",
      "Implement responsive design using CSS Grid and Flexbox.",
      1681948800000, 1680652800000, "t2")
  ]

  const SeedSubmissions: seq<Submission> := [
    Submission("sub1", "a1", "s1", "https://github.com/alice/react-project", 1681430400000,
      Some("A"), Some("Excellent work! You've demonstrated a good understanding of React components.")),
    Submission("sub2", "a1", "s2", "https://github.com/bob/react-assignment", 1681516800000,
      Some("B"), Some("Good job! Consider implementing error handling in your components.")),
    Submission("sub3", "a2", "s1", "https://codepen.io/alice/css-project", 1681776000000, None, None)
  ]

  const SeedSchedules: seq<Schedule> := [
    Schedule("sch1", "Web Development Basics", "Introduction to HTML, CSS, and JavaScript",
      1681117200000, 1681124400000, "t1"),
    Schedule("sch2", "React Workshop", "Hands-on session with React hooks and context",
      1681304400000, 1681315200000, "t1"),
    Schedule("sch3", "CSS Masterclass", "Advanced CSS techniques and animations",
      1681466400000, 1681473600000, "t2")
  ]

  const SeedLeaveRequests: seq<LeaveRequest> := [
    LeaveRequest("lr1", "Family event", 1682121600000, 1682208000000, Approved, "s1", 1681516800000),
    LeaveRequest("lr2", "Medical appointment", 1682380800000, 1682380800000, Pending, "s2", 1681776000000)
  ]

  class MockStore {
    var users: seq<User>
    var assignments: seq<Assignment>
    var submissions: seq<Submission>
    var schedules: seq<Schedule>
    var leaveRequests: seq<LeaveRequest>

    /** The arrays as the module initialises them. */
    constructor ()
      ensures users == SeedUsers && assignments == SeedAssignments && submissions == SeedSubmissions
      ensures schedules == SeedSchedules && leaveRequests == SeedLeaveRequests
    {
      users := SeedUsers;
      assignments := SeedAssignments;
      submissions := SeedSubmissions;
      schedules := SeedSchedules;
      leaveRequests := SeedLeaveRequests;
    }

    // ------------------------------------------------------------------ Auth

    /** `login`: the first user with this email; the password plays no part. */
    function Login(email: string, password: string): (r: Option<User>)
      reads this
      ensures r.None? <==> forall u | u in users :: u.email != email
      ensures r.Some? ==> exists i :: IsFirstMatch(users, UserEmail, email, i) && users[i] == r.value
    {
      FindFirst(users, UserEmail, email)
    }

    // ----------------------------------------------------------------- Users

    /** `getUsers`: the stored array itself. */
    function GetUsers(): (r: seq<User>)
      reads this
      ensures r == users
    {
      users
    }

    /** `getUserById`: the first user with this id, or null. */
    function GetUserById(id: string): (r: Option<User>)
      reads this
      ensures r.None? <==> forall u | u in users :: u.id != id
      ensures r.Some? ==> exists i :: IsFirstMatch(users, UserId, id, i) && users[i] == r.value
    {
      FindFirst(users, UserId, id)
    }

    /** `getTeachers`: the users whose role is TEACHER. */
    function GetTeachers(): (r: seq<User>)
      reads this
      ensures forall u | u in r :: u in users && u.role == Teacher
      ensures forall u | u in users && u.role == Teacher :: u in r
    {
      WithKey(users, UserRole, Teacher)
    }

    /** `getStudents`: the users whose role is STUDENT. */
    function GetStudents(): (r: seq<User>)
      reads this
      ensures forall u | u in r :: u in users && u.role == Student
      ensures forall u | u in users && u.role == Student :: u in r
    {
      WithKey(users, UserRole, Student)
    }

    // ----------------------------------------------------------- Assignments

    /** `getAssignments`: every assignment, in stored order, with its teacher attached. */
    function GetAssignments(): (r: seq<AssignmentView>)
      reads this
      ensures |r| == |assignments|
      ensures forall i | 0 <= i < |r| ::
        r[i].assignment == assignments[i] && r[i].teacher == GetUserById(assignments[i].teacherId)
    {
      WithTeachers(users, assignments)
    }

    /** `getAssignmentById`: the first assignment with this id, with its teacher, or null. */
    function GetAssignmentById(id: string): (r: Option<AssignmentView>)
      reads this
      ensures r.None? <==> forall a | a in assignments :: a.id != id
      ensures r.Some? ==> exists i :: IsFirstMatch(assignments, AssignmentId, id, i) && assignments[i] == r.value.assignment
      ensures r.Some? ==> r.value.teacher == GetUserById(r.value.assignment.teacherId)
    {
      match FindFirst(assignments, AssignmentId, id)
      case None => None
      case Some(a) => Some(WithTeacher(users, a))
    }

    /** `getAssignmentsByTeacher`: the assignments this teacher owns, each with the teacher attached. */
    function GetAssignmentsByTeacher(teacherId: string): (r: seq<AssignmentView>)
      reads this
      ensures forall a :: a in AssignmentsOf(r) <==> a in assignments && a.teacherId == teacherId
      ensures forall v | v in r :: v.teacher == GetUserById(teacherId)
    {
      WithTeachers(users, WithKey(assignments, AssignmentTeacher, teacherId))
    }

    /** `createAssignment`: appends the new assignment with a fresh id and the creation time. */
    method CreateAssignment(data: NewAssignment, freshId: string, now: int) returns (r: Assignment)
      modifies this`assignments
      ensures r == Assignment(freshId, data.title, data.description, data.dueDate, now, data.teacherId)
      ensures assignments == old(assignments) + [r]
      ensures AssignmentsOf(GetAssignmentsByTeacher(data.teacherId))
           == old(AssignmentsOf(GetAssignmentsByTeacher(data.teacherId))) + [r]
      ensures (forall a | a in old(assignments) :: a.id != freshId) ==>
                GetAssignmentById(freshId) == Some(WithTeacher(users, r))
    {
      r := Assignment(freshId, data.title, data.description, data.dueDate, now, data.teacherId);
      ghost var before := assignments;
      assignments := assignments + [r];
      WithKeyAppend(before, [r], AssignmentTeacher, data.teacherId);
      if forall a | a in before :: a.id != freshId {
        FindFirstAppendFresh(before, r, AssignmentId);
      }
    }

    // ----------------------------------------------------------- Submissions

    /** `getSubmissions`: every submission, in stored order, with student and assignment attached. */
    function GetSubmissions(): (r: seq<SubmissionView>)
      reads this
      ensures |r| == |submissions|
      ensures forall i | 0 <= i < |r| ::
        && r[i].submission == submissions[i]
        && r[i].student == GetUserById(submissions[i].studentId)
        && r[i].assignment == FindFirst(assignments, AssignmentId, submissions[i].assignmentId)
    {
      WithStudentsAndAssignments(users, assignments, submissions)
    }

    /** `getSubmissionById`: the first submission with this id, enriched, or null. */
    function GetSubmissionById(id: string): (r: Option<SubmissionView>)
      reads this
      ensures r.None? <==> forall s | s in submissions :: s.id != id
      ensures r.Some? ==> exists i :: IsFirstMatch(submissions, SubmissionId, id, i) && submissions[i] == r.value.submission
      ensures r.Some? ==> r.value.student == GetUserById(r.value.submission.studentId)
      ensures r.Some? ==> r.value.assignment == FindFirst(assignments, AssignmentId, r.value.submission.assignmentId)
    {
      match FindFirst(submissions, SubmissionId, id)
      case None => None
      case Some(s) => Some(WithStudentAndAssignment(users, assignments, s))
    }

    /** `getSubmissionsByAssignment`: the submissions for this assignment, enriched. */
    function GetSubmissionsByAssignment(assignmentId: string): (r: seq<SubmissionView>)
      reads this
      ensures forall s :: s in SubmissionsOf(r) <==> s in submissions && s.assignmentId == assignmentId
      ensures forall v | v in r :: v.assignment == FindFirst(assignments, AssignmentId, assignmentId)
      ensures forall v | v in r :: v.student == GetUserById(v.submission.studentId)
    {
      WithStudentsAndAssignments(users, assignments, WithKey(submissions, SubmissionAssignment, assignmentId))
    }

    /** `getSubmissionsByStudent`: the submissions of this student, enriched. */
    function GetSubmissionsByStudent(studentId: string): (r: seq<SubmissionView>)
      reads this
      ensures forall s :: s in SubmissionsOf(r) <==> s in submissions && s.studentId == studentId
      ensures forall v | v in r :: v.student == GetUserById(studentId)
      ensures forall v | v in r :: v.assignment == FindFirst(assignments, AssignmentId, v.submission.assignmentId)
    {
      WithStudentsAndAssignments(users, assignments, WithKey(submissions, SubmissionStudent, studentId))
    }

    /** `createSubmission`: appends the new submission with a fresh id and the submission time. */
    method CreateSubmission(data: NewSubmission, freshId: string, now: int) returns (r: Submission)
      modifies this`submissions
      ensures r == Submission(freshId, data.assignmentId, data.studentId, data.content, now, data.grade, data.feedback)
      ensures submissions == old(submissions) + [r]
      ensures SubmissionsOf(GetSubmissionsByStudent(data.studentId))
           == old(SubmissionsOf(GetSubmissionsByStudent(data.studentId))) + [r]
      ensures SubmissionsOf(GetSubmissionsByAssignment(data.assignmentId))
           == old(SubmissionsOf(GetSubmissionsByAssignment(data.assignmentId))) + [r]
      ensures (forall s | s in old(submissions) :: s.id != freshId) ==>
                GetSubmissionById(freshId) == Some(WithStudentAndAssignment(users, assignments, r))
    {
      r := Submission(freshId, data.assignmentId, data.studentId, data.content, now, data.grade, data.feedback);
      ghost var before := submissions;
      submissions := submissions + [r];
      WithKeyAppend(before, [r], SubmissionStudent, data.studentId);
      assert WithKey([r], SubmissionStudent, data.studentId) == [r];
      WithKeyAppend(before, [r], SubmissionAssignment, data.assignmentId);
      assert WithKey([r], SubmissionAssignment, data.assignmentId) == [r];
      if forall s | s in before :: s.id != freshId {
        FindFirstAppendFresh(before, r, SubmissionId);
      }
    }

    /**
     * `updateSubmission`: merges `data` into the first submission with this id,
     * in place, and returns it enriched; null, with nothing changed, when no
     * submission has this id.
     */
    method UpdateSubmission(id: string, data: SubmissionPatch) returns (r: Option<SubmissionView>)
      modifies this`submissions
      ensures r.None? <==> forall s | s in old(submissions) :: s.id != id
      ensures r.None? ==> submissions == old(submissions)
      ensures |submissions| == |old(submissions)|
      ensures r.Some? ==> exists i :: && IsFirstMatch(old(submissions), SubmissionId, id, i)
                                     && submissions == old(submissions)[i := MergeSubmission(old(submissions)[i], data)]
                                     && r.value == WithStudentAndAssignment(users, assignments, submissions[i])
    {
      var index := FirstIndex(submissions, SubmissionId, id);
      if index == -1 {
        return None;
      }
      submissions := submissions[index := MergeSubmission(submissions[index], data)];
      r := Some(WithStudentAndAssignment(users, assignments, submissions[index]));
    }

    // ------------------------------------------------------------- Schedules

    /** `getSchedules`: every schedule, in stored order, with its teacher attached. */
    function GetSchedules(): (r: seq<ScheduleView>)
      reads this
      ensures |r| == |schedules|
      ensures forall i | 0 <= i < |r| ::
        r[i].schedule == schedules[i] && r[i].teacher == GetUserById(schedules[i].teacherId)
    {
      SchedulesWithTeachers(users, schedules)
    }

    /** `getScheduleById`: the first schedule with this id, with its teacher, or null. */
    function GetScheduleById(id: string): (r: Option<ScheduleView>)
      reads this
      ensures r.None? <==> forall s | s in schedules :: s.id != id
      ensures r.Some? ==> exists i :: IsFirstMatch(schedules, ScheduleId, id, i) && schedules[i] == r.value.schedule
      ensures r.Some? ==> r.value.teacher == GetUserById(r.value.schedule.teacherId)
    {
      match FindFirst(schedules, ScheduleId, id)
      case None => None
      case Some(s) => Some(ScheduleWithTeacher(users, s))
    }

    /** `getSchedulesByTeacher`: the schedules this teacher owns, each with the teacher attached. */
    function GetSchedulesByTeacher(teacherId: string): (r: seq<ScheduleView>)
      reads this
      ensures forall s :: s in SchedulesOf(r) <==> s in schedules && s.teacherId == teacherId
      ensures forall v | v in r :: v.teacher == GetUserById(teacherId)
    {
      SchedulesWithTeachers(users, WithKey(schedules, ScheduleTeacher, teacherId))
    }

    /** `createSchedule`: appends the new schedule with a fresh id. */
    method CreateSchedule(data: NewSchedule, freshId: string) returns (r: Schedule)
      modifies this`schedules
      ensures r == Schedule(freshId, data.title, data.description, data.startTime, data.endTime, data.teacherId)
      ensures schedules == old(schedules) + [r]
      ensures SchedulesOf(GetSchedulesByTeacher(data.teacherId))
           == old(SchedulesOf(GetSchedulesByTeacher(data.teacherId))) + [r]
      ensures (forall s | s in old(schedules) :: s.id != freshId) ==>
                GetScheduleById(freshId) == Some(ScheduleWithTeacher(users, r))
    {
      r := Schedule(freshId, data.title, data.description, data.startTime, data.endTime, data.teacherId);
      ghost var before := schedules;
      schedules := schedules + [r];
      WithKeyAppend(before, [r], ScheduleTeacher, data.teacherId);
      if forall s | s in before :: s.id != freshId {
        FindFirstAppendFresh(before, r, ScheduleId);
      }
    }

    // -------------------------------------------------------- Leave requests

    /** `getLeaveRequests`: every leave request, in stored order, with its student attached. */
    function GetLeaveRequests(): (r: seq<LeaveRequestView>)
      reads this
      ensures |r| == |leaveRequests|
      ensures forall i | 0 <= i < |r| ::
        r[i].leaveRequest == leaveRequests[i] && r[i].student == GetUserById(leaveRequests[i].studentId)
    {
      WithStudents(users, leaveRequests)
    }

    /** `getLeaveRequestById`: the first leave request with this id, with its student, or null. */
    function GetLeaveRequestById(id: string): (r: Option<LeaveRequestView>)
      reads this
      ensures r.None? <==> forall lr | lr in leaveRequests :: lr.id != id
      ensures r.Some? ==> exists i :: IsFirstMatch(leaveRequests, LeaveRequestId, id, i) && leaveRequests[i] == r.value.leaveRequest
      ensures r.Some? ==> r.value.student == GetUserById(r.value.leaveRequest.studentId)
    {
      match FindFirst(leaveRequests, LeaveRequestId, id)
      case None => None
      case Some(lr) => Some(WithStudent(users, lr))
    }

    /** `getLeaveRequestsByStudent`: the leave requests of this student, each with the student attached. */
    function GetLeaveRequestsByStudent(studentId: string): (r: seq<LeaveRequestView>)
      reads this
      ensures forall lr :: lr in LeaveRequestsOf(r) <==> lr in leaveRequests && lr.studentId == studentId
      ensures forall v | v in r :: v.student == GetUserById(studentId)
    {
      WithStudents(users, WithKey(leaveRequests, LeaveRequestStudent, studentId))
    }

    /** `createLeaveRequest`: appends the new request, always PENDING, with a fresh id and the creation time. */
    method CreateLeaveRequest(data: NewLeaveRequest, freshId: string, now: int) returns (r: LeaveRequest)
      modifies this`leaveRequests
      ensures r == LeaveRequest(freshId, data.reason, data.startDate, data.endDate, Pending, data.studentId, now)
      ensures leaveRequests == old(leaveRequests) + [r]
      ensures LeaveRequestsOf(GetLeaveRequestsByStudent(data.studentId))
           == old(LeaveRequestsOf(GetLeaveRequestsByStudent(data.studentId))) + [r]
      ensures (forall lr | lr in old(leaveRequests) :: lr.id != freshId) ==>
                GetLeaveRequestById(freshId) == Some(WithStudent(users, r))
    {
      r := LeaveRequest(freshId, data.reason, data.startDate, data.endDate, Pending, data.studentId, now);
      ghost var before := leaveRequests;
      leaveRequests := leaveRequests + [r];
      WithKeyAppend(before, [r], LeaveRequestStudent, data.studentId);
      if forall lr | lr in before :: lr.id != freshId {
        FindFirstAppendFresh(before, r, LeaveRequestId);
      }
    }

    /**
     * `updateLeaveRequest`: merges `data` into the first leave request with this
     * id, in place, and returns it with its student; null, with nothing changed,
     * when no request has this id. No rule restricts the status it writes.
     */
    method UpdateLeaveRequest(id: string, data: LeaveRequestPatch) returns (r: Option<LeaveRequestView>)
      modifies this`leaveRequests
      ensures r.None? <==> forall lr | lr in old(leaveRequests) :: lr.id != id
      ensures r.None? ==> leaveRequests == old(leaveRequests)
      ensures |leaveRequests| == |old(leaveRequests)|
      ensures r.Some? ==> exists i :: && IsFirstMatch(old(leaveRequests), LeaveRequestId, id, i)
                                     && leaveRequests == old(leaveRequests)[i := MergeLeaveRequest(old(leaveRequests)[i], data)]
                                     && r.value == WithStudent(users, leaveRequests[i])
    {
      var index := FirstIndex(leaveRequests, LeaveRequestId, id);
      if index == -1 {
        return None;
      }
      leaveRequests := leaveRequests[index := MergeLeaveRequest(leaveRequests[index], data)];
      r := Some(WithStudent(users, leaveRequests[index]));
    }
  }

}
