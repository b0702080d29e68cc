/**
 * Properties of the store's readers and of the `{ ...old, ...patch }` merge
 * the updates perform.
 */
module MockDataProperties {
  import opened Wrappers
  import opened Sequences
  import opened Types
  import opened MockData

  /** `login` looks at the email only: the password never changes the answer. */
  lemma LoginIgnoresPassword(store: MockStore, email: string, p1: string, p2: string)
    ensures store.Login(email, p1) == store.Login(email, p2)
  {
  }

  /** A user found by id carries that id and is a stored user (what the session relies on). */
  lemma GetUserByIdFindsThatId(store: MockStore, id: string)
    ensures store.GetUserById(id).Some? ==>
      store.GetUserById(id).value.id == id && store.GetUserById(id).value in store.users
  {
  }

  /**
   * Every user is a teacher or a student, so `getTeachers` and `getStudents`
   * together are exactly as long as `getUsers`.
   */
  lemma {:induction false} TeachersAndStudentsPartitionUsers(store: MockStore)
    ensures |store.GetTeachers()| + |store.GetStudents()| == |store.GetUsers()|
  {
    var us := store.users;
    assert forall j | 0 <= j < |us| :: UserRole(us[j]) == Teacher || UserRole(us[j]) == Student by {
      forall j | 0 <= j < |us| ensures UserRole(us[j]) == Teacher || UserRole(us[j]) == Student {
        match us[j].role
        case Teacher =>
        case Student =>
      }
    }
    WithKeyPartition(us, UserRole, Teacher, Student);
  }

  /** `getTeachers`/`getStudents` keep each user of that role as often as it is stored, and no other. */
  lemma {:induction false} UsersByRoleExact(store: MockStore, u: User)
    ensures multiset(store.GetTeachers())[u] == if u.role == Teacher then multiset(store.users)[u] else 0
    ensures multiset(store.GetStudents())[u] == if u.role == Student then multiset(store.users)[u] else 0
  {
    WithKeyMultiplicity(store.users, UserRole, Teacher, u);
    WithKeyMultiplicity(store.users, UserRole, Student, u);
  }

  /** `getTeachers`/`getStudents` list their users in stored order. */
  lemma {:induction false} UsersByRoleInStoredOrder(store: MockStore, role: Role, i: int, j: int)
    requires 0 <= i < j < |store.users| && store.users[i].role == role && store.users[j].role == role
    ensures role == Teacher ==> exists p, q :: && 0 <= p < q < |store.GetTeachers()|
                                               && store.GetTeachers()[p] == store.users[i]
                                               && store.GetTeachers()[q] == store.users[j]
    ensures role == Student ==> exists p, q :: && 0 <= p < q < |store.GetStudents()|
                                               && store.GetStudents()[p] == store.users[i]
                                               && store.GetStudents()[q] == store.users[j]
  {
    var r := WithKey(store.users, UserRole, role);
    WithKeyKeepsOrder(store.users, UserRole, role, i, j);
    var p, q :| 0 <= p < q < |r| && r[p] == store.users[i] && r[q] == store.users[j];
    if role == Teacher {
      assert store.GetTeachers() == r;
    } else {
      assert store.GetStudents() == r;
    }
  }

  /** `getAssignmentsByTeacher` returns each stored assignment of that teacher as often as it is stored, and no other. */
  lemma {:induction false} AssignmentsByTeacherExact(store: MockStore, teacherId: string, a: Assignment)
    ensures multiset(AssignmentsOf(store.GetAssignmentsByTeacher(teacherId)))[a]
         == if a.teacherId == teacherId then multiset(store.assignments)[a] else 0
  {
    WithKeyMultiplicity(store.assignments, AssignmentTeacher, teacherId, a);
  }

  /** `getAssignmentsByTeacher` lists that teacher's assignments in stored order. */
  lemma {:induction false} AssignmentsByTeacherInStoredOrder(store: MockStore, teacherId: string, i: int, j: int)
    requires 0 <= i < j < |store.assignments|
    requires store.assignments[i].teacherId == teacherId && store.assignments[j].teacherId == teacherId
    ensures var r := AssignmentsOf(store.GetAssignmentsByTeacher(teacherId));
      exists p, q :: 0 <= p < q < |r| && r[p] == store.assignments[i] && r[q] == store.assignments[j]
  {
    WithKeyKeepsOrder(store.assignments, AssignmentTeacher, teacherId, i, j);
  }
  /** `getSubmissionsByAssignment` returns each stored record among the submissions for that assignment as often as it is stored, and no other. */
  lemma {:induction false} SubmissionsByAssignmentExact(store: MockStore, assignmentId: string, s: Submission)
    ensures multiset(SubmissionsOf(store.GetSubmissionsByAssignment(assignmentId)))[s]
         == if s.assignmentId == assignmentId then multiset(store.submissions)[s] else 0
  {
    WithKeyMultiplicity(store.submissions, SubmissionAssignment, assignmentId, s);
  }

  /** `getSubmissionsByAssignment` lists the submissions for that assignment in stored order. */
  lemma {:induction false} SubmissionsByAssignmentInStoredOrder(store: MockStore, assignmentId: string, i: int, j: int)
    requires 0 <= i < j < |store.submissions|
    requires store.submissions[i].assignmentId == assignmentId && store.submissions[j].assignmentId == assignmentId
    ensures var r := SubmissionsOf(store.GetSubmissionsByAssignment(assignmentId));
      exists p, q :: 0 <= p < q < |r| && r[p] == store.submissions[i] && r[q] == store.submissions[j]
  {
    WithKeyKeepsOrder(store.submissions, SubmissionAssignment, assignmentId, i, j);
  }

  /** `getSubmissionsByStudent` returns each stored record among the submissions of that student as often as it is stored, and no other. */
  lemma {:induction false} SubmissionsByStudentExact(store: MockStore, studentId: string, s: Submission)
    ensures multiset(SubmissionsOf(store.GetSubmissionsByStudent(studentId)))[s]
         == if s.studentId == studentId then multiset(store.submissions)[s] else 0
  {
    WithKeyMultiplicity(store.submissions, SubmissionStudent, studentId, s);
  }

  /** `getSubmissionsByStudent` lists the submissions of that student in stored order. */
  lemma {:induction false} SubmissionsByStudentInStoredOrder(store: MockStore, studentId: string, i: int, j: int)
    requires 0 <= i < j < |store.submissions|
    requires store.submissions[i].studentId == studentId && store.submissions[j].studentId == studentId
    ensures var r := SubmissionsOf(store.GetSubmissionsByStudent(studentId));
      exists p, q :: 0 <= p < q < |r| && r[p] == store.submissions[i] && r[q] == store.submissions[j]
  {
    WithKeyKeepsOrder(store.submissions, SubmissionStudent, studentId, i, j);
  }

  /** `getSchedulesByTeacher` returns each stored record among the schedules of that teacher as often as it is stored, and no other. */
  lemma {:induction false} SchedulesByTeacherExact(store: MockStore, teacherId: string, s: Schedule)
    ensures multiset(SchedulesOf(store.GetSchedulesByTeacher(teacherId)))[s]
         == if s.teacherId == teacherId then multiset(store.schedules)[s] else 0
  {
    WithKeyMultiplicity(store.schedules, ScheduleTeacher, teacherId, s);
  }

  /** `getSchedulesByTeacher` lists the schedules of that teacher in stored order. */
  lemma {:induction false} SchedulesByTeacherInStoredOrder(store: MockStore, teacherId: string, i: int, j: int)
    requires 0 <= i < j < |store.schedules|
    requires store.schedules[i].teacherId == teacherId && store.schedules[j].teacherId == teacherId
    ensures var r := SchedulesOf(store.GetSchedulesByTeacher(teacherId));
      exists p, q :: 0 <= p < q < |r| && r[p] == store.schedules[i] && r[q] == store.schedules[j]
  {
    WithKeyKeepsOrder(store.schedules, ScheduleTeacher, teacherId, i, j);
  }

  /** `getLeaveRequestsByStudent` returns each stored record among the leave requests of that student as often as it is stored, and no other. */
  lemma {:induction false} LeaveRequestsByStudentExact(store: MockStore, studentId: string, lr: LeaveRequest)
    ensures multiset(LeaveRequestsOf(store.GetLeaveRequestsByStudent(studentId)))[lr]
         == if lr.studentId == studentId then multiset(store.leaveRequests)[lr] else 0
  {
    WithKeyMultiplicity(store.leaveRequests, LeaveRequestStudent, studentId, lr);
  }

  /** `getLeaveRequestsByStudent` lists the leave requests of that student in stored order. */
  lemma {:induction false} LeaveRequestsByStudentInStoredOrder(store: MockStore, studentId: string, i: int, j: int)
    requires 0 <= i < j < |store.leaveRequests|
    requires store.leaveRequests[i].studentId == studentId && store.leaveRequests[j].studentId == studentId
    ensures var r := LeaveRequestsOf(store.GetLeaveRequestsByStudent(studentId));
      exists p, q :: 0 <= p < q < |r| && r[p] == store.leaveRequests[i] && r[q] == store.leaveRequests[j]
  {
    WithKeyKeepsOrder(store.leaveRequests, LeaveRequestStudent, studentId, i, j);
  }

  /**
   * `getTeachers`/`getStudents` hold exactly one entry per stored user of the
   * role, and the user stored at position i sits at the position given by the
   * number of users of that role stored before it.
   */
  lemma {:induction false} UsersByRolePosition(store: MockStore, role: Role, i: int)
    requires 0 <= i < |store.users| && store.users[i].role == role
    ensures role == Teacher ==> && |store.GetTeachers()| == |WithKey(store.users, UserRole, Teacher)|
                                && |WithKey(store.users[..i], UserRole, role)| < |store.GetTeachers()|
                                && store.GetTeachers()[|WithKey(store.users[..i], UserRole, role)|] == store.users[i]
    ensures role == Student ==> && |store.GetStudents()| == |WithKey(store.users, UserRole, Student)|
                                && |WithKey(store.users[..i], UserRole, role)| < |store.GetStudents()|
                                && store.GetStudents()[|WithKey(store.users[..i], UserRole, role)|] == store.users[i]
  {
    WithKeyAt(store.users, UserRole, role, i);
  }

  /**
   * `getAssignmentsByTeacher` holds one entry per matching stored record, and the record stored
   * at position i sits at the position given by the number of matching
   * records stored before it.
   */
  lemma {:induction false} AssignmentsByTeacherPosition(store: MockStore, teacherId: string, i: int)
    requires 0 <= i < |store.assignments| && store.assignments[i].teacherId == teacherId
    ensures var r := AssignmentsOf(store.GetAssignmentsByTeacher(teacherId));
      && |r| == |WithKey(store.assignments, AssignmentTeacher, teacherId)|
      && |WithKey(store.assignments[..i], AssignmentTeacher, teacherId)| < |r|
      && r[|WithKey(store.assignments[..i], AssignmentTeacher, teacherId)|] == store.assignments[i]
  {
    WithKeyAt(store.assignments, AssignmentTeacher, teacherId, i);
  }

  /**
   * `getSubmissionsByAssignment` holds one entry per matching stored record, and the record stored
   * at position i sits at the position given by the number of matching
   * records stored before it.
   */
  lemma {:induction false} SubmissionsByAssignmentPosition(store: MockStore, assignmentId: string, i: int)
    requires 0 <= i < |store.submissions| && store.submissions[i].assignmentId == assignmentId
    ensures var r := SubmissionsOf(store.GetSubmissionsByAssignment(assignmentId));
      && |r| == |WithKey(store.submissions, SubmissionAssignment, assignmentId)|
      && |WithKey(store.submissions[..i], SubmissionAssignment, assignmentId)| < |r|
      && r[|WithKey(store.submissions[..i], SubmissionAssignment, assignmentId)|] == store.submissions[i]
  {
    WithKeyAt(store.submissions, SubmissionAssignment, assignmentId, i);
  }

  /**
   * `getSubmissionsByStudent` holds one entry per matching stored record, and the record stored
   * at position i sits at the position given by the number of matching
   * records stored before it.
   */
  lemma {:induction false} SubmissionsByStudentPosition(store: MockStore, studentId: string, i: int)
    requires 0 <= i < |store.submissions| && store.submissions[i].studentId == studentId
    ensures var r := SubmissionsOf(store.GetSubmissionsByStudent(studentId));
      && |r| == |WithKey(store.submissions, SubmissionStudent, studentId)|
      && |WithKey(store.submissions[..i], SubmissionStudent, studentId)| < |r|
      && r[|WithKey(store.submissions[..i], SubmissionStudent, studentId)|] == store.submissions[i]
  {
    WithKeyAt(store.submissions, SubmissionStudent, studentId, i);
  }

  /**
   * `getSchedulesByTeacher` holds one entry per matching stored record, and the record stored
   * at position i sits at the position given by the number of matching
   * records stored before it.
   */
  lemma {:induction false} SchedulesByTeacherPosition(store: MockStore, teacherId: string, i: int)
    requires 0 <= i < |store.schedules| && store.schedules[i].teacherId == teacherId
    ensures var r := SchedulesOf(store.GetSchedulesByTeacher(teacherId));
      && |r| == |WithKey(store.schedules, ScheduleTeacher, teacherId)|
      && |WithKey(store.schedules[..i], ScheduleTeacher, teacherId)| < |r|
      && r[|WithKey(store.schedules[..i], ScheduleTeacher, teacherId)|] == store.schedules[i]
  {
    WithKeyAt(store.schedules, ScheduleTeacher, teacherId, i);
  }

  /**
   * `getLeaveRequestsByStudent` holds one entry per matching stored record, and the record stored
   * at position i sits at the position given by the number of matching
   * records stored before it.
   */
  lemma {:induction false} LeaveRequestsByStudentPosition(store: MockStore, studentId: string, i: int)
    requires 0 <= i < |store.leaveRequests| && store.leaveRequests[i].studentId == studentId
    ensures var r := LeaveRequestsOf(store.GetLeaveRequestsByStudent(studentId));
      && |r| == |WithKey(store.leaveRequests, LeaveRequestStudent, studentId)|
      && |WithKey(store.leaveRequests[..i], LeaveRequestStudent, studentId)| < |r|
      && r[|WithKey(store.leaveRequests[..i], LeaveRequestStudent, studentId)|] == store.leaveRequests[i]
  {
    WithKeyAt(store.leaveRequests, LeaveRequestStudent, studentId, i);
  }

  /** The merge of `updateSubmission`: a supplied key overrides the stored value, any other key keeps it. */
  lemma MergeSubmissionOverrides(s: Submission, p: SubmissionPatch)
    ensures var m := MergeSubmission(s, p);
      && (if p.id.Some? then m.id == p.id.value else m.id == s.id)
      && (if p.assignmentId.Some? then m.assignmentId == p.assignmentId.value else m.assignmentId == s.assignmentId)
      && (if p.studentId.Some? then m.studentId == p.studentId.value else m.studentId == s.studentId)
      && (if p.content.Some? then m.content == p.content.value else m.content == s.content)
      && (if p.submittedAt.Some? then m.submittedAt == p.submittedAt.value else m.submittedAt == s.submittedAt)
      && (if p.grade.Some? then m.grade == p.grade.value else m.grade == s.grade)
      && (if p.feedback.Some? then m.feedback == p.feedback.value else m.feedback == s.feedback)
  {
  }

  /** The merge of `updateLeaveRequest`: a supplied key overrides the stored value, any other key keeps it. */
  lemma MergeLeaveRequestOverrides(lr: LeaveRequest, p: LeaveRequestPatch)
    ensures var m := MergeLeaveRequest(lr, p);
      && (if p.id.Some? then m.id == p.id.value else m.id == lr.id)
      && (if p.reason.Some? then m.reason == p.reason.value else m.reason == lr.reason)
      && (if p.startDate.Some? then m.startDate == p.startDate.value else m.startDate == lr.startDate)
      && (if p.endDate.Some? then m.endDate == p.endDate.value else m.endDate == lr.endDate)
      && (if p.status.Some? then m.status == p.status.value else m.status == lr.status)
      && (if p.studentId.Some? then m.studentId == p.studentId.value else m.studentId == lr.studentId)
      && (if p.createdAt.Some? then m.createdAt == p.createdAt.value else m.createdAt == lr.createdAt)
  {
  }

  /**
   * `updateLeaveRequest` enforces no status transition: a patch that supplies
   * only a status writes it whatever the stored status was, PENDING included.
   */
  lemma UpdateLeaveRequestWritesAnyStatus(lr: LeaveRequest, status: LeaveStatus)
    ensures MergeLeaveRequest(lr, LeaveRequestPatch(None, None, None, None, Some(status), None, None))
         == lr.(status := status)
  {
  }

  /** Merging the same patch twice is merging it once. */
  lemma MergeIsIdempotent(s: Submission, p: SubmissionPatch, lr: LeaveRequest, q: LeaveRequestPatch)
    ensures MergeSubmission(MergeSubmission(s, p), p) == MergeSubmission(s, p)
    ensures MergeLeaveRequest(MergeLeaveRequest(lr, q), q) == MergeLeaveRequest(lr, q)
  {
  }
}
