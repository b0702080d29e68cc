/**
 * The records the in-memory store holds, with the fields the store itself
 * writes (seed data and the `create*` functions), the input shapes of the
 * `create*` functions, the partial records `update*` merges, and the
 * "enriched" records the readers return (the stored record with the related
 * user or assignment attached when one is found).
 *
 * Dates are integers: milliseconds since the Unix epoch.
 */
module Types {
  import opened Wrappers

  datatype Role = Teacher | Student

  datatype LeaveStatus = Pending | Approved | Rejected

  datatype User = User(
    id: string,
    name: string,
    email: string,
    role: Role,
    createdAt: int,
    updatedAt: int)

  datatype Assignment = Assignment(
    id: string,
    title: string,
    description: string,
    dueDate: int,
    createdAt: int,
    teacherId: string)

  datatype Submission = Submission(
    id: string,
    assignmentId: string,
    studentId: string,
    content: string,
    submittedAt: int,
    grade: Option<string>,
    feedback: Option<string>)

  datatype Schedule = Schedule(
    id: string,
    title: string,
    description: string,
    startTime: int,
    endTime: int,
    teacherId: string)

  datatype LeaveRequest = LeaveRequest(
    id: string,
    reason: string,
    startDate: int,
    endDate: int,
    status: LeaveStatus,
    studentId: string,
    createdAt: int)

  // Key projections, passed to the array operations of module Sequences.
  function UserId(u: User): string { u.id }
  function UserEmail(u: User): string { u.email }
  function UserRole(u: User): Role { u.role }
  function AssignmentId(a: Assignment): string { a.id }
  function AssignmentTeacher(a: Assignment): string { a.teacherId }
  function SubmissionId(s: Submission): string { s.id }
  function SubmissionAssignment(s: Submission): string { s.assignmentId }
  function SubmissionStudent(s: Submission): string { s.studentId }
  function ScheduleId(s: Schedule): string { s.id }
  function ScheduleTeacher(s: Schedule): string { s.teacherId }
  function LeaveRequestId(lr: LeaveRequest): string { lr.id }
  function LeaveRequestStudent(lr: LeaveRequest): string { lr.studentId }

  /** What `createAssignment` is given: an assignment without `id` and `createdAt`. */
  datatype NewAssignment = NewAssignment(
    title: string,
    description: string,
    dueDate: int,
    teacherId: string)

  /** What `createSubmission` is given: a submission without `id` and `submittedAt`. */
  datatype NewSubmission = NewSubmission(
    assignmentId: string,
    studentId: string,
    content: string,
    grade: Option<string>,
    feedback: Option<string>)

  /** What `createSchedule` is given: a schedule without `id`. */
  datatype NewSchedule = NewSchedule(
    title: string,
    description: string,
    startTime: int,
    endTime: int,
    teacherId: string)

  /** What `createLeaveRequest` is given: a leave request without `id`, `status` and `createdAt`. */
  datatype NewLeaveRequest = NewLeaveRequest(
    reason: string,
    startDate: int,
    endDate: int,
    studentId: string)

  /**
   * A `Partial<Submission>`: `None` where the key is not supplied, `Some(v)`
   * where it is. For the optional `grade` and `feedback`, `Some(None)` is a key
   * supplied as `undefined`, which the object spread copies too.
   */
  datatype SubmissionPatch = SubmissionPatch(
    id: Option<string>,
    assignmentId: Option<string>,
    studentId: Option<string>,
    content: Option<string>,
    submittedAt: Option<int>,
    grade: Option<Option<string>>,
    feedback: Option<Option<string>>)

  /** A `Partial<LeaveRequest>`: `None` where the key is not supplied. */
  datatype LeaveRequestPatch = LeaveRequestPatch(
    id: Option<string>,
    reason: Option<string>,
    startDate: Option<int>,
    endDate: Option<int>,
    status: Option<LeaveStatus>,
    studentId: Option<string>,
    createdAt: Option<int>)

  /** `{ ...old, ...patch }` for a submission: a supplied key wins, any other keeps its value. */
  function MergeSubmission(s: Submission, p: SubmissionPatch): Submission {
    Submission(
      p.id.GetOr(s.id),
      p.assignmentId.GetOr(s.assignmentId),
      p.studentId.GetOr(s.studentId),
      p.content.GetOr(s.content),
      p.submittedAt.GetOr(s.submittedAt),
      p.grade.GetOr(s.grade),
      p.feedback.GetOr(s.feedback))
  }

  /** `{ ...old, ...patch }` for a leave request. */
  function MergeLeaveRequest(lr: LeaveRequest, p: LeaveRequestPatch): LeaveRequest {
    LeaveRequest(
      p.id.GetOr(lr.id),
      p.reason.GetOr(lr.reason),
      p.startDate.GetOr(lr.startDate),
      p.endDate.GetOr(lr.endDate),
      p.status.GetOr(lr.status),
      p.studentId.GetOr(lr.studentId),
      p.createdAt.GetOr(lr.createdAt))
  }

  /** An assignment with its `teacher` attached (absent when no user has its `teacherId`). */
  datatype AssignmentView = AssignmentView(assignment: Assignment, teacher: Option<User>)

  /** A submission with its `student` and `assignment` attached. */
  datatype SubmissionView = SubmissionView(submission: Submission, student: Option<User>, assignment: Option<Assignment>)

  /** A schedule with its `teacher` attached. */
  datatype ScheduleView = ScheduleView(schedule: Schedule, teacher: Option<User>)

  /** A leave request with its `student` attached. */
  datatype LeaveRequestView = LeaveRequestView(leaveRequest: LeaveRequest, student: Option<User>)
}
