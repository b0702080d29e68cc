# Leave and assignment tracker: store, session and route guard

A Dafny model of the three pieces of logic in the leave-and-assignment tracker
web application that do their own work rather than handing it to an ORM, the
network or React:

- **The in-memory data store** (`leave-assignment-tracker/src/app/lib/mock-data.ts`): five arrays (users,
  assignments, submissions, schedules, leave requests) with readers that find,
  filter and enrich records, `create*` functions that push a new record and
  `update*` functions that merge a partial record into one slot in place.
  Modelled as the class `MockData.MockStore` with one `seq` field per array.
  Readers are functions that read the store. `create*` and `update*` are
  methods that modify only their own array. The array operations the readers
  are built from (`findIndex`, `find`, `filter` on a key) live in module
  `Sequences`. The enrichment (`map` attaching the first user or assignment
  with the referenced id) lives in `MockData`.
- **The authentication provider** (`leave-assignment-tracker/src/app/context/AuthContext.tsx`): the `user` and
  `isLoading` state and the persisted `localStorage["userId"]`. They change on
  the initial load, on login and on logout. Modelled as the class
  `AuthContext.AuthProvider`. Its methods are proved against the transition
  functions `AfterLoad`, `AfterLogin` and `AfterLogout` on a `Session`
  value, and the lemmas are stated about those functions. The store calls the
  provider makes are parameters that say what the call produced: a value
  (possibly null) or an exception.
- **The route guard** (`leave-assignment-tracker/src/components/ProtectedRoute.tsx`): a pure decision
  over `(isLoading, user, roles)`. The result is one of Loading,
  RedirectToLogin, RedirectToDashboard or ShowChildren.

Record shapes are the fields the store writes. Examples: a submission has
`submittedAt`, and a leave request has no `updatedAt`. `Role` and
`LeaveStatus` come from `leave-assignment-tracker/src/app/types/index.ts`. Dates are integers, in
milliseconds since the Unix epoch. The fresh id (`uuidv4()`) and the clock
(`new Date()`) are method parameters.

Two behaviours of the code are worth stating plainly. First,
`updateLeaveRequest` enforces no status transition. It writes whatever status
it is given, PENDING included. Its only caller, the leave-requests page,
offers Approve and Reject to teachers for PENDING requests only
(`leave-assignment-tracker/src/app/(main)/LeaveRequests/page.tsx`, lines 50 and 134-154). The model
writes any supplied status. Second, the provider removes the stored
`"userId"` only when the lookup on mount throws. A lookup that returns null
leaves the id stored and no user signed in.

Module `Scenarios` is a client. On the seed data, it shows what a caller can
conclude from the contracts alone.

## Model

| member | source | states |
|---|---|---|
| `Sequences.FirstIndex` | leave-assignment-tracker/src/app/lib/mock-data.ts:262 | `findIndex`: -1 exactly when no element has the key, otherwise the first position that has it |
| `Sequences.FindFirst` | leave-assignment-tracker/src/app/lib/mock-data.ts:163 | `find`: nothing exactly when no element has the key, otherwise the element at the first position that has it |
| `Sequences.WithKey` | leave-assignment-tracker/src/app/lib/mock-data.ts:167 | `filter`: an element is in the result exactly when it is in the input and has the key |
| `Sequences.WithKeyAppend` | leave-assignment-tracker/src/app/lib/mock-data.ts:193-194 | filtering a concatenation gives the concatenation of the filtered parts, in order |
| `Sequences.WithKeyMultiplicity` | leave-assignment-tracker/src/app/lib/mock-data.ts:193-194 | filtering keeps each matching element as many times as it occurs and drops every other element |
| `Sequences.WithKeyPartition` | leave-assignment-tracker/src/app/lib/mock-data.ts:166-172 | when every element has one of two distinct keys, the two filtered results together have the input's length |
| `Sequences.FindFirstAppendFresh` | leave-assignment-tracker/src/app/lib/mock-data.ts:207 | after pushing an element whose key no earlier element has, `find` on that key returns the pushed element |
| `Sequences.WithKeyKeepsOrder` | leave-assignment-tracker/src/app/lib/mock-data.ts:193-194 | two matching elements at positions i < j of the input appear at positions p < q of the filtered result |
| `Sequences.WithKeyAt` | leave-assignment-tracker/src/app/lib/mock-data.ts:193-194 | the matching element at input position i is at the position given by the length of the filtered prefix s[..i] |
| `MockData.WithTeachers` | leave-assignment-tracker/src/app/lib/mock-data.ts:176-179 | attaching teachers keeps every assignment, in order |
| `MockData.WithStudentsAndAssignments` | leave-assignment-tracker/src/app/lib/mock-data.ts:213-217 | attaching students and assignments keeps every submission, in order |
| `MockData.SchedulesWithTeachers` | leave-assignment-tracker/src/app/lib/mock-data.ts:276-279 | attaching teachers keeps every schedule, in order |
| `MockData.WithStudents` | leave-assignment-tracker/src/app/lib/mock-data.ts:312-315 | attaching students keeps every leave request, in order |
| `MockData.MockStore.constructor` | leave-assignment-tracker/src/app/lib/mock-data.ts:6-146 | the arrays start as the seed users, assignments, submissions, schedules and leave requests |
| `MockData.MockStore.Login` | leave-assignment-tracker/src/app/lib/mock-data.ts:151-155 | null exactly when no user has the email; otherwise the first user with that email; the password is not used |
| `MockData.MockStore.GetUsers` | leave-assignment-tracker/src/app/lib/mock-data.ts:158-160 | returns the stored user array itself |
| `MockData.MockStore.GetUserById` | leave-assignment-tracker/src/app/lib/mock-data.ts:162-164 | null exactly when no user has the id; otherwise the first user with that id |
| `MockData.MockStore.GetTeachers` | leave-assignment-tracker/src/app/lib/mock-data.ts:166-168 | a user is in the result exactly when it is stored with role TEACHER |
| `MockData.MockStore.GetStudents` | leave-assignment-tracker/src/app/lib/mock-data.ts:170-172 | a user is in the result exactly when it is stored with role STUDENT |
| `MockData.MockStore.GetAssignments` | leave-assignment-tracker/src/app/lib/mock-data.ts:175-180 | same length and order as the stored assignments; the i-th result is the i-th assignment with `teacher` = `getUserById(teacherId)` |
| `MockData.MockStore.GetAssignmentById` | leave-assignment-tracker/src/app/lib/mock-data.ts:182-190 | null exactly when no assignment has the id; otherwise the first assignment with that id, with its teacher attached |
| `MockData.MockStore.GetAssignmentsByTeacher` | leave-assignment-tracker/src/app/lib/mock-data.ts:192-199 | an assignment is in the result exactly when it is stored with that `teacherId`; each carries `getUserById(teacherId)` |
| `MockData.MockStore.CreateAssignment` | leave-assignment-tracker/src/app/lib/mock-data.ts:201-209 | appends one assignment (the supplied fields, the fresh id, `createdAt` = now) and changes nothing else; the teacher's list grows by it at the end; with a fresh id, lookup by that id finds it |
| `MockData.MockStore.GetSubmissions` | leave-assignment-tracker/src/app/lib/mock-data.ts:212-218 | same length and order as the stored submissions; each has the first student and first assignment with the referenced ids attached, or none |
| `MockData.MockStore.GetSubmissionById` | leave-assignment-tracker/src/app/lib/mock-data.ts:220-229 | null exactly when no submission has the id; otherwise the first submission with that id, with student and assignment attached |
| `MockData.MockStore.GetSubmissionsByAssignment` | leave-assignment-tracker/src/app/lib/mock-data.ts:231-239 | a submission is in the result exactly when it is stored with that `assignmentId`; each is enriched |
| `MockData.MockStore.GetSubmissionsByStudent` | leave-assignment-tracker/src/app/lib/mock-data.ts:241-249 | a submission is in the result exactly when it is stored with that `studentId`; each is enriched |
| `MockData.MockStore.CreateSubmission` | leave-assignment-tracker/src/app/lib/mock-data.ts:251-259 | appends one submission (the supplied fields, the fresh id, `submittedAt` = now) and changes nothing else; the per-student and per-assignment lists grow by it at the end |
| `MockData.MockStore.UpdateSubmission` | leave-assignment-tracker/src/app/lib/mock-data.ts:261-272 | unknown id: null and the array unchanged; otherwise only the first slot with that id becomes the merge of old record and patch, the length is kept, and the result is that slot enriched |
| `MockData.MockStore.GetSchedules` | leave-assignment-tracker/src/app/lib/mock-data.ts:275-280 | same length and order as the stored schedules; each has `getUserById(teacherId)` attached |
| `MockData.MockStore.GetScheduleById` | leave-assignment-tracker/src/app/lib/mock-data.ts:282-290 | null exactly when no schedule has the id; otherwise the first schedule with that id, with its teacher attached |
| `MockData.MockStore.GetSchedulesByTeacher` | leave-assignment-tracker/src/app/lib/mock-data.ts:292-299 | a schedule is in the result exactly when it is stored with that `teacherId` |
| `MockData.MockStore.CreateSchedule` | leave-assignment-tracker/src/app/lib/mock-data.ts:301-308 | appends one schedule (the supplied fields and the fresh id) and changes nothing else; the teacher's list grows by it at the end |
| `MockData.MockStore.GetLeaveRequests` | leave-assignment-tracker/src/app/lib/mock-data.ts:311-316 | same length and order as the stored leave requests; each has `getUserById(studentId)` attached |
| `MockData.MockStore.GetLeaveRequestById` | leave-assignment-tracker/src/app/lib/mock-data.ts:318-326 | null exactly when no request has the id; otherwise the first request with that id, with its student attached |
| `MockData.MockStore.GetLeaveRequestsByStudent` | leave-assignment-tracker/src/app/lib/mock-data.ts:328-335 | a leave request is in the result exactly when it is stored with that `studentId` |
| `MockData.MockStore.CreateLeaveRequest` | leave-assignment-tracker/src/app/lib/mock-data.ts:337-346 | appends one request with status PENDING, the fresh id and `createdAt` = now, and changes nothing else |
| `MockData.MockStore.UpdateLeaveRequest` | leave-assignment-tracker/src/app/lib/mock-data.ts:348-358 | unknown id: null and the array unchanged; otherwise only the first slot with that id becomes the merge of old record and patch, the length is kept |
| `MockDataProperties.LoginIgnoresPassword` | leave-assignment-tracker/src/app/lib/mock-data.ts:151-155 | two logins with the same email and different passwords return the same result |
| `MockDataProperties.GetUserByIdFindsThatId` | leave-assignment-tracker/src/app/lib/mock-data.ts:162-164 | a user returned by `getUserById(id)` has that id and is stored |
| `MockDataProperties.TeachersAndStudentsPartitionUsers` | leave-assignment-tracker/src/app/lib/mock-data.ts:166-172 | the lengths of getTeachers() and getStudents() add up to the length of getUsers() |
| `MockDataProperties.UsersByRoleExact` | leave-assignment-tracker/src/app/lib/mock-data.ts:166-172 | each user of the role appears in the result as often as it is stored; users of the other role never appear |
| `MockDataProperties.UsersByRoleInStoredOrder` | leave-assignment-tracker/src/app/lib/mock-data.ts:166-172 | users of the role keep their stored relative order |
| `MockDataProperties.UsersByRolePosition` | leave-assignment-tracker/src/app/lib/mock-data.ts:166-172 | one entry per stored user of the role; the user stored at position i is at the position given by the number of users of that role stored before it |
| `MockDataProperties.AssignmentsByTeacherExact` | leave-assignment-tracker/src/app/lib/mock-data.ts:192-199 | each assignment of the teacher appears as often as it is stored; no other assignment appears |
| `MockDataProperties.AssignmentsByTeacherInStoredOrder` | leave-assignment-tracker/src/app/lib/mock-data.ts:192-199 | the teacher's assignments keep their stored relative order |
| `MockDataProperties.AssignmentsByTeacherPosition` | leave-assignment-tracker/src/app/lib/mock-data.ts:192-199 | one entry per matching stored record; the record stored at position i is at the position given by the number of matching records stored before it |
| `MockDataProperties.SubmissionsByAssignmentExact` | leave-assignment-tracker/src/app/lib/mock-data.ts:231-239 | each submission for the assignment appears as often as it is stored; no other appears |
| `MockDataProperties.SubmissionsByAssignmentInStoredOrder` | leave-assignment-tracker/src/app/lib/mock-data.ts:231-239 | the assignment's submissions keep their stored relative order |
| `MockDataProperties.SubmissionsByAssignmentPosition` | leave-assignment-tracker/src/app/lib/mock-data.ts:231-239 | one entry per matching stored record; the record stored at position i is at the position given by the number of matching records stored before it |
| `MockDataProperties.SubmissionsByStudentExact` | leave-assignment-tracker/src/app/lib/mock-data.ts:241-249 | each submission of the student appears as often as it is stored; no other appears |
| `MockDataProperties.SubmissionsByStudentInStoredOrder` | leave-assignment-tracker/src/app/lib/mock-data.ts:241-249 | the student's submissions keep their stored relative order |
| `MockDataProperties.SubmissionsByStudentPosition` | leave-assignment-tracker/src/app/lib/mock-data.ts:241-249 | one entry per matching stored record; the record stored at position i is at the position given by the number of matching records stored before it |
| `MockDataProperties.SchedulesByTeacherExact` | leave-assignment-tracker/src/app/lib/mock-data.ts:292-299 | each schedule of the teacher appears as often as it is stored; no other appears |
| `MockDataProperties.SchedulesByTeacherInStoredOrder` | leave-assignment-tracker/src/app/lib/mock-data.ts:292-299 | the teacher's schedules keep their stored relative order |
| `MockDataProperties.SchedulesByTeacherPosition` | leave-assignment-tracker/src/app/lib/mock-data.ts:292-299 | one entry per matching stored record; the record stored at position i is at the position given by the number of matching records stored before it |
| `MockDataProperties.LeaveRequestsByStudentExact` | leave-assignment-tracker/src/app/lib/mock-data.ts:328-335 | each leave request of the student appears as often as it is stored; no other appears |
| `MockDataProperties.LeaveRequestsByStudentInStoredOrder` | leave-assignment-tracker/src/app/lib/mock-data.ts:328-335 | the student's leave requests keep their stored relative order |
| `MockDataProperties.LeaveRequestsByStudentPosition` | leave-assignment-tracker/src/app/lib/mock-data.ts:328-335 | one entry per matching stored record; the record stored at position i is at the position given by the number of matching records stored before it |
| `MockDataProperties.MergeSubmissionOverrides` | leave-assignment-tracker/src/app/lib/mock-data.ts:265 | in `{ ...old, ...data }`, each supplied key takes the supplied value and every other key keeps the stored value |
| `MockDataProperties.MergeLeaveRequestOverrides` | leave-assignment-tracker/src/app/lib/mock-data.ts:352 | the same for leave requests |
| `MockDataProperties.UpdateLeaveRequestWritesAnyStatus` | leave-assignment-tracker/src/app/lib/mock-data.ts:348-352 | a patch holding only a status writes that status whatever the old one was, PENDING included: no transition rule |
| `MockDataProperties.MergeIsIdempotent` | leave-assignment-tracker/src/app/lib/mock-data.ts:265 | applying the same update twice leaves the record as applying it once |
| `AuthContext.AuthProvider.constructor` | leave-assignment-tracker/src/app/context/AuthContext.tsx:17-18 | on mount, `user` is null, `isLoading` is true, and storage holds what the browser had |
| `AuthContext.AuthProvider.LoadUser` | leave-assignment-tracker/src/app/context/AuthContext.tsx:21-39 | loading ends; with a truthy stored id, a returned value (user or null) becomes `user`; the stored id is removed only when the lookup throws |
| `AuthContext.AuthProvider.HandleLogin` | leave-assignment-tracker/src/app/context/AuthContext.tsx:41-70 | true exactly when `login` returned a user; then `user` is that user and the stored id is its id; on null or an exception, false and nothing changes; `isLoading` never changes |
| `AuthContext.AuthProvider.HandleLogout` | leave-assignment-tracker/src/app/context/AuthContext.tsx:72-79 | `user` is null and the stored id is removed; `isLoading` is unchanged |
| `AuthContext.LoadEndsLoading` | leave-assignment-tracker/src/app/context/AuthContext.tsx:25-36 | after the load, `isLoading` is false whatever was stored and whatever the lookup did |
| `AuthContext.LoadFromInitial` | leave-assignment-tracker/src/app/context/AuthContext.tsx:23-35 | from the mount state: the stored id changes exactly when it is truthy and the lookup throws, and then no user is signed in; a returned lookup value becomes `user` |
| `AuthContext.LogoutIsIdempotent` | leave-assignment-tracker/src/app/context/AuthContext.tsx:72-79 | logging out twice gives the same state as logging out once |
| `AuthContext.LoginAndLogoutKeepLoading` | leave-assignment-tracker/src/app/context/AuthContext.tsx:41-79 | neither login nor logout changes `isLoading` |
| `AuthContext.LoginAndLogoutKeepUserMatchingStorage` | leave-assignment-tracker/src/app/context/AuthContext.tsx:45-47 | login and logout preserve "the signed-in user's id is the stored id" |
| `AuthContext.LoadKeepsUserMatchingStorage` | leave-assignment-tracker/src/app/context/AuthContext.tsx:26-29 | a load from mount through a lookup that returns only users with the requested id establishes that invariant |
| `AuthContext.LoadFromStoreKeepsUserMatchingStorage` | leave-assignment-tracker/src/app/context/AuthContext.tsx:28 | the store's `getUserById` is such a lookup, so a load through it establishes the invariant |
| `AuthContext.LoginThroughStore` | leave-assignment-tracker/src/app/context/AuthContext.tsx:43-52 | through the store's `login`, signing in succeeds exactly when some user has that email, whatever the password, and signs in the first such user |
| `AuthContext.StoreCallsAreTheStoreReaders` | leave-assignment-tracker/src/app/context/AuthContext.tsx:4 | the lookup and login the provider is given through the store return exactly `getUserById` and `login` of the store, and never throw |
| `ProtectedRoute.LoadingComesFirst` | leave-assignment-tracker/src/components/ProtectedRoute.tsx:15-18 | while loading, the guard shows Loading whatever the user and roles |
| `ProtectedRoute.NoUserGoesToLogin` | leave-assignment-tracker/src/components/ProtectedRoute.tsx:20-22 | loaded and no user: redirect to `/Login` |
| `ProtectedRoute.DashboardExactlyWhenRoleExcluded` | leave-assignment-tracker/src/components/ProtectedRoute.tsx:24-26 | for a loaded, signed-in user: redirect to `/Dashboard` exactly when roles are given and do not include the user's role |
| `ProtectedRoute.EmptyRolesRedirectEveryone` | leave-assignment-tracker/src/components/ProtectedRoute.tsx:24-26 | an empty roles list redirects every signed-in user to `/Dashboard` |
| `ProtectedRoute.ShowsChildrenExactly` | leave-assignment-tracker/src/components/ProtectedRoute.tsx:15-28 | the children are shown exactly when loaded, signed in, and roles are absent or include the user's role |
| `ProtectedRoute.GuardAroundLoad` | leave-assignment-tracker/src/components/ProtectedRoute.tsx:15-18 | the guard shows Loading on mount and never after the load |
| `ProtectedRoute.GuardAfterLogout` | leave-assignment-tracker/src/components/ProtectedRoute.tsx:20-22 | after logout from a loaded session, every protected route redirects to `/Login` |
| `ProtectedRoute.GuardAfterLogin` | leave-assignment-tracker/src/components/ProtectedRoute.tsx:24-28 | after a successful login in a loaded session, a route without roles shows its children |

## Left out

- The server actions over the ORM (`leave-assignment-tracker/src/app/actions/mock-data.ts`), the HTTP login and user routes, and the `fetch` wrappers. They are thin calls into an ORM, a validation library and the network, none of which is part of this model.
- The layout and dashboard card components: presentation only.
- `uuidv4()` randomness and `new Date()`: the fresh id and the current time are parameters. The methods do not require the id to be fresh, as nothing in the source checks it. Contracts that need freshness state it as a hypothesis.
- `async`/`await`: every call is taken as synchronous. Interleavings (a login that completes before the initial load) are not modelled.
- Toast notifications and `console.error` in the provider, and React rendering and `Navigate` in the guard: only the state change or the decision is modelled.
- Aliasing: the store hands out its own objects, and the model returns values. `getUsers` returns the stored array itself. `getUserById` and `login` return stored user objects. Every attached `teacher`, `student` and `assignment` is a stored object. Each `create*` returns the very object it pushed. A caller that mutated one of these would change the store. No caller does: the pages only read what they are given.
- Keys outside the stored record shapes: `Partial<…>` and `Omit<…>` allow more keys (`student`, `updatedAt`, …), and the object spread would copy them into the stored record. A required key supplied explicitly as `undefined` would also be copied. Neither case is modelled. The optional `grade` and `feedback` can be cleared by an explicit `undefined`, which is modelled.
- `MockData.MockStore.constructor`: date-time seeds without an offset (the schedule times) are local time in JavaScript. The model reads them as UTC.
- `User.name` is `string | null` in the shared types. The store only ever holds strings, so the model uses `string`.
