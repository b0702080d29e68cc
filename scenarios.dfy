/**
 * A client of the store, the provider and the guard, on the seed data: what a
 * caller can conclude from their contracts alone.
 */
module Scenarios {
  import opened Wrappers
  import opened Sequences
  import opened Types
  import opened MockData
  import opened AuthContext
  import opened ProtectedRoute

  /** A teacher's new assignment shows up, last, among that teacher's assignments. */
  method CreateThenListByTeacher() {
    var store := new MockStore();
    var before := AssignmentsOf(store.GetAssignmentsByTeacher("t1"));
    var a := store.CreateAssignment(NewAssignment("Intro", "desc", 1735689600000, "t1"), "a3", 1700000000000);
    var after := AssignmentsOf(store.GetAssignmentsByTeacher("t1"));
    assert after == before + [a];
    assert a.teacherId == "t1" && a.dueDate == 1735689600000 && a.title == "Intro";
  }

  /** Sign in as a seed teacher with any password, then sign out. */
  method SignInAndOut() {
    var store := new MockStore();
    var provider := new AuthProvider(None);
    assert Decide(provider.isLoading, provider.user, Some([Teacher])) == Loading;
    provider.LoadUser(StoreLookup(store.users));
    assert Decide(provider.isLoading, provider.user, Some([Teacher])) == RedirectToLogin;

    assert UserEmail(SeedUsers[0]) == "john@example.com";
    assert IsFirstMatch(SeedUsers, UserEmail, "john@example.com", 0);
    var ok := provider.HandleLogin("john@example.com", "not checked", StoreLogin(store.users));
    assert ok && provider.user == Some(SeedUsers[0]) && provider.storedUserId == Some("t1");
    assert Decide(provider.isLoading, provider.user, Some([Teacher])) == ShowChildren;
    assert Decide(provider.isLoading, provider.user, Some([Student])) == RedirectToDashboard;

    provider.HandleLogout();
    assert provider.user == None && provider.storedUserId == None;
    assert Decide(provider.isLoading, provider.user, None) == RedirectToLogin;
  }
}
