/** Sign-in and role-based navigation of the register (App.tsx:37-57). */
module Access {
  import opened Types
  import opened Text

  /** The email matches ignoring case and the password matches exactly. */
  predicate Matches(u: User, email: string, password: string) {
    Lower(u.email) == Lower(email) && u.password == password
  }

  /** `users.find(...)` in `handleLogin`: the first user whose credentials match, if any. */
  function FindLoginUser(users: seq<User>, email: string, password: string): (r: Option<User>)
    ensures r.None? <==> forall k :: 0 <= k < |users| ==> !Matches(users[k], email, password)
    ensures r.Some? ==> exists k :: 0 <= k < |users| && users[k] == r.value && Matches(r.value, email, password)
                                     && forall j :: 0 <= j < k ==> !Matches(users[j], email, password)
  {
    if |users| == 0 then None
    else if Matches(users[0], email, password) then Some(users[0])
    else
      var r := FindLoginUser(users[1..], email, password);
      assert forall k :: 1 <= k < |users| ==> users[k] == users[1..][k - 1];
      if r.Some? then
        ghost var k :| 0 <= k < |users[1..]| && users[1..][k] == r.value && Matches(r.value, email, password)
                       && forall j :: 0 <= j < k ==> !Matches(users[1..][j], email, password);
        assert users[k + 1] == r.value;
        r
      else r
  }

  predicate IsAdmin(user: Option<User>) {
    user.Some? && user.value.role == Admin
  }

  /** The management screens. */
  predicate AdminOnly(view: View) {
    view == Products || view == Customers || view == Users
  }

  /** `navigate(view)`: the view shown after the request; non-admins are kept out of the management screens. */
  function Navigate(user: Option<User>, current: View, view: View): (r: View)
    ensures r == view || (r == current && !IsAdmin(user) && AdminOnly(view))
    ensures !IsAdmin(user) && AdminOnly(view) ==> r == current
  {
    if !IsAdmin(user) && AdminOnly(view) then current else view
  }

  /** The view after a series of navigation requests by the same user. */
  function NavigateAll(user: Option<User>, start: View, requests: seq<View>): View
    decreases |requests|
  {
    if |requests| == 0 then start
    else NavigateAll(user, Navigate(user, start, requests[0]), requests[1..])
  }

  /** A user who is not an admin, starting outside the management screens, never reaches one, whatever they request. */
  lemma {:induction false} NonAdminNeverReachesAdminViews(user: Option<User>, start: View, requests: seq<View>)
    requires !IsAdmin(user) && !AdminOnly(start)
    ensures !AdminOnly(NavigateAll(user, start, requests))
    decreases |requests|
  {
    if |requests| > 0 {
      NonAdminNeverReachesAdminViews(user, Navigate(user, start, requests[0]), requests[1..]);
    }
  }

  /** An admin always ends on the last view requested. */
  lemma {:induction false} AdminReachesLastRequest(user: Option<User>, start: View, requests: seq<View>)
    requires IsAdmin(user) && |requests| > 0
    ensures NavigateAll(user, start, requests) == requests[|requests| - 1]
    decreases |requests|
  {
    if |requests| > 1 {
      AdminReachesLastRequest(user, Navigate(user, start, requests[0]), requests[1..]);
    }
  }
}
