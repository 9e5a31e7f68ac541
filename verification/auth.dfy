/** `src/contexts/AuthContext.tsx`: the signed-in staff user, the e-mail
    lookup that signs one in, and sign-out. The browser's stored copy of the
    user is kept in the state next to the user itself. */
module Auth {
  import opened JsValues
  import opened Types

  /** The context's state: the current user and what `portal_user` holds. */
  datatype AuthState = AuthState(user: Option<StaffUser>, stored: Option<StaffUser>)

  /** `staff.find(u => u.email === email)`: the first staff user with exactly that e-mail. */
  function FindByEmail(staff: seq<StaffUser>, email: string): (r: Option<StaffUser>)
    ensures r.None? <==> forall i :: 0 <= i < |staff| ==> staff[i].email != email
    ensures r.Some? ==> exists i :: 0 <= i < |staff| && staff[i] == r.value && FirstWithEmail(staff, email, i)
  {
    if |staff| == 0 then None
    else if staff[0].email == email then
      assert FirstWithEmail(staff, email, 0);
      Some(staff[0])
    else
      var rest := FindByEmail(staff[1..], email);
      if rest.Some? then
        var i :| 0 <= i < |staff[1..]| && staff[1..][i] == rest.value && FirstWithEmail(staff[1..], email, i);
        assert FirstWithEmail(staff, email, i + 1);
        rest
      else
        assert forall i :: 1 <= i < |staff| ==> staff[i] == staff[1..][i - 1];
        rest
  }

  /** `staff[i]` has the e-mail and nobody before it does. */
  predicate FirstWithEmail(staff: seq<StaffUser>, email: string, i: nat)
  {
    && i < |staff|
    && staff[i].email == email
    && forall j :: 0 <= j < i ==> staff[j].email != email
  }

  /** The state at start-up: the stored user, if any, is signed in. */
  function Initial(stored: Option<StaffUser>): (s: AuthState)
    ensures s.user == stored && s.stored == stored
  {
    AuthState(stored, stored)
  }

  /** What a login attempt returns and leaves behind. */
  datatype LoginResult = LoginResult(ok: bool, state: AuthState)

  /** `login(email, password)`: succeeds exactly when some staff user has that
      e-mail, signing in (and storing) the first such user; a failure changes
      nothing. The password is never looked at. */
  function Login(s: AuthState, staff: seq<StaffUser>, email: string, password: string): (r: LoginResult)
    ensures r.ok <==> exists i :: 0 <= i < |staff| && staff[i].email == email
    ensures r.ok ==> exists i :: 0 <= i < |staff| && FirstWithEmail(staff, email, i) && r.state.user == Some(staff[i])
    ensures r.ok ==> r.state.stored == r.state.user
    ensures !r.ok ==> r.state == s
  {
    match FindByEmail(staff, email)
    case Some(u) => LoginResult(true, AuthState(Some(u), Some(u)))
    case None => LoginResult(false, s)
  }

  /** `logout`: nobody is signed in and nothing is stored. */
  function Logout(s: AuthState): (t: AuthState)
    ensures t.user.None? && t.stored.None?
    ensures !IsAuthenticated(t)
  {
    AuthState(None, None)
  }

  /** `isAuthenticated: !!user`. */
  predicate IsAuthenticated(s: AuthState)
  {
    s.user.Some?
  }

  /** The login outcome is the same whatever password is typed. */
  lemma LoginIgnoresPassword(s: AuthState, staff: seq<StaffUser>, email: string, p1: string, p2: string)
    ensures Login(s, staff, email, p1) == Login(s, staff, email, p2)
  {
  }

  /** A successful login authenticates; a failed one leaves authentication as it was. */
  lemma LoginAuthenticates(s: AuthState, staff: seq<StaffUser>, email: string, password: string)
    ensures Login(s, staff, email, password).ok ==> IsAuthenticated(Login(s, staff, email, password).state)
    ensures !Login(s, staff, email, password).ok ==>
      (IsAuthenticated(Login(s, staff, email, password).state) <==> IsAuthenticated(s))
  {
  }

  /** With distinct e-mails, logging in as `staff[i]` signs in exactly that user. */
  lemma LoginFindsOwner(s: AuthState, staff: seq<StaffUser>, i: nat, password: string)
    requires i < |staff|
    requires forall a, b :: 0 <= a < b < |staff| ==> staff[a].email != staff[b].email
    ensures Login(s, staff, staff[i].email, password) == LoginResult(true, AuthState(Some(staff[i]), Some(staff[i])))
  {
    var r := Login(s, staff, staff[i].email, password);
    var k :| 0 <= k < |staff| && FirstWithEmail(staff, staff[i].email, k) && r.state.user == Some(staff[k]);
  }

  /** A failed login after a logout leaves the user signed out. */
  lemma FailedLoginAfterLogout(s: AuthState, staff: seq<StaffUser>, email: string, password: string)
    requires forall i :: 0 <= i < |staff| ==> staff[i].email != email
    ensures !IsAuthenticated(Login(Logout(s), staff, email, password).state)
  {
  }
}
