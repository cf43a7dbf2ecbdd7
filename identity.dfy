/**
 * What the client reads from the identity provider about the signed-in
 * person, and how the self-reported role is resolved from it. The same
 * precedence (public metadata, then unsafe metadata, then the role
 * cached in the browser's local storage under `userRole`) is written
 * out at four call sites of the source; here it is one function.
 */
module Identity {
  import opened Wrappers

  /**
   * The identity provider's user: its subject id, e-mail addresses in
   * order, first name, image URL and the two metadata role fields.
   */
  datatype User = User(
    id: string, emails: seq<string>, firstName: Option<string>, imageUrl: string,
    publicRole: Option<string>, unsafeRole: Option<string>)

  /** A JavaScript string value counts as true in `a || b` when present and non-empty. */
  predicate Truthy(o: Option<string>) {
    o.Some? && o.value != ""
  }

  /** `xs[0] || xs[1] || ...` for optional strings, with no final default. */
  function FirstTruthy(xs: seq<Option<string>>): (r: Option<string>)
    ensures r.None? <==> forall i :: 0 <= i < |xs| ==> !Truthy(xs[i])
    ensures r.Some? ==> r.value != ""
    ensures r.Some? ==> exists i :: 0 <= i < |xs| && xs[i] == r && forall j :: 0 <= j < i ==> !Truthy(xs[j])
  {
    if xs == [] then None
    else if Truthy(xs[0]) then xs[0]
    else
      var r := FirstTruthy(xs[1..]);
      assert r.Some? ==> exists i :: 0 <= i < |xs| && xs[i] == r && forall j :: 0 <= j < i ==> !Truthy(xs[j]) by {
        if r.Some? {
          var k :| 0 <= k < |xs[1..]| && xs[1..][k] == r && forall j :: 0 <= j < k ==> !Truthy(xs[1..][j]);
          assert xs[k + 1] == r;
          assert forall j :: 0 <= j < k + 1 ==> !Truthy(xs[j]) by {
            forall j | 0 <= j < k + 1 ensures !Truthy(xs[j]) {
              if j > 0 { assert xs[j] == xs[1..][j - 1]; }
            }
          }
        }
      }
      r
  }

  /** The role signals in precedence order; without a user the metadata read as undefined. */
  function RoleSignals(user: Option<User>, storedRole: Option<string>): seq<Option<string>> {
    match user
    case None => [None, None, storedRole]
    case Some(u) => [u.publicRole, u.unsafeRole, storedRole]
  }

  /**
   * The role a page acts on (`App.tsx`, `VideoUpload.tsx`,
   * `VideoPlayer.tsx`): the first non-empty signal, and none when
   * every signal is empty.
   */
  function SelectedRole(user: Option<User>, storedRole: Option<string>): (r: Option<string>)
    ensures user.Some? && Truthy(user.value.publicRole) ==> r == user.value.publicRole
    ensures user.Some? && !Truthy(user.value.publicRole) && Truthy(user.value.unsafeRole) ==> r == user.value.unsafeRole
    ensures (user.None? || (!Truthy(user.value.publicRole) && !Truthy(user.value.unsafeRole))) ==>
      r == (if Truthy(storedRole) then storedRole else None)
  {
    var xs := RoleSignals(user, storedRole);
    var r := FirstTruthy(xs);
    assert Truthy(xs[0]) ==> r == xs[0];
    assert !Truthy(xs[0]) && Truthy(xs[1]) ==> r == xs[1] by {
      if !Truthy(xs[0]) && Truthy(xs[1]) {
        var k :| 0 <= k < |xs| && xs[k] == r && forall j :: 0 <= j < k ==> !Truthy(xs[j]);
        assert k == 1;
      }
    }
    assert !Truthy(xs[0]) && !Truthy(xs[1]) ==> r == (if Truthy(xs[2]) then xs[2] else None) by {
      if !Truthy(xs[0]) && !Truthy(xs[1]) && r.Some? {
        var k :| 0 <= k < |xs| && xs[k] == r && forall j :: 0 <= j < k ==> !Truthy(xs[j]);
        assert k == 2;
      }
    }
    r
  }

  /** The resolved role is exactly `role`; with no role signal it is none at all. */
  predicate RoleIs(user: Option<User>, storedRole: Option<string>, role: string) {
    SelectedRole(user, storedRole) == Some(role)
  }

  /**
   * The role written into a newly provisioned profile: the same
   * precedence, defaulting to `"student"` when every signal is empty.
   */
  function ProvisionedRole(user: User, storedRole: Option<string>): (role: string)
    ensures role != ""
    ensures SelectedRole(Some(user), storedRole).Some? ==> role == SelectedRole(Some(user), storedRole).value
    ensures SelectedRole(Some(user), storedRole).None? ==> role == "student"
  {
    SelectedRole(Some(user), storedRole).GetOr("student")
  }

  /** `user.emailAddresses[0]?.emailAddress || ''`. */
  function PrimaryEmail(user: User): string {
    if |user.emails| > 0 then user.emails[0] else ""
  }

  /** `user.firstName || email || 'User'`. */
  function DisplayName(user: User): (name: string)
    ensures name != ""
    ensures Truthy(user.firstName) ==> name == user.firstName.value
    ensures !Truthy(user.firstName) && |user.emails| > 0 && user.emails[0] != "" ==> name == user.emails[0]
    ensures !Truthy(user.firstName) && (|user.emails| == 0 || user.emails[0] == "") ==> name == "User"
  {
    if Truthy(user.firstName) then user.firstName.value
    else if PrimaryEmail(user) != "" then PrimaryEmail(user)
    else "User"
  }
}
