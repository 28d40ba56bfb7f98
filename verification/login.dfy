/**
 * Sign-in and role routing. After the auth provider accepts the
 * credentials, the user's id is looked up in the role collections in the
 * fixed order employees, managers, admins; the first collection holding a
 * document for it decides the dashboard. No membership, a failed sign-in or
 * a failed lookup ends in an error toast instead of a redirect.
 *
 * The auth provider and the document store are oracles passed to
 * `HandleSignIn`; the collections read, the redirects and the toasts are
 * recorded in the page's fields.
 */
module Login {
  import opened Wrappers
  import opened Effects

  datatype Role = Employee | Manager | Admin

  /** The order in which the role collections are consulted. */
  const Priority: seq<Role> := [Employee, Manager, Admin]

  /** The collection holding the documents of a role's users. */
  function Collection(role: Role): string {
    match role
    case Employee => "employees"
    case Manager => "managers"
    case Admin => "admins"
  }

  /** The dashboard a role's users are sent to. */
  function Dashboard(role: Role): string {
    match role
    case Employee => "/employee/dashboard"
    case Manager => "/manager/dashboard"
    case Admin => "/admin/dashboard"
  }

  /** What the auth provider answers for a pair of credentials. */
  datatype AuthResult = SignedIn(uid: string) | AuthFailed(message: string)

  /** What reading the document of an id in a collection gives. */
  datatype Lookup = Found | Missing | LookupFailed(message: string)

  /** What one sign-in does: the collections it reads, in order, and its redirect or its toast. */
  datatype SignInEffect = SignInEffect(queried: seq<string>, redirect: Option<string>, toast: Option<Toast>)

  function ErrorToast(message: string): Toast {
    Toast(Destructive, "Login Error", message)
  }

  const NoRoleMessage := "No role assigned for this user."

  /** One step of `Resolve`: the first collection's answer and the rest. */
  function Consult(role: Role, answer: Lookup, rest: SignInEffect): SignInEffect {
    match answer
    case Found => SignInEffect([Collection(role)], Some(Dashboard(role)), None)
    case LookupFailed(message) => SignInEffect([Collection(role)], None, Some(ErrorToast(message)))
    case Missing => SignInEffect([Collection(role)] + rest.queried, rest.redirect, rest.toast)
  }

  /**
   * The roles' collections consulted in order until one holds the id (a
   * redirect to that role's dashboard) or a read fails (an error toast);
   * when none holds it, the "no role" toast.
   */
  function Resolve(roles: seq<Role>, uid: string, lookup: (string, string) -> Lookup): (e: SignInEffect)
    ensures e.redirect.Some? != e.toast.Some?
    ensures 0 < |e.queried| <= |roles| || (roles == [] && e.queried == [])
    ensures forall i :: 0 <= i < |e.queried| ==> e.queried[i] == Collection(roles[i])
    ensures forall i :: 0 <= i < |e.queried| - 1 ==> lookup(e.queried[i], uid) == Missing
  {
    if roles == [] then SignInEffect([], None, Some(ErrorToast(NoRoleMessage)))
    else Consult(roles[0], lookup(Collection(roles[0]), uid), Resolve(roles[1..], uid, lookup))
  }

  /** The specification of a sign-in: a failed sign-in reads nothing and shows the error. */
  function SignInSpec(auth: AuthResult, lookup: (string, string) -> Lookup): (e: SignInEffect)
    ensures e.redirect.Some? != e.toast.Some?
    ensures auth.AuthFailed? ==> e.queried == [] && e.redirect == None
                                 && e.toast == Some(ErrorToast(auth.message))
  {
    match auth
    case AuthFailed(message) => SignInEffect([], None, Some(ErrorToast(message)))
    case SignedIn(uid) => Resolve(Priority, uid, lookup)
  }

  /** `Resolve` over the three roles, one step at a time. */
  lemma Unfold(uid: string, lookup: (string, string) -> Lookup)
    ensures Resolve(Priority, uid, lookup)
            == Consult(Employee, lookup("employees", uid), Resolve([Manager, Admin], uid, lookup))
    ensures Resolve([Manager, Admin], uid, lookup)
            == Consult(Manager, lookup("managers", uid), Resolve([Admin], uid, lookup))
    ensures Resolve([Admin], uid, lookup)
            == Consult(Admin, lookup("admins", uid), SignInEffect([], None, Some(ErrorToast(NoRoleMessage))))
  {
    assert [Admin][1..] == [];
    assert [Manager, Admin][1..] == [Admin];
    assert Priority[1..] == [Manager, Admin];
  }

  /**
   * The first role in priority order whose collection holds the id decides
   * the dashboard: a user is sent to role `Priority[k]`'s dashboard exactly
   * when that collection holds the id and every earlier one does not.
   */
  lemma FirstMatchingRoleWins(uid: string, lookup: (string, string) -> Lookup, k: nat)
    requires k < |Priority|
    ensures SignInSpec(SignedIn(uid), lookup).redirect == Some(Dashboard(Priority[k]))
            <==> lookup(Collection(Priority[k]), uid) == Found
                 && forall j :: 0 <= j < k ==> lookup(Collection(Priority[j]), uid) == Missing
  {
    Unfold(uid, lookup);
  }

  /** A user found in no role collection gets the "no role" toast after all three reads. */
  lemma NoRoleAssigned(uid: string, lookup: (string, string) -> Lookup)
    requires forall k :: 0 <= k < |Priority| ==> lookup(Collection(Priority[k]), uid) == Missing
    ensures SignInSpec(SignedIn(uid), lookup)
            == SignInEffect(["employees", "managers", "admins"], None, Some(ErrorToast(NoRoleMessage)))
  {
    assert lookup(Collection(Priority[0]), uid) == Missing;
    assert lookup(Collection(Priority[1]), uid) == Missing;
    assert lookup(Collection(Priority[2]), uid) == Missing;
    Unfold(uid, lookup);
  }

  /**
   * A read that fails ends the sign-in: when every earlier collection lacks
   * the id and reading role `roles[k]`'s collection fails with `message`,
   * the collections up to and including that one are read, nobody is
   * redirected, and the failure's message is shown as a "Login Error" toast.
   */
  lemma {:induction false} FailedReadShowsError(roles: seq<Role>, uid: string, lookup: (string, string) -> Lookup,
                                                k: nat, message: string)
    requires k < |roles| && lookup(Collection(roles[k]), uid) == LookupFailed(message)
    requires forall j :: 0 <= j < k ==> lookup(Collection(roles[j]), uid) == Missing
    ensures var e := Resolve(roles, uid, lookup);
            |e.queried| == k + 1 && e.redirect == None && e.toast == Some(ErrorToast(message))
  {
    if k > 0 {
      assert lookup(Collection(roles[0]), uid) == Missing;
      forall j | 0 <= j < k - 1 ensures lookup(Collection(roles[1..][j]), uid) == Missing {
        assert roles[1..][j] == roles[j + 1];
      }
      FailedReadShowsError(roles[1..], uid, lookup, k - 1, message);
    }
  }

  /** An optional effect as the list of its occurrences. */
  function Listed<T>(o: Option<T>): (r: seq<T>)
    ensures |r| <= 1
  {
    if o.Some? then [o.value] else []
  }

  /** The login page's state and the effects it has produced. */
  class LoginPage {
    var email: string
    var password: string
    var isLoading: bool
    /** The role collections read, in order. */
    var queried: seq<string>
    var redirects: seq<string>
    var toasts: seq<Toast>

    constructor ()
      ensures email == "" && password == "" && !isLoading
      ensures queried == [] && redirects == [] && toasts == []
    {
      email, password, isLoading := "", "", false;
      queried, redirects, toasts := [], [], [];
    }

    /** The page's effect logs are the earlier ones followed by the effects of `e`. */
    predicate Recorded(e: SignInEffect, queried0: seq<string>, redirects0: seq<string>, toasts0: seq<Toast>)
      reads this
    {
      queried == queried0 + e.queried
      && redirects == redirects0 + Listed(e.redirect)
      && toasts == toasts0 + Listed(e.toast)
    }

    /**
     * `handleSignIn`: signs in with the page's credentials and, once signed
     * in, routes the user by role. Its effects are those of `SignInSpec`: at
     * most one redirect, and a toast whenever there is none; loading ends in
     * every outcome.
     */
    method HandleSignIn(authenticate: (string, string) -> AuthResult, lookup: (string, string) -> Lookup)
      modifies this
      ensures Recorded(SignInSpec(authenticate(old(email), old(password)), lookup),
                       old(queried), old(redirects), old(toasts))
      ensures |redirects| <= |old(redirects)| + 1
      ensures !isLoading && email == old(email) && password == old(password)
    {
      isLoading := true;
      var auth := authenticate(email, password);
      if auth.AuthFailed? {
        toasts := toasts + [ErrorToast(auth.message)];
      } else {
        RouteByRole(auth.uid, lookup);
      }
      isLoading := false;
    }

    /**
     * The body of `handleSignIn` after sign-in: the role collections are read
     * one by one, and the first that holds the id decides the redirect; a
     * failed read raises its error and none holding the id the "no role"
     * toast.
     */
    method RouteByRole(uid: string, lookup: (string, string) -> Lookup)
      modifies this`queried, this`redirects, this`toasts
      ensures Recorded(Resolve(Priority, uid, lookup), old(queried), old(redirects), old(toasts))
    {
      Unfold(uid, lookup);
      var employeeDoc := lookup("employees", uid);
      queried := queried + ["employees"];
      if employeeDoc == Found {
        redirects := redirects + ["/employee/dashboard"];
      } else if employeeDoc.LookupFailed? {
        toasts := toasts + [ErrorToast(employeeDoc.message)];
      } else {
        var managerDoc := lookup("managers", uid);
        queried := queried + ["managers"];
        if managerDoc == Found {
          redirects := redirects + ["/manager/dashboard"];
        } else if managerDoc.LookupFailed? {
          toasts := toasts + [ErrorToast(managerDoc.message)];
        } else {
          var adminDoc := lookup("admins", uid);
          queried := queried + ["admins"];
          if adminDoc == Found {
            redirects := redirects + ["/admin/dashboard"];
          } else if adminDoc.LookupFailed? {
            toasts := toasts + [ErrorToast(adminDoc.message)];
          } else {
            toasts := toasts + [ErrorToast(NoRoleMessage)];
          }
        }
      }
    }
  }
}
