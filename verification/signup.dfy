/**
 * Sign-up: the account is created with the auth provider, a profile document
 * (id, names and email; never the password) is written to the collection of
 * the chosen role, and the new user is sent to that role's dashboard. Any
 * failure ends in an error toast instead.
 *
 * The auth provider and the document store's write are oracles passed to
 * `HandleSignUp`; the documents stored, the redirects and the toasts are
 * recorded in the page's fields.
 */
module Signup {
  import opened Wrappers
  import opened Effects
  import Login

  /** What the auth provider answers when asked to create an account. */
  datatype AccountResult = Created(uid: string) | CreateFailed(message: string)

  /** The profile written for a new user. */
  datatype UserRecord = UserRecord(id: string, firstName: string, lastName: string, email: string)

  /** A document written to the store: its collection, its id and its data. */
  datatype StoredDoc = StoredDoc(collection: string, id: string, data: UserRecord)

  const CreatedToast := Toast(Standard, "Account Created", "You have successfully signed up.")

  function ErrorToast(message: string): Toast {
    Toast(Destructive, "Signup Error", message)
  }

  /** The role a value of the role selector names, if any. */
  function RoleOf(role: string): (r: Option<Login.Role>)
    ensures r == Some(Login.Employee) <==> role == "employee"
    ensures r == Some(Login.Manager) <==> role == "manager"
    ensures r == Some(Login.Admin) <==> role == "admin"
  {
    if role == "employee" then Some(Login.Employee)
    else if role == "manager" then Some(Login.Manager)
    else if role == "admin" then Some(Login.Admin)
    else None
  }

  /**
   * The collection the profile is written to: the role's own collection,
   * the same one sign-in reads for that role; the empty name for any other
   * value.
   */
  function CollectionFor(role: string): (name: string)
    ensures name == "" <==> RoleOf(role).None?
    ensures RoleOf(role).Some? ==> name == Login.Collection(RoleOf(role).value)
  {
    if role == "employee" then "employees"
    else if role == "manager" then "managers"
    else if role == "admin" then "admins"
    else ""
  }

  /** Where a new user is sent: the dashboard sign-in uses for that role; nowhere for any other value. */
  function RouteFor(role: string): (route: Option<string>)
    ensures route.Some? <==> CollectionFor(role) != ""
    ensures RoleOf(role).Some? ==> route == Some(Login.Dashboard(RoleOf(role).value))
  {
    if role == "employee" then Some("/employee/dashboard")
    else if role == "manager" then Some("/manager/dashboard")
    else if role == "admin" then Some("/admin/dashboard")
    else None
  }

  /**
   * Sign-up and sign-in agree: a user whose only role document is the one
   * sign-up wrote for a known role signs in to the dashboard sign-up sent
   * them to.
   */
  lemma SignUpThenSignIn(role: string, uid: string, lookup: (string, string) -> Login.Lookup)
    requires RoleOf(role).Some?
    requires forall r: Login.Role :: lookup(Login.Collection(r), uid)
                                     == if Some(r) == RoleOf(role) then Login.Found else Login.Missing
    ensures Login.SignInSpec(Login.SignedIn(uid), lookup).redirect == RouteFor(role)
  {
    var r := RoleOf(role).value;
    var k := if r == Login.Employee then 0 else if r == Login.Manager then 1 else 2;
    assert Login.Priority[k] == r;
    forall j | 0 <= j < k
      ensures lookup(Login.Collection(Login.Priority[j]), uid) == Login.Missing
    {
      assert Login.Priority[j] != r;
    }
    Login.FirstMatchingRoleWins(uid, lookup, k);
  }

  /** The sign-up page's state and the effects it has produced. */
  class SignupPage {
    var firstName: string
    var lastName: string
    var email: string
    var password: string
    var role: string
    var isLoading: bool
    /** The documents this page has stored. */
    var documents: seq<StoredDoc>
    var redirects: seq<string>
    var toasts: seq<Toast>

    /** The form starts empty, with the employee role selected. */
    constructor ()
      ensures firstName == "" && lastName == "" && email == "" && password == ""
      ensures role == "employee" && !isLoading
      ensures documents == [] && redirects == [] && toasts == []
    {
      firstName, lastName, email, password := "", "", "", "";
      role := "employee";
      isLoading := false;
      documents, redirects, toasts := [], [], [];
    }

    /** The role selector's change handler. */
    method SetRole(value: string)
      modifies this`role
      ensures role == value
    {
      role := value;
    }

    /**
     * `handleSignUp`. When the account is created and the profile stored,
     * the profile (built from the form, keyed by the new id) is in the
     * role's collection, the success toast is raised and the user is sent to
     * the role's dashboard. A failure of either step raises the error toast
     * with the failure's message and stores and redirects nothing. The form
     * is left as it was and loading ends in every outcome.
     */
    method HandleSignUp(createAccount: (string, string) -> AccountResult,
                        setDoc: (string, string, UserRecord) -> Option<string>)
      modifies this
      ensures firstName == old(firstName) && lastName == old(lastName) && email == old(email)
      ensures password == old(password) && role == old(role) && !isLoading
      ensures createAccount(old(email), old(password)).CreateFailed? ==>
                documents == old(documents) && redirects == old(redirects)
                && toasts == old(toasts) + [ErrorToast(createAccount(old(email), old(password)).message)]
      ensures createAccount(old(email), old(password)).Created? ==>
                var uid := createAccount(old(email), old(password)).uid;
                var record := UserRecord(uid, old(firstName), old(lastName), old(email));
                match setDoc(CollectionFor(old(role)), uid, record)
                case Some(message) =>
                  documents == old(documents) && redirects == old(redirects)
                  && toasts == old(toasts) + [ErrorToast(message)]
                case None =>
                  documents == old(documents) + [StoredDoc(CollectionFor(old(role)), uid, record)]
                  && toasts == old(toasts) + [CreatedToast]
                  && redirects == old(redirects) + Login.Listed(RouteFor(old(role)))
    {
      isLoading := true;
      var account := createAccount(email, password);
      if account.CreateFailed? {
        toasts := toasts + [ErrorToast(account.message)];
      } else {
        var uid := account.uid;
        var userData := UserRecord(uid, firstName, lastName, email);
        var collectionName := "";
        if role == "employee" {
          collectionName := "employees";
        } else if role == "manager" {
          collectionName := "managers";
        } else if role == "admin" {
          collectionName := "admins";
        }
        var failure := setDoc(collectionName, uid, userData);
        if failure.Some? {
          toasts := toasts + [ErrorToast(failure.value)];
        } else {
          documents := documents + [StoredDoc(collectionName, uid, userData)];
          toasts := toasts + [CreatedToast];
          if role == "employee" {
            redirects := redirects + ["/employee/dashboard"];
          } else if role == "manager" {
            redirects := redirects + ["/manager/dashboard"];
          } else if role == "admin" {
            redirects := redirects + ["/admin/dashboard"];
          }
        }
      }
      isLoading := false;
    }
  }
}
