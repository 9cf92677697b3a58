/**
 * The development sign-in: a fixed table of three accounts keyed by
 * username, and the signed-in user kept under one key of the browser's
 * key-value store, here the `storage` field of `AuthService`.
 */
module Auth {
  import opened Common
  import opened Text
  import opened Schema

  /** The signed-in user as the client sees it. */
  datatype AuthUser = AuthUser(
    id: string, username: string, email: string, role: Role,
    restaurantId: Option<string>, displayName: Option<string>)

  datatype DevEntry = DevEntry(password: string, user: AuthUser)

  /** The accounts, keyed by lowercase username. */
  const DevCredentials: map<string, DevEntry> := map[
    "admin" := DevEntry("admin1234", AuthUser("dev-1", "admin", "admin@local", SuperAdmin, None, Some("Super Admin Raj"))),
    "owner1" := DevEntry("ownerpass",
      AuthUser("dev-2", "owner1", "owner1@local", RestaurantOwner, Some("res-1"), Some("Owner — Cafe Blue"))),
    "owner2" := DevEntry("owner2pass",
      AuthUser("dev-3", "owner2", "owner2@local", RestaurantOwner, Some("res-2"), Some("Owner — Spice House")))
  ]

  /** The store key holding the signed-in user. */
  const DevUserKey := "dev_auth_user"

  /**
   * A value in the store: the serialization of a user, or some other text
   * (written by something else, or left over).
   */
  datatype Stored = UserJson(user: AuthUser) | Text(s: string)

  /** The username as looked up: trimmed, then lowercased. */
  function NormalizeUsername(u: string): (r: string)
    ensures exists a, b ::
              && 0 <= a <= b <= |u| && AllSpace(u[..a]) && AllSpace(u[b..]) && |r| == b - a
              && (forall i :: 0 <= i < |r| ==> r[i] == LowerChar(u[a + i]))
    ensures r == [] || (!IsSpace(r[0]) && !IsSpace(r[|r| - 1]))
  {
    LowerKeepsSpaces(Trim(u));
    Lower(Trim(u))
  }

  /** Normalizing a normalized name changes nothing. */
  lemma NormalizeIdempotent(u: string)
    ensures NormalizeUsername(NormalizeUsername(u)) == NormalizeUsername(u)
  {
    var n := NormalizeUsername(u);
    TrimClean(n);
    LowerIdempotent(Trim(u));
  }

  /** The account `login` accepts: the normalized name's entry, when the password matches exactly. */
  function CheckCredentials(username: string, password: string): (r: Option<AuthUser>)
    ensures r.Some? <==>
      NormalizeUsername(username) in DevCredentials && DevCredentials[NormalizeUsername(username)].password == password
    ensures r.Some? ==> r.value == DevCredentials[NormalizeUsername(username)].user
  {
    var key := NormalizeUsername(username);
    if key in DevCredentials && DevCredentials[key].password == password then Some(DevCredentials[key].user)
    else None
  }

  /** Surrounding blanks and capitals in the name are accepted. */
  lemma PaddedAdminAccepted()
    ensures CheckCredentials(" ADMIN ", "admin1234") == Some(DevCredentials["admin"].user)
  {
    NormalizedPadded();
    AdminEntry();
  }

  /** The password is compared as typed. */
  lemma PasswordCaseMatters()
    ensures CheckCredentials("admin", "ADMIN1234") == None
  {
    NormalizedPlain();
    AdminEntry();
    assert "admin1234"[0] != "ADMIN1234"[0];
  }

  lemma NormalizedPadded()
    ensures NormalizeUsername(" ADMIN ") == "admin"
  {
    TrimPadded();
    LowerAdmin();
  }

  lemma NormalizedPlain()
    ensures NormalizeUsername("admin") == "admin"
  {
    assert !IsSpace('a') && !IsSpace('n');
    TrimClean("admin");
    LowerAdmin();
  }

  lemma TrimPadded()
    ensures Trim(" ADMIN ") == "ADMIN"
  {
    assert LeadingSpaces(" ADMIN ") == 1;
    assert " ADMIN "[1..] == "ADMIN ";
    assert TrailingSpaces("ADMIN ") == 1;
  }

  lemma LowerAdmin()
    ensures Lower("ADMIN") == "admin" && Lower("admin") == "admin"
  {
    var r := Lower("ADMIN");
    assert r[0] == 'a' && r[1] == 'd' && r[2] == 'm' && r[3] == 'i' && r[4] == 'n';
    var t := Lower("admin");
    assert t[0] == 'a' && t[1] == 'd' && t[2] == 'm' && t[3] == 'i' && t[4] == 'n';
  }

  lemma AdminEntry()
    ensures "admin" in DevCredentials && DevCredentials["admin"].password == "admin1234"
  {
  }

  /** The value a store read shows: `null` for no key, for "", "undefined" and "null", and for text that is no user. */
  function CurrentUser(storage: map<string, Stored>): (u: Option<AuthUser>)
    ensures u.Some? <==> DevUserKey in storage && storage[DevUserKey].UserJson?
    ensures u.Some? ==> u.value == storage[DevUserKey].user
  {
    if DevUserKey in storage && storage[DevUserKey].UserJson? then Some(storage[DevUserKey].user) else None
  }

  /** The text values `getCurrentUser` treats as no user without parsing. */
  predicate IsBlankMarker(s: string) {
    s == "" || s == "undefined" || s == "null"
  }

  /** The store after a read: a value that is neither a user nor one of the blank markers is dropped. */
  function AfterRead(storage: map<string, Stored>): (r: map<string, Stored>)
    ensures r.Keys <= storage.Keys
    ensures forall k :: k in storage && k != DevUserKey ==> k in r && r[k] == storage[k]
    ensures DevUserKey in r <==> DevUserKey in storage && (storage[DevUserKey].UserJson? || IsBlankMarker(storage[DevUserKey].s))
    ensures DevUserKey in r ==> r[DevUserKey] == storage[DevUserKey]
  {
    if DevUserKey in storage && storage[DevUserKey].Text? && !IsBlankMarker(storage[DevUserKey].s) then
      storage - {DevUserKey}
    else
      storage
  }

  /** A second read finds nothing left to clean up and shows the same user. */
  lemma ReadTwice(storage: map<string, Stored>)
    ensures AfterRead(AfterRead(storage)) == AfterRead(storage)
    ensures CurrentUser(AfterRead(storage)) == CurrentUser(storage)
  {
  }

  /** A stored user is read back as that user. */
  lemma StoredUserReadBack(storage: map<string, Stored>, u: AuthUser)
    ensures CurrentUser(storage[DevUserKey := UserJson(u)]) == Some(u)
    ensures AfterRead(storage[DevUserKey := UserJson(u)]) == storage[DevUserKey := UserJson(u)]
  {
  }

  class AuthService {
    /** The browser's key-value store. */
    var storage: map<string, Stored>

    constructor(initial: map<string, Stored>)
      ensures storage == initial
    {
      storage := initial;
    }

    /**
     * `login`: on accepted credentials the user is stored under the key and
     * returned; otherwise it fails and the store is untouched.
     */
    method Login(username: string, password: string) returns (r: Option<AuthUser>)
      modifies this
      ensures r == CheckCredentials(username, password)
      ensures r.Some? ==> storage == old(storage)[DevUserKey := UserJson(r.value)]
      ensures r.None? ==> storage == old(storage)
    {
      var key := NormalizeUsername(username);
      if key in DevCredentials && DevCredentials[key].password == password {
        var entry := DevCredentials[key];
        storage := storage[DevUserKey := UserJson(entry.user)];
        return Some(entry.user);
      }
      return None;
    }

    /** `logout`: the key is removed. */
    method Logout()
      modifies this
      ensures storage == old(storage) - {DevUserKey}
    {
      storage := storage - {DevUserKey};
    }

    /** `getCurrentUser`. */
    method GetCurrentUser() returns (u: Option<AuthUser>)
      modifies this
      ensures u == CurrentUser(old(storage))
      ensures storage == AfterRead(old(storage))
    {
      if DevUserKey !in storage {
        return None;
      }
      match storage[DevUserKey]
      case UserJson(user) =>
        return Some(user);
      case Text(s) =>
        if IsBlankMarker(s) {
          return None;
        }
        storage := storage - {DevUserKey};
        return None;
    }
  }

  /** Signing in and then reading the store gives the signed-in user; after signing out there is none. */
  method SignInRoundTrip(initial: map<string, Stored>, username: string, password: string)
    returns (signedIn: Option<AuthUser>, current: Option<AuthUser>, afterLogout: Option<AuthUser>)
    ensures signedIn == CheckCredentials(username, password)
    ensures signedIn.Some? ==> current == signedIn
    ensures signedIn.None? ==> current == CurrentUser(initial)
    ensures afterLogout == None
  {
    var auth := new AuthService(initial);
    signedIn := auth.Login(username, password);
    current := auth.GetCurrentUser();
    auth.Logout();
    afterLogout := auth.GetCurrentUser();
  }
}
