/**
 * `SessionManager`: the logged-in user, kept in the "MaseteroSession"
 * shared-preferences file, modelled as the key/value map that file holds.
 */
module SessionManager {
  import opened Nullable

  /** A stored preference value, tagged with the type it was written as. */
  datatype Value = BoolValue(b: bool) | IntValue(i: int) | StringValue(s: string)

  type Prefs = map<string, Value>

  const KeyIsLoggedIn: string := "isLoggedIn"
  const KeyUserId: string := "userId"
  const KeyUserEmail: string := "userEmail"
  const KeyUserName: string := "userName"

  /** A session nobody has written to. */
  const EmptySession: Prefs := map[]

  /**
   * Every key the session writes holds a value of the type it is read back
   * as, so no getter meets a value of the wrong type (on which the platform
   * would throw). Every transition keeps this true.
   */
  predicate WellTyped(p: Prefs) {
    && (KeyIsLoggedIn in p ==> p[KeyIsLoggedIn].BoolValue?)
    && (KeyUserId in p ==> p[KeyUserId].IntValue?)
    && (KeyUserEmail in p ==> p[KeyUserEmail].StringValue?)
    && (KeyUserName in p ==> p[KeyUserName].StringValue?)
  }

  /** `putString`: storing `null` removes the key, as the platform specifies. */
  function PutString(p: Prefs, key: string, value: Option<string>): (q: Prefs)
    ensures value.Some? ==> key in q && q[key] == StringValue(value.value)
    ensures value.None? ==> key !in q
    ensures forall k | k != key :: (k in q <==> k in p) && (k in q ==> q[k] == p[k])
  {
    if value.Some? then p[key := StringValue(value.value)] else p - {key}
  }

  /** `isLoggedIn()`: the stored flag, `false` by default. */
  function IsLoggedIn(p: Prefs): bool {
    if KeyIsLoggedIn in p && p[KeyIsLoggedIn].BoolValue? then p[KeyIsLoggedIn].b else false
  }

  /** `getUserId()`: the stored id, -1 by default. */
  function UserId(p: Prefs): int {
    if KeyUserId in p && p[KeyUserId].IntValue? then p[KeyUserId].i else -1
  }

  /** `getUserEmail()`: the stored email, "" by default. */
  function UserEmail(p: Prefs): string {
    if KeyUserEmail in p && p[KeyUserEmail].StringValue? then p[KeyUserEmail].s else ""
  }

  /** `getUserName()`: the stored name, "" by default. */
  function UserName(p: Prefs): string {
    if KeyUserName in p && p[KeyUserName].StringValue? then p[KeyUserName].s else ""
  }

  /** What the four getters show. */
  datatype View = View(loggedIn: bool, userId: int, email: string, name: string)

  function ViewOf(p: Prefs): View {
    View(IsLoggedIn(p), UserId(p), UserEmail(p), UserName(p))
  }

  /** The getters' defaults: logged out, id -1, empty email and name. */
  const LoggedOut: View := View(false, -1, "", "")

  /** In a fresh session every getter returns its default. */
  lemma FreshSessionShowsDefaults()
    ensures WellTyped(EmptySession)
    ensures ViewOf(EmptySession) == LoggedOut
  {
  }

  /**
   * `createLoginSession`: logged in, with the given id, email and name; a
   * `null` email or name reads back as "".
   */
  function CreateLoginSession(p: Prefs, userId: int, email: Option<string>, name: Option<string>): (q: Prefs)
    ensures WellTyped(q)
    ensures ViewOf(q) == View(true, userId, email.GetOr(""), name.GetOr(""))
  {
    var withFlag := p[KeyIsLoggedIn := BoolValue(true)];
    var withId := withFlag[KeyUserId := IntValue(userId)];
    PutString(PutString(withId, KeyUserEmail, email), KeyUserName, name)
  }

  /** `saveUserEmail`: the email changes and nothing else the getters show. */
  function SaveUserEmail(p: Prefs, email: Option<string>): (q: Prefs)
    ensures WellTyped(p) ==> WellTyped(q)
    ensures ViewOf(q) == ViewOf(p).(email := email.GetOr(""))
  {
    PutString(p, KeyUserEmail, email)
  }

  /** `saveUserName`: the name changes and nothing else the getters show. */
  function SaveUserName(p: Prefs, name: Option<string>): (q: Prefs)
    ensures WellTyped(p) ==> WellTyped(q)
    ensures ViewOf(q) == ViewOf(p).(name := name.GetOr(""))
  {
    PutString(p, KeyUserName, name)
  }

  /** `logout`: `clear()` empties the file, so every getter is back at its default. */
  function Logout(p: Prefs): (q: Prefs)
    ensures WellTyped(q)
    ensures ViewOf(q) == LoggedOut
  {
    map[]
  }

  /**
   * Logging out twice is logging out once, and logging out forgets every
   * earlier login: a session after logout looks exactly like a fresh one.
   */
  lemma LogoutIdempotent(p: Prefs, userId: int, email: Option<string>, name: Option<string>)
    ensures Logout(Logout(p)) == Logout(p)
    ensures ViewOf(Logout(CreateLoginSession(p, userId, email, name))) == ViewOf(EmptySession)
  {
  }

  /**
   * Saving an email or a name does not log anybody in: after logout the
   * session stays logged out with id -1 whatever is saved.
   */
  lemma SavingDoesNotLogIn(p: Prefs, email: Option<string>, name: Option<string>)
    ensures !IsLoggedIn(SaveUserName(SaveUserEmail(Logout(p), email), name))
    ensures UserId(SaveUserName(SaveUserEmail(Logout(p), email), name)) == -1
  {
  }

  /** Saving the email and the name commute; a later login overrides both. */
  lemma SavesCommute(p: Prefs, email: Option<string>, name: Option<string>, userId: int, e: Option<string>, n: Option<string>)
    ensures ViewOf(SaveUserName(SaveUserEmail(p, email), name)) == ViewOf(SaveUserEmail(SaveUserName(p, name), email))
    ensures ViewOf(CreateLoginSession(SaveUserName(SaveUserEmail(p, email), name), userId, e, n)) ==
      ViewOf(CreateLoginSession(p, userId, e, n))
  {
  }
}
