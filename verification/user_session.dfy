/** `UserSession`: whether the user has signed in with their Apple ID, kept
    in `UserDefaults` under two keys and mirrored in two published
    properties. `UserDefaults` is a string-to-string map here. */
module UserSession {
  import opened Common

  const UserIdKey: string := "appleUserID"
  const UserNameKey: string := "appleUserName"

  type Defaults = map<string, string>

  /** `defaults.string(forKey:)`. */
  function Lookup(d: Defaults, key: string): (r: Option<string>)
    ensures r.Some? <==> key in d
    ensures r.Some? ==> d[key] == r.value
  {
    if key in d then Some(d[key]) else None
  }

  datatype Session = Session(defaults: Defaults, isSignedIn: bool, userName: Option<string>)

  /** The published properties agree with what is stored. */
  predicate Consistent(s: Session) {
    && (s.isSignedIn <==> UserIdKey in s.defaults)
    && s.userName == Lookup(s.defaults, UserNameKey)
  }

  /** `init`: signed in exactly when a user id is stored; the name is the
      stored name. */
  function Init(d: Defaults): (s: Session)
    ensures s.defaults == d
    ensures s.isSignedIn <==> UserIdKey in d
    ensures UserNameKey in d ==> s.userName == Some(d[UserNameKey])
    ensures UserNameKey !in d ==> s.userName.None?
  {
    Session(d, UserIdKey in d, Lookup(d, UserNameKey))
  }

  /** The computed property `userID`: always read from the store. */
  function UserId(s: Session): (r: Option<string>)
    ensures r.Some? <==> UserIdKey in s.defaults
    ensures r.Some? ==> r.value == s.defaults[UserIdKey]
  {
    Lookup(s.defaults, UserIdKey)
  }

  /** `compactMap { $0 }`. */
  function Present(parts: seq<Option<string>>): (r: seq<string>)
    ensures |r| <= |parts|
    decreases |parts|
  {
    if |parts| == 0 then []
    else (match parts[0] case Some(p) => [p] case None => []) + Present(parts[1..])
  }

  /** `joined(separator:)`. */
  function Joined(parts: seq<string>, separator: string): string
    decreases |parts|
  {
    if |parts| == 0 then ""
    else if |parts| == 1 then parts[0]
    else parts[0] + separator + Joined(parts[1..], separator)
  }

  /** The display name built from the credential's given and family names:
      the parts that are present, in that order, separated by one space.
      An empty part still counts as present. */
  function JoinName(given: Option<string>, family: Option<string>): (r: string)
    ensures given.Some? && family.Some? ==> r == given.value + " " + family.value
    ensures given.Some? && family.None? ==> r == given.value
    ensures given.None? && family.Some? ==> r == family.value
    ensures given.None? && family.None? ==> r == ""
  {
    var parts := [given, family];
    assert parts[1..] == [family] && [family][1..] == [];
    var kept := (match given case Some(g) => [g] case None => [])
              + (match family case Some(f) => [f] case None => []);
    assert Present(parts) == kept;
    assert |kept| == 2 ==> kept[1..] == [kept[1]] && Joined(kept[1..], " ") == kept[1];
    Joined(kept, " ")
  }

  /** The credential an authorization carries. */
  datatype Credential =
    | AppleIdCredential(user: string, givenName: Option<string>, familyName: Option<string>)
    | OtherCredential

  /** `Result<ASAuthorization, Error>`. */
  datatype Authorization = Authorized(credential: Credential) | AuthorizationFailed(reason: string)

  /** The call `CloudKitUserDataManager.shared.save(userID:name:people:alerts:)`
      made after a sign-in, with empty people and alerts lists. */
  datatype ProfileSave = ProfileSave(userId: string, name: string)

  datatype AuthorizationStep = AuthorizationStep(session: Session, profileSave: Option<ProfileSave>)

  /** `handleAuthorization(result:)`. An Apple-ID credential stores the user
      id and the joined name, publishes the name, marks the user signed in
      and requests the profile save. Any other credential, and any failure,
      change nothing. */
  function HandleAuthorization(s: Session, result: Authorization): (r: AuthorizationStep)
    ensures (result.AuthorizationFailed? || result.credential.OtherCredential?) ==>
      r == AuthorizationStep(s, None)
    ensures result.Authorized? && result.credential.AppleIdCredential? ==>
      var c := result.credential;
      var name := JoinName(c.givenName, c.familyName);
      && r.session.isSignedIn
      && r.session.userName == Some(name)
      && UserId(r.session) == Some(c.user)
      && Lookup(r.session.defaults, UserNameKey) == Some(name)
      && (forall k | k in s.defaults && k != UserIdKey && k != UserNameKey :: k in r.session.defaults && r.session.defaults[k] == s.defaults[k])
      && r.session.defaults.Keys == s.defaults.Keys + {UserIdKey, UserNameKey}
      && r.profileSave == Some(ProfileSave(c.user, name))
  {
    match result
    case AuthorizationFailed(_) => AuthorizationStep(s, None)
    case Authorized(OtherCredential) => AuthorizationStep(s, None)
    case Authorized(AppleIdCredential(user, given, family)) =>
      var name := JoinName(given, family);
      var d := s.defaults[UserIdKey := user][UserNameKey := name];
      AuthorizationStep(Session(d, true, Some(name)), Some(ProfileSave(user, name)))
  }

  /** `signOut`: both keys are removed, the user is signed out and has no
      name; other stored keys are kept. */
  function SignOut(s: Session): (r: Session)
    ensures !r.isSignedIn && r.userName.None?
    ensures UserId(r).None?
    ensures r.defaults.Keys == s.defaults.Keys - {UserIdKey, UserNameKey}
    ensures forall k | k in r.defaults :: r.defaults[k] == s.defaults[k]
  {
    Session(s.defaults - {UserIdKey, UserNameKey}, false, None)
  }

  /** Signing out twice is signing out once. */
  lemma SignOutIdempotent(s: Session)
    ensures SignOut(SignOut(s)) == SignOut(s)
  {
  }

  /** Every operation keeps the published properties in agreement with the
      store, starting from `init`. */
  lemma ConsistencyPreserved(d: Defaults, s: Session, result: Authorization)
    requires Consistent(s)
    ensures Consistent(Init(d))
    ensures Consistent(HandleAuthorization(s, result).session)
    ensures Consistent(SignOut(s))
  {
  }

  /** What is stored is enough to rebuild the session: relaunching the app
      after any operation gives back the same state. */
  lemma RelaunchRestoresSession(s: Session, result: Authorization)
    requires Consistent(s)
    ensures var after := HandleAuthorization(s, result).session; Init(after.defaults) == after
    ensures Init(SignOut(s).defaults) == SignOut(s)
  {
  }
}
