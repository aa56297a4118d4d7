/** The authentication routes: the bearer-token check every route depends on,
    and the three routes that register, log in and sign in a user against the
    `users` collection. Token verification is a parameter `verify`, which gives
    the decoded claims or nothing when the token is invalid or expired. */
module Auth {
  import opened Common
  import opened Text
  import opened Documents

  /** The claims of a decoded token; `uid` is `None` when the token carries none. */
  datatype Claims = Claims(uid: Option<string>, name: Option<string>, email: Option<string>, picture: Option<string>)

  /** The body of `/create-user`. */
  datatype ProfileCreate = ProfileCreate(userId: string, name: string, email: string, photoUrl: Option<string>)

  const BearerPrefix := "Bearer "

  /** `authorization.split(" ")[1]` for a header that starts with "Bearer ": the
      text after the prefix up to the next space. */
  lemma BearerToken(header: string)
    requires StartsWith(header, BearerPrefix)
    ensures |Split(header, ' ')| >= 2
    ensures Split(header, ' ')[1] == header[7..][..NextSep(header[7..], ' ', 0)]
  {
    assert header[6] == ' ';
    assert forall k :: 0 <= k < 6 ==> header[k] == BearerPrefix[k];
    assert NextSep(header, ' ', 0) == 6;
    SplitFirst(header, ' ');
    SplitFirst(header[7..], ' ');
  }

  /** `get_current_user_from_firebase_token`: 401 for an empty header or one
      without the "Bearer " prefix, before any verification; otherwise the second
      space-separated field is verified, and a refused token is 401 too. */
  function CurrentUser(header: string, verify: string -> Option<Claims>): (r: Result<Claims>)
    ensures r.Err? ==> r.error.HttpStatus? && r.error.code == Unauthorized
    ensures r.Ok? ==> StartsWith(header, BearerPrefix) && Some(r.value) == verify(header[7..][..NextSep(header[7..], ' ', 0)])
  {
    if header == [] || !StartsWith(header, BearerPrefix) then
      Err(HttpStatus(Unauthorized, "Invalid authorization header format"))
    else
      BearerToken(header);
      match verify(Split(header, ' ')[1])
      case None => Err(HttpStatus(Unauthorized, "Invalid or expired token"))
      case Some(claims) => Ok(claims)
  }

  /** The caller is known exactly when the header has the prefix and `verify`
      accepts the token that follows it; every refusal is a 401. */
  lemma CurrentUserSpec(header: string, verify: string -> Option<Claims>)
    ensures CurrentUser(header, verify).Ok? <==>
      StartsWith(header, BearerPrefix) && verify(header[7..][..NextSep(header[7..], ' ', 0)]).Some?
    ensures CurrentUser(header, verify).Ok? ==>
      CurrentUser(header, verify).value == verify(header[7..][..NextSep(header[7..], ' ', 0)]).value
    ensures CurrentUser(header, verify).Err? ==>
      CurrentUser(header, verify).error.HttpStatus? && CurrentUser(header, verify).error.code == Unauthorized
    ensures !StartsWith(header, BearerPrefix) ==>
      CurrentUser(header, verify) == Err(HttpStatus(Unauthorized, "Invalid authorization header format"))
  {
    if StartsWith(header, BearerPrefix) {
      BearerToken(header);
    }
  }

  const MismatchDetail := "User ID does not match the authenticated user"

  /** The profile `/create-user` stores: the payload's fields, with an absent or
      empty photo URL stored as "", and empty reference lists. */
  function Registered(p: ProfileCreate, now: int): UserDoc
  {
    UserDoc(p.userId, Some(p.name), Some(p.email), Some(if p.photoUrl.Some? && p.photoUrl.value != "" then p.photoUrl.value else ""),
            now, None, [], [])
  }

  /** `create_user`: reading the caller's uid from claims without one raises
      `KeyError` before anything is stored; 403 when the payload names another
      user than the caller; an `_id` that is already stored makes the insert fail
      with 500; otherwise the profile is inserted and returned. */
  method CreateUser(users: Users, caller: Claims, p: ProfileCreate, now: int) returns (r: Result<UserDoc>)
    modifies users
    ensures caller.uid.None? ==> r == Err(MissingKey("uid")) && users.docs == old(users.docs)
    ensures caller.uid.Some? && caller.uid.value != p.userId ==>
      r == Err(HttpStatus(Forbidden, MismatchDetail)) && users.docs == old(users.docs)
    ensures caller.uid == Some(p.userId) && p.userId in old(users.docs) ==>
      r == Err(HttpStatus(InternalError, "Failed to create user")) && users.docs == old(users.docs)
    ensures caller.uid == Some(p.userId) && p.userId !in old(users.docs) ==>
      r == Ok(Registered(p, now)) && users.docs == old(users.docs)[p.userId := Registered(p, now)]
  {
    if caller.uid.None? {
      return Err(MissingKey("uid"));
    }
    if caller.uid.value != p.userId {
      return Err(HttpStatus(Forbidden, MismatchDetail));
    }
    var u := Registered(p, now);
    if u.id in users.docs {
      return Err(HttpStatus(InternalError, "Failed to create user"));
    }
    users.docs := users.docs[u.id := u];
    r := Ok(u);
  }

  /** `login_email_password`: 403 when the payload names a user and it is not the
      caller (a token without a uid matches no user); otherwise the profile stored
      under the payload's id, or 404. */
  function LoginEmailPassword(users: map<string, UserDoc>, caller: Claims, payloadUserId: string): (r: Result<UserDoc>)
    ensures r.Ok? <==> (payloadUserId == "" || Some(payloadUserId) == caller.uid) && payloadUserId in users
    ensures r.Ok? ==> r.value == users[payloadUserId]
    ensures payloadUserId != "" && Some(payloadUserId) != caller.uid ==> r == Err(HttpStatus(Forbidden, MismatchDetail))
    ensures (payloadUserId == "" || Some(payloadUserId) == caller.uid) && payloadUserId !in users ==>
      r == Err(HttpStatus(NotFound, "User profile not found, Please complete registration"))
  {
    if payloadUserId != "" && Some(payloadUserId) != caller.uid then Err(HttpStatus(Forbidden, MismatchDetail))
    else if payloadUserId !in users then Err(HttpStatus(NotFound, "User profile not found, Please complete registration"))
    else Ok(users[payloadUserId])
  }

  /** A user who registered can log in right away and gets the registered profile. */
  lemma {:induction false} RegisterThenLogin(users: map<string, UserDoc>, caller: Claims, p: ProfileCreate, now: int)
    requires caller.uid == Some(p.userId) && p.userId !in users
    ensures LoginEmailPassword(users[p.userId := Registered(p, now)], caller, p.userId) == Ok(Registered(p, now))
  {
  }

  /** The profile `google_sign_in` creates from the token's claims, which carry a
      uid by then: a missing or empty picture is stored as null. */
  function FromClaims(c: Claims, now: int): UserDoc
    requires c.uid.Some?
  {
    UserDoc(c.uid.value, c.name, c.email, if c.picture.Some? && c.picture.value != "" then c.picture else None, now, None, [], [])
  }

  /** The collection after a successful Google sign-in: the caller's profile is
      created when it is missing, and nothing else changes. */
  function SignedIn(users: map<string, UserDoc>, c: Claims, now: int): (r: map<string, UserDoc>)
    requires c.uid.Some?
    ensures r.Keys == users.Keys + {c.uid.value}
    ensures c.uid.value in users ==> r == users
    ensures c.uid.value !in users ==> r[c.uid.value] == FromClaims(c, now) && forall k :: k in users ==> r[k] == users[k]
  {
    if c.uid.value in users then users else users[c.uid.value := FromClaims(c, now)]
  }

  /** `google_sign_in`: 403 when the payload names a user other than the caller,
      401 when the token has no uid or an empty one; otherwise the caller's profile is created if
      missing, and the profile found before that step is returned (nothing for a
      new user). */
  method GoogleSignIn(users: Users, caller: Claims, payloadUserId: string, now: int) returns (r: Result<Option<UserDoc>>)
    modifies users
    ensures payloadUserId != "" && Some(payloadUserId) != caller.uid ==>
      r == Err(HttpStatus(Forbidden, MismatchDetail)) && users.docs == old(users.docs)
    ensures (payloadUserId == "" || Some(payloadUserId) == caller.uid) && caller.uid in {None, Some("")} ==>
      r == Err(HttpStatus(Unauthorized, "User ID not found in token")) && users.docs == old(users.docs)
    ensures (payloadUserId == "" || Some(payloadUserId) == caller.uid) && caller.uid.Some? && caller.uid.value != "" ==>
      r == Ok(if caller.uid.value in old(users.docs) then Some(old(users.docs)[caller.uid.value]) else None) &&
      users.docs == SignedIn(old(users.docs), caller, now)
  {
    if payloadUserId != "" && Some(payloadUserId) != caller.uid {
      return Err(HttpStatus(Forbidden, MismatchDetail));
    }
    if caller.uid.None? || caller.uid.value == "" {
      return Err(HttpStatus(Unauthorized, "User ID not found in token"));
    }
    var userId := caller.uid.value;
    var found: Option<UserDoc> := if userId in users.docs then Some(users.docs[userId]) else None;
    if found.None? {
      users.docs := users.docs[userId := FromClaims(caller, now)];
    }
    r := Ok(found);
  }

  /** Signing in again changes nothing: the profile created by the first sign-in
      is kept, whatever the time of the second, and it is what the second returns. */
  lemma {:induction false} SignInIdempotent(users: map<string, UserDoc>, c: Claims, t1: int, t2: int)
    requires c.uid.Some?
    ensures SignedIn(SignedIn(users, c, t1), c, t2) == SignedIn(users, c, t1)
    ensures c.uid.value in SignedIn(users, c, t1) &&
      SignedIn(users, c, t1)[c.uid.value] == if c.uid.value in users then users[c.uid.value] else FromClaims(c, t1)
  {
  }
}
