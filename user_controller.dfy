/**
  Registration and login in the JavaScript back end. The users collection
  is a map by id; what `findOne({ email })` returned is an input tied to it
  by `FoundByEmail`. Hashing, comparing and signing are the library calls,
  passed in as functions; `salt` is what `genSalt` produced.
 */
module UserController {
  import opened Api
  import opened SwiggyStore

  /** The `{ token, role }` a successful login or registration answers with. */
  datatype Session = Session(token: string, role: string)

  /** `found` is a user with that email, or `None` when no user has it. */
  predicate FoundByEmail(users: map<UserId, User>, email: string, found: Option<UserId>)
  {
    match found
    case None => forall id :: id in users ==> users[id].email != email
    case Some(id) => id in users && users[id].email == email
  }

  /** No two users share an email. */
  predicate UniqueEmails(users: map<UserId, User>)
  {
    forall a, b :: a in users && b in users && users[a].email == users[b].email ==> a == b
  }

  const MinPasswordLength := 8

  /** `s.length` in JavaScript: UTF-16 code units, two for a character beyond the Basic Multilingual Plane. */
  function Utf16Length(s: string): (n: nat)
    ensures |s| <= n <= 2 * |s|
    decreases |s|
  {
    if s == [] then 0 else (if s[0] as int >= 0x1_0000 then 2 else 1) + Utf16Length(s[1..])
  }

  /** Four emoji are eight UTF-16 units, long enough for a password, whereas four letters are not. */
  lemma Utf16LengthSamples()
    ensures Utf16Length("\U{1F600}\U{1F600}\U{1F600}\U{1F600}") == 8
    ensures Utf16Length("abcd") == 4
  {
  }

  /** `loginUser`. */
  function Login(users: map<UserId, User>, email: string, password: string, found: Option<UserId>,
                 compare: (string, string) -> bool, sign: UserId -> string): (r: Result<ApiResponse<Session>>)
    requires FoundByEmail(users, email, found)
    ensures r.Ok? <==> found.Some? && compare(password, users[found.value].password)
    ensures r.Error? ==> r.status == 404 || r.status == 401
  {
    if found.None? then Error(404, "User Doesn't exist")
    else
      var user := users[found.value];
      if !compare(password, user.password) then Error(401, "Invalid Credentials")
      else Ok(ApiResponse(200, Some(Session(sign(found.value), user.role)), "Login successful"))
  }

  /** `registerUser`: the new users collection and the reply. `newId` is the id the save assigns. */
  function Register(users: map<UserId, User>, name: string, email: string, password: string, found: Option<UserId>,
                    isEmail: string -> bool, hash: (string, string) -> string, salt: string,
                    newId: UserId, sign: UserId -> string): (r: Result<(map<UserId, User>, ApiResponse<Session>)>)
    requires FoundByEmail(users, email, found) && newId !in users
    ensures r.Ok? ==> r.value.0.Keys == users.Keys + {newId} && r.value.0[newId].password == hash(password, salt)
    ensures r.Error? ==> r.status == 409 || r.status == 400
  {
    if found.Some? then Error(409, "User already exists")
    else if !isEmail(email) then Error(400, "Please enter valid email")
    else if Utf16Length(password) < MinPasswordLength then Error(400, "Please enter strong password")
    else
      var user := User(name, email, hash(password, salt), "user", Some(map[]));
      Ok((users[newId := user], ApiResponse(201, Some(Session(sign(newId), user.role)), "Registration successful")))
  }

  /**
    The ladder, in order: an existing email is refused first, whatever else
    is wrong; then an invalid email; then a password shorter than 8; and
    every request passing all three is accepted.
   */
  lemma RegisterLadder(users: map<UserId, User>, name: string, email: string, password: string, found: Option<UserId>,
                       isEmail: string -> bool, hash: (string, string) -> string, salt: string,
                       newId: UserId, sign: UserId -> string)
    requires FoundByEmail(users, email, found) && newId !in users
    ensures var r := Register(users, name, email, password, found, isEmail, hash, salt, newId, sign);
      && ((exists id :: id in users && users[id].email == email) <==> r == Error(409, "User already exists"))
      && (r == Error(400, "Please enter valid email") <==> found.None? && !isEmail(email))
      && (r == Error(400, "Please enter strong password") <==> found.None? && isEmail(email) && Utf16Length(password) < 8)
      && (r.Ok? <==> found.None? && isEmail(email) && Utf16Length(password) >= 8)
  {
  }

  /** A refused registration writes nothing; an accepted one adds exactly the new user, with the hash for a password. */
  lemma RegisterStoresHash(users: map<UserId, User>, name: string, email: string, password: string, found: Option<UserId>,
                           isEmail: string -> bool, hash: (string, string) -> string, salt: string,
                           newId: UserId, sign: UserId -> string)
    requires FoundByEmail(users, email, found) && newId !in users
    requires Register(users, name, email, password, found, isEmail, hash, salt, newId, sign).Ok?
    ensures var (after, reply) := Register(users, name, email, password, found, isEmail, hash, salt, newId, sign).value;
      && after.Keys == users.Keys + {newId}
      && (forall id :: id in users ==> after[id] == users[id])
      && after[newId] == User(name, email, hash(password, salt), "user", Some(map[]))
      && reply == ApiResponse(201, Some(Session(sign(newId), "user")), "Registration successful")
  {
  }

  /** Registration keeps emails unique. */
  lemma RegisterKeepsEmailsUnique(users: map<UserId, User>, name: string, email: string, password: string,
                                  found: Option<UserId>, isEmail: string -> bool, hash: (string, string) -> string,
                                  salt: string, newId: UserId, sign: UserId -> string)
    requires FoundByEmail(users, email, found) && newId !in users && UniqueEmails(users)
    requires Register(users, name, email, password, found, isEmail, hash, salt, newId, sign).Ok?
    ensures UniqueEmails(Register(users, name, email, password, found, isEmail, hash, salt, newId, sign).value.0)
  {
  }

  /**
    Whoever has just registered can log in with the same password, provided
    the password checks against its own hash; the login finds the new
    account, whatever the lookup returns.
   */
  lemma RegisteredUserCanLogIn(users: map<UserId, User>, name: string, email: string, password: string,
                               found: Option<UserId>, isEmail: string -> bool, hash: (string, string) -> string,
                               compare: (string, string) -> bool, salt: string, newId: UserId,
                               sign: UserId -> string, foundLater: Option<UserId>)
    requires FoundByEmail(users, email, found) && newId !in users
    requires Register(users, name, email, password, found, isEmail, hash, salt, newId, sign).Ok?
    requires compare(password, hash(password, salt))
    requires FoundByEmail(Register(users, name, email, password, found, isEmail, hash, salt, newId, sign).value.0,
                          email, foundLater)
    ensures var after := Register(users, name, email, password, found, isEmail, hash, salt, newId, sign).value.0;
      Login(after, email, password, foundLater, compare, sign) == Ok(ApiResponse(200, Some(Session(sign(newId), "user")), "Login successful"))
  {
    var after := Register(users, name, email, password, found, isEmail, hash, salt, newId, sign).value.0;
    assert after[newId].email == email;
    assert foundLater.value !in users;
  }

  /** Login answers 404 for an unknown email, 401 for a wrong password, and otherwise the user's token and role. */
  lemma LoginOutcomes(users: map<UserId, User>, email: string, password: string, found: Option<UserId>,
                      compare: (string, string) -> bool, sign: UserId -> string)
    requires FoundByEmail(users, email, found)
    ensures var r := Login(users, email, password, found, compare, sign);
      && ((forall id :: id in users ==> users[id].email != email) <==> r == Error(404, "User Doesn't exist"))
      && (found.Some? && !compare(password, users[found.value].password) <==> r == Error(401, "Invalid Credentials"))
      && (r.Ok? ==> r.value.statusCode == 200 && r.value.data == Some(Session(sign(found.value), users[found.value].role)))
  {
  }
}
