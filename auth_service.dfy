/**
 * The authentication service: registration stores a user with a hashed
 * password and issues two tokens; login checks an e-mail and password
 * against the stored users and issues tokens for the user found.
 */
module AuthServices {
  import opened Wrappers
  import opened Text
  import opened LeadEntity

  datatype User = User(id: Id, name: string, email: string, password: string)

  /** The request body of register and login; any field may be missing. */
  datatype Credentials = Credentials(name: Option<string>, email: Option<string>, password: Option<string>)

  datatype TokenKind = Access | Refresh

  /** A signed token naming the user it was issued for, or a literal token text. */
  datatype Token = Signed(kind: TokenKind, subject: Id) | Literal(text: string)

  datatype Session = Session(user: User, accessToken: Token, refreshToken: Token)

  /** An error carrying its message and HTTP status. */
  datatype AuthError = AuthError(message: string, status: nat)

  const BadRequest: nat := 400
  const Unauthorized: nat := 401

  const MissingRegisterFields := AuthError("Please provide all fields", BadRequest)
  const UserExists := AuthError("User already exists", BadRequest)
  const MissingLoginFields := AuthError("Please provide email and password", BadRequest)
  const InvalidCredentials := AuthError("Invalid credentials", Unauthorized)
  const InvalidRefreshToken := AuthError("Invalid Refresh Token", Unauthorized)

  /** The password hashing functions: `hash` to store, `matches(plain, stored)` to compare. */
  datatype PasswordHasher = PasswordHasher(hash: string -> string, matches: (string, string) -> bool)

  /** A hasher whose hashes are never empty and always match their own password. */
  ghost predicate Sound(h: PasswordHasher) {
    forall p :: h.hash(p) != "" && h.matches(p, h.hash(p))
  }

  /** Some stored user has this e-mail, a password, and the password matches. */
  ghost predicate CanLogIn(users: map<Id, User>, h: PasswordHasher, email: string, password: string) {
    exists id :: id in users && users[id].email == email && users[id].password != ""
                 && h.matches(password, users[id].password)
  }

  /** The user registered with a password can log in with that same password. */
  lemma RegisteredUserCanLogIn(users: map<Id, User>, h: PasswordHasher, id: Id, name: string, email: string, password: string)
    requires Sound(h)
    ensures CanLogIn(users[id := User(id, name, email, h.hash(password))], h, email, password)
  {
    var after := users[id := User(id, name, email, h.hash(password))];
    assert after[id].password == h.hash(password);
  }

  class AuthService {
    const hasher: PasswordHasher

    /** The stored users, by id. */
    var users: map<Id, User>

    /** Ids are the users' own, and no two users share an e-mail. */
    ghost predicate Valid()
      reads this
    {
      && (forall id :: id in users ==> users[id].id == id)
      && (forall a, b :: a in users && b in users && users[a].email == users[b].email ==> a == b)
    }

    ghost predicate EmailTaken(email: string)
      reads this
    {
      exists id :: id in users && users[id].email == email
    }

    constructor (hasher: PasswordHasher)
      ensures Valid() && this.hasher == hasher && users == map[]
    {
      this.hasher := hasher;
      users := map[];
    }

    /** `findByEmail`: the user with that e-mail, if any. */
    method FindByEmail(email: string) returns (u: Option<User>)
      requires Valid()
      ensures u.Some? <==> EmailTaken(email)
      ensures u.Some? ==> u.value.id in users && users[u.value.id] == u.value && u.value.email == email
    {
      if id :| id in users && users[id].email == email {
        u := Some(users[id]);
      } else {
        u := None;
      }
    }

    /**
     * `register`: with name, e-mail and password given and the e-mail not yet
     * used, stores the user under the fresh id `id` with the hashed password
     * and issues tokens for that id.
     */
    method Register(data: Credentials, id: Id) returns (r: Result<Session, AuthError>)
      requires Valid() && id !in users
      modifies this
      ensures Valid()
      ensures !(Present(data.name) && Present(data.email) && Present(data.password)) ==>
        r == Err(MissingRegisterFields) && users == old(users)
      ensures Present(data.name) && Present(data.email) && Present(data.password) && old(EmailTaken(data.email.value)) ==>
        r == Err(UserExists) && users == old(users)
      ensures Present(data.name) && Present(data.email) && Present(data.password) && !old(EmailTaken(data.email.value)) ==>
        var u := User(id, data.name.value, data.email.value, hasher.hash(data.password.value));
        r == Ok(Session(u, Signed(Access, id), Signed(Refresh, id))) && users == old(users)[id := u]
    {
      if !(Present(data.name) && Present(data.email) && Present(data.password)) {
        return Err(MissingRegisterFields);
      }
      var existing := FindByEmail(data.email.value);
      if existing.Some? {
        return Err(UserExists);
      }
      var user := User(id, data.name.value, data.email.value, hasher.hash(data.password.value));
      users := users[id := user];
      r := Ok(Session(user, Signed(Access, user.id), Signed(Refresh, user.id)));
    }

    /**
     * `login`: with e-mail and password given, succeeds exactly when the
     * stored user with that e-mail has a password that matches. An unknown
     * e-mail and a wrong password give the same error.
     */
    method Login(data: Credentials) returns (r: Result<Session, AuthError>)
      requires Valid()
      ensures !(Present(data.email) && Present(data.password)) ==> r == Err(MissingLoginFields)
      ensures Present(data.email) && Present(data.password) ==>
        (r.Ok? <==> CanLogIn(users, hasher, data.email.value, data.password.value))
      ensures Present(data.email) && Present(data.password) && r.Err? ==> r.error == InvalidCredentials
      ensures r.Ok? ==>
        var u := r.value.user;
        && u.id in users && users[u.id] == u && u.email == data.email.value
        && r.value.accessToken == Signed(Access, u.id) && r.value.refreshToken == Signed(Refresh, u.id)
    {
      if !(Present(data.email) && Present(data.password)) {
        return Err(MissingLoginFields);
      }
      var email, password := data.email.value, data.password.value;
      var found := FindByEmail(email);
      if found.None? || found.value.password == "" {
        return Err(InvalidCredentials);
      }
      var user := found.value;
      if !hasher.matches(password, user.password) {
        return Err(InvalidCredentials);
      }
      r := Ok(Session(user, Signed(Access, user.id), Signed(Refresh, user.id)));
    }

    /** `refreshToken`: refuses a missing token; otherwise answers with the literal access token "placeholder". */
    method RefreshToken(token: Option<string>) returns (r: Result<Token, AuthError>)
      ensures !Present(token) ==> r == Err(InvalidRefreshToken)
      ensures Present(token) ==> r == Ok(Literal("placeholder"))
    {
      if !Present(token) {
        return Err(InvalidRefreshToken);
      }
      r := Ok(Literal("placeholder"));
    }
  }
}
