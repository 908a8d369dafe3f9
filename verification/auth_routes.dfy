/** The `/signup`, `/login` and `/me` handlers (backend/src/routes/auth.ts) over
    an abstract user store keyed by email.

    The cryptographic helpers and the text of a zod error are not part of this
    model: they enter as the functions of an `Env`. A step that throws inside a
    handler is named by a `Fault`; each handler catches it and answers 400. */
module AuthRoutes {
  import opened Wire
  import opened Validation

  const InvalidCredentials := "Invalid credentials"
  const UserNotFound := "User not found"
  const SignupFailed := "Signup failed"
  const LoginFailed := "Login failed"

  /** What a handler hands to `generateToken`: signup passes the record the
      store selected (no password), login the full stored record. */
  datatype SignedRecord = SelectedFields(view: PublicUser) | StoredRecord(user: User)

  /** The collaborators the handlers call but this model does not define:
      zod's `.email()` check, the message of a `ZodError` built from its issues,
      `hashPassword`, `comparePassword(plain, hash)` and `generateToken`, which
      also depends on the time the token is issued. */
  datatype Env = Env(validEmail: string -> bool,
                     zodMessage: seq<Issue> -> string,
                     hash: string -> string,
                     compare: (string, string) -> bool,
                     sign: (SignedRecord, int) -> string)

  /** The awaited calls inside the handlers that can throw. */
  datatype Step = FindUser | HashPassword | CreateUser | ComparePassword | GenerateToken

  /** Either nothing throws, or the call at `step` throws; `message` is the
      `Error`'s message, or `None` when the thrown value is not an `Error`. */
  datatype Fault = NoFault | FailsAt(step: Step, message: Option<string>)
  {
    predicate At(s: Step) { FailsAt? && step == s }
  }

  /** The catch blocks: `error instanceof Error ? error.message : fallback`. */
  function CaughtMessage(fault: Fault, fallback: string): (r: string)
    ensures fault.FailsAt? && fault.message.Some? ==> r == fault.message.value
    ensures fault.NoFault? || fault.message.None? ==> r == fallback
  {
    match fault
    case FailsAt(_, Some(m)) => m
    case _ => fallback
  }

  /** `/me`: the middleware has attached the authenticated user, or has not. */
  function Me(attached: Option<PublicUser>): (r: Response)
    ensures attached.None? ==> r == Failure(401, UserNotFound)
    ensures attached.Some? ==> r.status == 200 && r.success && r.user == attached
    ensures attached.Some? ==> r.token.None? && r.message.None? && r.errors.None?
  {
    match attached
    case None => Failure(401, UserNotFound)
    case Some(u) => Response(200, true, None, None, Some(u), None)
  }

  class AuthRouter {
    const env: Env
    /** The user store: each email maps to its account. */
    var users: map<string, User>
    /** The id the store gives the next account it creates. */
    var nextId: nat

    ghost predicate Valid()
      reads this
    {
      && (forall e :: e in users ==> users[e].email == e && users[e].id < nextId)
      && (forall e1, e2 :: e1 in users && e2 in users && e1 != e2 ==> users[e1].id != users[e2].id)
    }

    constructor (env: Env)
      ensures Valid() && this.env == env && users == map[] && nextId == 1
    {
      this.env := env;
      users := map[];
      nextId := 1;
    }

    /** The account the store creates for a signup at time `now`. */
    function NewUser(input: SignupInput, now: int): User
      reads this
    {
      User(nextId, input.name, input.email, env.hash(input.password), now, now)
    }

    /** POST /auth/signup (lines 11-61). */
    method Signup(input: SignupInput, now: int, fault: Fault) returns (r: Response)
      requires Valid()
      modifies this
      ensures Valid()
      ensures r.status == 201 || r.status == 400 || r.status == 409
      ensures r.success <==> r.status == 201
      // rejected input: the zod error's message, nothing stored
      ensures SignupIssues(input, env.validEmail) != [] ==>
        r == Failure(400, env.zodMessage(SignupIssues(input, env.validEmail))) && unchanged(this)
      // duplicate email
      ensures r.status == 409 <==>
        SignupIssues(input, env.validEmail) == [] && !fault.At(FindUser) && input.email in old(users)
      ensures r.status == 409 ==> r == Failure(409, EmailAlreadyExists) && unchanged(this)
      // the store changes exactly when `create` is reached and succeeds
      ensures users != old(users) <==>
        && SignupIssues(input, env.validEmail) == [] && input.email !in old(users)
        && !fault.At(FindUser) && !fault.At(HashPassword) && !fault.At(CreateUser)
      ensures users == old(users) ==> nextId == old(nextId)
      ensures users != old(users) ==>
        users == old(users)[input.email := old(NewUser(input, now))] && nextId == old(nextId) + 1
      // success
      ensures r.status == 201 <==> users != old(users) && !fault.At(GenerateToken)
      ensures r.status == 201 ==>
        && r.user == Some(WithoutPassword(users[input.email]))
        && r.token == Some(env.sign(SelectedFields(WithoutPassword(users[input.email])), now))
        && r.message.None? && r.errors.None?
      // a thrown error: 400 with its message; only a failing token leaves the new account behind
      ensures r.status == 400 && SignupIssues(input, env.validEmail) == [] ==>
        fault.FailsAt? && r == Failure(400, CaughtMessage(fault, SignupFailed))
      ensures r.status == 400 && !fault.At(GenerateToken) ==> unchanged(this)
    {
      var issues := SignupIssues(input, env.validEmail);
      if issues != [] {
        r := Failure(400, env.zodMessage(issues));
        return;
      }
      if fault.At(FindUser) {
        r := Failure(400, CaughtMessage(fault, SignupFailed));
        return;
      }
      if input.email in users {
        r := Failure(409, EmailAlreadyExists);
        return;
      }
      if fault.At(HashPassword) || fault.At(CreateUser) {
        r := Failure(400, CaughtMessage(fault, SignupFailed));
        return;
      }
      var user := NewUser(input, now);
      users := users[input.email := user];
      nextId := nextId + 1;
      if fault.At(GenerateToken) {
        r := Failure(400, CaughtMessage(fault, SignupFailed));
        return;
      }
      var view := WithoutPassword(user);
      r := Response(201, true, None, Some(env.sign(SelectedFields(view), now)), Some(view), None);
    }

    /** POST /auth/login (lines 64-109) at time `now`. The store is only read. */
    method Login(input: LoginInput, now: int, fault: Fault) returns (r: Response)
      requires Valid()
      ensures r.status == 200 || r.status == 400 || r.status == 401
      ensures r.success <==> r.status == 200
      ensures LoginIssues(input, env.validEmail) != [] ==>
        r == Failure(400, env.zodMessage(LoginIssues(input, env.validEmail)))
      // an unknown email and a wrong password are indistinguishable
      ensures r.status == 401 <==>
        && LoginIssues(input, env.validEmail) == [] && !fault.At(FindUser)
        && (input.email !in users
            || (!fault.At(ComparePassword) && !env.compare(input.password, users[input.email].password)))
      ensures r.status == 401 ==> r == Failure(401, InvalidCredentials)
      ensures r.status == 200 <==>
        && LoginIssues(input, env.validEmail) == [] && input.email in users
        && !fault.At(FindUser) && !fault.At(ComparePassword) && !fault.At(GenerateToken)
        && env.compare(input.password, users[input.email].password)
      ensures r.status == 200 ==>
        && r.user == Some(WithoutPassword(users[input.email]))
        && r.user.value.email == input.email
        && r.token == Some(env.sign(StoredRecord(users[input.email]), now))
        && r.message.None? && r.errors.None?
      ensures r.status == 400 && LoginIssues(input, env.validEmail) == [] ==>
        fault.FailsAt? && r == Failure(400, CaughtMessage(fault, LoginFailed))
    {
      var issues := LoginIssues(input, env.validEmail);
      if issues != [] {
        r := Failure(400, env.zodMessage(issues));
        return;
      }
      if fault.At(FindUser) {
        r := Failure(400, CaughtMessage(fault, LoginFailed));
        return;
      }
      if input.email !in users {
        r := Failure(401, InvalidCredentials);
        return;
      }
      var user := users[input.email];
      if fault.At(ComparePassword) {
        r := Failure(400, CaughtMessage(fault, LoginFailed));
        return;
      }
      if !env.compare(input.password, user.password) {
        r := Failure(401, InvalidCredentials);
        return;
      }
      if fault.At(GenerateToken) {
        r := Failure(400, CaughtMessage(fault, LoginFailed));
        return;
      }
      r := Response(200, true, None, Some(env.sign(StoredRecord(user), now)), Some(WithoutPassword(user)), None);
    }
  }

  /** `comparePassword(p, hashPassword(p))` holds for every password. */
  ghost predicate HashesVerify(env: Env)
  {
    forall p :: env.compare(p, env.hash(p))
  }

  /** A fresh signup followed by a login with the same credentials: the account is
      created once, the login finds it, and both answers carry the same user.
      The two tokens sign different records at different times. */
  method SignupThenLogin(router: AuthRouter, input: SignupInput, signupTime: int, loginTime: int)
    returns (signedUp: Response, loggedIn: Response)
    requires router.Valid() && HashesVerify(router.env)
    requires SignupIssues(input, router.env.validEmail) == [] && input.email !in router.users
    modifies router
    ensures router.Valid()
    ensures signedUp.status == 201 && loggedIn.status == 200
    ensures input.email in router.users
    ensures signedUp.user == loggedIn.user == Some(WithoutPassword(router.users[input.email]))
    ensures signedUp.token == Some(router.env.sign(SelectedFields(WithoutPassword(router.users[input.email])), signupTime))
    ensures loggedIn.token == Some(router.env.sign(StoredRecord(router.users[input.email]), loginTime))
    ensures |router.users.Keys| == |old(router.users).Keys| + 1
  {
    signedUp := router.Signup(input, signupTime, NoFault);
    SignupInputPassesLogin(input, router.env.validEmail);
    loggedIn := router.Login(LoginInput(input.email, input.password), loginTime, NoFault);
  }

  /** Signing up twice with one email: the second answer is 409 and the store
      keeps the first account. */
  method SignupTwice(router: AuthRouter, first: SignupInput, second: SignupInput, now: int)
    returns (a: Response, b: Response)
    requires router.Valid()
    requires SignupIssues(first, router.env.validEmail) == [] && first.email !in router.users
    requires SignupIssues(second, router.env.validEmail) == [] && second.email == first.email
    modifies router
    ensures a.status == 201 && b == Failure(409, EmailAlreadyExists)
    ensures router.users.Keys == old(router.users).Keys + {first.email}
    ensures router.users[first.email].name == first.name
    ensures router.users == old(router.users)[first.email :=
      User(old(router.nextId), first.name, first.email, router.env.hash(first.password), now, now)]
  {
    a := router.Signup(first, now, NoFault);
    ghost var afterFirst := router.users;
    assert afterFirst.Keys == old(router.users).Keys + {first.email};
    assert afterFirst[first.email].name == first.name;
    b := router.Signup(second, now, NoFault);
    assert b.status == 409;
    assert router.users == afterFirst;
  }
}
