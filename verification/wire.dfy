/** Record and response shapes shared by the backend (backend/src/types/index.ts). */
module Wire {

  datatype Option<+T> = None | Some(value: T)

  /** A stored account. `password` holds the bcrypt hash, never the plaintext.
      Timestamps are opaque instants supplied by the store. */
  datatype User = User(id: nat, name: string, email: string, password: string,
                       createdAt: int, updatedAt: int)

  /** `Omit<User, 'password'>`: the only shape of a user that leaves the backend. */
  datatype PublicUser = PublicUser(id: nat, name: string, email: string,
                                   createdAt: int, updatedAt: int)

  /** `const { password: _, ...rest } = user`. */
  function WithoutPassword(u: User): PublicUser
  {
    PublicUser(u.id, u.name, u.email, u.createdAt, u.updatedAt)
  }

  /** Two records give the same password-free view exactly when they differ at
      most in the password hash. */
  lemma WithoutPasswordForgetsOnlyHash(u: User, v: User)
    ensures WithoutPassword(u) == WithoutPassword(v) <==> v.(password := u.password) == u
  {
  }

  /** The JSON body sent with an HTTP status: `{success, message?, token?, user?, errors?}`. */
  datatype Response = Response(status: nat, success: bool, message: Option<string>,
                               token: Option<string>, user: Option<PublicUser>,
                               errors: Option<map<string, seq<string>>>)

  /** The conflict message of a duplicate signup, both in the route and in the
      shared error handler. */
  const EmailAlreadyExists := "Email already exists"

  /** A failure body that carries only a message. */
  function Failure(status: nat, message: string): Response
  {
    Response(status, false, Some(message), None, None, None)
  }
}
