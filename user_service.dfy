/** `UserService`: account creation with a hashed password, login that
    answers both kinds of failure alike, update with re-hashing, deletion. */
module UserService {
  import opened Wrappers
  import opened Domain
  import opened Exceptions
  import opened Store

  const SaltRounds := 10
  const InvalidCredentialsMessage := "Invalid credentials"

  /** What `login` returns: the user's columns except `password`, and `token`. */
  datatype LoginResult = LoginResult(id: int, email: string, role: UserRole, token: string)

  /** `{ ...userWithoutPassword, token }` */
  function LoginResultOf(u: User, token: string): LoginResult {
    LoginResult(u.id, u.email, u.role, token)
  }

  /** The result drops the password and nothing else: the user comes back
      from it with the password alone, and the token is the one given. */
  lemma LoginResultWithholdsOnlyPassword(u: User, token: string)
    ensures var l := LoginResultOf(u, token);
      User(l.id, l.email, u.password, l.role) == u && l.token == token
  {
  }

  /** The body of an update request, which `updateUser` changes in place. */
  class UserData {
    var email: Option<string>
    var password: Option<string>
    var role: Option<UserRole>

    constructor (email: Option<string>, password: Option<string>, role: Option<UserRole>)
      ensures this.email == email && this.password == password && this.role == role
    {
      this.email := email;
      this.password := password;
      this.role := role;
    }

    /** The fields as the database client receives them. */
    function Patch(): UserPatch
      reads this
    {
      UserPatch(email, password, role)
    }
  }

  class UserService {
    const prisma: Database
    /** `jwtService.sign` */
    const sign: TokenPayload -> string
    /** `bcrypt.hash(plain, rounds)`; the salt bcrypt draws is the third argument. */
    const hash: (string, int, string) -> string
    /** `bcrypt.compare(plain, hashed)` */
    const compare: (string, string) -> bool

    constructor (prisma: Database, sign: TokenPayload -> string, hash: (string, int, string) -> string, compare: (string, string) -> bool)
      ensures this.prisma == prisma && this.sign == sign && this.hash == hash && this.compare == compare
    {
      this.prisma := prisma;
      this.sign := sign;
      this.hash := hash;
      this.compare := compare;
    }

    /** `createUser`: stores the hash of the password with 10 rounds, never
        the password itself, with the given email and role; a taken email
        is the client's P2002 error. */
    method CreateUser(email: string, plainPassword: string, role: UserRole, salt: string) returns (r: Outcome<User>)
      requires prisma.Valid()
      modifies prisma
      ensures prisma.Valid()
      ensures EmailTakenByOther(old(prisma.users), email, old(prisma.nextUserId)) ==>
        r == Raised(PrismaKnownError(UniqueConstraintFailed)) && unchanged(prisma)
      ensures !EmailTakenByOther(old(prisma.users), email, old(prisma.nextUserId)) ==>
        && r.Returned?
        && r.value == User(r.value.id, email, hash(plainPassword, SaltRounds, salt), role)
        && r.value.id !in old(prisma.users)
        && prisma.users == old(prisma.users)[r.value.id := r.value]
        && prisma.products == old(prisma.products)
        && prisma.nextUserId == old(prisma.nextUserId) + 1 && prisma.nextProductId == old(prisma.nextProductId)
    {
      var hashedPassword := hash(plainPassword, SaltRounds, salt);
      r := prisma.CreateUser(email, hashedPassword, role);
    }

    /** `login`: an unknown email and a wrong password raise the same
        exception; otherwise the user without password, with a token signed
        over exactly the id and role. */
    method Login(email: string, password: string) returns (r: Outcome<LoginResult>)
      requires prisma.Valid()
      ensures (forall id :: id in prisma.users ==> prisma.users[id].email != email) ==>
        r == Raised(Unauthorized(InvalidCredentialsMessage))
      ensures forall id :: id in prisma.users && prisma.users[id].email == email ==>
        var u := prisma.users[id];
        && (!compare(password, u.password) ==> r == Raised(Unauthorized(InvalidCredentialsMessage)))
        && (compare(password, u.password) ==> r == Returned(LoginResultOf(u, sign(TokenPayload(u.id, u.role)))))
    {
      var user := prisma.FindUserByEmail(email);
      if user.None? {
        return Raised(Unauthorized(InvalidCredentialsMessage));
      }
      var isPasswordValid := compare(password, user.value.password);
      if !isPasswordValid {
        return Raised(Unauthorized(InvalidCredentialsMessage));
      }
      var payload := TokenPayload(user.value.id, user.value.role);
      var token := sign(payload);
      return Returned(LoginResultOf(user.value, token));
    }

    /** `updateUser`: a truthy password in `data` is replaced, in `data`
        itself, by its hash before the update; every other field is passed
        through as given. */
    method UpdateUser(id: int, data: UserData, salt: string) returns (r: Outcome<User>)
      requires prisma.Valid()
      modifies data, prisma
      ensures prisma.Valid()
      ensures data.email == old(data.email) && data.role == old(data.role)
      ensures Truthy(old(data.password)) ==> data.password == Some(hash(old(data.password).value, SaltRounds, salt))
      ensures !Truthy(old(data.password)) ==> data.password == old(data.password)
      ensures id !in old(prisma.users) ==> r == Raised(PrismaKnownError(RecordNotFound)) && unchanged(prisma)
      ensures id in old(prisma.users) && PatchConflicts(old(prisma.users), id, data.Patch()) ==>
        r == Raised(PrismaKnownError(UniqueConstraintFailed)) && unchanged(prisma)
      ensures id in old(prisma.users) && !PatchConflicts(old(prisma.users), id, data.Patch()) ==>
        && r == Returned(ApplyUserPatch(old(prisma.users)[id], data.Patch()))
        && prisma.users == old(prisma.users)[id := r.value]
        && prisma.products == old(prisma.products)
        && prisma.nextUserId == old(prisma.nextUserId) && prisma.nextProductId == old(prisma.nextProductId)
    {
      if data.password.Some? && data.password.value != "" {
        data.password := Some(hash(data.password.value, SaltRounds, salt));
      }
      r := prisma.UpdateUser(id, data.Patch());
    }

    /** `deleteUser`: removes exactly the record with that id. */
    method DeleteUser(id: int) returns (r: Outcome<()>)
      requires prisma.Valid()
      modifies prisma
      ensures prisma.Valid()
      ensures id !in old(prisma.users) ==> r == Raised(PrismaKnownError(RecordNotFound)) && unchanged(prisma)
      ensures id in old(prisma.users) ==>
        && r == Returned(())
        && prisma.users == old(prisma.users) - {id}
        && prisma.products == old(prisma.products)
        && prisma.nextUserId == old(prisma.nextUserId) && prisma.nextProductId == old(prisma.nextProductId)
    {
      var deleted := prisma.DeleteUser(id);
      if deleted.Raised? {
        return Raised(deleted.exception);
      }
      return Returned(());
    }
  }
}
