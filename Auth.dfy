/**
 * Authentication: self-registration of producers (referrer found by id), the
 * credential check behind the local login guard, and the login answer with its
 * token payload. The service writes the same `users` table the user registry holds;
 * bcrypt and the JWT signer are parameters.
 */
module Auth {
  import opened Wrappers
  import opened Errors
  import opened UserEntity
  import opened Users

  /** The validated body of `POST /auth/register`: five required strings and an optional referral code. */
  datatype RegisterAuthDto = RegisterAuthDto(
    nombre: string,
    email: string,
    password: string,
    dni: string,
    telefono: string,
    referralCode: Option<string>)

  datatype RegisterResponse = RegisterResponse(message: string, userId: string)

  const RegisteredMessage := "Usuario registrado con éxito"

  /**
   * A user as `validateUser` answers with it: the row without its password hash, and
   * without `referidoPor`, a relation the lookup by e-mail does not load.
   */
  datatype SafeUser = SafeUser(
    id: string,
    nombre: string,
    email: string,
    role: UserRole,
    isApproved: bool,
    dni: Option<string>,
    telefono: Option<string>,
    matricula: Option<string>,
    createdAt: int)

  /** `const { password, ...result } = user`, on a row loaded without its relations. */
  function WithoutPassword(u: User): (s: SafeUser)
    ensures s.id == u.id && s.nombre == u.nombre && s.email == u.email && s.role == u.role
    ensures s.isApproved == u.isApproved && s.dni == u.dni && s.telefono == u.telefono
    ensures s.matricula == u.matricula && s.createdAt == u.createdAt
  {
    SafeUser(u.id, u.nombre, u.email, u.role, u.isApproved, u.dni, u.telefono, u.matricula, u.createdAt)
  }

  /** Two rows have the same public part exactly when they differ at most in the password and the referrer. */
  lemma WithoutPasswordForgetsHashAndReferrer(u: User, v: User)
    ensures WithoutPassword(u) == WithoutPassword(v) <==> u == v.(password := u.password, referidoPor := u.referidoPor)
  {
  }

  /** The signed claims: subject, e-mail and role. */
  datatype Payload = Payload(sub: string, email: string, role: UserRole)

  datatype LoginUser = LoginUser(id: string, nombre: string, email: string, role: UserRole, nombre_completo: string)

  datatype LoginResponse = LoginResponse(access_token: string, user: LoginUser)

  /** `login`: signs the payload and echoes the user, its name twice. */
  function Login(u: SafeUser, sign: Payload -> string): (r: LoginResponse)
    ensures r.access_token == sign(Payload(u.id, u.email, u.role))
    ensures r.user.id == u.id && r.user.email == u.email && r.user.role == u.role
    ensures r.user.nombre == u.nombre && r.user.nombre_completo == u.nombre
  {
    LoginResponse(sign(Payload(u.id, u.email, u.role)), LoginUser(u.id, u.nombre, u.email, u.role, u.nombre))
  }

  /** The request identity the JWT strategy builds from a verified payload. */
  datatype Identity = Identity(id: string, email: string, nombre: Option<string>, role: UserRole)

  /** `JwtStrategy.validate`: the payload has no `nombre` claim, so that field is always absent. */
  function IdentityOf(p: Payload): (i: Identity)
    ensures i.id == p.sub && i.email == p.email && i.role == p.role && i.nombre.None?
  {
    Identity(p.sub, p.email, None, p.role)
  }

  /**
   * A token from `login` that the strategy verifies back to its payload yields the
   * user's id, e-mail and role, and no name.
   */
  lemma LoginTokenIdentity(u: SafeUser, sign: Payload -> string, verify: string -> Option<Payload>)
    requires verify(sign(Payload(u.id, u.email, u.role))) == Some(Payload(u.id, u.email, u.role))
    ensures var p := verify(Login(u, sign).access_token);
      p.Some? && IdentityOf(p.value) == Identity(u.id, u.email, None, u.role)
  {
  }

  class AuthService {
    const usersService: UsersService

    constructor(usersService: UsersService)
      ensures this.usersService == usersService
    {
      this.usersService := usersService;
    }

    /** `validateUser`: the user with that e-mail, without its password, when the password matches. */
    method ValidateUser(email: string, pass: string, compare: (string, string) -> bool) returns (r: Option<SafeUser>)
      requires usersService.Valid()
      ensures r.Some? <==> exists k | k in usersService.users ::
        usersService.users[k].email == email && compare(pass, usersService.users[k].password)
      ensures r.Some? ==> exists k | k in usersService.users ::
        usersService.users[k].email == email && r.value == WithoutPassword(usersService.users[k])
    {
      var user := usersService.FindOneByEmail(email);
      if user.Some? && compare(pass, user.value.password) {
        return Some(WithoutPassword(user.value));
      }
      forall k | k in usersService.users && usersService.users[k].email == email
        ensures !compare(pass, usersService.users[k].password)
      {
        if user.Some? {
          var j :| j in usersService.users && usersService.users[j] == user.value;
          EmailIdentifiesUser(usersService.users, j, k);
        }
      }
      return None;
    }

    /**
     * `register`: refuses a registered e-mail; looks the referral code up as a user id,
     * a malformed one failing the whole request; stores a PRODUCTOR with the hashed
     * password, no professional licence and the referrer when one was found.
     */
    method Register(dto: RegisterAuthDto, hash: string -> string, lookupError: bool, newId: string, createdAt: int)
      returns (r: Result<RegisterResponse, HttpError>)
      requires usersService.Valid() && newId !in usersService.users
      modifies usersService
      ensures usersService.Valid()
      ensures EmailTaken(old(usersService.users), dto.email) ==>
        r == Failure(BadRequest(DuplicateEmail)) && usersService.users == old(usersService.users)
      ensures !EmailTaken(old(usersService.users), dto.email) && Present(dto.referralCode) && lookupError ==>
        r == Failure(DatabaseFailure(InvalidUuid)) && usersService.users == old(usersService.users)
      ensures !EmailTaken(old(usersService.users), dto.email) && !(Present(dto.referralCode) && lookupError) ==>
        && r == Success(RegisterResponse(RegisteredMessage, newId))
        && usersService.users == old(usersService.users)[newId := User(
             newId, dto.nombre, dto.email, hash(dto.password), Productor, false, Some(dto.dni), Some(dto.telefono),
             None, createdAt,
             if Present(dto.referralCode) && dto.referralCode.value in old(usersService.users)
             then dto.referralCode else None)]
    {
      var existing := usersService.FindOneByEmail(dto.email);
      if existing.Some? {
        return Failure(BadRequest(DuplicateEmail));
      }
      var padre: Option<string> := None;
      if Present(dto.referralCode) {
        if lookupError {
          return Failure(DatabaseFailure(InvalidUuid));
        }
        if dto.referralCode.value in usersService.users {
          padre := dto.referralCode;
        }
      }
      var u := Persist(UserDraft(dto.nombre, dto.email, hash(dto.password), Some(Productor), Some(dto.dni),
                                 Some(dto.telefono), None, padre), newId, createdAt);
      InsertKeepsRegistryValid(usersService.users, newId, u);
      usersService.users := usersService.users[newId := u];
      return Success(RegisterResponse(RegisteredMessage, newId));
    }
  }
}
