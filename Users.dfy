/**
 * The user registry: sign-up through the users endpoint (referrer found by e-mail,
 * role defaulted), the e-mail lookup login relies on, the list of a producer's
 * referrals, and three placeholder handlers that only answer with a sentence. The
 * table is a map from primary key to row; password hashing is a parameter.
 */
module Users {
  import opened Wrappers
  import opened Errors
  import opened Text
  import opened Tables
  import opened UserEntity

  /** The validated body of `POST /users`; `role` has passed `@IsEnum(UserRole)`. */
  datatype CreateUserDto = CreateUserDto(
    nombre: string,
    email: string,
    password: string,
    role: Option<UserRole>,
    dni: Option<string>,
    telefono: Option<string>,
    matricula: Option<string>,
    referralCode: Option<string>,
    emailReferido: Option<string>)

  predicate EmailTaken(users: map<string, User>, email: string) {
    exists k | k in users :: users[k].email == email
  }

  /**
   * The registry's integrity: each row sits under its own id, no two rows share an
   * e-mail (the column's unique index), and a referrer is another registered user.
   */
  ghost predicate ValidRegistry(users: map<string, User>) {
    && (forall k | k in users :: users[k].id == k)
    && (forall k1, k2 | k1 in users && k2 in users && k1 != k2 :: users[k1].email != users[k2].email)
    && (forall k | k in users && users[k].referidoPor.Some? ::
          users[k].referidoPor.value in users && users[k].referidoPor.value != k)
  }

  /** Adding a fresh row with an unused e-mail and a registered referrer keeps the registry's integrity. */
  lemma InsertKeepsRegistryValid(users: map<string, User>, id: string, u: User)
    requires ValidRegistry(users) && id !in users && u.id == id
    requires !EmailTaken(users, u.email)
    requires u.referidoPor.Some? ==> u.referidoPor.value in users
    ensures ValidRegistry(users[id := u])
  {
  }

  /** In a valid registry an e-mail names at most one user. */
  lemma EmailIdentifiesUser(users: map<string, User>, k1: string, k2: string)
    requires ValidRegistry(users) && k1 in users && k2 in users && users[k1].email == users[k2].email
    ensures k1 == k2
  {
  }

  /** What `findReferidos` selects of a referred user: no password and no personal data. */
  datatype ReferralView = ReferralView(id: string, nombre: string, email: string, role: UserRole, createdAt: int)

  function ViewOf(u: User): ReferralView {
    ReferralView(u.id, u.nombre, u.email, u.role, u.createdAt)
  }

  const DuplicateEmail := "El email ya está registrado."

  class UsersService {
    /** The `users` table, by primary key. */
    var users: map<string, User>

    ghost predicate Valid()
      reads this
    {
      ValidRegistry(users)
    }

    constructor()
      ensures users == map[] && Valid()
    {
      users := map[];
    }

    /** `findOneByEmail`. */
    method FindOneByEmail(email: string) returns (r: Option<User>)
      ensures r.Some? ==> r.value in users.Values && r.value.email == email
      ensures r.None? <==> !EmailTaken(users, email)
    {
      var k := FindKey(users, (u: User) => u.email == email);
      if k.None? {
        return None;
      }
      return Some(users[k.value]);
    }

    /**
     * `create`: refuses a registered e-mail; credits the user whose e-mail is
     * `emailReferido`, when there is one; stores the hashed password and the supplied
     * role, PRODUCTOR when none is supplied; the new user is not approved.
     */
    method Create(dto: CreateUserDto, hash: string -> string, newId: string, createdAt: int)
      returns (r: Result<User, HttpError>)
      requires Valid() && newId !in users
      modifies this
      ensures Valid()
      ensures EmailTaken(old(users), dto.email) ==>
        r == Failure(BadRequest(DuplicateEmail)) && users == old(users)
      ensures !EmailTaken(old(users), dto.email) ==>
        && r.Success? && users == old(users)[newId := r.value]
        && r.value.id == newId && r.value.createdAt == createdAt
        && r.value.nombre == dto.nombre && r.value.email == dto.email && r.value.password == hash(dto.password)
        && r.value.role == (if dto.role.Some? then dto.role.value else Productor) && !r.value.isApproved
        && r.value.dni == dto.dni && r.value.telefono == dto.telefono && r.value.matricula == dto.matricula
        && (r.value.referidoPor.Some? <==> Present(dto.emailReferido) && EmailTaken(old(users), dto.emailReferido.value))
        && (r.value.referidoPor.Some? ==>
              r.value.referidoPor.value in old(users)
              && old(users)[r.value.referidoPor.value].email == dto.emailReferido.value)
    {
      var existing := FindOneByEmail(dto.email);
      if existing.Some? {
        return Failure(BadRequest(DuplicateEmail));
      }
      var padre: Option<string> := None;
      if Present(dto.emailReferido) {
        var found := FindKey(users, (u: User) => u.email == dto.emailReferido.value);
        if found.Some? {
          padre := found;
        }
      }
      var u := Persist(UserDraft(dto.nombre, dto.email, hash(dto.password), dto.role, dto.dni, dto.telefono,
                                 dto.matricula, padre), newId, createdAt);
      InsertKeepsRegistryValid(users, newId, u);
      users := users[newId := u];
      return Success(u);
    }

    /** `findReferidos`: the users a producer referred, newest first, without sensitive fields. */
    method FindReferidos(padreId: string) returns (r: seq<ReferralView>)
      ensures forall v :: v in r <==> exists k | k in users :: users[k].referidoPor == Some(padreId) && v == ViewOf(users[k])
      ensures forall i, j :: 0 <= i < j < |r| ==> r[i].createdAt >= r[j].createdAt
      ensures |r| == |Matching(users, (u: User) => u.referidoPor == Some(padreId))|
    {
      var table := users;
      var p := (u: User) => u.referidoPor == Some(padreId);
      var keys := SelectDesc(table, p, (u: User) => u.createdAt);
      DistinctListSize(keys, Matching(table, p));
      r := seq(|keys|, i requires 0 <= i < |keys| => ViewOf(table[keys[i]]));
      forall i, j | 0 <= i < j < |r| ensures r[i].createdAt >= r[j].createdAt {
        assert RankOf(table, (u: User) => u.createdAt, keys[i]) >= RankOf(table, (u: User) => u.createdAt, keys[j]);
      }
      forall v ensures v in r <==> exists k | k in table :: table[k].referidoPor == Some(padreId) && v == ViewOf(table[k]) {
        if exists k | k in table :: table[k].referidoPor == Some(padreId) && v == ViewOf(table[k]) {
          var k :| k in table && table[k].referidoPor == Some(padreId) && v == ViewOf(table[k]);
          var i :| 0 <= i < |keys| && keys[i] == k;
          assert r[i] == v;
        }
      }
    }

    /** The placeholder `findOne`: a sentence naming the id; the table is not read. */
    function FindOne(id: string): (s: string)
      ensures Contains(s, id)
    {
      ContainsMiddle("This action returns a #", id, " user");
      "This action returns a #" + id + " user"
    }

    /** The placeholder `update`: a sentence naming the id; nothing is written. */
    function Update(id: string): (s: string)
      ensures Contains(s, id)
    {
      ContainsMiddle("This action updates a #", id, " user");
      "This action updates a #" + id + " user"
    }

    /** The placeholder `remove`: a sentence naming the id; nothing is deleted. */
    function Remove(id: string): (s: string)
      ensures Contains(s, id)
    {
      ContainsMiddle("This action removes a #", id, " user");
      "This action removes a #" + id + " user"
    }
  }
}
