/** The `users` table: the role enum and the user record with its column defaults. */
module UserEntity {
  import opened Wrappers

  /** The four roles of the `UserRole` enum. */
  datatype UserRole = Admin | Tramitador | Productor | Organizador {
    /** The string stored in the enum column. */
    function Tag(): string {
      match this
      case Admin => "Admin"
      case Tramitador => "Tramitador"
      case Productor => "Productor"
      case Organizador => "Organizador"
    }
  }

  const AllRoles: seq<UserRole> := [Admin, Tramitador, Productor, Organizador]

  /** The role column's default. */
  const DefaultRole: UserRole := Productor

  /** The enum value whose tag is s: what the database accepts in the role column. */
  function ParseRole(s: string): (r: Option<UserRole>)
    ensures r.Some? ==> r.value.Tag() == s
    ensures r.None? ==> forall role: UserRole :: role.Tag() != s
  {
    if s == "Admin" then Some(Admin)
    else if s == "Tramitador" then Some(Tramitador)
    else if s == "Productor" then Some(Productor)
    else if s == "Organizador" then Some(Organizador)
    else None
  }

  /** There are exactly four roles, listed once each, with distinct tags. */
  lemma RolesEnumerated()
    ensures |AllRoles| == 4
    ensures forall role: UserRole :: role in AllRoles
    ensures forall i, j :: 0 <= i < j < |AllRoles| ==> AllRoles[i].Tag() != AllRoles[j].Tag()
  {
    forall role: UserRole ensures role in AllRoles {
      match role
      case Admin => assert AllRoles[0] == role;
      case Tramitador => assert AllRoles[1] == role;
      case Productor => assert AllRoles[2] == role;
      case Organizador => assert AllRoles[3] == role;
    }
  }

  lemma RoleTagRoundTrip(role: UserRole)
    ensures ParseRole(role.Tag()) == Some(role)
  {
  }

  /**
   * A stored user. `email` is unique across the table (an invariant of the service
   * that owns the table); `referidoPor` is the id of at most one other user, one hop.
   */
  datatype User = User(
    id: string,
    nombre: string,
    email: string,
    password: string,
    role: UserRole,
    isApproved: bool,
    dni: Option<string>,
    telefono: Option<string>,
    matricula: Option<string>,
    createdAt: int,
    referidoPor: Option<string>)

  /** The columns a service hands to `repository.create`; the others take their defaults. */
  datatype UserDraft = UserDraft(
    nombre: string,
    email: string,
    password: string,
    role: Option<UserRole>,
    dni: Option<string>,
    telefono: Option<string>,
    matricula: Option<string>,
    referidoPor: Option<string>)

  /** The row saving a draft produces: generated id and creation date, column defaults for the rest. */
  function Persist(d: UserDraft, id: string, createdAt: int): (u: User)
    ensures u.id == id && u.createdAt == createdAt
    ensures u.role == (if d.role.Some? then d.role.value else DefaultRole)
    ensures !u.isApproved
    ensures u.nombre == d.nombre && u.email == d.email && u.password == d.password
    ensures u.dni == d.dni && u.telefono == d.telefono && u.matricula == d.matricula
    ensures u.referidoPor == d.referidoPor
  {
    User(id, d.nombre, d.email, d.password, d.role.GetOr(DefaultRole), false,
         d.dni, d.telefono, d.matricula, createdAt, d.referidoPor)
  }
}
