/**
 * The claim intake request and the field constraints its class-validator decorators
 * impose before the service sees it.
 */
module CreateReclamoDto {
  import opened Wrappers
  import opened Text

  /**
   * The validated request body. Every `@IsOptional` field is an Option, and so is
   * `telefono`, whose only validator `@IsString()` rejects a missing value but accepts
   * the empty string. The other required fields are strings: their validators include
   * `@IsNotEmpty()`, which rejects `undefined` and `""` alike, so a missing one is
   * modelled as the empty string.
   */
  datatype CreateReclamoDto = CreateReclamoDto(
    nombre: string,
    dni: string,
    email: string,
    telefono: Option<string>,
    rol_victima: string,
    codigo_ref: Option<string>,
    aseguradora_tercero: Option<string>,
    patente_tercero: Option<string>,
    patente_propia: Option<string>,
    relato_hecho: Option<string>,
    fecha_hecho: Option<string>,
    hora_hecho: Option<string>,
    lugar_hecho: Option<string>,
    localidad: Option<string>,
    tiene_seguro: Option<string>)

  /** The fields the validator reports on. */
  datatype Field = Nombre | Dni | Email | Telefono | RolVictima | TieneSeguro

  /** JavaScript's `\s`: the characters a regular expression without the `u` flag treats as white space. */
  predicate IsJsWhitespace(c: char) {
    c == '\t' || c == '\n' || c == '\U{000B}' || c == '\U{000C}' || c == '\r' || c == ' '
    || c == '\U{00A0}' || c == '\U{1680}' || ('\U{2000}' <= c <= '\U{200A}')
    || c == '\U{2028}' || c == '\U{2029}' || c == '\U{202F}' || c == '\U{205F}'
    || c == '\U{3000}' || c == '\U{FEFF}'
  }

  /** The character class `[a-zA-ZáéíóúÁÉÍÓÚñÑ\s]`. */
  predicate IsNameChar(c: char) {
    ('a' <= c <= 'z') || ('A' <= c <= 'Z')
    || c == 'á' || c == 'é' || c == 'í' || c == 'ó' || c == 'ú'
    || c == 'Á' || c == 'É' || c == 'Í' || c == 'Ó' || c == 'Ú'
    || c == 'ñ' || c == 'Ñ' || IsJsWhitespace(c)
  }

  /** `@IsNotEmpty() @MinLength(3) @Matches(/^[a-zA-ZáéíóúÁÉÍÓÚñÑ\s]*$/)`. */
  predicate ValidNombre(s: string) {
    s != "" && |s| >= 3 && forall i :: 0 <= i < |s| ==> IsNameChar(s[i])
  }

  /**
   * `@IsNumberString({})` as written: the validator's `isNumeric` with no options, which
   * matches `^[+-]?([0-9]*[.])?[0-9]+$`, so a sign and a decimal point are accepted.
   */
  predicate IsNumericAsWritten(s: string) {
    var t := if |s| > 0 && (s[0] == '+' || s[0] == '-') then s[1..] else s;
    (|t| > 0 && AllDigits(t))
    || exists i | 0 <= i < |t| :: t[i] == '.' && AllDigits(t[..i]) && |t| > i + 1 && AllDigits(t[i + 1..])
  }

  /** The `dni` decorators as written: non-empty, `isNumeric`, 7 to 8 characters long. */
  predicate ValidDniAsWritten(s: string) {
    s != "" && IsNumericAsWritten(s) && 7 <= |s| <= 8
  }

  /** The `dni` constraint its message states ("solo puede contener números"): 7 or 8 decimal digits. */
  predicate ValidDni(s: string) {
    7 <= |s| <= 8 && AllDigits(s)
  }

  /** A sign and a decimal point pass the decorators as written although the value is not made of digits. */
  lemma DniAcceptsSignAndPoint()
    ensures ValidDniAsWritten("-12.3456") && !ValidDni("-12.3456")
  {
    var s := "-12.3456";
    var t := s[1..];
    assert t == "12.3456";
    assert t[..2] == "12" && t[3..] == "3456";
    assert AllDigits(t[..2]) && AllDigits(t[3..]);
    assert t[2] == '.' && |t| > 3;
    assert !IsDigit(s[0]);
  }

  /** Every digits-only value of the right length passes the decorators as written too. */
  lemma ValidDniPassesAsWritten(s: string)
    requires ValidDni(s)
    ensures ValidDniAsWritten(s)
  {
  }

  /** `@IsBooleanString()`: the validator's `isBoolean`, which accepts these four strings. */
  predicate IsBooleanString(s: string) {
    s == "true" || s == "false" || s == "1" || s == "0"
  }

  /** The constraint each field must meet; `isEmail` stands for the validator's `@IsEmail()`. */
  predicate FieldValid(dto: CreateReclamoDto, f: Field, isEmail: string -> bool) {
    match f
    case Nombre => ValidNombre(dto.nombre)
    case Dni => ValidDniAsWritten(dto.dni)
    case Email => dto.email != "" && isEmail(dto.email)
    case Telefono => dto.telefono.Some?
    case RolVictima => dto.rol_victima != ""
    case TieneSeguro => dto.tiene_seguro.None? || IsBooleanString(dto.tiene_seguro.value)
  }

  /** The fields that fail their constraints, in declaration order. */
  function Violations(dto: CreateReclamoDto, isEmail: string -> bool): (r: seq<Field>)
    ensures forall f :: f in r <==> !FieldValid(dto, f, isEmail)
  {
    (if FieldValid(dto, Nombre, isEmail) then [] else [Nombre])
    + (if FieldValid(dto, Dni, isEmail) then [] else [Dni])
    + (if FieldValid(dto, Email, isEmail) then [] else [Email])
    + (if FieldValid(dto, Telefono, isEmail) then [] else [Telefono])
    + (if FieldValid(dto, RolVictima, isEmail) then [] else [RolVictima])
    + (if FieldValid(dto, TieneSeguro, isEmail) then [] else [TieneSeguro])
  }

  /** A request with only declared properties that the validation pipe lets through. */
  predicate Valid(dto: CreateReclamoDto, isEmail: string -> bool) {
    Violations(dto, isEmail) == []
  }

  /** What a valid request guarantees, field by field. */
  lemma ValidRequest(dto: CreateReclamoDto, isEmail: string -> bool)
    requires Valid(dto, isEmail)
    ensures |dto.nombre| >= 3 && forall i :: 0 <= i < |dto.nombre| ==> IsNameChar(dto.nombre[i])
    ensures 7 <= |dto.dni| <= 8 && IsNumericAsWritten(dto.dni)
    ensures dto.email != "" && isEmail(dto.email)
    ensures dto.telefono.Some?
    ensures dto.rol_victima != ""
    ensures dto.tiene_seguro.Some? ==> IsBooleanString(dto.tiene_seguro.value)
  {
    assert FieldValid(dto, Nombre, isEmail) && FieldValid(dto, Dni, isEmail) && FieldValid(dto, Email, isEmail);
    assert FieldValid(dto, Telefono, isEmail) && FieldValid(dto, RolVictima, isEmail) && FieldValid(dto, TieneSeguro, isEmail);
  }

  /** The request the `dni` message describes: valid as written, with a DNI made of digits only. */
  predicate ValidAsIntended(dto: CreateReclamoDto, isEmail: string -> bool) {
    Valid(dto, isEmail) && ValidDni(dto.dni)
  }

  /**
   * With the intended rule the DNI is 7 or 8 decimal digits; among requests that pass as
   * written, the intended rule turns away exactly those whose DNI holds a non-digit.
   */
  lemma IntendedDniRule(dto: CreateReclamoDto, isEmail: string -> bool)
    ensures ValidAsIntended(dto, isEmail) ==> 7 <= |dto.dni| <= 8 && AllDigits(dto.dni)
    ensures Valid(dto, isEmail) ==> (ValidAsIntended(dto, isEmail) <==> AllDigits(dto.dni))
  {
    if Valid(dto, isEmail) {
      ValidRequest(dto, isEmail);
    }
  }

  /** Every optional field, `codigo_ref` and the incident fields included, may be absent. */
  lemma OptionalFieldsMayBeAbsent(dto: CreateReclamoDto, isEmail: string -> bool)
    requires Valid(dto, isEmail)
    ensures Valid(dto.(codigo_ref := None, aseguradora_tercero := None, patente_tercero := None,
                       patente_propia := None, relato_hecho := None, fecha_hecho := None,
                       hora_hecho := None, lugar_hecho := None, localidad := None,
                       tiene_seguro := None), isEmail)
  {
    ValidRequest(dto, isEmail);
  }

  /** `rol_victima` is any non-empty string, not one of a fixed set of roles. */
  lemma AnyRoleNameAccepted(dto: CreateReclamoDto, isEmail: string -> bool, rol: string)
    requires Valid(dto, isEmail) && rol != ""
    ensures Valid(dto.(rol_victima := rol), isEmail)
  {
    ValidRequest(dto, isEmail);
  }
}
