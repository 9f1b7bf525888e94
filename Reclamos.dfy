/**
 * The claim service: intake of a new claim with its evidence files, status updates,
 * the public lookup by tracking code, the back-office listings and the download of a
 * stored file. The claim table is a map from primary key to row; the object store, the
 * user table, the PDF renderer, the clock and the random source are collaborators or
 * parameters; the mails the service fires and forgets are recorded as requests.
 */
module Reclamos {
  import opened Wrappers
  import opened Errors
  import opened Text
  import opened ReclamoEntity
  import opened Storage
  import opened Tables
  import Dto = CreateReclamoDto
  import UserEntity
  import Mail

  // ---------------------------------------------------------------- uploaded files

  /** Largest accepted upload: 5 MiB. */
  const MaxSizeBytes: nat := 5 * 1024 * 1024

  const AllowedMimeTypes: seq<string> := ["application/pdf", "image/jpeg", "image/png"]

  /** The part of a multer file the service reads. */
  datatype UploadedFile = UploadedFile(originalname: string, mimetype: string, size: nat)

  /** The first file of each multipart field, when the field was sent. */
  datatype Files = Files(
    dni: Option<UploadedFile>,
    licencia: Option<UploadedFile>,
    cedula: Option<UploadedFile>,
    seguro: Option<UploadedFile>,
    denuncia: Option<UploadedFile>,
    fotos: Option<UploadedFile>,
    medicos: Option<UploadedFile>)

  /** `validateFile`: the MIME type is checked first, then the size. */
  function ValidateFile(f: UploadedFile): (r: Outcome<HttpError>)
    ensures r.Pass? <==> f.mimetype in AllowedMimeTypes && f.size <= MaxSizeBytes
    ensures f.mimetype !in AllowedMimeTypes ==> r == Fail(BadRequest("Formato inválido: " + f.originalname))
    ensures f.mimetype in AllowedMimeTypes && f.size > MaxSizeBytes ==>
      r == Fail(BadRequest("Archivo muy pesado: " + f.originalname))
  {
    if f.mimetype !in AllowedMimeTypes then Fail(BadRequest("Formato inválido: " + f.originalname))
    else if f.size > MaxSizeBytes then Fail(BadRequest("Archivo muy pesado: " + f.originalname))
    else Pass
  }

  /** The size bound is inclusive: a file of exactly 5 MiB passes, one byte more does not. */
  lemma FiveMiBIsTheLimit(f: UploadedFile)
    requires f.mimetype in AllowedMimeTypes
    ensures ValidateFile(f.(size := 5242880)).Pass?
    ensures ValidateFile(f.(size := 5242881)) == Fail(BadRequest("Archivo muy pesado: " + f.originalname))
  {
  }

  // ---------------------------------------------------------------- requirements

  /** `String(dto.tiene_seguro) === 'true'`. */
  predicate IsInsured(tieneSeguro: Option<string>) {
    tieneSeguro == Some("true")
  }

  /** Only the exact string "true" means insured; "1", absent or any other value means uninsured. */
  lemma OnlyTrueMeansInsured(tieneSeguro: Option<string>)
    ensures IsInsured(tieneSeguro) ==> tieneSeguro.Some? && Dto.IsBooleanString(tieneSeguro.value)
    ensures !IsInsured(None) && !IsInsured(Some("1")) && Dto.IsBooleanString("1")
  {
  }

  const Conductor := "Conductor"

  /** The documents each kind of claim needs, stated declaratively. */
  predicate RequirementsMet(dto: Dto.CreateReclamoDto, files: Files) {
    && files.dni.Some?
    && (dto.rol_victima == Conductor ==> files.licencia.Some? && files.cedula.Some?)
    && (dto.rol_victima == Conductor && IsInsured(dto.tiene_seguro) ==>
          files.seguro.Some? && files.denuncia.Some?)
    && (dto.rol_victima == Conductor && !IsInsured(dto.tiene_seguro) ==> Present(dto.relato_hecho))
    && (dto.rol_victima != Conductor ==> files.medicos.Some?)
  }

  /** The role-dependent document check `create` runs before touching anything. */
  function CheckRequirements(dto: Dto.CreateReclamoDto, files: Files): (r: Outcome<HttpError>)
    ensures r.Pass? <==> RequirementsMet(dto, files)
    ensures files.dni.None? ==> r == Fail(BadRequest("Falta el DNI."))
    ensures files.dni.Some? && dto.rol_victima == Conductor && files.licencia.None? ==>
      r == Fail(BadRequest("Falta Licencia de Conducir."))
    ensures files.dni.Some? && dto.rol_victima == Conductor && files.licencia.Some? && files.cedula.None? ==>
      r == Fail(BadRequest("Falta Cédula del vehículo."))
    ensures files.dni.Some? && dto.rol_victima != Conductor && files.medicos.None? ==>
      r == Fail(BadRequest("Faltan certificados médicos o historia clínica."))
    ensures r.Fail? ==> r.error.BadRequest?
  {
    if files.dni.None? then Fail(BadRequest("Falta el DNI."))
    else if dto.rol_victima == Conductor then
      if files.licencia.None? then Fail(BadRequest("Falta Licencia de Conducir."))
      else if files.cedula.None? then Fail(BadRequest("Falta Cédula del vehículo."))
      else if IsInsured(dto.tiene_seguro) then
        if files.seguro.None? then Fail(BadRequest("Falta Certificado de Cobertura."))
        else if files.denuncia.None? then Fail(BadRequest("Falta Denuncia Administrativa."))
        else Pass
      else if !Present(dto.relato_hecho) then Fail(BadRequest("Falta el relato de los hechos (Carta No Seguro)."))
      else Pass
    else if files.medicos.None? then Fail(BadRequest("Faltan certificados médicos o historia clínica."))
    else Pass
  }

  /** The insured and uninsured driver rules, with their messages. */
  lemma DriverRules(dto: Dto.CreateReclamoDto, files: Files)
    requires files.dni.Some? && files.licencia.Some? && files.cedula.Some? && dto.rol_victima == Conductor
    ensures IsInsured(dto.tiene_seguro) && files.seguro.None? ==>
      CheckRequirements(dto, files) == Fail(BadRequest("Falta Certificado de Cobertura."))
    ensures IsInsured(dto.tiene_seguro) && files.seguro.Some? && files.denuncia.None? ==>
      CheckRequirements(dto, files) == Fail(BadRequest("Falta Denuncia Administrativa."))
    ensures !IsInsured(dto.tiene_seguro) && !Present(dto.relato_hecho) ==>
      CheckRequirements(dto, files) == Fail(BadRequest("Falta el relato de los hechos (Carta No Seguro)."))
    ensures !IsInsured(dto.tiene_seguro) && Present(dto.relato_hecho) ==> CheckRequirements(dto, files).Pass?
  {
  }

  // ---------------------------------------------------------------- referral and tracking code

  /**
   * The producer a claim is credited to: the user whose id is `codigo_ref`, when the
   * reference is non-empty, the lookup does not error and the user exists.
   * `lookupError` stands for the database rejecting the reference (a string that is
   * not a uuid); the service swallows that error.
   */
  function ResolveReferrer(codigoRef: Option<string>, users: map<string, UserEntity.User>, lookupError: bool): (r: Option<string>)
    ensures r.Some? <==> Present(codigoRef) && !lookupError && codigoRef.value in users
    ensures r.Some? ==> r == codigoRef
  {
    if Present(codigoRef) && !lookupError && codigoRef.value in users then codigoRef else None
  }

  /** `randomBytes(3).toString('hex').toUpperCase()` for the given three random bytes. */
  function TrackingCode(rnd: seq<byte>): (c: string)
    requires |rnd| == 3
    ensures |c| == 6 && AllUpperHex(c)
    ensures FromUpperHex(c) == rnd
  {
    HexCode(rnd);
    ToUpperAscii(ToHex(rnd))
  }

  /** Distinct random draws give distinct codes: the code loses none of the randomness. */
  lemma TrackingCodeInjective(a: seq<byte>, b: seq<byte>)
    requires |a| == 3 && |b| == 3 && a != b
    ensures TrackingCode(a) != TrackingCode(b)
  {
  }

  // ---------------------------------------------------------------- file naming

  /** The last position of c in s. */
  function LastIndexOf(s: string, c: char): (r: Option<nat>)
    ensures r.Some? ==> r.value < |s| && s[r.value] == c && forall j :: r.value < j < |s| ==> s[j] != c
    ensures r.None? ==> forall j :: 0 <= j < |s| ==> s[j] != c
  {
    if s == [] then None
    else if s[|s| - 1] == c then Some(|s| - 1)
    else LastIndexOf(s[..|s| - 1], c)
  }

  /** The part of a path after its last '/'. */
  function Basename(p: string): (b: string)
    ensures |b| <= |p| && p[|p| - |b|..] == b
    ensures forall j :: 0 <= j < |b| ==> b[j] != '/'
  {
    match LastIndexOf(p, '/')
    case None => p
    case Some(i) => p[i + 1..]
  }

  /**
   * Node's `path.extname` for a path without a trailing '/': the suffix of the base name
   * from its last '.', or "" when the base name has no '.', starts with its only dot
   * run's last dot, or is "..".
   */
  function Extname(name: string): (e: string)
    ensures e == "" || (e[0] == '.' && |e| <= |name| && name[|name| - |e|..] == e)
    ensures forall j :: 1 <= j < |e| ==> e[j] != '.' && e[j] != '/'
  {
    var b := Basename(name);
    match LastIndexOf(b, '.')
    case None => ""
    case Some(i) =>
      if i == 0 || b == ".." then ""
      else
        assert b[i..] == name[|name| - |b| + i..];
        b[i..]
  }

  /** A file name `stem.ext` has the extension `.ext`. */
  lemma ExtnameOfDottedName(stem: string, ext: string)
    requires stem != "" && !(stem == "." && ext == "")
    requires forall j :: 0 <= j < |stem| ==> stem[j] != '/'
    requires forall j :: 0 <= j < |ext| ==> ext[j] != '.' && ext[j] != '/'
    ensures Extname(stem + "." + ext) == "." + ext
  {
    var name := stem + "." + ext;
    assert LastIndexOf(name, '/').None?;
    assert Basename(name) == name;
    var i := LastIndexOf(name, '.');
    assert name[|stem|] == '.';
    assert i == Some(|stem|);
    assert name[|stem|..] == "." + ext;
  }

  /** A name without a dot, or a dot file such as `.env`, has no extension. */
  lemma NoExtension(rest: string)
    requires forall j :: 0 <= j < |rest| ==> rest[j] != '.' && rest[j] != '/'
    ensures Extname(rest) == "" && Extname("." + rest) == ""
  {
    assert Basename(rest) == rest;
    assert LastIndexOf("." + rest, '/').None?;
    assert Basename("." + rest) == "." + rest;
    var d := "." + rest;
    var li := LastIndexOf(d, '.');
    assert d[0] == '.';
    assert forall j :: 1 <= j < |d| ==> d[j] == rest[j - 1];
    assert li == Some(0);
  }

  /** The name a slot's file is stored under: `${dni}-${tag}-${timestamp}${ext}`. */
  function StoredFileName(dni: string, tag: string, timestamp: nat, originalname: string): string {
    dni + "-" + tag + "-" + NatToString(timestamp) + Extname(originalname)
  }

  lemma StoredNameOfPdf(dni: string, tag: string, timestamp: nat, stem: string)
    requires stem != "" && stem != "." && forall j :: 0 <= j < |stem| ==> stem[j] != '/'
    ensures StoredFileName(dni, tag, timestamp, stem + ".pdf") == dni + "-" + tag + "-" + NatToString(timestamp) + ".pdf"
  {
    assert stem + ".pdf" == stem + "." + "pdf";
    ExtnameOfDottedName(stem, "pdf");
    assert Extname(stem + ".pdf") == ".pdf";
  }

  predicate NoSlash(s: string) {
    forall j :: 0 <= j < |s| ==> s[j] != '/'
  }

  /** Objects put in different folders never collide, whatever their names. */
  lemma DistinctFoldersDistinctPaths(f1: string, n1: string, f2: string, n2: string)
    requires NoSlash(f1) && NoSlash(f2) && f1 != f2
    ensures ObjectPath(f1, n1) != ObjectPath(f2, n2)
  {
    var p1, p2 := ObjectPath(f1, n1), ObjectPath(f2, n2);
    if |f1| == |f2| {
      assert p1[..|f1|] == f1 && p2[..|f2|] == f2;
    } else if |f1| < |f2| {
      assert p1[|f1|] == '/' && p2[|f1|] == f2[|f1|];
    } else {
      assert p2[|f2|] == '/' && p1[|f2|] == f1[|f2|];
    }
  }

  /** The storage folder of each upload slot, in upload order, and of the generated letter. */
  const SlotTags: seq<string> := ["dni", "licencia", "cedula", "poliza", "denuncia", "fotos", "medicos"]
  const AffidavitFolder := "legales"

  /** The seven slots and the letter are stored in seven plus one distinct folders, so no upload of a claim overwrites another. */
  lemma SlotFoldersDistinct(i: nat, j: nat, n1: string, n2: string)
    requires i < j < |SlotTags|
    ensures ObjectPath(SlotTags[i], n1) != ObjectPath(SlotTags[j], n2)
    ensures ObjectPath(SlotTags[i], n1) != ObjectPath(AffidavitFolder, n2)
  {
    assert forall k | 0 <= k < |SlotTags| :: NoSlash(SlotTags[k]) && SlotTags[k] != AffidavitFolder;
    DistinctFoldersDistinctPaths(SlotTags[i], n1, SlotTags[j], n2);
    DistinctFoldersDistinctPaths(SlotTags[i], n1, AffidavitFolder, n2);
  }

  // ---------------------------------------------------------------- the upload phase

  /**
   * The `upload` closure on one slot: an absent file yields no path and is never
   * validated; a present one is validated, named and handed to the store.
   */
  function SlotResult(refuses: set<string>, file: Option<UploadedFile>, tag: string, dni: string, timestamp: nat): (r: Result<Option<string>, HttpError>)
    ensures file.None? ==> r == Success(None)
    ensures file.Some? && ValidateFile(file.value).Fail? ==> r == Failure(ValidateFile(file.value).error)
    ensures file.Some? && ValidateFile(file.value).Pass? ==>
      var path := ObjectPath(tag, StoredFileName(dni, tag, timestamp, file.value.originalname));
      r == if path in refuses then Failure(StorageFailure(path)) else Success(Some(path))
  {
    match file
    case None => Success(None)
    case Some(f) =>
      match ValidateFile(f)
      case Fail(e) => Failure(e)
      case Pass =>
        var path := ObjectPath(tag, StoredFileName(dni, tag, timestamp, f.originalname));
        if path in refuses then Failure(StorageFailure(path)) else Success(Some(path))
  }

  /** The object a slot's upload left in the store. */
  function Stored(r: Result<Option<string>, HttpError>): seq<string> {
    if r.Success? && r.value.Some? then [r.value.value] else []
  }

  /** The paths obtained so far, or the error that stopped the uploads; and every object stored on the way. */
  datatype Trace = Trace(result: Result<seq<Option<string>>, HttpError>, uploaded: seq<string>)

  /** Runs one more upload after the ones traced, unless those already stopped. */
  function Then(t: Trace, r: Result<Option<string>, HttpError>): (u: Trace)
    ensures t.result.Failure? ==> u == t
    ensures t.result.Success? ==> u.uploaded == t.uploaded + Stored(r)
    ensures t.result.Success? ==> u.result == if r.Failure? then Failure(r.error) else Success(t.result.value + [r.value])
  {
    if t.result.Failure? then t
    else Trace(if r.Failure? then Failure(r.error) else Success(t.result.value + [r.value]), t.uploaded + Stored(r))
  }

  /** The seven awaited uploads of `create`, in their fixed order. */
  function UploadPhase(refuses: set<string>, files: Files, dni: string, timestamp: nat): (t: Trace)
    ensures t.result.Success? ==> |t.result.value| == 7
  {
    var t1 := Then(Trace(Success([]), []), SlotResult(refuses, files.dni, SlotTags[0], dni, timestamp));
    var t2 := Then(t1, SlotResult(refuses, files.licencia, SlotTags[1], dni, timestamp));
    var t3 := Then(t2, SlotResult(refuses, files.cedula, SlotTags[2], dni, timestamp));
    var t4 := Then(t3, SlotResult(refuses, files.seguro, SlotTags[3], dni, timestamp));
    var t5 := Then(t4, SlotResult(refuses, files.denuncia, SlotTags[4], dni, timestamp));
    var t6 := Then(t5, SlotResult(refuses, files.fotos, SlotTags[5], dni, timestamp));
    Then(t6, SlotResult(refuses, files.medicos, SlotTags[6], dni, timestamp))
  }

  // ---------------------------------------------------------------- the generated letter

  /** What the no-insurance affidavit is rendered from, with the service's fallbacks. */
  datatype AffidavitData = AffidavitData(nombre: string, dni: string, fecha: string, lugar: string, relato: string)

  /** `a || b` on an optional string. */
  function OrElse(s: Option<string>, fallback: string): (r: string)
    ensures Present(s) ==> r == s.value
    ensures !Present(s) ==> r == fallback
  {
    if Present(s) then s.value else fallback
  }

  function AffidavitFor(dto: Dto.CreateReclamoDto, today: string): AffidavitData {
    AffidavitData(dto.nombre, dto.dni, OrElse(dto.fecha_hecho, today),
                  OrElse(dto.lugar_hecho, "No especificado"), OrElse(dto.relato_hecho, ""))
  }

  /** An uninsured driver's claim gets a generated affidavit letter. */
  predicate NeedsAffidavit(dto: Dto.CreateReclamoDto) {
    dto.rol_victima == Conductor && !IsInsured(dto.tiene_seguro)
  }

  function AffidavitPath(dni: string, timestamp: nat): string {
    ObjectPath(AffidavitFolder, dni + "-carta-generada-" + NatToString(timestamp) + ".pdf")
  }

  /**
   * The path of the generated letter, or None when no letter is due or when rendering
   * or storing it fails (the service logs such a failure and goes on).
   */
  function AffidavitResult(refuses: set<string>, dto: Dto.CreateReclamoDto, timestamp: nat, today: string,
                           render: AffidavitData -> Option<seq<byte>>): (r: Option<string>)
    ensures r.Some? <==> NeedsAffidavit(dto) && render(AffidavitFor(dto, today)).Some?
                         && AffidavitPath(dto.dni, timestamp) !in refuses
    ensures r.Some? ==> r.value == AffidavitPath(dto.dni, timestamp)
  {
    if NeedsAffidavit(dto) && render(AffidavitFor(dto, today)).Some? && AffidavitPath(dto.dni, timestamp) !in refuses
    then Some(AffidavitPath(dto.dni, timestamp))
    else None
  }

  // ---------------------------------------------------------------- the claim table

  /**
   * The table's integrity: each row sits under its own id, every tracking code is six
   * upper-case hex digits, and no two rows share a code (the column's unique index).
   */
  ghost predicate ValidTable(claims: map<string, Reclamo>) {
    && (forall k | k in claims :: claims[k].id == k)
    && (forall k | k in claims :: |claims[k].codigo_seguimiento| == 6 && AllUpperHex(claims[k].codigo_seguimiento))
    && (forall k1, k2 | k1 in claims && k2 in claims && k1 != k2 ::
          claims[k1].codigo_seguimiento != claims[k2].codigo_seguimiento)
  }

  predicate CodeTaken(claims: map<string, Reclamo>, code: string) {
    exists k | k in claims :: claims[k].codigo_seguimiento == code
  }

  const DuplicateCode := "duplicate key value violates unique constraint on codigo_seguimiento"
  const SuccessMessage := "¡Éxito!"

  datatype CreateResponse = CreateResponse(message: string, codigo_seguimiento: string)

  /** Everything a call of `create` yields: the response, the new table, the objects stored and the mails requested. */
  datatype CreateOutcome = CreateOutcome(
    response: Result<CreateResponse, HttpError>,
    claims: map<string, Reclamo>,
    uploaded: seq<string>,
    mails: seq<Mail.MailRequest>)

  /** The row a successful intake saves, from the request, the upload paths and the generated values. */
  function NewRow(dto: Dto.CreateReclamoDto, paths: seq<Option<string>>, poliza: Option<string>, code: string,
                  creator: Option<string>, newId: string, createdAt: int): Reclamo
    requires |paths| == 7
  {
    ReclamoEntity.Persist(ReclamoDraft(
      dto.nombre, dto.dni, dto.email, dto.telefono, dto.rol_victima, dto.aseguradora_tercero,
      dto.patente_tercero, dto.patente_propia, dto.relato_hecho, dto.fecha_hecho, dto.lugar_hecho,
      dto.localidad, code, Some(Enviado), creator, paths[0].GetOr(""), paths[1], paths[2], poliza,
      paths[4], paths[5], paths[6]), newId, createdAt)
  }

  /**
   * What `create` does once every upload went through: the letter, the save (refused
   * by the unique index when the code is taken) and the two mail requests. `uploaded`
   * holds only what this part stores.
   */
  function FinishSpec(claims: map<string, Reclamo>, refuses: set<string>, users: map<string, UserEntity.User>,
                      dto: Dto.CreateReclamoDto, paths: seq<Option<string>>, rnd: seq<byte>, timestamp: nat,
                      today: string, render: AffidavitData -> Option<seq<byte>>, lookupError: bool,
                      newId: string, createdAt: int): (s: CreateOutcome)
    requires |rnd| == 3 && |paths| == 7
    ensures s.response.Failure? ==> s.claims == claims && s.mails == []
    ensures s.response.Success? ==> s.response.value == CreateResponse(SuccessMessage, TrackingCode(rnd))
  {
    var letter := AffidavitResult(refuses, dto, timestamp, today, render);
    var poliza := if letter.Some? then letter else paths[3];
    var uploaded := if letter.Some? then [letter.value] else [];
    var code := TrackingCode(rnd);
    if CodeTaken(claims, code) then CreateOutcome(Failure(DatabaseFailure(DuplicateCode)), claims, uploaded, [])
    else
      var row := NewRow(dto, paths, poliza, code, ResolveReferrer(dto.codigo_ref, users, lookupError), newId, createdAt);
      CreateOutcome(Success(CreateResponse(SuccessMessage, code)), claims[newId := row], uploaded,
                    [Mail.NewReclamoClient(dto.email, dto.nombre, code),
                     Mail.NewReclamoAdmin(dto.nombre, dto.dni, code, dto.rol_victima)])
  }

  /** The two ways the finishing step ends: the code clashes with a saved one, or the row is saved. */
  lemma FinishSpecCases(claims: map<string, Reclamo>, refuses: set<string>, users: map<string, UserEntity.User>,
                        dto: Dto.CreateReclamoDto, paths: seq<Option<string>>, rnd: seq<byte>, timestamp: nat,
                        today: string, render: AffidavitData -> Option<seq<byte>>, lookupError: bool,
                        newId: string, createdAt: int)
    requires |rnd| == 3 && |paths| == 7
    ensures var f := FinishSpec(claims, refuses, users, dto, paths, rnd, timestamp, today, render, lookupError, newId, createdAt);
      var letter := AffidavitResult(refuses, dto, timestamp, today, render);
      var uploaded := if letter.Some? then [letter.value] else [];
      var code := TrackingCode(rnd);
      && (CodeTaken(claims, code) ==> f == CreateOutcome(Failure(DatabaseFailure(DuplicateCode)), claims, uploaded, []))
      && (!CodeTaken(claims, code) ==>
            var row := NewRow(dto, paths, if letter.Some? then letter else paths[3], code,
                              ResolveReferrer(dto.codigo_ref, users, lookupError), newId, createdAt);
            f == CreateOutcome(Success(CreateResponse(SuccessMessage, code)), claims[newId := row], uploaded,
                               [Mail.NewReclamoClient(dto.email, dto.nombre, code),
                                Mail.NewReclamoAdmin(dto.nombre, dto.dni, code, dto.rol_victima)]))
  {
  }

  /** The whole of `create`, as a function of the table, the store and the parameters standing for the environment. */
  function CreateSpec(claims: map<string, Reclamo>, refuses: set<string>, users: map<string, UserEntity.User>,
                      dto: Dto.CreateReclamoDto, files: Files, rnd: seq<byte>, timestamp: nat, today: string,
                      render: AffidavitData -> Option<seq<byte>>, lookupError: bool,
                      newId: string, createdAt: int): (s: CreateOutcome)
    requires |rnd| == 3
    ensures s.response.Failure? ==> s.claims == claims && s.mails == []
    ensures s.response.Success? ==> s.response.value == CreateResponse(SuccessMessage, TrackingCode(rnd))
  {
    match CheckRequirements(dto, files)
    case Fail(e) => CreateOutcome(Failure(e), claims, [], [])
    case Pass =>
      var up := UploadPhase(refuses, files, dto.dni, timestamp);
      if up.result.Failure? then CreateOutcome(Failure(up.result.error), claims, up.uploaded, [])
      else
        var f := FinishSpec(claims, refuses, users, dto, up.result.value, rnd, timestamp, today, render,
                            lookupError, newId, createdAt);
        CreateOutcome(f.response, f.claims, up.uploaded + f.uploaded, f.mails)
  }

  /** The three ways `create` ends: a missing document, a refused upload, or the finishing step. */
  lemma CreateSpecCases(claims: map<string, Reclamo>, refuses: set<string>, users: map<string, UserEntity.User>,
                        dto: Dto.CreateReclamoDto, files: Files, rnd: seq<byte>, timestamp: nat, today: string,
                        render: AffidavitData -> Option<seq<byte>>, lookupError: bool,
                        newId: string, createdAt: int)
    requires |rnd| == 3
    ensures var s := CreateSpec(claims, refuses, users, dto, files, rnd, timestamp, today, render, lookupError, newId, createdAt);
      var up := UploadPhase(refuses, files, dto.dni, timestamp);
      && (CheckRequirements(dto, files).Fail? ==> s == CreateOutcome(Failure(CheckRequirements(dto, files).error), claims, [], []))
      && (CheckRequirements(dto, files).Pass? && up.result.Failure? ==>
            s == CreateOutcome(Failure(up.result.error), claims, up.uploaded, []))
      && (CheckRequirements(dto, files).Pass? && up.result.Success? ==>
            var f := FinishSpec(claims, refuses, users, dto, up.result.value, rnd, timestamp, today, render,
                                lookupError, newId, createdAt);
            s == CreateOutcome(f.response, f.claims, up.uploaded + f.uploaded, f.mails))
  {
  }

  lemma AppendAssoc(a: seq<string>, b: seq<string>, c: seq<string>)
    ensures a + b + c == a + (b + c)
  {
  }

  /** The projection the public lookup by code returns. */
  datatype TrackingView = TrackingView(codigo_seguimiento: string, estado: ReclamoEstado, fecha_creacion: int)

  function ViewOf(r: Reclamo): TrackingView {
    TrackingView(r.codigo_seguimiento, r.estado, r.fecha_creacion)
  }

  /** What `body.estado` holds: no such property, an explicit `null`, or a value. */
  datatype StatusInput = Absent | Null | Given(value: string)

  /** The status mail `update` requests is handed `reclamo.estado`, which is what the body held. */
  function MailedStatus(estado: StatusInput): Option<string> {
    if estado.Given? then Some(estado.value) else None
  }

  /**
   * The object `update` answers with: the row it loaded, with `estado` showing what the
   * body held, so missing when the body had no status. The source loads the row without
   * its relations, so its answer has no `usuario_creador` and no `tramitador`; `row` still
   * carries both ids.
   */
  datatype UpdateResponse = UpdateResponse(row: Reclamo, shownEstado: Option<ReclamoEstado>)

  /** What one call of `update` yields: the response, the new table and the mails requested. */
  datatype UpdateOutcome = UpdateOutcome(response: Result<UpdateResponse, HttpError>, claims: map<string, Reclamo>, mails: seq<Mail.MailRequest>)

  const InvalidEnumValue := "invalid input value for enum reclamos_estado_enum"
  const NullStatus := "null value in column \"estado\" of relation \"reclamos\" violates not-null constraint"

  /**
   * `update`: an id the uuid column cannot read (`lookupError`) fails the lookup, and an
   * unknown one is NotFound. An absent status leaves the column as it is (the save skips
   * undefined properties), answers with the row without its status and still requests a
   * status mail; an explicit `null` is refused by the NOT NULL column, and a string outside
   * the enum by the enum column, both at save time before the mail is requested; any enum
   * value is written, even the current one.
   */
  function UpdateSpec(claims: map<string, Reclamo>, id: string, lookupError: bool, estado: StatusInput): (s: UpdateOutcome)
    ensures lookupError ==> s == UpdateOutcome(Failure(DatabaseFailure(InvalidUuid)), claims, [])
    ensures !lookupError && id !in claims ==> s == UpdateOutcome(Failure(NotFound("No encontrado")), claims, [])
    ensures s.response.Failure? ==> s.claims == claims && s.mails == []
  {
    if lookupError then UpdateOutcome(Failure(DatabaseFailure(InvalidUuid)), claims, [])
    else if id !in claims then UpdateOutcome(Failure(NotFound("No encontrado")), claims, [])
    else
      var row := claims[id];
      var mail := Mail.StatusUpdate(row.email, row.nombre, MailedStatus(estado));
      match estado
      case Absent => UpdateOutcome(Success(UpdateResponse(row, None)), claims, [mail])
      case Null => UpdateOutcome(Failure(DatabaseFailure(NullStatus)), claims, [])
      case Given(s) =>
        match ParseEstado(s)
        case None => UpdateOutcome(Failure(DatabaseFailure(InvalidEnumValue)), claims, [])
        case Some(e) =>
          UpdateOutcome(Success(UpdateResponse(row.(estado := e), Some(e))), claims[id := row.(estado := e)], [mail])
  }

  // ---------------------------------------------------------------- file download

  /** The seven path columns a download may name. */
  datatype Column = PathDni | PathLicencia | PathCedula | PathPoliza | PathDenuncia | PathFotos | PathMedicos

  /** The category-to-column table of `getArchivoUrl`, own entries only. */
  function ColumnFor(tipo: string): (c: Option<Column>)
    ensures c.Some? <==> tipo in SlotTags
  {
    if tipo == "dni" then Some(PathDni)
    else if tipo == "licencia" then Some(PathLicencia)
    else if tipo == "cedula" then Some(PathCedula)
    else if tipo == "poliza" then Some(PathPoliza)
    else if tipo == "denuncia" then Some(PathDenuncia)
    else if tipo == "fotos" then Some(PathFotos)
    else if tipo == "medicos" then Some(PathMedicos)
    else None
  }

  /** The value of a path column; the required `path_dni` is always a string. */
  function PathIn(r: Reclamo, c: Column): Option<string> {
    match c
    case PathDni => Some(r.path_dni)
    case PathLicencia => r.path_licencia
    case PathCedula => r.path_cedula
    case PathPoliza => r.path_poliza
    case PathDenuncia => r.path_denuncia
    case PathFotos => r.path_fotos
    case PathMedicos => r.path_medicos
  }

  /**
   * `getArchivoUrl` with the category table restricted to its own entries; `lookupError`
   * stands for the uuid column refusing `reclamoId`, and store stands for the object store
   * that signs the link.
   */
  function ArchivoUrl(claims: map<string, Reclamo>, store: StorageService, reclamoId: string, lookupError: bool,
                      tipo: string): (r: Result<SignedUrl, HttpError>)
    ensures ColumnFor(tipo).None? ==> r == Failure(BadRequest("El tipo de archivo '" + tipo + "' no es válido."))
    ensures ColumnFor(tipo).Some? && lookupError ==> r == Failure(DatabaseFailure(InvalidUuid))
    ensures ColumnFor(tipo).Some? && !lookupError && reclamoId !in claims ==>
      r == Failure(NotFound("Reclamo con ID " + reclamoId + " no encontrado"))
    ensures r.Success? <==>
      ColumnFor(tipo).Some? && !lookupError && reclamoId in claims
      && Present(PathIn(claims[reclamoId], ColumnFor(tipo).value))
      && PathIn(claims[reclamoId], ColumnFor(tipo).value).value !in store.refusesSigning
    ensures r.Success? ==> r.value == SignedUrl(PathIn(claims[reclamoId], ColumnFor(tipo).value).value, SignedUrlSeconds)
    ensures ColumnFor(tipo).Some? && !lookupError && reclamoId in claims ==>
      var path := PathIn(claims[reclamoId], ColumnFor(tipo).value);
      && (!Present(path) ==> r == Failure(NotFound("El archivo no existe para este reclamo.")))
      && (Present(path) && path.value in store.refusesSigning ==> r == Failure(StorageFailure(path.value)))
  {
    match ColumnFor(tipo)
    case None => Failure(BadRequest("El tipo de archivo '" + tipo + "' no es válido."))
    case Some(c) =>
      if lookupError then Failure(DatabaseFailure(InvalidUuid))
      else if reclamoId !in claims then Failure(NotFound("Reclamo con ID " + reclamoId + " no encontrado"))
      else
        var path := PathIn(claims[reclamoId], c);
        if !Present(path) then Failure(NotFound("El archivo no existe para este reclamo."))
        else store.CreateSignedUrl(path.value)
  }

  /** The names every plain JavaScript object inherits from `Object.prototype`; each reads as a truthy value. */
  const InheritedNames: set<string> := {
    "constructor", "__proto__", "toString", "toLocaleString", "valueOf", "hasOwnProperty",
    "isPrototypeOf", "propertyIsEnumerable", "__defineGetter__", "__defineSetter__",
    "__lookupGetter__", "__lookupSetter__" }

  /** What `mapaColumnas[tipoArchivo]` yields as written: an own entry's column, or an inherited member. */
  datatype ColumnRef = Own(column: Column) | Inherited(name: string)

  function ColumnLookupAsWritten(tipo: string): (c: Option<ColumnRef>)
    ensures c.Some? <==> tipo in SlotTags || tipo in InheritedNames
  {
    match ColumnFor(tipo)
    case Some(col) => Some(Own(col))
    case None => if tipo in InheritedNames then Some(Inherited(tipo)) else None
  }

  /** `getArchivoUrl` as written: an inherited member passes the category check and then reads no column. */
  function ArchivoUrlAsWritten(claims: map<string, Reclamo>, store: StorageService, reclamoId: string, lookupError: bool,
                               tipo: string): (r: Result<SignedUrl, HttpError>)
    ensures tipo in InheritedNames ==> r.Failure? && (r.error.NotFound? || r.error.DatabaseFailure?)
  {
    match ColumnLookupAsWritten(tipo)
    case None => Failure(BadRequest("El tipo de archivo '" + tipo + "' no es válido."))
    case Some(ref) =>
      if lookupError then Failure(DatabaseFailure(InvalidUuid))
      else if reclamoId !in claims then Failure(NotFound("Reclamo con ID " + reclamoId + " no encontrado"))
      else
        var path := if ref.Own? then PathIn(claims[reclamoId], ref.column) else None;
        if !Present(path) then Failure(NotFound("El archivo no existe para este reclamo."))
        else store.CreateSignedUrl(path.value)
  }

  /**
   * Asking for the category "constructor" of a readable id is answered with NotFound by
   * the code as written, instead of the BadRequest an unknown category gets.
   */
  lemma InheritedCategoryPassesCheck(claims: map<string, Reclamo>, store: StorageService, reclamoId: string)
    ensures ColumnLookupAsWritten("constructor").Some? && ColumnFor("constructor").None?
    ensures ArchivoUrlAsWritten(claims, store, reclamoId, false, "constructor").error.NotFound?
    ensures ArchivoUrl(claims, store, reclamoId, false, "constructor").error.BadRequest?
  {
  }

  /** On every own category the two readings agree. */
  lemma OwnCategoriesAgree(claims: map<string, Reclamo>, store: StorageService, reclamoId: string, lookupError: bool,
                           tipo: string)
    requires tipo !in InheritedNames
    ensures ArchivoUrlAsWritten(claims, store, reclamoId, lookupError, tipo) == ArchivoUrl(claims, store, reclamoId, lookupError, tipo)
  {
  }

  // ---------------------------------------------------------------- the service

  class ReclamosService {
    /** The `reclamos` table, by primary key. */
    var claims: map<string, Reclamo>
    /** Every mail the service has asked for, in order. */
    var outbox: seq<Mail.MailRequest>
    const storage: StorageService

    ghost predicate Valid()
      reads this
    {
      ValidTable(claims)
    }

    constructor(storage: StorageService)
      ensures this.storage == storage && claims == map[] && outbox == []
      ensures Valid()
    {
      this.storage := storage;
      claims := map[];
      outbox := [];
    }

    /**
     * The `upload` closure of `create` on one slot, run after the uploads traced in t,
     * none of which failed.
     */
    method Upload(ghost t: Trace, ghost base: seq<string>, file: Option<UploadedFile>, tag: string, dni: string, timestamp: nat)
      returns (r: Result<Option<string>, HttpError>, ghost u: Trace)
      requires t.result.Success? && storage.objects == base + t.uploaded
      modifies storage
      ensures r == SlotResult(storage.refuses, file, tag, dni, timestamp)
      ensures u == Then(t, r) && storage.objects == base + u.uploaded
    {
      u := Then(t, SlotResult(storage.refuses, file, tag, dni, timestamp));
      assert base + u.uploaded == storage.objects + Stored(SlotResult(storage.refuses, file, tag, dni, timestamp));
      if file.None? {
        return Success(None), u;
      }
      var f := file.value;
      var check := ValidateFile(f);
      if check.Fail? {
        return Failure(check.error), u;
      }
      var stored := storage.UploadFile(tag, StoredFileName(dni, tag, timestamp, f.originalname));
      if stored.Failure? {
        return Failure(stored.error), u;
      }
      return Success(Some(stored.value)), u;
    }

    /** Renders and stores the no-insurance letter; a failure of either is swallowed. */
    method GenerateAffidavit(dto: Dto.CreateReclamoDto, timestamp: nat, today: string,
                             render: AffidavitData -> Option<seq<byte>>) returns (r: Option<string>)
      requires NeedsAffidavit(dto)
      modifies storage
      ensures r == AffidavitResult(storage.refuses, dto, timestamp, today, render)
      ensures storage.objects == old(storage.objects) + if r.Some? then [r.value] else []
    {
      var pdf := render(AffidavitFor(dto, today));
      if pdf.None? {
        return None;
      }
      var stored := storage.UploadFile(AffidavitFolder, dto.dni + "-carta-generada-" + NatToString(timestamp) + ".pdf");
      if stored.Failure? {
        return None;
      }
      return Some(stored.value);
    }

    /** The seven awaited uploads of `create`; the first failure stops the rest. */
    method UploadAll(files: Files, dni: string, timestamp: nat) returns (r: Result<seq<Option<string>>, HttpError>)
      modifies storage
      ensures var t := UploadPhase(storage.refuses, files, dni, timestamp);
        r == t.result && storage.objects == old(storage.objects) + t.uploaded
    {
      ghost var base := storage.objects;
      ghost var t := Trace(Success([]), []);
      var paths: seq<Option<string>> := [];
      var p0;
      p0, t := Upload(t, base, files.dni, SlotTags[0], dni, timestamp);
      if p0.Failure? { return Failure(p0.error); }
      paths := paths + [p0.value];
      var p1;
      p1, t := Upload(t, base, files.licencia, SlotTags[1], dni, timestamp);
      if p1.Failure? { return Failure(p1.error); }
      paths := paths + [p1.value];
      var p2;
      p2, t := Upload(t, base, files.cedula, SlotTags[2], dni, timestamp);
      if p2.Failure? { return Failure(p2.error); }
      paths := paths + [p2.value];
      var p3;
      p3, t := Upload(t, base, files.seguro, SlotTags[3], dni, timestamp);
      if p3.Failure? { return Failure(p3.error); }
      paths := paths + [p3.value];
      var p4;
      p4, t := Upload(t, base, files.denuncia, SlotTags[4], dni, timestamp);
      if p4.Failure? { return Failure(p4.error); }
      paths := paths + [p4.value];
      var p5;
      p5, t := Upload(t, base, files.fotos, SlotTags[5], dni, timestamp);
      if p5.Failure? { return Failure(p5.error); }
      paths := paths + [p5.value];
      var p6;
      p6, t := Upload(t, base, files.medicos, SlotTags[6], dni, timestamp);
      if p6.Failure? { return Failure(p6.error); }
      paths := paths + [p6.value];
      return Success(paths);
    }

    /** The letter, the save and the mail requests of `create`. */
    method Finish(dto: Dto.CreateReclamoDto, users: map<string, UserEntity.User>, paths: seq<Option<string>>,
                  rnd: seq<byte>, timestamp: nat, today: string, render: AffidavitData -> Option<seq<byte>>,
                  lookupError: bool, newId: string, createdAt: int)
      returns (r: Result<CreateResponse, HttpError>)
      requires Valid() && |rnd| == 3 && |paths| == 7 && newId !in claims
      modifies this, storage
      ensures Valid()
      ensures var s := FinishSpec(old(claims), storage.refuses, users, dto, paths, rnd, timestamp, today,
                                  render, lookupError, newId, createdAt);
        && r == s.response && claims == s.claims
        && storage.objects == old(storage.objects) + s.uploaded
        && outbox == old(outbox) + s.mails
    {
      FinishSpecCases(claims, storage.refuses, users, dto, paths, rnd, timestamp, today, render, lookupError, newId, createdAt);
      var creator := ResolveReferrer(dto.codigo_ref, users, lookupError);
      var code := TrackingCode(rnd);
      var poliza := paths[3];
      var letter: Option<string> := None;
      if NeedsAffidavit(dto) {
        letter := GenerateAffidavit(dto, timestamp, today, render);
        if letter.Some? {
          poliza := letter;
        }
      }
      var clash := FindKey(claims, (x: Reclamo) => x.codigo_seguimiento == code);
      if clash.Some? {
        return Failure(DatabaseFailure(DuplicateCode));
      }
      var row := NewRow(dto, paths, poliza, code, creator, newId, createdAt);
      InsertKeepsTableValid(claims, newId, row);
      claims := claims[newId := row];
      outbox := outbox + [Mail.NewReclamoClient(dto.email, dto.nombre, code),
                          Mail.NewReclamoAdmin(dto.nombre, dto.dni, code, dto.rol_victima)];
      return Success(CreateResponse(SuccessMessage, code));
    }

    /** `create`: checks the documents, uploads them in order, saves the claim and requests two mails. */
    method Create(dto: Dto.CreateReclamoDto, files: Files, users: map<string, UserEntity.User>,
                  rnd: seq<byte>, timestamp: nat, today: string, render: AffidavitData -> Option<seq<byte>>,
                  lookupError: bool, newId: string, createdAt: int)
      returns (r: Result<CreateResponse, HttpError>)
      requires Valid() && |rnd| == 3 && newId !in claims
      modifies this, storage
      ensures Valid()
      ensures var s := CreateSpec(old(claims), storage.refuses, users, dto, files, rnd, timestamp, today,
                                  render, lookupError, newId, createdAt);
        && r == s.response && claims == s.claims
        && storage.objects == old(storage.objects) + s.uploaded
        && outbox == old(outbox) + s.mails
    {
      CreateSpecCases(claims, storage.refuses, users, dto, files, rnd, timestamp, today, render, lookupError, newId, createdAt);
      var check := CheckRequirements(dto, files);
      if check.Fail? {
        return Failure(check.error);
      }
      ghost var objects := storage.objects;
      ghost var up := UploadPhase(storage.refuses, files, dto.dni, timestamp);
      var paths := UploadAll(files, dto.dni, timestamp);
      if paths.Failure? {
        return Failure(paths.error);
      }
      ghost var middle := storage.objects;
      r := Finish(dto, users, paths.value, rnd, timestamp, today, render, lookupError, newId, createdAt);
      ghost var f := FinishSpec(old(claims), storage.refuses, users, dto, paths.value, rnd, timestamp, today,
                                render, lookupError, newId, createdAt);
      AppendAssoc(objects, up.uploaded, f.uploaded);
    }

    /** `update`: overwrites the status of one claim and requests one status mail. */
    method Update(id: string, lookupError: bool, estado: StatusInput) returns (r: Result<UpdateResponse, HttpError>)
      requires Valid()
      modifies this
      ensures Valid()
      ensures var s := UpdateSpec(old(claims), id, lookupError, estado);
        r == s.response && claims == s.claims && outbox == old(outbox) + s.mails
    {
      if lookupError {
        return Failure(DatabaseFailure(InvalidUuid));
      }
      if id !in claims {
        return Failure(NotFound("No encontrado"));
      }
      var row := claims[id];
      var shown: Option<ReclamoEstado> := None;
      if estado.Null? {
        return Failure(DatabaseFailure(NullStatus));
      } else if estado.Given? {
        var e := ParseEstado(estado.value);
        if e.None? {
          return Failure(DatabaseFailure(InvalidEnumValue));
        }
        row := row.(estado := e.value);
        shown := e;
        claims := claims[id := row];
      }
      outbox := outbox + [Mail.StatusUpdate(row.email, row.nombre, MailedStatus(estado))];
      UpdateKeepsTableValid(old(claims), id, lookupError, estado);
      return Success(UpdateResponse(row, shown));
    }

    /** The rows satisfying p, newest first. */
    method Select(p: Reclamo -> bool) returns (rows: seq<Reclamo>)
      ensures forall x :: x in rows <==> x in claims.Values && p(x)
      ensures forall i, j :: 0 <= i < j < |rows| ==> rows[i].fecha_creacion >= rows[j].fecha_creacion
      ensures |rows| == |Matching(claims, p)|
    {
      var table := claims;
      var keys := SelectDesc(table, p, (x: Reclamo) => x.fecha_creacion);
      DistinctListSize(keys, Matching(table, p));
      rows := seq(|keys|, i requires 0 <= i < |keys| => table[keys[i]]);
      forall i, j | 0 <= i < j < |rows| ensures rows[i].fecha_creacion >= rows[j].fecha_creacion {
        assert RankOf(claims, (x: Reclamo) => x.fecha_creacion, keys[i]) >= RankOf(claims, (x: Reclamo) => x.fecha_creacion, keys[j]);
      }
      forall x ensures x in rows <==> x in claims.Values && p(x) {
        if x in claims.Values && p(x) {
          var k :| k in claims && claims[k] == x;
          var i :| 0 <= i < |keys| && keys[i] == k;
          assert rows[i] == x;
        }
      }
    }

    /** `findAll`: every claim, or those with the given status, newest first. */
    method FindAll(estado: Option<string>) returns (r: Result<seq<Reclamo>, HttpError>)
      ensures !Present(estado) ==> r.Success? && forall x :: x in r.value <==> x in claims.Values
      ensures Present(estado) && ParseEstado(estado.value).None? ==> r == Failure(DatabaseFailure(InvalidEnumValue))
      ensures Present(estado) && ParseEstado(estado.value).Some? ==>
        r.Success? && forall x :: x in r.value <==> x in claims.Values && x.estado == ParseEstado(estado.value).value
      ensures r.Success? ==> forall i, j :: 0 <= i < j < |r.value| ==> r.value[i].fecha_creacion >= r.value[j].fecha_creacion
    {
      if !Present(estado) {
        var rows := Select((x: Reclamo) => true);
        return Success(rows);
      }
      var e := ParseEstado(estado.value);
      if e.None? {
        return Failure(DatabaseFailure(InvalidEnumValue));
      }
      var rows := Select((x: Reclamo) => x.estado == e.value);
      return Success(rows);
    }

    /** `findAllByUser`: the claims credited to one producer, newest first. */
    method FindAllByUser(userId: string) returns (rows: seq<Reclamo>)
      ensures forall x :: x in rows <==> x in claims.Values && x.usuario_creador == Some(userId)
      ensures forall i, j :: 0 <= i < j < |rows| ==> rows[i].fecha_creacion >= rows[j].fecha_creacion
    {
      rows := Select((x: Reclamo) => x.usuario_creador == Some(userId));
    }

    /** `consultarPorCodigo`: the public status lookup, by tracking code alone. */
    method ConsultarPorCodigo(codigo: string) returns (r: Result<TrackingView, HttpError>)
      ensures r.Failure? <==> !CodeTaken(claims, codigo)
      ensures r.Failure? ==> r.error == NotFound("Código no encontrado")
      ensures r.Success? ==> exists k | k in claims :: claims[k].codigo_seguimiento == codigo && r.value == ViewOf(claims[k])
      ensures r.Success? && Valid() ==>
        forall k | k in claims && claims[k].codigo_seguimiento == codigo :: r.value == ViewOf(claims[k])
    {
      var k := FindKey(claims, (x: Reclamo) => x.codigo_seguimiento == codigo);
      if k.None? {
        return Failure(NotFound("Código no encontrado"));
      }
      return Success(ViewOf(claims[k.value]));
    }

    /** `findOne`: the row under id; `lookupError` stands for the uuid column refusing id. */
    function FindOne(id: string, lookupError: bool): (r: Result<Reclamo, HttpError>)
      reads this
      ensures r.Success? <==> !lookupError && id in claims
      ensures r.Success? ==> r.value == claims[id]
      ensures r.Success? && Valid() ==> r.value.id == id
      ensures r.Failure? ==> r.error == if lookupError then DatabaseFailure(InvalidUuid) else NotFound("Reclamo no encontrado")
    {
      if lookupError then Failure(DatabaseFailure(InvalidUuid))
      else if id in claims then Success(claims[id])
      else Failure(NotFound("Reclamo no encontrado"))
    }

    /** `remove`: deletes the row under id, if any, and reports how many rows went. */
    method Remove(id: string, lookupError: bool) returns (r: Result<nat, HttpError>)
      requires Valid()
      modifies this
      ensures Valid()
      ensures lookupError ==> r == Failure(DatabaseFailure(InvalidUuid)) && claims == old(claims)
      ensures !lookupError ==> r == Success(if id in old(claims) then 1 else 0) && claims == old(claims) - {id}
      ensures outbox == old(outbox)
    {
      if lookupError {
        return Failure(DatabaseFailure(InvalidUuid));
      }
      r := Success(if id in claims then 1 else 0);
      claims := claims - {id};
    }

    /**
     * `getArchivoUrl` on the current table and store, as written; it differs from the
     * restricted reading only on the names every object inherits.
     */
    function GetArchivoUrl(reclamoId: string, lookupError: bool, tipo: string): (r: Result<SignedUrl, HttpError>)
      reads this
      ensures r == ArchivoUrlAsWritten(claims, storage, reclamoId, lookupError, tipo)
      ensures tipo !in InheritedNames ==> r == ArchivoUrl(claims, storage, reclamoId, lookupError, tipo)
      ensures r.Success? ==> r.value.expiresIn == 300
    {
      ArchivoUrlAsWritten(claims, storage, reclamoId, lookupError, tipo)
    }
  }

  // ---------------------------------------------------------------- properties of create and update

  /** Adding a fresh row with a well-formed, unused code keeps the table's integrity. */
  lemma InsertKeepsTableValid(claims: map<string, Reclamo>, id: string, row: Reclamo)
    requires ValidTable(claims) && id !in claims && row.id == id
    requires |row.codigo_seguimiento| == 6 && AllUpperHex(row.codigo_seguimiento)
    requires !CodeTaken(claims, row.codigo_seguimiento)
    ensures ValidTable(claims[id := row])
  {
  }

  /** `create` keeps the table's integrity. */
  lemma CreateKeepsTableValid(claims: map<string, Reclamo>, refuses: set<string>, users: map<string, UserEntity.User>,
                              dto: Dto.CreateReclamoDto, files: Files, rnd: seq<byte>, timestamp: nat, today: string,
                              render: AffidavitData -> Option<seq<byte>>, lookupError: bool, newId: string, createdAt: int)
    requires ValidTable(claims) && |rnd| == 3 && newId !in claims
    ensures ValidTable(CreateSpec(claims, refuses, users, dto, files, rnd, timestamp, today, render, lookupError, newId, createdAt).claims)
  {
    var up := UploadPhase(refuses, files, dto.dni, timestamp);
    if CheckRequirements(dto, files).Pass? && up.result.Success? {
      var paths := up.result.value;
      var letter := AffidavitResult(refuses, dto, timestamp, today, render);
      var poliza := if letter.Some? then letter else paths[3];
      var code := TrackingCode(rnd);
      if !CodeTaken(claims, code) {
        var row := NewRow(dto, paths, poliza, code, ResolveReferrer(dto.codigo_ref, users, lookupError), newId, createdAt);
        InsertKeepsTableValid(claims, newId, row);
      }
    }
  }

  /** A claim without a DNI file is refused before anything is uploaded or saved, whatever its kind. */
  lemma CreateWithoutDniFails(claims: map<string, Reclamo>, refuses: set<string>, users: map<string, UserEntity.User>,
                              dto: Dto.CreateReclamoDto, files: Files, rnd: seq<byte>, timestamp: nat, today: string,
                              render: AffidavitData -> Option<seq<byte>>, lookupError: bool, newId: string, createdAt: int)
    requires |rnd| == 3 && files.dni.None?
    ensures CreateSpec(claims, refuses, users, dto, files, rnd, timestamp, today, render, lookupError, newId, createdAt)
         == CreateOutcome(Failure(BadRequest("Falta el DNI.")), claims, [], [])
  {
  }

  /** Missing documents are detected before any upload; a claim is only ever saved when its documents are all there. */
  lemma CreateChecksDocumentsFirst(claims: map<string, Reclamo>, refuses: set<string>, users: map<string, UserEntity.User>,
                                   dto: Dto.CreateReclamoDto, files: Files, rnd: seq<byte>, timestamp: nat, today: string,
                                   render: AffidavitData -> Option<seq<byte>>, lookupError: bool, newId: string, createdAt: int)
    requires |rnd| == 3
    ensures var s := CreateSpec(claims, refuses, users, dto, files, rnd, timestamp, today, render, lookupError, newId, createdAt);
      (!RequirementsMet(dto, files) ==> s.response.Failure? && s.response.error.BadRequest? && s.uploaded == [])
      && (s.response.Success? ==> RequirementsMet(dto, files))
  {
  }

  /** What a successful upload phase returns, slot by slot. */
  lemma UploadPhaseSlots(refuses: set<string>, files: Files, dni: string, timestamp: nat)
    requires UploadPhase(refuses, files, dni, timestamp).result.Success?
    ensures var v := UploadPhase(refuses, files, dni, timestamp).result.value;
      && SlotResult(refuses, files.dni, SlotTags[0], dni, timestamp) == Success(v[0])
      && SlotResult(refuses, files.licencia, SlotTags[1], dni, timestamp) == Success(v[1])
      && SlotResult(refuses, files.cedula, SlotTags[2], dni, timestamp) == Success(v[2])
      && SlotResult(refuses, files.seguro, SlotTags[3], dni, timestamp) == Success(v[3])
      && SlotResult(refuses, files.denuncia, SlotTags[4], dni, timestamp) == Success(v[4])
      && SlotResult(refuses, files.fotos, SlotTags[5], dni, timestamp) == Success(v[5])
      && SlotResult(refuses, files.medicos, SlotTags[6], dni, timestamp) == Success(v[6])
  {
    var r0 := SlotResult(refuses, files.dni, SlotTags[0], dni, timestamp);
    var r1 := SlotResult(refuses, files.licencia, SlotTags[1], dni, timestamp);
    var r2 := SlotResult(refuses, files.cedula, SlotTags[2], dni, timestamp);
    var r3 := SlotResult(refuses, files.seguro, SlotTags[3], dni, timestamp);
    var r4 := SlotResult(refuses, files.denuncia, SlotTags[4], dni, timestamp);
    var r5 := SlotResult(refuses, files.fotos, SlotTags[5], dni, timestamp);
    var r6 := SlotResult(refuses, files.medicos, SlotTags[6], dni, timestamp);
    var t1 := Then(Trace(Success([]), []), r0);
    var t2 := Then(t1, r1);
    var t3 := Then(t2, r2);
    var t4 := Then(t3, r3);
    var t5 := Then(t4, r4);
    var t6 := Then(t5, r5);
    var t7 := Then(t6, r6);
    assert t7 == UploadPhase(refuses, files, dni, timestamp);
    ThenIndex(t6, r6);
    ThenIndex(t5, r5);
    ThenIndex(t4, r4);
    ThenIndex(t3, r3);
    ThenIndex(t2, r2);
    ThenIndex(t1, r1);
    ThenIndex(Trace(Success([]), []), r0);
  }

  /** A successful step keeps the paths gathered so far and adds its own after them. */
  lemma ThenIndex(t: Trace, r: Result<Option<string>, HttpError>)
    requires Then(t, r).result.Success?
    ensures t.result.Success? && r.Success?
    ensures var u := Then(t, r).result.value;
      && |u| == |t.result.value| + 1 && u[|t.result.value|] == r.value
      && forall i | 0 <= i < |t.result.value| :: u[i] == t.result.value[i]
  {
  }

  /**
   * The saved claim: status ENVIADO, the generated code, the resolved producer, the
   * request's fields, the stored DNI path; and the two mails are requested.
   */
  lemma CreateSavesClaim(claims: map<string, Reclamo>, refuses: set<string>, users: map<string, UserEntity.User>,
                         dto: Dto.CreateReclamoDto, files: Files, rnd: seq<byte>, timestamp: nat, today: string,
                         render: AffidavitData -> Option<seq<byte>>, lookupError: bool, newId: string, createdAt: int)
    requires |rnd| == 3
    requires CreateSpec(claims, refuses, users, dto, files, rnd, timestamp, today, render, lookupError, newId, createdAt).response.Success?
    ensures var s := CreateSpec(claims, refuses, users, dto, files, rnd, timestamp, today, render, lookupError, newId, createdAt);
      && newId in s.claims && s.claims == claims[newId := s.claims[newId]]
      && var row := s.claims[newId];
      && row.id == newId && row.fecha_creacion == createdAt
      && row.estado == Enviado && row.codigo_seguimiento == TrackingCode(rnd)
      && row.usuario_creador == ResolveReferrer(dto.codigo_ref, users, lookupError)
      && row.nombre == dto.nombre && row.dni == dto.dni && row.email == dto.email
      && row.telefono == dto.telefono && row.rol_victima == dto.rol_victima
      && row.relato_hecho == dto.relato_hecho && row.hora_hecho.None? && row.cbu.None?
      && files.dni.Some?
      && row.path_dni == ObjectPath(SlotTags[0], StoredFileName(dto.dni, SlotTags[0], timestamp, files.dni.value.originalname))
      && !CodeTaken(claims, TrackingCode(rnd))
      && s.mails == [Mail.NewReclamoClient(dto.email, dto.nombre, TrackingCode(rnd)),
                     Mail.NewReclamoAdmin(dto.nombre, dto.dni, TrackingCode(rnd), dto.rol_victima)]
  {
    UploadPhaseSlots(refuses, files, dto.dni, timestamp);
  }

  /**
   * The policy slot of the saved claim: the generated letter when one was rendered and
   * stored, replacing any uploaded certificate; otherwise the uploaded certificate, if any.
   */
  lemma CreatePolicyPath(claims: map<string, Reclamo>, refuses: set<string>, users: map<string, UserEntity.User>,
                         dto: Dto.CreateReclamoDto, files: Files, rnd: seq<byte>, timestamp: nat, today: string,
                         render: AffidavitData -> Option<seq<byte>>, lookupError: bool, newId: string, createdAt: int)
    requires |rnd| == 3
    requires CreateSpec(claims, refuses, users, dto, files, rnd, timestamp, today, render, lookupError, newId, createdAt).response.Success?
    ensures var s := CreateSpec(claims, refuses, users, dto, files, rnd, timestamp, today, render, lookupError, newId, createdAt);
      var letter := AffidavitResult(refuses, dto, timestamp, today, render);
      && newId in s.claims
      && (letter.Some? ==> s.claims[newId].path_poliza == Some(AffidavitPath(dto.dni, timestamp))
                           && s.uploaded[|s.uploaded| - 1] == AffidavitPath(dto.dni, timestamp))
      && (letter.None? ==> Success(s.claims[newId].path_poliza) == SlotResult(refuses, files.seguro, SlotTags[3], dto.dni, timestamp))
  {
    CreateSpecCases(claims, refuses, users, dto, files, rnd, timestamp, today, render, lookupError, newId, createdAt);
    var up := UploadPhase(refuses, files, dto.dni, timestamp);
    UploadPhaseSlots(refuses, files, dto.dni, timestamp);
    FinishPolicyPath(claims, refuses, users, dto, up.result.value, rnd, timestamp, today, render, lookupError, newId, createdAt);
  }

  /** The policy slot and the stored objects of the finishing step. */
  lemma FinishPolicyPath(claims: map<string, Reclamo>, refuses: set<string>, users: map<string, UserEntity.User>,
                         dto: Dto.CreateReclamoDto, paths: seq<Option<string>>, rnd: seq<byte>, timestamp: nat,
                         today: string, render: AffidavitData -> Option<seq<byte>>, lookupError: bool,
                         newId: string, createdAt: int)
    requires |rnd| == 3 && |paths| == 7
    ensures var f := FinishSpec(claims, refuses, users, dto, paths, rnd, timestamp, today, render, lookupError, newId, createdAt);
      var letter := AffidavitResult(refuses, dto, timestamp, today, render);
      && f.uploaded == (if letter.Some? then [letter.value] else [])
      && (f.response.Success? ==> newId in f.claims && f.claims[newId].path_poliza == if letter.Some? then letter else paths[3])
  {
  }

  /** After the uploads, the referral code and its lookup change only the stored creator. */
  lemma FinishIgnoresReferral(claims: map<string, Reclamo>, refuses: set<string>, users1: map<string, UserEntity.User>,
                              users2: map<string, UserEntity.User>, dto: Dto.CreateReclamoDto, ref: Option<string>,
                              paths: seq<Option<string>>, rnd: seq<byte>, timestamp: nat, today: string,
                              render: AffidavitData -> Option<seq<byte>>, error1: bool, error2: bool, newId: string, createdAt: int)
    requires |rnd| == 3 && |paths| == 7
    ensures var f1 := FinishSpec(claims, refuses, users1, dto, paths, rnd, timestamp, today, render, error1, newId, createdAt);
      var f2 := FinishSpec(claims, refuses, users2, dto.(codigo_ref := ref), paths, rnd, timestamp, today, render, error2, newId, createdAt);
      f1.response == f2.response && f1.uploaded == f2.uploaded && f1.mails == f2.mails
  {
    var dto2 := dto.(codigo_ref := ref);
    assert AffidavitFor(dto2, today) == AffidavitFor(dto, today);
    assert NeedsAffidavit(dto2) == NeedsAffidavit(dto);
    assert AffidavitResult(refuses, dto2, timestamp, today, render) == AffidavitResult(refuses, dto, timestamp, today, render);
  }

  /** The referral code never decides whether a claim is accepted, what is stored or what is mailed. */
  lemma ReferralNeverAborts(claims: map<string, Reclamo>, refuses: set<string>, users1: map<string, UserEntity.User>,
                            users2: map<string, UserEntity.User>, dto: Dto.CreateReclamoDto, ref: Option<string>,
                            files: Files, rnd: seq<byte>, timestamp: nat, today: string,
                            render: AffidavitData -> Option<seq<byte>>, error1: bool, error2: bool, newId: string, createdAt: int)
    requires |rnd| == 3
    ensures var s1 := CreateSpec(claims, refuses, users1, dto, files, rnd, timestamp, today, render, error1, newId, createdAt);
      var s2 := CreateSpec(claims, refuses, users2, dto.(codigo_ref := ref), files, rnd, timestamp, today, render, error2, newId, createdAt);
      s1.response == s2.response && s1.uploaded == s2.uploaded && s1.mails == s2.mails
  {
    var dto2 := dto.(codigo_ref := ref);
    assert CheckRequirements(dto2, files) == CheckRequirements(dto, files);
    var up := UploadPhase(refuses, files, dto.dni, timestamp);
    if CheckRequirements(dto, files).Pass? && up.result.Success? {
      FinishIgnoresReferral(claims, refuses, users1, users2, dto, ref, up.result.value, rnd, timestamp, today, render,
                            error1, error2, newId, createdAt);
    }
  }

  /**
   * Files go up one at a time in a fixed order: a valid DNI that the store accepts, then
   * an unacceptable licence, leaves the DNI uploaded but saves nothing and mails nothing.
   */
  lemma LaterInvalidFileAborts(claims: map<string, Reclamo>, refuses: set<string>, users: map<string, UserEntity.User>,
                               dto: Dto.CreateReclamoDto, files: Files, rnd: seq<byte>, timestamp: nat, today: string,
                               render: AffidavitData -> Option<seq<byte>>, lookupError: bool, newId: string, createdAt: int)
    requires |rnd| == 3 && RequirementsMet(dto, files)
    requires ValidateFile(files.dni.value).Pass?
    requires ObjectPath(SlotTags[0], StoredFileName(dto.dni, SlotTags[0], timestamp, files.dni.value.originalname)) !in refuses
    requires files.licencia.Some? && ValidateFile(files.licencia.value).Fail?
    ensures CreateSpec(claims, refuses, users, dto, files, rnd, timestamp, today, render, lookupError, newId, createdAt)
         == CreateOutcome(Failure(ValidateFile(files.licencia.value).error), claims,
                          [ObjectPath(SlotTags[0], StoredFileName(dto.dni, SlotTags[0], timestamp, files.dni.value.originalname))], [])
  {
    CreateSpecCases(claims, refuses, users, dto, files, rnd, timestamp, today, render, lookupError, newId, createdAt);
    var p0 := ObjectPath(SlotTags[0], StoredFileName(dto.dni, SlotTags[0], timestamp, files.dni.value.originalname));
    var err := ValidateFile(files.licencia.value).error;
    var r0 := SlotResult(refuses, files.dni, SlotTags[0], dto.dni, timestamp);
    assert r0 == Success(Some(p0));
    assert Stored(r0) == [p0];
    var noPaths: seq<Option<string>>, noObjects: seq<string> := [], [];
    var t1 := Then(Trace(Success(noPaths), noObjects), r0);
    assert noPaths + [Some(p0)] == [Some(p0)] && noObjects + [p0] == [p0];
    assert t1 == Trace(Success([Some(p0)]), [p0]);
    var t2 := Then(t1, SlotResult(refuses, files.licencia, SlotTags[1], dto.dni, timestamp));
    assert t2 == Trace(Failure(err), [p0]);
    var t3 := Then(t2, SlotResult(refuses, files.cedula, SlotTags[2], dto.dni, timestamp));
    var t4 := Then(t3, SlotResult(refuses, files.seguro, SlotTags[3], dto.dni, timestamp));
    var t5 := Then(t4, SlotResult(refuses, files.denuncia, SlotTags[4], dto.dni, timestamp));
    var t6 := Then(t5, SlotResult(refuses, files.fotos, SlotTags[5], dto.dni, timestamp));
    var t7 := Then(t6, SlotResult(refuses, files.medicos, SlotTags[6], dto.dni, timestamp));
    assert t7 == t2;
    assert UploadPhase(refuses, files, dto.dni, timestamp) == t7;
  }

  /**
   * A status that is one of the enum's values is written, and only it, even when it is the
   * current one; the answer shows it; exactly one status mail is requested, which the mailer
   * turns into a mail exactly when the new status is not ENVIADO.
   */
  lemma UpdateWritesStatus(claims: map<string, Reclamo>, id: string, e: ReclamoEstado)
    requires id in claims
    ensures var s := UpdateSpec(claims, id, false, Given(e.Tag()));
      && s.response == Success(UpdateResponse(claims[id].(estado := e), Some(e)))
      && s.claims == claims[id := claims[id].(estado := e)]
      && s.mails == [Mail.StatusUpdate(claims[id].email, claims[id].nombre, Some(e.Tag()))]
      && (|Mail.Delivered(true, s.mails[0])| == 1 <==> e != Enviado)
  {
    EstadoTagRoundTrip(e);
    var s := UpdateSpec(claims, id, false, Given(e.Tag()));
    if e != Enviado {
      assert Mail.StatusContent(Some(e.Tag())).Some?;
    }
  }

  /** A status outside the enum is refused by the database: nothing is written and no mail is requested. */
  lemma UpdateRejectsUnknownStatus(claims: map<string, Reclamo>, id: string, estado: string)
    requires id in claims && ParseEstado(estado).None?
    ensures UpdateSpec(claims, id, false, Given(estado)) == UpdateOutcome(Failure(DatabaseFailure(InvalidEnumValue)), claims, [])
  {
  }

  /** An explicit `null` status is refused by the NOT NULL column: nothing is written and no mail is requested. */
  lemma UpdateRejectsNullStatus(claims: map<string, Reclamo>, id: string)
    requires id in claims
    ensures UpdateSpec(claims, id, false, Null) == UpdateOutcome(Failure(DatabaseFailure(NullStatus)), claims, [])
  {
  }

  /**
   * A body without a status changes nothing; the answer is the row without its status,
   * and the status mail still requested is one the mailer drops.
   */
  lemma UpdateWithoutStatus(claims: map<string, Reclamo>, id: string)
    requires id in claims
    ensures var s := UpdateSpec(claims, id, false, Absent);
      && s.claims == claims && s.response == Success(UpdateResponse(claims[id], None))
      && s.mails == [Mail.StatusUpdate(claims[id].email, claims[id].nombre, None)]
      && Mail.Delivered(true, s.mails[0]) == []
  {
  }

  /** `update` keeps the table's integrity. */
  lemma UpdateKeepsTableValid(claims: map<string, Reclamo>, id: string, lookupError: bool, estado: StatusInput)
    requires ValidTable(claims)
    ensures ValidTable(UpdateSpec(claims, id, lookupError, estado).claims)
  {
  }
}
