/** The `reclamos` table: the claim status enum and the claim record with its column defaults. */
module ReclamoEntity {
  import opened Wrappers

  /** The seven values of the `ReclamoEstado` enum. */
  datatype ReclamoEstado =
    | Enviado | Recepcionado | Iniciado | Negociacion | Indemnizando | Indemnizado | Rechazado
  {
    /** The string stored in the enum column. */
    function Tag(): string {
      match this
      case Enviado => "Enviado"
      case Recepcionado => "Recepcionado"
      case Iniciado => "Iniciado"
      case Negociacion => "Negociacion"
      case Indemnizando => "Indemnizando"
      case Indemnizado => "Indemnizado"
      case Rechazado => "Rechazado"
    }
  }

  const AllEstados: seq<ReclamoEstado> :=
    [Enviado, Recepcionado, Iniciado, Negociacion, Indemnizando, Indemnizado, Rechazado]

  /** The status column's default. */
  const DefaultEstado: ReclamoEstado := Enviado

  /** The enum value whose tag is s: what the database accepts in the status column. */
  function ParseEstado(s: string): (r: Option<ReclamoEstado>)
    ensures r.Some? ==> r.value.Tag() == s
    ensures r.None? ==> forall e: ReclamoEstado :: e.Tag() != s
  {
    if s == "Enviado" then Some(Enviado)
    else if s == "Recepcionado" then Some(Recepcionado)
    else if s == "Iniciado" then Some(Iniciado)
    else if s == "Negociacion" then Some(Negociacion)
    else if s == "Indemnizando" then Some(Indemnizando)
    else if s == "Indemnizado" then Some(Indemnizado)
    else if s == "Rechazado" then Some(Rechazado)
    else None
  }

  /** There are exactly seven statuses, listed once each, with distinct tags. */
  lemma EstadosEnumerated()
    ensures |AllEstados| == 7
    ensures forall e: ReclamoEstado :: e in AllEstados
    ensures forall i, j :: 0 <= i < j < |AllEstados| ==> AllEstados[i].Tag() != AllEstados[j].Tag()
  {
    forall e: ReclamoEstado ensures e in AllEstados {
      match e
      case Enviado => assert AllEstados[0] == e;
      case Recepcionado => assert AllEstados[1] == e;
      case Iniciado => assert AllEstados[2] == e;
      case Negociacion => assert AllEstados[3] == e;
      case Indemnizando => assert AllEstados[4] == e;
      case Indemnizado => assert AllEstados[5] == e;
      case Rechazado => assert AllEstados[6] == e;
    }
  }

  lemma EstadoTagRoundTrip(e: ReclamoEstado)
    ensures ParseEstado(e.Tag()) == Some(e)
  {
  }

  /**
   * A stored claim. The non-nullable columns are plain strings; every nullable column
   * is an Option. `usuario_creador` and `tramitador` hold the referenced user's id.
   * `codigo_seguimiento` is unique across the table (an invariant of the service that
   * owns the table).
   */
  datatype Reclamo = Reclamo(
    id: string,
    usuario_creador: Option<string>,
    tramitador: Option<string>,
    nombre: string,
    dni: string,
    email: string,
    codigo_seguimiento: string,
    telefono: Option<string>,
    estado: ReclamoEstado,
    fecha_creacion: int,
    rol_victima: string,
    aseguradora_tercero: Option<string>,
    patente_tercero: Option<string>,
    patente_propia: Option<string>,
    relato_hecho: Option<string>,
    fecha_hecho: Option<string>,
    hora_hecho: Option<string>,
    lugar_hecho: Option<string>,
    localidad: Option<string>,
    cbu: Option<string>,
    path_dni: string,
    path_licencia: Option<string>,
    path_cedula: Option<string>,
    path_poliza: Option<string>,
    path_denuncia: Option<string>,
    path_fotos: Option<string>,
    path_medicos: Option<string>,
    path_representacion: Option<string>,
    path_honorarios: Option<string>,
    in_itinere: bool,
    posee_art: bool)

  /**
   * The columns the intake hands to `repository.create`; every column it leaves out
   * (the handler, hora_hecho, cbu, the two generated-letter paths, the two flags) takes
   * its default.
   */
  datatype ReclamoDraft = ReclamoDraft(
    nombre: string,
    dni: string,
    email: string,
    telefono: Option<string>,
    rol_victima: string,
    aseguradora_tercero: Option<string>,
    patente_tercero: Option<string>,
    patente_propia: Option<string>,
    relato_hecho: Option<string>,
    fecha_hecho: Option<string>,
    lugar_hecho: Option<string>,
    localidad: Option<string>,
    codigo_seguimiento: string,
    estado: Option<ReclamoEstado>,
    usuario_creador: Option<string>,
    path_dni: string,
    path_licencia: Option<string>,
    path_cedula: Option<string>,
    path_poliza: Option<string>,
    path_denuncia: Option<string>,
    path_fotos: Option<string>,
    path_medicos: Option<string>)

  /** The row saving a draft produces: generated id and creation date, column defaults for the rest. */
  function Persist(d: ReclamoDraft, id: string, createdAt: int): (r: Reclamo)
    ensures r.id == id && r.fecha_creacion == createdAt
    ensures r.estado == (if d.estado.Some? then d.estado.value else DefaultEstado)
    ensures r.tramitador.None? && r.hora_hecho.None? && r.cbu.None?
    ensures r.path_representacion.None? && r.path_honorarios.None?
    ensures !r.in_itinere && !r.posee_art
    ensures r.nombre == d.nombre && r.dni == d.dni && r.email == d.email && r.telefono == d.telefono
    ensures r.rol_victima == d.rol_victima && r.codigo_seguimiento == d.codigo_seguimiento
    ensures r.usuario_creador == d.usuario_creador
    ensures r.aseguradora_tercero == d.aseguradora_tercero && r.patente_tercero == d.patente_tercero
    ensures r.patente_propia == d.patente_propia && r.relato_hecho == d.relato_hecho
    ensures r.fecha_hecho == d.fecha_hecho && r.lugar_hecho == d.lugar_hecho && r.localidad == d.localidad
    ensures r.path_dni == d.path_dni && r.path_licencia == d.path_licencia && r.path_cedula == d.path_cedula
    ensures r.path_poliza == d.path_poliza && r.path_denuncia == d.path_denuncia
    ensures r.path_fotos == d.path_fotos && r.path_medicos == d.path_medicos
  {
    Reclamo(
      id, d.usuario_creador, None, d.nombre, d.dni, d.email, d.codigo_seguimiento, d.telefono,
      d.estado.GetOr(DefaultEstado), createdAt, d.rol_victima, d.aseguradora_tercero,
      d.patente_tercero, d.patente_propia, d.relato_hecho, d.fecha_hecho, None, d.lugar_hecho,
      d.localidad, None, d.path_dni, d.path_licencia, d.path_cedula, d.path_poliza,
      d.path_denuncia, d.path_fotos, d.path_medicos, None, None, false, false)
  }
}
