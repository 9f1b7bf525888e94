/**
 * The transactional mailer. The text each mail carries is a pure function of its
 * arguments; sending is an effect that happens only when the mailer was built with an
 * API key. HTML templates keep their text and tags; their indentation is not modelled.
 */
module Mail {
  import opened Wrappers
  import opened Text
  import opened ReclamoEntity

  datatype Email = Email(from: string, to: string, subject: string, html: string)

  /** A fire-and-forget call into the mailer, as the claim service issues it. */
  datatype MailRequest =
    | NewReclamoClient(email: string, nombre: string, codigo: string)
    | NewReclamoAdmin(nombre: string, dni: string, codigo: string, tipo: string)
      // the status argument as it reaches the mailer: any string, or undefined
    | StatusUpdate(email: string, nombre: string, estado: Option<string>)
    | AccountApproved(email: string, nombre: string)

  const ClientSender := "Reclama Ya <onboarding@resend.dev>"
  const SystemSender := "Sistema <onboarding@resend.dev>"
  /** The one hard-coded recipient of every new-claim alert. */
  const AdminAddress := "mfbcaneda@gmail.com"

  // ---------------------------------------------------------------- status texts

  datatype StatusText = StatusText(subject: string, body: string)

  const RecepcionadoBody := "<p>Su reclamo ya cuenta con un <strong>tramitador asignado</strong>, quien está revisando la documentación enviada.</p>\n<p>En esta etapa:</p>\n<ul>\n<li>Si el reclamo no es viable, le informaremos el rechazo.</li>\n<li>Si es viable, en 48hs hábiles lo iniciaremos ante la aseguradora.</li>\n</ul>\n<p>Lo mantendremos informado.</p>\n"
  const IniciadoBody := "<p>Su reclamo fue <strong>iniciado correctamente</strong> ante la aseguradora.</p>\n<p>A partir de ahora iniciamos las comunicaciones oficiales. La aseguradora analizará las pruebas y pericias antes de hacer una oferta.</p>\n<p>Nos aseguraremos de que cada paso se realice de forma rápida y segura.</p>\n"
  const NegociacionBody := "<p>Estamos <strong>gestionando el monto indemnizatorio</strong> con la aseguradora.</p>\n<p>En breve le informaremos la cifra propuesta para su conciliación.</p>\n<p>Nuestro objetivo es lograr el mejor acuerdo posible para usted.</p>\n"
  const IndemnizandoBody := "<p><strong>El acuerdo ya fue cerrado exitosamente.</strong></p>\n<p>En un plazo máximo de <strong>30 días hábiles</strong>, el monto acordado se acreditará en su cuenta bancaria.</p>\n<p>Una vez efectuado el pago, se finiquitarán los honorarios profesionales (20%).</p>\n<p>¡Gracias por su confianza!</p>\n"
  const IndemnizadoBody := "<p><strong>Su reclamo fue acordado y cobrado exitosamente.</strong></p>\n<p>Gracias por confiar en Reclama Ya para acompañarlo en este proceso.</p>\n<p>Recuerde que estamos a su disposición para cualquier gestión futura.</p>\n"
  const RechazadoBody := "<p>Lamentamos informarle que, tras el análisis de nuestro equipo legal, su reclamo fue <strong>rechazado por improcedencia legal</strong>.</p>\n<p>Si desea más información o consultar sobre otros casos, puede contactarnos a través de nuestra plataforma.</p>\n"

  /** The subject and body announcing each status; the initial status has none. */
  function StatusTextFor(e: ReclamoEstado): (r: Option<StatusText>)
    ensures r.None? <==> e == Enviado
  {
    match e
    case Enviado => None
    case Recepcionado => Some(StatusText("Reclamo Recepcionado - Reclama Ya", RecepcionadoBody))
    case Iniciado => Some(StatusText("¡Buenas Noticias! Reclamo Iniciado", IniciadoBody))
    case Negociacion => Some(StatusText("En etapa de Negociación", NegociacionBody))
    case Indemnizando => Some(StatusText("Acuerdo Cerrado - Indemnizando", IndemnizandoBody))
    case Indemnizado => Some(StatusText("¡Felicitaciones! Reclamo Cobrado", IndemnizadoBody))
    case Rechazado => Some(StatusText("Actualización sobre su reclamo", RechazadoBody))
  }

  /**
   * The switch of `sendStatusUpdate` over the value it is handed: one of the six
   * announced statuses selects its text; `Enviado`, any other string and `undefined`
   * fall to the default branch and select nothing.
   */
  function StatusContent(estado: Option<string>): (r: Option<StatusText>)
    ensures r.Some? <==> exists e: ReclamoEstado :: e != Enviado && estado == Some(e.Tag())
    ensures forall e: ReclamoEstado :: estado == Some(e.Tag()) ==> r == StatusTextFor(e)
  {
    if estado.None? then None
    else match ParseEstado(estado.value)
      case None => None
      case Some(e) => StatusTextFor(e)
  }

  /** The six announcing subjects are pairwise distinct. */
  lemma StatusSubjectsDistinct(e1: ReclamoEstado, e2: ReclamoEstado)
    requires e1 != e2 && e1 != Enviado && e2 != Enviado
    ensures StatusTextFor(e1).value.subject != StatusTextFor(e2).value.subject
  {
  }

  // ---------------------------------------------------------------- the mails

  const WelcomeHead := "<h1>¡Hola "
  const WelcomeMiddle := "!</h1>\n<p>Gracias por confiar en <strong>Reclama Ya</strong>.</p>\n<p>Hemos recibido su reclamo y ya fue derivado a nuestro equipo.</p>\n<p>Dentro de las próximas <strong>72 horas hábiles</strong>, un tramitador será asignado para comenzar a trabajar en su caso.</p>\n<hr>\n<p><strong>Su Código de Seguimiento:</strong> "
  const WelcomeTail := "</p>\n<p>Puede consultar el estado de su trámite en nuestra web con este código.</p>\n<br>\n<p>Atentamente,<br>Equipo ReclamaYa!</p>\n"

  /** The client's confirmation of a new claim: it greets the client and carries the tracking code. */
  function ClientWelcomeEmail(email: string, nombre: string, codigo: string): (m: Email)
    ensures m.from == ClientSender && m.to == email && m.subject == "Reclamo Enviado - Reclama Ya"
    ensures Contains(m.html, codigo) && Contains(m.html, nombre)
  {
    var html := WelcomeHead + nombre + WelcomeMiddle + codigo + WelcomeTail;
    ContainsMiddle(WelcomeHead + nombre + WelcomeMiddle, codigo, WelcomeTail);
    ContainsMiddle(WelcomeHead, nombre, WelcomeMiddle + codigo + WelcomeTail);
    assert WelcomeHead + nombre + (WelcomeMiddle + codigo + WelcomeTail) == html;
    Email(ClientSender, email, "Reclamo Enviado - Reclama Ya", html)
  }

  const AlertHead := "<h3>Nuevo Siniestro Ingresado</h3>\n<ul>\n<li><strong>Cliente:</strong> "
  const AlertDni := "</li>\n<li><strong>DNI:</strong> "
  const AlertTipo := "</li>\n<li><strong>Tipo:</strong> "
  const AlertCodigo := "</li>\n<li><strong>Código:</strong> "
  const AlertTail := "</li>\n</ul>\n<p>Ingresá al panel para asignar un tramitador.</p>\n"

  /** The alert to the office about a new claim, always to the one hard-coded address. */
  function AdminAlertEmail(nombre: string, dni: string, codigo: string, tipo: string): (m: Email)
    ensures m.from == SystemSender && m.to == AdminAddress
    ensures m.subject == "\U{1F6A8} Nuevo Reclamo: " + tipo + " - " + nombre
    ensures Contains(m.html, codigo)
  {
    var pre := AlertHead + nombre + AlertDni + dni + AlertTipo + tipo + AlertCodigo;
    ContainsMiddle(pre, codigo, AlertTail);
    Email(SystemSender, AdminAddress, "\U{1F6A8} Nuevo Reclamo: " + tipo + " - " + nombre, pre + codigo + AlertTail)
  }

  /** The greeting that opens every status mail. */
  function Greeting(nombre: string): string {
    GreetingHead + nombre + GreetingTail
  }

  const GreetingHead := "<h1>Hola "
  const GreetingTail := ",</h1>\n"

  const StatusFooter := "<br>\n<hr>\n<small>Equipo ReclamaYa! - San Martin 930, Tucumán.</small>\n"

  /** The mail announcing a status change to the client, if the status selects a text. */
  function StatusUpdateEmail(email: string, nombre: string, estado: Option<string>): (r: Option<Email>)
    ensures r.Some? <==> StatusContent(estado).Some?
    ensures r.Some? ==>
      && r.value.from == ClientSender && r.value.to == email
      && r.value.subject == StatusContent(estado).value.subject
      && r.value.html == Greeting(nombre) + StatusContent(estado).value.body + StatusFooter
      && Contains(r.value.html, nombre)
  {
    match StatusContent(estado)
    case None => None
    case Some(t) =>
      ContainsMiddle(GreetingHead, nombre, GreetingTail);
      ContainsExtend(Greeting(nombre), nombre, t.body);
      ContainsExtend(Greeting(nombre) + t.body, nombre, StatusFooter);
      Some(Email(ClientSender, email, t.subject, Greeting(nombre) + t.body + StatusFooter))
  }

  const ApprovedHead := "<div style=\"font-family: Arial, sans-serif; color: #333;\">\n<h1>¡Bienvenido a Reclama Ya, "
  const ApprovedTail := "!</h1>\n<p>Nos complace informarte que tu cuenta ha sido <strong>verificada y aprobada</strong> por nuestro equipo de administración.</p>\n<p>Ya puedes acceder a la plataforma para gestionar tus siniestros.</p>\n<br>\n<a href=\"https://reclamaya.com.ar/login\" style=\"background-color: #007bff; color: white; padding: 10px 20px; text-decoration: none; border-radius: 5px;\">Ir al Login</a>\n<br><br>\n<hr>\n<small>Equipo ReclamaYa!</small>\n</div>\n"

  /** The mail telling a user their account was approved. */
  function AccountApprovedEmail(email: string, nombre: string): (m: Email)
    ensures m.from == ClientSender && m.to == email && Contains(m.html, nombre)
  {
    ContainsMiddle(ApprovedHead, nombre, ApprovedTail);
    Email(ClientSender, email, "\U{1F389} ¡Tu cuenta ha sido aprobada!", ApprovedHead + nombre + ApprovedTail)
  }

  /** What a request puts on the wire when the mailer is configured. */
  function Compose(req: MailRequest): (r: Option<Email>)
    ensures !req.StatusUpdate? ==> r.Some?
    ensures req.StatusUpdate? ==> (r.Some? <==> StatusContent(req.estado).Some?)
  {
    match req
    case NewReclamoClient(email, nombre, codigo) => Some(ClientWelcomeEmail(email, nombre, codigo))
    case NewReclamoAdmin(nombre, dni, codigo, tipo) => Some(AdminAlertEmail(nombre, dni, codigo, tipo))
    case StatusUpdate(email, nombre, estado) => StatusUpdateEmail(email, nombre, estado)
    case AccountApproved(email, nombre) => Some(AccountApprovedEmail(email, nombre))
  }

  /** The mails a request sends: none without an API key, at most one in any case. */
  function Delivered(configured: bool, req: MailRequest): (r: seq<Email>)
    ensures |r| <= 1
    ensures !configured ==> r == []
    ensures configured && req.StatusUpdate? ==>
      (|r| == 1 <==> exists e: ReclamoEstado :: e != Enviado && req.estado == Some(e.Tag()))
  {
    if configured && Compose(req).Some? then [Compose(req).value] else []
  }

  // ---------------------------------------------------------------- the service

  class MailService {
    /** Whether a mail client was built: an API key was configured. */
    const configured: bool
    /** Every mail handed to the mail provider, in order. */
    var sent: seq<Email>

    constructor(apiKey: Option<string>)
      ensures configured <==> apiKey.Some? && apiKey.value != ""
      ensures sent == []
    {
      configured := apiKey.Some? && apiKey.value != "";
      sent := [];
    }

    method SendNewReclamoClient(email: string, nombre: string, codigo: string)
      modifies this
      ensures sent == old(sent) + if configured then [ClientWelcomeEmail(email, nombre, codigo)] else []
    {
      if !configured { return; }
      sent := sent + [ClientWelcomeEmail(email, nombre, codigo)];
    }

    method SendNewReclamoAdmin(nombre: string, dni: string, codigo: string, tipo: string)
      modifies this
      ensures sent == old(sent) + if configured then [AdminAlertEmail(nombre, dni, codigo, tipo)] else []
    {
      if !configured { return; }
      sent := sent + [AdminAlertEmail(nombre, dni, codigo, tipo)];
    }

    method SendStatusUpdate(email: string, nombre: string, estado: Option<string>)
      modifies this
      ensures var m := StatusUpdateEmail(email, nombre, estado);
        sent == old(sent) + if configured && m.Some? then [m.value] else []
    {
      if !configured { return; }
      var content := StatusContent(estado);
      if content.None? { return; }
      sent := sent + [StatusUpdateEmail(email, nombre, estado).value];
    }

    method SendAccountApproved(email: string, nombre: string)
      modifies this
      ensures sent == old(sent) + if configured then [AccountApprovedEmail(email, nombre)] else []
    {
      if !configured { return; }
      sent := sent + [AccountApprovedEmail(email, nombre)];
    }

    /** Hands a recorded request to the matching send method. */
    method Dispatch(req: MailRequest)
      modifies this
      ensures sent == old(sent) + Delivered(configured, req)
    {
      match req
      case NewReclamoClient(email, nombre, codigo) => SendNewReclamoClient(email, nombre, codigo);
      case NewReclamoAdmin(nombre, dni, codigo, tipo) => SendNewReclamoAdmin(nombre, dni, codigo, tipo);
      case StatusUpdate(email, nombre, estado) => SendStatusUpdate(email, nombre, estado);
      case AccountApproved(email, nombre) => SendAccountApproved(email, nombre);
    }
  }
}
