# ReclamaYa API core, modelled in Dafny

ReclamaYa is a back end for traffic-accident claims. An accident victim files a claim
(*reclamo*) with evidence files. The service checks that the documents the victim's role
needs are present, validates and uploads each file, may generate a no-insurance affidavit
letter, stores the claim under a six-digit hexadecimal tracking code with status
`Enviado`, and asks the mailer for a welcome mail and an alert to the office. Staff move
claims through seven statuses, and every change asks for a status mail. Insurance
producers (*productores*) register and log in, and they are credited with the claims and
users they refer.

The model covers:

- the claim service, as a class over the claim table;
- the mailer's texts and its API-key guard;
- the user registry and the authentication service, as classes over the user table;
- the two entities and the intake request's validation constraints.

One Dafny module corresponds to each source file:

| module | models |
|---|---|
| `Reclamos` | `src/reclamos/reclamos.service.ts` |
| `Mail` | `src/mail/mail.service.ts` |
| `Users` | `src/users/users.service.ts` |
| `Auth` | `src/auth/auth.service.ts`, plus `validate` of `src/auth/jwt.strategy.ts` |
| `ReclamoEntity`, `UserEntity` | the two entity files |
| `CreateReclamoDto` | `src/reclamos/dto/create-reclamo.dto.ts` |
| `Storage` | `src/storage/storage.service.ts`, as an abstract collaborator |

Three modules support the rest:

- `Text`: JavaScript's decimal rendering of a number, Node's hex encoding and ASCII upper-casing, with their inverses.
- `Tables`: the repository queries, a `findOne` by a column and a filtered `find` ordered descending.
- `Wrappers` and `Errors`: `Option`, `Result`, `Outcome`, and the four kinds of HTTP error the services raise.

How each part is represented:

- **Tables.**
  - Each database table is a `map` from primary key to row.
  - The table is a field of the service that writes it: `ReclamosService.claims` and `UsersService.users`.
  - `AuthService` holds the same `UsersService` and writes its map, because both services use one `users` repository.
  - The unique indexes are ghost invariants (`ValidTable`, `ValidRegistry`). Every method that writes the table preserves them.
- **Environment values are parameters.** These are:
  - the generated uuid and creation date;
  - `Date.now()`;
  - the bytes drawn by `randomBytes(3)`;
  - today's date and the PDF renderer, which may fail;
  - bcrypt's hash and compare, and the JWT signer.
- **Storage.** The object store is a class whose sets of refused uploads and refused links are fixed when it is built. Its `objects` field records every upload in order.
- **Mail.** The claim service fires and forgets its mails, so each call appends a `MailRequest` to `outbox`. `MailService.Dispatch` turns a request into the mail actually sent, and sends nothing when no API key is configured.
- **`create` is built in three layers.**
  - A specification function, `CreateSpec`, gives the response, the new table, the objects stored and the mails requested.
  - The imperative method `ReclamosService.Create` performs the uploads one by one. It is proved to produce exactly what `CreateSpec` says.
  - Lemmas state what the source promises about `CreateSpec`.
  - `update` follows the same three layers, with `UpdateSpec`.

## Model

| member | source | states |
|---|---|---|
| Reclamos.ValidateFile | src/reclamos/reclamos.service.ts:28-35 | a file passes exactly when its MIME type is pdf, jpeg or png and its size is at most 5 MiB; the type is checked first, each failure with its own message |
| Reclamos.FiveMiBIsTheLimit | src/reclamos/reclamos.service.ts:13-14 | a file of exactly 5·1024·1024 bytes passes and one byte more fails as too heavy |
| Reclamos.OnlyTrueMeansInsured | src/reclamos/reclamos.service.ts:46 | only the string "true" counts as insured; an absent flag, or "1" (which the DTO accepts), counts as uninsured |
| Reclamos.CheckRequirements | src/reclamos/reclamos.service.ts:43-64 | the requirements test passes exactly when the declarative per-role requirements hold; a missing DNI, licence, cédula or medical record is rejected, each with its message, and every failure is a BadRequest |
| Reclamos.DriverRules | src/reclamos/reclamos.service.ts:53-59 | an insured driver without seguro, or without denuncia, is rejected, and so is an uninsured driver without a narrative; an uninsured driver with a narrative passes |
| Reclamos.ResolveReferrer | src/reclamos/reclamos.service.ts:68-79 | the creator is `codigo_ref` exactly when it is non-empty, its lookup does not error and a user has that id; otherwise there is no creator |
| Reclamos.TrackingCode | src/reclamos/reclamos.service.ts:83 | the code is six upper-case hex digits and reading it back gives the three random bytes |
| Reclamos.TrackingCodeInjective | src/reclamos/reclamos.service.ts:83 | distinct random draws give distinct codes |
| Reclamos.LastIndexOf | src/reclamos/reclamos.service.ts:89 | the result is the position of the last occurrence of the character, or None when it does not occur |
| Reclamos.Basename | src/reclamos/reclamos.service.ts:89 | the base name is a suffix of the path and contains no '/' |
| Reclamos.Extname | src/reclamos/reclamos.service.ts:89 | the extension is empty or a suffix of the name that starts with its only '.' and contains no '/' |
| Reclamos.ExtnameOfDottedName | src/reclamos/reclamos.service.ts:89 | a name `stem.ext` has extension `.ext` |
| Reclamos.NoExtension | src/reclamos/reclamos.service.ts:89 | a name without a dot, or a dot file such as `.env`, has no extension |
| Reclamos.StoredNameOfPdf | src/reclamos/reclamos.service.ts:89 | an uploaded `x.pdf` is stored under `${dni}-${tag}-${timestamp}.pdf` |
| Reclamos.DistinctFoldersDistinctPaths | src/storage/storage.service.ts:29 | objects put in different slash-free folders never share a path |
| Reclamos.SlotFoldersDistinct | src/reclamos/reclamos.service.ts:93-120 | the seven slot folders and the letter's folder are pairwise distinct, so no upload of a claim overwrites another |
| Reclamos.SlotResult | src/reclamos/reclamos.service.ts:86-91 | an absent file yields no path and is never validated; an invalid file fails with the validation error; a valid one is stored under `tag/${dni}-${tag}-${timestamp}${ext}` or fails with the store's error |
| Reclamos.UploadPhase | src/reclamos/reclamos.service.ts:93-99 | a successful upload phase yields exactly seven paths, one per slot |
| Reclamos.UploadPhaseSlots | src/reclamos/reclamos.service.ts:93-99 | after a successful phase, each slot's path is the result of that slot's own upload |
| Reclamos.AffidavitResult | src/reclamos/reclamos.service.ts:102-127 | a letter path exists exactly for an uninsured driver whose letter renders and whose upload to `legales/${dni}-carta-generada-${timestamp}.pdf` succeeds |
| Reclamos.FinishSpec | src/reclamos/reclamos.service.ts:130-175 | after the uploads, a failed save changes no row and requests no mail; a success answers "¡Éxito!" with the tracking code |
| Reclamos.CreateSpec | src/reclamos/reclamos.service.ts:40-176 | a failed `create` changes no row and requests no mail; a successful one answers with the tracking code |
| Reclamos.ReclamosService.Upload | src/reclamos/reclamos.service.ts:86-91 | one slot's upload returns that slot's result and adds to the store exactly what the trace records |
| Reclamos.ReclamosService.GenerateAffidavit | src/reclamos/reclamos.service.ts:102-127 | renders and stores the letter; a failure of either is swallowed and stores nothing |
| Reclamos.ReclamosService.UploadAll | src/reclamos/reclamos.service.ts:93-99 | the seven awaited uploads return what the upload phase specifies, and the store gains exactly its objects |
| Reclamos.ReclamosService.Finish | src/reclamos/reclamos.service.ts:102-175 | the letter, the save and the mail requests leave the response, table, store and outbox that `FinishSpec` gives, and keep the table's integrity |
| Reclamos.ReclamosService.Create | src/reclamos/reclamos.service.ts:40-176 | the response, the new table, the store's new objects and the outbox's new requests are exactly those of `CreateSpec`; the table's integrity is kept |
| Reclamos.InsertKeepsTableValid | src/reclamos/entities/reclamo.entity.ts:33 | adding a fresh row whose code is well formed and unused keeps every row under its own id and the codes unique |
| Reclamos.CreateKeepsTableValid | src/reclamos/entities/reclamo.entity.ts:33 | `create` keeps the table's integrity, including unique tracking codes |
| Reclamos.CreateWithoutDniFails | src/reclamos/reclamos.service.ts:43 | without a DNI file, `create` fails with "Falta el DNI." whatever the role, storing, saving and mailing nothing |
| Reclamos.CreateChecksDocumentsFirst | src/reclamos/reclamos.service.ts:43-64 | unmet requirements fail with BadRequest before any upload, and a saved claim always met its requirements |
| Reclamos.CreateSavesClaim | src/reclamos/reclamos.service.ts:130-175 | the saved row has the new id, status ENVIADO, the tracking code, the resolved creator, the request's fields and the stored DNI path; only that row is added; the code was unused; the client and admin mails are requested |
| Reclamos.CreatePolicyPath | src/reclamos/reclamos.service.ts:96-156 | an uninsured driver's stored letter replaces any uploaded seguro in `path_poliza` and is the last object stored; without a letter, `path_poliza` is the seguro slot's own upload |
| Reclamos.FinishPolicyPath | src/reclamos/reclamos.service.ts:102-156 | the finishing step stores only the letter, and the saved `path_poliza` is the letter when there is one, the uploaded seguro otherwise |
| Reclamos.FinishIgnoresReferral | src/reclamos/reclamos.service.ts:68-79 | after the uploads, the referral code, the user table and the lookup's outcome do not affect the response, the objects stored or the mails |
| Reclamos.ReferralNeverAborts | src/reclamos/reclamos.service.ts:68-79 | a failed or erroring referrer lookup never changes whether `create` succeeds, what is stored or what is mailed |
| Reclamos.LaterInvalidFileAborts | src/reclamos/reclamos.service.ts:93-99 | a stored DNI followed by an invalid licence fails with the licence's error, saves nothing, mails nothing, and leaves the DNI uploaded |
| Reclamos.UpdateSpec | src/reclamos/reclamos.service.ts:195-204 | `update` on an id the uuid column cannot read fails with the database's error, and on an unknown id is NotFound("No encontrado"); both change nothing, and every failure leaves the table and the outbox as they were |
| Reclamos.ReclamosService.Update | src/reclamos/reclamos.service.ts:195-204 | the response (the row, showing the status the body held), the table and the outbox are those of `UpdateSpec`, and the table's integrity is kept |
| Reclamos.UpdateWritesStatus | src/reclamos/reclamos.service.ts:199-202 | an enum status is written, and nothing else changes, even when it is the current one; the answer shows it; exactly one status-mail request follows, and it becomes a mail exactly when the status is not ENVIADO |
| Reclamos.UpdateRejectsUnknownStatus | src/reclamos/entities/reclamo.entity.ts:36-41 | a status outside the enum is refused by the enum column: nothing is written and no mail is requested |
| Reclamos.UpdateWithoutStatus | src/reclamos/reclamos.service.ts:199-203 | a body without a status changes nothing; the answer is the row without its status; a status mail is still requested, and the mailer drops it |
| Reclamos.UpdateRejectsNullStatus | src/reclamos/entities/reclamo.entity.ts:36-41 | an explicit `null` status is refused by the NOT NULL column: nothing is written and no mail is requested |
| Reclamos.UpdateKeepsTableValid | src/reclamos/reclamos.service.ts:195-204 | `update` keeps the table's integrity |
| Reclamos.ReclamosService.Select | src/reclamos/reclamos.service.ts:180-187 | the rows satisfying the filter, each row once, newest first |
| Reclamos.ReclamosService.FindAll | src/reclamos/reclamos.service.ts:180-187 | without a status, every claim; with an enum status, exactly the claims in that status; with any other status, the database's enum error; newest first |
| Reclamos.ReclamosService.FindAllByUser | src/reclamos/reclamos.service.ts:240-246 | exactly the claims credited to that producer, newest first |
| Reclamos.ReclamosService.ConsultarPorCodigo | src/reclamos/reclamos.service.ts:189-193 | NotFound exactly when no claim has the code; otherwise the code, status and creation date of the claim that has it, which is unique in a valid table |
| Reclamos.ReclamosService.FindOne | src/reclamos/reclamos.service.ts:229-237 | the row under the id; the database's error when the uuid column cannot read the id; otherwise NotFound("Reclamo no encontrado") exactly when there is no such row |
| Reclamos.ReclamosService.Remove | src/reclamos/reclamos.service.ts:238 | deletes the row with that id, and only it, and reports 1 or 0 affected rows; an id the uuid column cannot read fails with the database's error and deletes nothing |
| Reclamos.ColumnFor | src/reclamos/reclamos.service.ts:207-215 | an own category names a column exactly when it is one of the seven slot tags |
| Reclamos.ArchivoUrl | src/reclamos/reclamos.service.ts:206-227 | an unknown category is a BadRequest before any lookup of the claim; then an id the uuid column cannot read is the database's error; a missing claim, or an empty path, is NotFound with its message; a path the store will not sign is the store's error; otherwise the answer is a 300-second link to the stored path |
| Reclamos.ReclamosService.GetArchivoUrl | src/reclamos/reclamos.service.ts:206-227 | on the current table and store, answers as the code is written (`ArchivoUrlAsWritten`); on every name that is not inherited this is the corrected `ArchivoUrl`; links last 300 seconds |
| Reclamos.ColumnLookupAsWritten | src/reclamos/reclamos.service.ts:207-218 | the lookup as written finds something for the seven tags and also for every name inherited from `Object.prototype` |
| Reclamos.ArchivoUrlAsWritten | src/reclamos/reclamos.service.ts:206-227 | as written, an inherited name passes the category test and ends in NotFound, or in the database's error when the id cannot be read |
| Reclamos.InheritedCategoryPassesCheck | src/reclamos/reclamos.service.ts:217-218 | the category "constructor" gets NotFound as written, where the corrected lookup gives BadRequest |
| Reclamos.OwnCategoriesAgree | src/reclamos/reclamos.service.ts:207-227 | on every name that is not inherited, the code as written and the corrected lookup agree |
| Mail.StatusTextFor | src/mail/mail.service.ts:72-133 | every status except ENVIADO has a fixed subject and body; ENVIADO has none |
| Mail.StatusContent | src/mail/mail.service.ts:65-133 | a status argument has content exactly when it is the tag of a status other than ENVIADO, and that content is the status's own |
| Mail.StatusSubjectsDistinct | src/mail/mail.service.ts:74-124 | the six subjects are pairwise distinct |
| Mail.ClientWelcomeEmail | src/mail/mail.service.ts:22-41 | the welcome mail goes from the client sender to the given address, with the fixed subject, and its html contains the tracking code and the name |
| Mail.AdminAlertEmail | src/mail/mail.service.ts:44-62 | the alert always goes to the one hard-coded address with subject `🚨 Nuevo Reclamo: ${tipo} - ${nombre}`, and its html contains the code |
| Mail.StatusUpdateEmail | src/mail/mail.service.ts:65-150 | a status mail exists exactly when the status has content; it goes to the given address with that status's subject, and its html greets the given name |
| Mail.AccountApprovedEmail | src/mail/mail.service.ts:152-172 | the approval mail goes to the given address and its html contains the name |
| Mail.Compose | src/mail/mail.service.ts:22-172 | every request except a status update always has a mail; a status update has one exactly when its status has content |
| Mail.Delivered | src/mail/mail.service.ts:13-18 | at most one mail per request; none when no API key is configured; a status update is sent exactly for the six statuses other than ENVIADO |
| Mail.MailService.constructor | src/mail/mail.service.ts:11-19 | the mailer is configured exactly when a non-empty API key is given, and starts with nothing sent |
| Mail.MailService.SendNewReclamoClient | src/mail/mail.service.ts:22-41 | sends the welcome mail when configured, and nothing otherwise |
| Mail.MailService.SendNewReclamoAdmin | src/mail/mail.service.ts:44-62 | sends the alert when configured, and nothing otherwise |
| Mail.MailService.SendStatusUpdate | src/mail/mail.service.ts:65-150 | sends the status mail when configured and the status has content, and nothing otherwise, with no error |
| Mail.MailService.SendAccountApproved | src/mail/mail.service.ts:152-172 | sends the approval mail when configured, and nothing otherwise |
| Mail.MailService.Dispatch | src/mail/mail.service.ts:22-172 | a recorded request adds exactly its delivered mails to what was sent |
| ReclamoEntity.ParseEstado | src/reclamos/entities/reclamo.entity.ts:4-12 | a string the enum column accepts is exactly the tag of a status |
| ReclamoEntity.EstadosEnumerated | src/reclamos/entities/reclamo.entity.ts:4-12 | there are exactly seven statuses, with pairwise distinct tags |
| ReclamoEntity.EstadoTagRoundTrip | src/reclamos/entities/reclamo.entity.ts:4-12 | reading a status's tag back gives that status |
| ReclamoEntity.Persist | src/reclamos/entities/reclamo.entity.ts:14-80 | a saved row has the generated id and date and the given fields; status defaults to ENVIADO; `tramitador`, `hora_hecho`, `cbu`, `path_representacion` and `path_honorarios` are absent; `in_itinere` and `posee_art` are false |
| UserEntity.ParseRole | src/users/entities/user.entity.ts:4-9 | a string the role column accepts is exactly the tag of a role |
| UserEntity.RolesEnumerated | src/users/entities/user.entity.ts:4-9 | there are exactly four roles, with pairwise distinct tags |
| UserEntity.RoleTagRoundTrip | src/users/entities/user.entity.ts:4-9 | reading a role's tag back gives that role |
| UserEntity.Persist | src/users/entities/user.entity.ts:11-53 | a saved user has the generated id and date and the given fields; role defaults to PRODUCTOR and `isApproved` to false |
| CreateReclamoDto.Violations | src/reclamos/dto/create-reclamo.dto.ts:13-89 | a field is reported exactly when it breaks its decorators as written: the `dni` rule that lets a sign and a decimal point through, and the `@IsString()` that rejects a missing `telefono`, included |
| CreateReclamoDto.ValidRequest | src/reclamos/dto/create-reclamo.dto.ts:16-41 | a valid request has: a name of at least 3 letters and spaces; a DNI of 7 or 8 characters that `isNumeric` accepts; an e-mail; a `telefono`, perhaps empty; a non-empty role; and, if present, a boolean `tiene_seguro` |
| CreateReclamoDto.IntendedDniRule | src/reclamos/dto/create-reclamo.dto.ts:24-28 | under the rule the `dni` message states, a valid DNI is 7 or 8 decimal digits; of the requests valid as written, it turns away exactly those whose DNI holds a non-digit |
| CreateReclamoDto.OptionalFieldsMayBeAbsent | src/reclamos/dto/create-reclamo.dto.ts:45-88 | `codigo_ref`, every incident field and `tiene_seguro` may all be absent from a valid request |
| CreateReclamoDto.AnyRoleNameAccepted | src/reclamos/dto/create-reclamo.dto.ts:39-41 | any non-empty role name is accepted, not one of a fixed set |
| CreateReclamoDto.DniAcceptsSignAndPoint | src/reclamos/dto/create-reclamo.dto.ts:24-28 | "-12.3456" passes the dni decorators as written although it is not made of digits |
| CreateReclamoDto.ValidDniPassesAsWritten | src/reclamos/dto/create-reclamo.dto.ts:24-28 | every 7- or 8-digit DNI also passes the decorators as written |
| Users.UsersService.FindOneByEmail | src/users/users.service.ts:68-70 | the result is a user of the table with that e-mail, or None exactly when no user has it |
| Users.UsersService.Create | src/users/users.service.ts:18-60 | a registered e-mail is a BadRequest and the table is unchanged. Otherwise exactly one user is added, under the new id, with: the given fields; the hashed password; the given role or PRODUCTOR; not approved; a referrer exactly when `emailReferido` is non-empty and registered, and then it is that user. The registry's integrity is kept |
| Users.UsersService.FindReferidos | src/users/users.service.ts:84-101 | exactly the users whose referrer is the given id, each once, projected without password or personal data, newest first |
| Users.UsersService.FindOne | src/users/users.service.ts:72-74 | answers with a sentence that names the id, reading no table |
| Users.UsersService.Update | src/users/users.service.ts:76-78 | answers with a sentence that names the id, writing nothing |
| Users.UsersService.Remove | src/users/users.service.ts:80-82 | answers with a sentence that names the id, deleting nothing |
| Users.InsertKeepsRegistryValid | src/users/entities/user.entity.ts:19-20 | adding a fresh user with an unused e-mail and a registered referrer keeps e-mails unique and referrers registered |
| Users.EmailIdentifiesUser | src/users/entities/user.entity.ts:19-20 | in a valid registry an e-mail names at most one user |
| Auth.AuthService.Register | src/auth/auth.service.ts:53-92 | a registered e-mail is a BadRequest and nothing is saved. A non-empty referral code whose lookup errors fails the request. Otherwise exactly one PRODUCTOR is added, with the hashed password and no licence, and the new id is returned with the success message. The referrer is the user whose id is the code, if there is one |
| Auth.AuthService.ValidateUser | src/auth/auth.service.ts:23-30 | a result exists exactly when a user has that e-mail and the password matches, and it is that user without the password and the unloaded referrer |
| Auth.WithoutPassword | src/auth/auth.service.ts:24-26 | every field but the password, and the `referidoPor` relation the lookup does not load, is copied |
| Auth.WithoutPasswordForgetsHashAndReferrer | src/auth/auth.service.ts:26 | two users have the same public part exactly when they differ at most in the password and the unloaded referrer |
| Auth.Login | src/auth/auth.service.ts:35-48 | the token signs `{sub: id, email, role}`, and the user view copies `nombre` into `nombre_completo` |
| Auth.IdentityOf | src/auth/jwt.strategy.ts:37-52 | the request identity takes id, e-mail and role from the payload and has no name |
| Auth.LoginTokenIdentity | src/auth/jwt.strategy.ts:37-52 | a login token verified back to its payload identifies the user by id, e-mail and role, with no name |
| Storage.StorageService.UploadFile | src/storage/storage.service.ts:24-45 | the object lands at `${folder}/${fileName}` and the path is returned, unless the store refuses it, which fails and stores nothing |
| Storage.StorageService.CreateSignedUrl | src/storage/storage.service.ts:47-63 | a link is issued exactly when the store can sign the path; it is for that path and lasts 300 seconds; otherwise the store's error is rethrown |
| Tables.FindKey | src/users/users.service.ts:68-70 | a key whose row satisfies the filter, or None exactly when no row does |
| Tables.SelectDesc | src/reclamos/reclamos.service.ts:182-186 | every key whose row satisfies the filter, each once, ordered by the column descending |
| Text.NatToString | src/reclamos/reclamos.service.ts:89 | the decimal rendering of the timestamp is a non-empty string of digits without a leading zero |
| Text.ParseNatToString | src/reclamos/reclamos.service.ts:89 | reading the decimal rendering back gives the number |
| Text.NatToStringInjective | src/reclamos/reclamos.service.ts:89 | distinct timestamps give distinct renderings |
| Text.FromUpperHexRoundTrip | src/reclamos/reclamos.service.ts:83 | the upper-cased hex rendering is made of upper-case hex digits, and reading it back gives the bytes |

## Where the model reads the code more closely than a plain description would

- `update` assigns `body.estado` without checking it against the enum. The `estado`
  column, however, is a Postgres enum (`src/reclamos/entities/reclamo.entity.ts:36-41`).
  Its effect is therefore modelled on three levels:
  - the save of a value outside the enum is refused with a database error, before the mail is requested;
  - an explicit `null` is refused the same way, by the column's NOT NULL constraint;
  - an absent `estado` leaves the column untouched, because TypeORM skips undefined properties, but the status mail is still requested, and the answer is the row with its `estado` missing;
  - an enum value is written, even when it equals the current one.
- `findAll` with a status outside the enum fails the same way: the query against the enum column raises an error.
- `usuario_creador` is looked up by id. A `codigo_ref` that is not a uuid makes Postgres raise an error. `create` swallows that error, but `register` has no handler and fails the request.

## Left out

- PDF rendering (`src/common/pdf.service.ts`) is not part of this model. The renderer is a parameter that may fail.
- Supabase, Resend, bcrypt and JWT internals are outside the model:
  - the store is an abstract class with a fixed set of refused paths;
  - hashing, comparing and signing are parameters;
  - token verification is a parameter of `Auth.LoginTokenIdentity`.
- Logging (`console.*`), the asynchronous scheduling of the fire-and-forget mails, and concurrent requests (two intakes racing for one code or one e-mail) are not modelled.
- `usersService.findAll` is a plain unordered `find`. It is left out because there is nothing to state about it beyond returning the table.
- The controllers, modules and bootstrap are outside the model. This includes the admin seed in `main.ts`, and the `approveUser` and `findAll(role, approved)` calls in the users controller, which have no implementation in the service.
- Reclamos.ReclamosService.FindAll: the `relations` option that loads `usuario_creador` is not modelled. A row carries its creator's id, not the joined user, and its `tramitador` id, which the query does not load at all. The same holds for `FindOne` and `FindAllByUser`.
- Reclamos.UpdateSpec: `update` loads the row without relations (`src/reclamos/reclamos.service.ts:196`), so the source's answer has neither `usuario_creador` nor `tramitador`. The model's answer keeps both ids. This holds for `Reclamos.ReclamosService.Update`, `Reclamos.UpdateWritesStatus` and `Reclamos.UpdateWithoutStatus` too. No part of the model reads those two fields of the answer, and the ids saved in the table are unchanged.
- Users.UsersService.FindReferidos: the `reclamos_cargados` relation the query loads is not modelled. The view holds the five selected columns only.
- Reclamos.Files: only the first file of each multipart field is modelled, which is the one the service reads. A request that is not multipart (a JSON POST, say) reaches `create` with `files` undefined, and `files.fileDNI` (`src/reclamos/reclamos.service.ts:43`) then throws a TypeError, a 500 before the DNI check; that path is not modelled, because `Files` always holds the seven fields.
- Reclamos.Extname: models Node's `path.extname` for names without a trailing '/'. Multer's original names contain no '/' at all.
- Reclamos.NewRow: the intake never copies `hora_hecho` (and the DTO has no `cbu`), so both stay absent. This is stated in `Reclamos.CreateSavesClaim`.
- Auth.AuthService.Register: the register DTO has no `matricula`, so the stored licence is always absent.
- Auth.AuthService.Register: an erroring referrer lookup is an input flag, not a uuid syntax check.
- Reclamos.ResolveReferrer: an erroring referrer lookup is an input flag, not a uuid syntax check.
- Auth.AuthService.ValidateUser: bcrypt's compare is a pure function of the password and the hash. Its salting is not modelled.
- CreateReclamoDto.Valid: `@IsEmail()` is an abstract predicate. A required field guarded by `@IsNotEmpty()` and sent as `undefined` is the empty string, which that decorator rejects too; `telefono`, guarded by `@IsString()` alone, is an Option, because that decorator rejects `undefined` and accepts `""`. The pipe's `forbidNonWhitelisted` option (`src/main.ts:19-23`) also refuses a body with an undeclared property; the record has no room for one, so that refusal is not modelled.
- Reclamos.UpdateSpec: whether the uuid column can read the id is an input flag (`lookupError`), not a uuid syntax check. Ids are compared as exact strings, so another spelling Postgres reads as the same uuid (upper case, braces, missing hyphens) does not find the row.
- Reclamos.ReclamosService.FindOne: the same input flag for an unreadable id, and the same exact-string comparison of ids.
- Reclamos.ReclamosService.Remove: the same input flag for an unreadable id, and the same exact-string comparison of ids.
- Reclamos.ArchivoUrl: the same input flag for an unreadable id, and the same exact-string comparison of ids; this holds for `ArchivoUrlAsWritten` and `ReclamosService.GetArchivoUrl` too.
- Reclamos.ReclamosService.FindAllByUser: no lookup error is modelled, and neither is it for `Users.UsersService.FindReferidos`. The controllers pass the authenticated user's id, a uuid the database generated.
- Storage.StorageService.CreateSignedUrl: a link is the path and its lifetime, not Supabase's URL with its token; which paths cannot be signed is fixed when the store is built.
- Users.UsersService.FindOneByEmail: the lookup loads no relations, so the source's user has no `referidoPor`, while the model's row still carries the referrer's id. The same holds for the e-mail lookups that `create` and `register` make, which the model also answers with `FindOneByEmail`. No caller reads that field: `create` and `register` use only the row's presence or its id, and `Auth.WithoutPassword` drops the referrer from what `validateUser` answers.
- Mail: the html templates keep their text and tags but not their indentation or line breaks.

## Findings

| source | as written | input that shows it | evidently intended | confidence | as-written member | corrected member |
|---|---|---|---|---|---|---|
| src/reclamos/reclamos.service.ts:207-218 | `mapaColumnas[tipoArchivo]` reads a plain object literal, which inherits `constructor`, `toString` and the other `Object.prototype` members, so those names pass the category test | `tipoArchivo = "constructor"` answers NotFound "El archivo no existe para este reclamo." instead of BadRequest | only the seven listed categories are accepted; any other name is a BadRequest | not executed | Reclamos.InheritedCategoryPassesCheck | Reclamos.ArchivoUrl |
| src/reclamos/dto/create-reclamo.dto.ts:24-28 | `@IsNumberString({})` accepts a leading sign and a decimal point, while its message says the DNI may contain only digits | `dni = "-12.3456"` passes validation | a DNI of 7 or 8 decimal digits | not executed | CreateReclamoDto.DniAcceptsSignAndPoint | CreateReclamoDto.IntendedDniRule |
