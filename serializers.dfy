/**
 * The serializers of core/serializers.py: how a request payload becomes the
 * row a viewset writes (field by field, with the read-only fields ignored),
 * and RegisterSerializer with its `create`.
 *
 * A payload is a record of optional fields: `None` is a key the request did
 * not send. Values arrive already typed (a JSON number for an integer, a day
 * number for a date). A serializer reports the first invalid field, in the
 * order the serializer declares its fields.
 */
module Serializers {
  import opened Common
  import opened Models
  import opened Storage
  import opened Signals

  /** `max_length` of User.username. */
  const USERNAME_MAX_LENGTH: nat := 150
  /** `min_length` of RegisterSerializer.password. */
  const PASSWORD_MIN_LENGTH: nat := 8

  /**
   * What a serializer is bound to: no instance (create), or a stored row
   * that the payload replaces in full (PUT) or in part (PATCH).
   */
  datatype Target<T> = Creating | Updating(id: nat, row: T, partial: bool)

  /** The id a uniqueness check leaves out: the instance's own. */
  function Instance<T>(t: Target<T>): Option<nat>
  {
    if t.Updating? then Some(t.id) else None
  }

  /** A CharField without `allow_blank`: not empty, and no longer than `maxLength` when one is given. */
  predicate TextValid(s: string, maxLength: Option<nat>)
  {
    s != "" && (maxLength.Some? ==> |s| <= maxLength.value)
  }

  /**
   * A required field is in order when the payload sends it with a valid
   * value, or when it is a PATCH, which may leave it out.
   */
  predicate RequiredOk<T>(sent: bool, valid: bool, t: Target<T>)
  {
    if sent then valid else t.Updating? && t.partial
  }

  // ------------------------------------------------------------ fields

  /**
   * A required field the payload left out: a PATCH keeps the instance's
   * value; a create or a PUT is refused with "This field is required."
   */
  function Kept<T, U>(name: string, t: Target<T>, current: T -> U): (r: Result<U>)
    ensures r.Ok? <==> t.Updating? && t.partial
    ensures r.Ok? ==> r.value == current(t.row)
    ensures r.Err? ==> r.error == Invalid(name)
  {
    if t.Updating? && t.partial then Ok(current(t.row)) else Err(Invalid(name))
  }

  /**
   * A field with a model default that the payload left out: an update keeps
   * the instance's value (PUT and PATCH alike); a create takes the default.
   */
  function Defaulted<T, U>(t: Target<T>, current: T -> U, default: U): (r: U)
    ensures t.Updating? ==> r == current(t.row)
    ensures t.Creating? ==> r == default
  {
    if t.Updating? then current(t.row) else default
  }

  /** A required CharField or TextField. */
  function Text<T>(name: string, v: Option<string>, maxLength: Option<nat>, t: Target<T>, current: T -> string): (r: Result<string>)
    ensures v.Some? ==> (r.Ok? <==> TextValid(v.value, maxLength)) && (r.Ok? ==> r.value == v.value)
    ensures v.None? ==> r == Kept(name, t, current)
    ensures r.Err? ==> r.error == Invalid(name)
  {
    match v
    case Some(s) => if TextValid(s, maxLength) then Ok(s) else Err(Invalid(name))
    case None => Kept(name, t, current)
  }

  /** A required field with no constraint beyond its type (the two DateFields). */
  function Plain<T, U>(name: string, v: Option<U>, t: Target<T>, current: T -> U): (r: Result<U>)
    ensures v.Some? ==> r == Ok(v.value)
    ensures v.None? ==> r == Kept(name, t, current)
  {
    match v
    case Some(x) => Ok(x)
    case None => Kept(name, t, current)
  }

  /** A PrimaryKeyRelatedField: required, and the id must be stored ("Invalid pk - object does not exist."). */
  function Reference<T, R>(name: string, v: Option<nat>, table: map<nat, R>, t: Target<T>, current: T -> nat): (r: Result<nat>)
    ensures v.Some? ==> (r.Ok? <==> v.value in table) && (r.Ok? ==> r.value == v.value)
    ensures v.None? ==> r == Kept(name, t, current)
    ensures r.Err? ==> r.error == Invalid(name)
  {
    match v
    case Some(k) => if k in table then Ok(k) else Err(Invalid(name))
    case None => Kept(name, t, current)
  }

  /** A ChoiceField over a model's choices, with the model default. */
  function Choice<T, E>(name: string, v: Option<string>, parse: string -> Option<E>, t: Target<T>, current: T -> E, default: E): (r: Result<E>)
    ensures v.Some? ==> (r.Ok? <==> parse(v.value).Some?) && (r.Ok? ==> r.value == parse(v.value).value)
    ensures v.None? ==> r == Ok(Defaulted(t, current, default))
    ensures r.Err? ==> r.error == Invalid(name)
  {
    match v
    case Some(s) => (match parse(s)
      case Some(e) => Ok(e)
      case None => Err(Invalid(name)))
    case None => Ok(Defaulted(t, current, default))
  }

  /** An IntegerField with the 0..100 validators and the default 0. */
  function Progreso<T>(v: Option<int>, t: Target<T>, current: T -> int): (r: Result<int>)
    ensures v.Some? ==> (r.Ok? <==> ProgresoValid(v.value)) && (r.Ok? ==> r.value == v.value)
    ensures v.None? ==> r == Ok(Defaulted(t, current, PROGRESO_DEFAULT))
    ensures r.Err? ==> r.error == Invalid("progreso")
  {
    match v
    case Some(x) => if ProgresoValid(x) then Ok(x) else Err(Invalid("progreso"))
    case None => Ok(Defaulted(t, current, PROGRESO_DEFAULT))
  }

  /** A BooleanField with a model default. */
  function Flag<T>(v: Option<bool>, t: Target<T>, current: T -> bool, default: bool): (r: bool)
    ensures v.Some? ==> r == v.value
    ensures v.None? ==> r == Defaulted(t, current, default)
  {
    match v
    case Some(b) => b
    case None => Defaulted(t, current, default)
  }

  // ------------------------------------------------------------ entity serializers

  /** A ClienteSerializer payload; `id` and `fecha_creacion` are read-only. */
  datatype ClienteData = ClienteData(
    id: Option<nat>,
    nombre: Option<string>,
    email: Option<string>,
    empresa: Option<string>,
    activo: Option<bool>,
    fechaCreacion: Option<nat>)

  /**
   * ClienteSerializer: nombre and empresa are required CharFields of at most
   * 255 characters; email is required, at most 254 characters and unique
   * among the other Clientes (the UniqueValidator excludes the instance);
   * activo defaults to true. The creation time is the instance's, or a
   * placeholder the store overwrites on insert.
   */
  function ValidateCliente(data: ClienteData, t: Target<Cliente>, clientes: map<nat, Cliente>): (r: Result<Cliente>)
    ensures r.Err? ==> r.error.Invalid?
    ensures r.Ok? && data.nombre.Some? ==> r.value.nombre == data.nombre.value && TextValid(r.value.nombre, Some(NAME_MAX_LENGTH))
    ensures r.Ok? && data.empresa.Some? ==> r.value.empresa == data.empresa.value && TextValid(r.value.empresa, Some(NAME_MAX_LENGTH))
    ensures r.Ok? && data.email.Some? ==>
      && r.value.email == data.email.value && TextValid(r.value.email, Some(EMAIL_MAX_LENGTH))
      && !EmailTaken(clientes, r.value.email, Instance(t))
    ensures r.Ok? && data.email.None? ==> t.Updating? && r.value.email == t.row.email
    ensures r.Ok? ==> r.value.activo == Flag(data.activo, t, (c: Cliente) => c.activo, ACTIVO_DEFAULT)
    ensures r.Ok? ==> r.value.fechaCreacion == if t.Updating? then t.row.fechaCreacion else 0
    ensures r.Ok? && data.nombre.None? ==> t.Updating? && r.value.nombre == t.row.nombre
    ensures r.Ok? && data.empresa.None? ==> t.Updating? && r.value.empresa == t.row.empresa
    ensures r.Ok? <==>
      && RequiredOk(data.nombre.Some?, data.nombre.Some? && TextValid(data.nombre.value, Some(NAME_MAX_LENGTH)), t)
      && RequiredOk(data.email.Some?, data.email.Some? && TextValid(data.email.value, Some(EMAIL_MAX_LENGTH))
                                      && !EmailTaken(clientes, data.email.value, Instance(t)), t)
      && RequiredOk(data.empresa.Some?, data.empresa.Some? && TextValid(data.empresa.value, Some(NAME_MAX_LENGTH)), t)
    ensures t.Creating? && (data.nombre.None? || data.email.None? || data.empresa.None?) ==> r.Err?
    ensures data.email.Some? && EmailTaken(clientes, data.email.value, Instance(t)) ==> r.Err?
  {
    var nombre :- Text("nombre", data.nombre, Some(NAME_MAX_LENGTH), t, (c: Cliente) => c.nombre);
    var email :- match data.email
      case Some(e) =>
        if !TextValid(e, Some(EMAIL_MAX_LENGTH)) || EmailTaken(clientes, e, Instance(t)) then Err(Invalid("email"))
        else Ok(e)
      case None => Kept("email", t, (c: Cliente) => c.email);
    var empresa :- Text("empresa", data.empresa, Some(NAME_MAX_LENGTH), t, (c: Cliente) => c.empresa);
    var activo := Flag(data.activo, t, (c: Cliente) => c.activo, ACTIVO_DEFAULT);
    Ok(Cliente(nombre, email, empresa, activo, if t.Updating? then t.row.fechaCreacion else 0))
  }

  /** A ProyectoSerializer payload; `id` and `progreso` are read-only. */
  datatype ProyectoData = ProyectoData(
    id: Option<nat>,
    nombre: Option<string>,
    descripcion: Option<string>,
    estado: Option<string>,
    progreso: Option<int>,
    cliente: Option<nat>,
    fechaInicio: Option<int>,
    fechaEntrega: Option<int>)

  /**
   * ProyectoSerializer as written: nombre (at most 255) and descripcion are
   * required text, estado a choice defaulting to Pendiente, cliente a stored
   * Cliente, both dates required. `progreso` is read-only: it is the
   * instance's, or 0 on create, whatever the payload says. Proyecto.clean is
   * not consulted.
   */
  function ValidateProyectoFields(data: ProyectoData, t: Target<Proyecto>, clientes: map<nat, Cliente>): (r: Result<Proyecto>)
    ensures r.Err? ==> r.error.Invalid?
    ensures r.Ok? ==> r.value.progreso == if t.Updating? then t.row.progreso else PROGRESO_DEFAULT
    ensures r.Ok? && data.cliente.Some? ==> r.value.cliente == data.cliente.value && r.value.cliente in clientes
    ensures r.Ok? && data.cliente.None? ==> t.Updating? && r.value.cliente == t.row.cliente
    ensures r.Ok? && data.nombre.Some? ==> r.value.nombre == data.nombre.value && TextValid(r.value.nombre, Some(NAME_MAX_LENGTH))
    ensures r.Ok? && data.nombre.None? ==> t.Updating? && r.value.nombre == t.row.nombre
    ensures r.Ok? && data.descripcion.Some? ==> r.value.descripcion == data.descripcion.value && r.value.descripcion != ""
    ensures r.Ok? && data.descripcion.None? ==> t.Updating? && r.value.descripcion == t.row.descripcion
    ensures r.Ok? && data.estado.Some? ==> EstadoProyectoName(r.value.estado) == data.estado.value
    ensures r.Ok? && data.estado.None? ==>
      r.value.estado == if t.Updating? then t.row.estado else EstadoProyecto.Pendiente
    ensures r.Ok? && data.fechaInicio.Some? ==> r.value.fechaInicio == data.fechaInicio.value
    ensures r.Ok? && data.fechaInicio.None? ==> t.Updating? && r.value.fechaInicio == t.row.fechaInicio
    ensures r.Ok? && data.fechaEntrega.Some? ==> r.value.fechaEntrega == data.fechaEntrega.value
    ensures r.Ok? && data.fechaEntrega.None? ==> t.Updating? && r.value.fechaEntrega == t.row.fechaEntrega
    ensures r.Ok? <==>
      && RequiredOk(data.nombre.Some?, data.nombre.Some? && TextValid(data.nombre.value, Some(NAME_MAX_LENGTH)), t)
      && RequiredOk(data.descripcion.Some?, data.descripcion.Some? && TextValid(data.descripcion.value, None), t)
      && (data.estado.Some? ==> ParseEstadoProyecto(data.estado.value).Some?)
      && RequiredOk(data.cliente.Some?, data.cliente.Some? && data.cliente.value in clientes, t)
      && RequiredOk(data.fechaInicio.Some?, true, t)
      && RequiredOk(data.fechaEntrega.Some?, true, t)
    ensures t.Creating? && data.nombre.None? ==> r.Err?
    ensures t.Creating? && data.descripcion.None? ==> r.Err?
    ensures t.Creating? && data.cliente.None? ==> r.Err?
    ensures t.Creating? && (data.fechaInicio.None? || data.fechaEntrega.None?) ==> r.Err?
    ensures data.cliente.Some? && data.cliente.value !in clientes ==> r.Err?
  {
    var nombre :- Text("nombre", data.nombre, Some(NAME_MAX_LENGTH), t, (p: Proyecto) => p.nombre);
    var descripcion :- Text("descripcion", data.descripcion, None, t, (p: Proyecto) => p.descripcion);
    var estado :- Choice("estado", data.estado, ParseEstadoProyecto, t, (p: Proyecto) => p.estado, EstadoProyecto.Pendiente);
    var cliente :- Reference("cliente", data.cliente, clientes, t, (p: Proyecto) => p.cliente);
    var inicio :- Plain("fecha_inicio", data.fechaInicio, t, (p: Proyecto) => p.fechaInicio);
    var entrega :- Plain("fecha_entrega", data.fechaEntrega, t, (p: Proyecto) => p.fechaEntrega);
    var progreso := if t.Updating? then t.row.progreso else PROGRESO_DEFAULT;
    Ok(Proyecto(nombre, descripcion, estado, progreso, cliente, inicio, entrega))
  }

  /**
   * The Proyecto validation the model's `clean` asks for: the fields as
   * above, then the date rule on the row they produce.
   */
  function ValidateProyecto(data: ProyectoData, t: Target<Proyecto>, clientes: map<nat, Cliente>): (r: Result<Proyecto>)
    ensures r.Err? ==> r.error.Invalid?
    ensures r.Ok? <==> ValidateProyectoFields(data, t, clientes).Ok? &&
                       ValidateProyectoFields(data, t, clientes).value.fechaInicio <= ValidateProyectoFields(data, t, clientes).value.fechaEntrega
    ensures r.Ok? ==> r.value == ValidateProyectoFields(data, t, clientes).value
    ensures r.Ok? ==> r.value.fechaInicio <= r.value.fechaEntrega
  {
    var p :- ValidateProyectoFields(data, t, clientes);
    var _ :- ProyectoClean(Some(p.fechaInicio), Some(p.fechaEntrega));
    Ok(p)
  }

  /** A TareaSerializer payload; `id` and `fecha_creacion` are read-only. */
  datatype TareaData = TareaData(
    id: Option<nat>,
    titulo: Option<string>,
    descripcion: Option<string>,
    estado: Option<string>,
    progreso: Option<int>,
    proyecto: Option<nat>,
    fechaCreacion: Option<nat>)

  /**
   * TareaSerializer: titulo (at most 255) and descripcion are required text,
   * estado a choice defaulting to Pendiente, progreso in 0..100 defaulting to
   * 0, proyecto a stored Proyecto.
   */
  function ValidateTarea(data: TareaData, t: Target<Tarea>, proyectos: map<nat, Proyecto>): (r: Result<Tarea>)
    ensures r.Err? ==> r.error.Invalid?
    ensures r.Ok? && data.progreso.Some? ==> r.value.progreso == data.progreso.value
    ensures r.Ok? && data.progreso.None? ==> r.value.progreso == if t.Updating? then t.row.progreso else PROGRESO_DEFAULT
    ensures r.Ok? && (t.Creating? || ProgresoValid(t.row.progreso)) ==> ProgresoValid(r.value.progreso)
    ensures r.Ok? && data.proyecto.Some? ==> r.value.proyecto == data.proyecto.value && r.value.proyecto in proyectos
    ensures r.Ok? && data.proyecto.None? ==> t.Updating? && r.value.proyecto == t.row.proyecto
    ensures r.Ok? && data.titulo.Some? ==> r.value.titulo == data.titulo.value && TextValid(r.value.titulo, Some(NAME_MAX_LENGTH))
    ensures r.Ok? && data.titulo.None? ==> t.Updating? && r.value.titulo == t.row.titulo
    ensures r.Ok? && data.descripcion.Some? ==> r.value.descripcion == data.descripcion.value && r.value.descripcion != ""
    ensures r.Ok? && data.descripcion.None? ==> t.Updating? && r.value.descripcion == t.row.descripcion
    ensures r.Ok? && data.estado.Some? ==> EstadoTareaName(r.value.estado) == data.estado.value
    ensures r.Ok? && data.estado.None? ==>
      r.value.estado == if t.Updating? then t.row.estado else EstadoTarea.Pendiente
    ensures r.Ok? ==> r.value.fechaCreacion == if t.Updating? then t.row.fechaCreacion else 0
    ensures r.Ok? <==>
      && RequiredOk(data.titulo.Some?, data.titulo.Some? && TextValid(data.titulo.value, Some(NAME_MAX_LENGTH)), t)
      && RequiredOk(data.descripcion.Some?, data.descripcion.Some? && TextValid(data.descripcion.value, None), t)
      && (data.estado.Some? ==> ParseEstadoTarea(data.estado.value).Some?)
      && (data.progreso.Some? ==> ProgresoValid(data.progreso.value))
      && RequiredOk(data.proyecto.Some?, data.proyecto.Some? && data.proyecto.value in proyectos, t)
    ensures data.progreso.Some? && !ProgresoValid(data.progreso.value) ==> r.Err?
    ensures t.Creating? && (data.titulo.None? || data.descripcion.None? || data.proyecto.None?) ==> r.Err?
  {
    var titulo :- Text("titulo", data.titulo, Some(NAME_MAX_LENGTH), t, (x: Tarea) => x.titulo);
    var descripcion :- Text("descripcion", data.descripcion, None, t, (x: Tarea) => x.descripcion);
    var estado :- Choice("estado", data.estado, ParseEstadoTarea, t, (x: Tarea) => x.estado, EstadoTarea.Pendiente);
    var progreso :- Progreso(data.progreso, t, (x: Tarea) => x.progreso);
    var proyecto :- Reference("proyecto", data.proyecto, proyectos, t, (x: Tarea) => x.proyecto);
    Ok(Tarea(titulo, descripcion, estado, progreso, proyecto, if t.Updating? then t.row.fechaCreacion else 0))
  }

  /** A SubTareaSerializer payload; `id` and `fecha_creacion` are read-only. */
  datatype SubTareaData = SubTareaData(
    id: Option<nat>,
    titulo: Option<string>,
    completada: Option<bool>,
    tarea: Option<nat>,
    fechaCreacion: Option<nat>)

  /** SubTareaSerializer: titulo is required text of at most 255, completada defaults to false, tarea a stored Tarea. */
  function ValidateSubTarea(data: SubTareaData, t: Target<SubTarea>, tareas: map<nat, Tarea>): (r: Result<SubTarea>)
    ensures r.Err? ==> r.error.Invalid?
    ensures r.Ok? && data.titulo.Some? ==> r.value.titulo == data.titulo.value && TextValid(r.value.titulo, Some(NAME_MAX_LENGTH))
    ensures r.Ok? && data.titulo.None? ==> t.Updating? && r.value.titulo == t.row.titulo
    ensures r.Ok? ==> r.value.completada == Flag(data.completada, t, (s: SubTarea) => s.completada, COMPLETADA_DEFAULT)
    ensures r.Ok? && data.tarea.Some? ==> r.value.tarea == data.tarea.value && r.value.tarea in tareas
    ensures r.Ok? && data.tarea.None? ==> t.Updating? && r.value.tarea == t.row.tarea
    ensures r.Ok? && (t.Creating? || t.row.tarea in tareas) ==> r.value.tarea in tareas
    ensures r.Ok? ==> r.value.fechaCreacion == if t.Updating? then t.row.fechaCreacion else 0
    ensures r.Ok? <==>
      && RequiredOk(data.titulo.Some?, data.titulo.Some? && TextValid(data.titulo.value, Some(NAME_MAX_LENGTH)), t)
      && RequiredOk(data.tarea.Some?, data.tarea.Some? && data.tarea.value in tareas, t)
    ensures t.Creating? && (data.titulo.None? || data.tarea.None?) ==> r.Err?
  {
    var titulo :- Text("titulo", data.titulo, Some(NAME_MAX_LENGTH), t, (s: SubTarea) => s.titulo);
    var completada := Flag(data.completada, t, (s: SubTarea) => s.completada, COMPLETADA_DEFAULT);
    var tarea :- Reference("tarea", data.tarea, tareas, t, (s: SubTarea) => s.tarea);
    Ok(SubTarea(titulo, completada, tarea, if t.Updating? then t.row.fechaCreacion else 0))
  }

  // ------------------------------------------------------------ what the serializers promise

  /** The read-only `id` and `fecha_creacion` of a Cliente payload are ignored. */
  lemma ClienteReadOnly(data: ClienteData, t: Target<Cliente>, clientes: map<nat, Cliente>, id: Option<nat>, fecha: Option<nat>)
    ensures ValidateCliente(data.(id := id, fechaCreacion := fecha), t, clientes) == ValidateCliente(data, t, clientes)
  {
  }

  /** The read-only `id` and `progreso` of a Proyecto payload are ignored. */
  lemma ProyectoReadOnly(data: ProyectoData, t: Target<Proyecto>, clientes: map<nat, Cliente>, id: Option<nat>, progreso: Option<int>)
    ensures ValidateProyectoFields(data.(id := id, progreso := progreso), t, clientes) == ValidateProyectoFields(data, t, clientes)
    ensures ValidateProyecto(data.(id := id, progreso := progreso), t, clientes) == ValidateProyecto(data, t, clientes)
  {
  }

  /** The read-only `id` and `fecha_creacion` of a Tarea payload are ignored. */
  lemma TareaReadOnly(data: TareaData, t: Target<Tarea>, proyectos: map<nat, Proyecto>, id: Option<nat>, fecha: Option<nat>)
    ensures ValidateTarea(data.(id := id, fechaCreacion := fecha), t, proyectos) == ValidateTarea(data, t, proyectos)
  {
  }

  /** The read-only `id` and `fecha_creacion` of a SubTarea payload are ignored. */
  lemma SubTareaReadOnly(data: SubTareaData, t: Target<SubTarea>, tareas: map<nat, Tarea>, id: Option<nat>, fecha: Option<nat>)
    ensures ValidateSubTarea(data.(id := id, fechaCreacion := fecha), t, tareas) == ValidateSubTarea(data, t, tareas)
  {
  }

  /** An empty PATCH of a Tarea validates to the stored row itself. */
  lemma EmptyPatchKeepsTarea(id: nat, row: Tarea, proyectos: map<nat, Proyecto>)
    ensures ValidateTarea(TareaData(None, None, None, None, None, None, None), Updating(id, row, true), proyectos) == Ok(row)
  {
  }

  /** A PATCH that sends only `nombre` renames the project and keeps every other stored field. */
  lemma RenamingPatch(id: nat, row: Proyecto, clientes: map<nat, Cliente>, nombre: string)
    requires TextValid(nombre, Some(NAME_MAX_LENGTH)) && row.cliente in clientes
    ensures ValidateProyectoFields(ProyectoData(None, Some(nombre), None, None, None, None, None, None), Updating(id, row, true), clientes)
            == Ok(row.(nombre := nombre))
    ensures row.fechaInicio <= row.fechaEntrega ==>
      ValidateProyecto(ProyectoData(None, Some(nombre), None, None, None, None, None, None), Updating(id, row, true), clientes)
      == Ok(row.(nombre := nombre))
  {
  }

  /** A PATCH that sends only `titulo` renames the task and keeps every other stored field. */
  lemma RetitlingPatch(id: nat, row: Tarea, proyectos: map<nat, Proyecto>, titulo: string)
    requires TextValid(titulo, Some(NAME_MAX_LENGTH)) && row.proyecto in proyectos
    ensures ValidateTarea(TareaData(None, Some(titulo), None, None, None, None, None), Updating(id, row, true), proyectos)
            == Ok(row.(titulo := titulo))
  {
  }

  /**
   * The fields alone accept a project due before it starts: Proyecto.clean
   * is never consulted by the serializer.
   */
  lemma InvertedDatesPassTheFields(clientes: map<nat, Cliente>, c: nat)
    requires c in clientes
    ensures var data := ProyectoData(None, Some("Web"), Some("Sitio"), None, None, Some(c), Some(20), Some(10));
      && ValidateProyectoFields(data, Creating, clientes).Ok?
      && ValidateProyectoFields(data, Creating, clientes).value.fechaEntrega < ValidateProyectoFields(data, Creating, clientes).value.fechaInicio
      && ValidateProyecto(data, Creating, clientes).Err?
  {
  }

  /**
   * SubTarea.clean could never refuse a subtask the serializer accepts on
   * create: `tarea` is required there and names a stored task, whose id is not 0.
   */
  lemma SubTareaCleanNeverFires(data: SubTareaData, d: Db)
    requires d.Valid()
    requires ValidateSubTarea(data, Creating, d.tareas).Ok?
    ensures SubTareaClean(ValidateSubTarea(data, Creating, d.tareas).value.completada,
                          Some(ValidateSubTarea(data, Creating, d.tareas).value.tarea)).Ok?
  {
    var st := ValidateSubTarea(data, Creating, d.tareas).value;
    assert st.tarea in d.tareas;
  }

  // ------------------------------------------------------------ RegisterSerializer

  /** A registration payload. */
  datatype RegisterData = RegisterData(
    username: Option<string>,
    password: Option<string>,
    email: Option<string>,
    role: Option<string>)

  /** What RegisterSerializer validates. */
  datatype Registration = Registration(username: string, password: string, email: string, role: Role)

  predicate UsernameValid(users: map<UserId, User>, u: string)
  {
    TextValid(u, Some(USERNAME_MAX_LENGTH)) && !UsernameTaken(users, u)
  }

  predicate EmailFieldValid(e: string)
  {
    |e| <= EMAIL_MAX_LENGTH
  }

  /**
   * RegisterSerializer.is_valid: username is required, at most 150
   * characters and not taken; password is required with at least 8
   * characters; email is optional and may be blank; role is one of ADMIN
   * and CLIENT and defaults to CLIENT.
   */
  function ValidateRegister(data: RegisterData, users: map<UserId, User>): (r: Result<Registration>)
    ensures r.Err? ==> r.error.Invalid?
    ensures r.Ok? <==>
      && data.username.Some? && UsernameValid(users, data.username.value)
      && data.password.Some? && |data.password.value| >= PASSWORD_MIN_LENGTH
      && (data.email.Some? ==> EmailFieldValid(data.email.value))
      && (data.role.Some? ==> ParseRole(data.role.value).Some?)
    ensures r.Ok? ==>
      && r.value.username == data.username.value
      && r.value.password == data.password.value
      && r.value.email == (if data.email.Some? then data.email.value else "")
      && r.value.role == (if data.role.Some? then ParseRole(data.role.value).value else DEFAULT_ROLE)
  {
    var username :- match data.username
      case Some(u) => if UsernameValid(users, u) then Ok(u) else Err(Invalid("username"))
      case None => Err(Invalid("username"));
    var password :- match data.password
      case Some(p) => if |p| >= PASSWORD_MIN_LENGTH then Ok(p) else Err(Invalid("password"))
      case None => Err(Invalid("password"));
    var email :- match data.email
      case Some(e) => if EmailFieldValid(e) then Ok(e) else Err(Invalid("email"))
      case None => Ok("");
    var role :- match data.role
      case Some(s) => (match ParseRole(s)
        case Some(role) => Ok(role)
        case None => Err(Invalid("role")))
      case None => Ok(DEFAULT_ROLE);
    Ok(Registration(username, password, email, role))
  }

  /** A password of seven characters is refused, whatever else the payload holds. */
  lemma ShortPasswordRefused(data: RegisterData, users: map<UserId, User>)
    requires data.password.Some? && |data.password.value| < PASSWORD_MIN_LENGTH
    ensures ValidateRegister(data, users).Err?
  {
  }

  /**
   * RegisterSerializer.create: the role is taken out of the validated data,
   * `create_user` receives only username, password and email (its post_save
   * gives the user a CLIENT profile), and the profile's role is then set to
   * the validated one and saved.
   */
  method RegisterCreate(s: Store, reg: Registration) returns (user: UserId)
    requires s.Valid() && !UsernameTaken(s.users, reg.username)
    modifies s
    ensures s.Valid()
    ensures user == old(s.nextUserId) && user !in old(s.users)
    ensures s.Snapshot() == old(s.Snapshot()).(
      users := old(s.users)[user := User(reg.username, reg.password, reg.email)],
      profiles := old(s.profiles)[user := Profile(reg.role)],
      nextUserId := old(s.nextUserId) + 1)
    ensures old(s.EveryUserHasProfile()) ==> s.EveryUserHasProfile()
  {
    var created := CreateUser(s, reg.username, reg.password, reg.email);
    user := created.value;
    s.UpdateProfile(user, Profile(reg.role));
  }
}
