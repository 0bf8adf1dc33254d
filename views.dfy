/**
 * The endpoints of core/views.py. Every viewset runs IsAuthenticated and
 * IsOwnerOrAdmin before anything else; its queryset holds every row for an
 * admin and none for anyone else; detail routes look the id up in that
 * queryset and then ask the object permission; lists filter on the
 * viewset's filterset fields and come in the model's ordering, newest
 * first. RegisterView lets anyone in.
 *
 * Reads are functions of the database value; writes are methods on the
 * store. Projects are validated as ProyectoSerializer does, without the
 * date rule of Proyecto.clean (see AsWrittenCreateBreaksDateOrder).
 */
module Views {
  import opened Common
  import opened Models
  import opened Storage
  import opened Permissions
  import opened Serializers
  import opened Ordering

  const CLIENTE_DEACTIVATED: string := "Cliente desactivado exitosamente."
  const USER_REGISTERED: string := "Usuario creado exitosamente"

  /** The successful responses of the write endpoints. */
  datatype Reply =
    | Created(id: nat)             // 201, the new row
    | Updated(id: nat)             // 200, the rewritten row
    | Deactivated(detail: string)  // 200, Cliente's soft delete
    | Deleted                      // 204, no body
    | Registered(message: string)  // 201

  /** The status code of a response. */
  function Status(r: Result<Reply>): (code: nat)
    ensures r.Err? ==> code == StatusCode(r.error)
    ensures r.Ok? ==> (code == 201 <==> r.value.Created? || r.value.Registered?)
    ensures r.Ok? ==> (code == 204 <==> r.value.Deleted?)
    ensures r.Ok? ==> 200 <= code < 300
  {
    match r
    case Err(e) => StatusCode(e)
    case Ok(Created(_)) => 201
    case Ok(Updated(_)) => 200
    case Ok(Deactivated(_)) => 200
    case Ok(Deleted) => 204
    case Ok(Registered(_)) => 201
  }

  /** The status code of a list response: 200 with the rows, otherwise the error's code. */
  function ListStatus(r: Result<seq<nat>>): (code: nat)
    ensures r.Ok? <==> code == 200
    ensures r.Err? ==> code == StatusCode(r.error)
  {
    match r
    case Ok(_) => 200
    case Err(e) => StatusCode(e)
  }

  // ------------------------------------------------------------ who sees what

  /** `getattr(request.user, 'profile', None)`: an anonymous user, or one without a profile, has none. */
  function ProfileOf(profiles: map<UserId, Profile>, caller: Caller): (r: Option<Profile>)
    ensures r.Some? <==> caller.Authenticated? && caller.id in profiles
    ensures r.Some? ==> r.value == profiles[caller.id]
  {
    if caller.Authenticated? && caller.id in profiles then Some(profiles[caller.id]) else None
  }

  /** An authenticated caller whose profile says ADMIN. */
  predicate AdminCaller(profiles: map<UserId, Profile>, caller: Caller)
  {
    caller.Authenticated? && IsAdmin(ProfileOf(profiles, caller))
  }

  /** get_queryset, the same in all four viewsets: every row for an admin, none for anyone else. */
  function Queryset<T>(profile: Option<Profile>, rows: map<nat, T>): (r: map<nat, T>)
    ensures IsAdmin(profile) ==> r == rows
    ensures !IsAdmin(profile) ==> r == map[]
  {
    if IsAdmin(profile) then rows else map[]
  }

  /**
   * get_object after the permission checks: an anonymous caller is refused
   * first; the id must be in the caller's queryset (404 otherwise); the
   * object permission is then asked about the row.
   */
  function GetObject<T>(caller: Caller, profile: Option<Profile>, rows: map<nat, T>, kind: Kind, id: nat): (r: Result<T>)
    ensures r.Ok? <==> caller.Authenticated? && IsAdmin(profile) && id in rows
    ensures r.Ok? ==> r.value == rows[id]
    ensures caller.Anonymous? ==> r == Err(NotAuthenticated)
    ensures caller.Authenticated? && r.Err? ==> r.error == NotFound
  {
    if !HasPermission(caller) then Err(NotAuthenticated)
    else
      var qs := Queryset(profile, rows);
      if id !in qs then Err(NotFound)
      else if !HasObjectPermission(caller, profile, AttrsOf(kind)) then Err(PermissionDenied)
      else Ok(qs[id])
  }

  /**
   * The object permission never decides a detail request on these models:
   * whoever passes the queryset is an admin, so no caller is ever refused
   * with 403, and a client's request for an existing row is a 404.
   */
  lemma NoForbiddenDetail<T>(caller: Caller, profile: Option<Profile>, rows: map<nat, T>, kind: Kind, id: nat)
    requires caller.Authenticated?
    ensures GetObject(caller, profile, rows, kind, id).Err? ==> Status(Err(GetObject(caller, profile, rows, kind, id).error)) == 404
    ensures !IsAdmin(profile) ==> GetObject(caller, profile, rows, kind, id) == Err(NotFound)
  {
  }

  // ------------------------------------------------------------ lists

  /** A filterset field: left out of the query string it matches every row, given it must equal the row's value. */
  predicate Matches<T(==)>(want: Option<T>, have: T)
  {
    want.None? || want.value == have
  }

  /** `?activo=&empresa=` */
  datatype ClienteFilter = ClienteFilter(activo: Option<bool>, empresa: Option<string>)
  /** `?estado=&cliente=` */
  datatype ProyectoFilter = ProyectoFilter(estado: Option<EstadoProyecto>, cliente: Option<nat>)
  /** `?estado=&proyecto=` */
  datatype TareaFilter = TareaFilter(estado: Option<EstadoTarea>, proyecto: Option<nat>)
  /** `?tarea=&completada=` */
  datatype SubTareaFilter = SubTareaFilter(tarea: Option<nat>, completada: Option<bool>)

  predicate ClienteMatches(f: ClienteFilter, c: Cliente)
  {
    Matches(f.activo, c.activo) && Matches(f.empresa, c.empresa)
  }

  predicate ProyectoMatches(f: ProyectoFilter, p: Proyecto)
  {
    Matches(f.estado, p.estado) && Matches(f.cliente, p.cliente)
  }

  predicate TareaMatches(f: TareaFilter, t: Tarea)
  {
    Matches(f.estado, t.estado) && Matches(f.proyecto, t.proyecto)
  }

  predicate SubTareaMatches(f: SubTareaFilter, st: SubTarea)
  {
    Matches(f.tarea, st.tarea) && Matches(f.completada, st.completada)
  }

  /** The rows a filter keeps. */
  function Select<T>(rows: map<nat, T>, keep: T -> bool): (r: map<nat, T>)
    ensures forall k :: k in r <==> k in rows && keep(rows[k])
    ensures forall k :: k in r ==> r[k] == rows[k]
  {
    map k | k in rows && keep(rows[k]) :: rows[k]
  }

  /** The ordering field of a row, looked up by id. */
  function KeyOf<T>(rows: map<nat, T>, key: T -> int): nat -> int
  {
    k => if k in rows then key(rows[k]) else 0
  }

  /**
   * `list`: the permission check, the queryset, the filter, then the model's
   * ordering on `key`, largest first; `next` bounds the ids of the table.
   */
  function List<T>(caller: Caller, profile: Option<Profile>, rows: map<nat, T>, next: nat,
                   keep: T -> bool, key: T -> int): (r: Result<seq<nat>>)
    requires forall k :: k in rows ==> k < next
    ensures r.Err? <==> caller.Anonymous?
    ensures r.Err? ==> r.error == NotAuthenticated
    ensures r.Ok? ==> forall k :: k in r.value <==> IsAdmin(profile) && k in rows && keep(rows[k])
    ensures r.Ok? ==> Distinct(r.value)
    ensures r.Ok? ==> forall i, j :: 0 <= i < j < |r.value| ==> key(rows[r.value[i]]) >= key(rows[r.value[j]])
  {
    if !HasPermission(caller) then Err(NotAuthenticated)
    else
      var ids := KeysBelow(Select(Queryset(profile, rows), keep), next);
      AscendingIsDistinct(ids);
      SortByKeySorted(ids, KeyOf(rows, key));
      var sorted := SortByKey(ids, KeyOf(rows, key));
      assert forall k :: k in sorted <==> k in ids by {
        forall k ensures k in sorted <==> k in ids {
          assert k in sorted <==> k in multiset(sorted);
          assert k in ids <==> k in multiset(ids);
        }
      }
      Ok(sorted)
  }

  /** ClienteViewSet.list: filtered on `activo` and `empresa`, newest `fecha_creacion` first. */
  function ClienteList(d: Db, caller: Caller, f: ClienteFilter): (r: Result<seq<nat>>)
    requires d.Valid()
    ensures r.Err? <==> caller.Anonymous?
    ensures r.Err? ==> r.error == NotAuthenticated
    ensures r.Ok? ==> forall k :: k in r.value <==>
      AdminCaller(d.profiles, caller) && k in d.clientes && ClienteMatches(f, d.clientes[k])
    ensures r.Ok? ==> Distinct(r.value)
    ensures r.Ok? ==> forall i, j :: 0 <= i < j < |r.value| ==>
      d.clientes[r.value[i]].fechaCreacion >= d.clientes[r.value[j]].fechaCreacion
  {
    List(caller, ProfileOf(d.profiles, caller), d.clientes, d.nextClienteId,
         (c: Cliente) => ClienteMatches(f, c), (c: Cliente) => c.fechaCreacion)
  }

  /**
   * ProyectoViewSet.list: filtered on `estado` and `cliente`, latest `fecha_inicio` first.
   * The `cliente` filter takes only the id of a stored Cliente; any other id is a
   * 400, whoever asks.
   */
  function ProyectoList(d: Db, caller: Caller, f: ProyectoFilter): (r: Result<seq<nat>>)
    requires d.Valid()
    ensures r.Err? <==> caller.Anonymous? || (f.cliente.Some? && f.cliente.value !in d.clientes)
    ensures r.Err? ==> r.error == if caller.Anonymous? then NotAuthenticated else Invalid("cliente")
    ensures r.Ok? ==> forall k :: k in r.value <==>
      AdminCaller(d.profiles, caller) && k in d.proyectos && ProyectoMatches(f, d.proyectos[k])
    ensures r.Ok? ==> Distinct(r.value)
    ensures r.Ok? ==> forall i, j :: 0 <= i < j < |r.value| ==>
      d.proyectos[r.value[i]].fechaInicio >= d.proyectos[r.value[j]].fechaInicio
  {
    if caller.Authenticated? && f.cliente.Some? && f.cliente.value !in d.clientes then Err(Invalid("cliente"))
    else
      List(caller, ProfileOf(d.profiles, caller), d.proyectos, d.nextProyectoId,
           (p: Proyecto) => ProyectoMatches(f, p), (p: Proyecto) => p.fechaInicio)
  }

  /**
   * TareaViewSet.list: filtered on `estado` and `proyecto`, newest `fecha_creacion` first.
   * The `proyecto` filter takes only the id of a stored project; any other id is a
   * 400, whoever asks.
   */
  function TareaList(d: Db, caller: Caller, f: TareaFilter): (r: Result<seq<nat>>)
    requires d.Valid()
    ensures r.Err? <==> caller.Anonymous? || (f.proyecto.Some? && f.proyecto.value !in d.proyectos)
    ensures r.Err? ==> r.error == if caller.Anonymous? then NotAuthenticated else Invalid("proyecto")
    ensures r.Ok? ==> forall k :: k in r.value <==>
      AdminCaller(d.profiles, caller) && k in d.tareas && TareaMatches(f, d.tareas[k])
    ensures r.Ok? ==> Distinct(r.value)
    ensures r.Ok? ==> forall i, j :: 0 <= i < j < |r.value| ==>
      d.tareas[r.value[i]].fechaCreacion >= d.tareas[r.value[j]].fechaCreacion
  {
    if caller.Authenticated? && f.proyecto.Some? && f.proyecto.value !in d.proyectos then Err(Invalid("proyecto"))
    else
      List(caller, ProfileOf(d.profiles, caller), d.tareas, d.nextTareaId,
           (t: Tarea) => TareaMatches(f, t), (t: Tarea) => t.fechaCreacion)
  }

  /**
   * SubTareaViewSet.list: filtered on `tarea` and `completada`, newest `fecha_creacion` first.
   * The `tarea` filter takes only the id of a stored task; any other id is a
   * 400, whoever asks.
   */
  function SubTareaList(d: Db, caller: Caller, f: SubTareaFilter): (r: Result<seq<nat>>)
    requires d.Valid()
    ensures r.Err? <==> caller.Anonymous? || (f.tarea.Some? && f.tarea.value !in d.tareas)
    ensures r.Err? ==> r.error == if caller.Anonymous? then NotAuthenticated else Invalid("tarea")
    ensures r.Ok? ==> forall k :: k in r.value <==>
      AdminCaller(d.profiles, caller) && k in d.subtareas && SubTareaMatches(f, d.subtareas[k])
    ensures r.Ok? ==> Distinct(r.value)
    ensures r.Ok? ==> forall i, j :: 0 <= i < j < |r.value| ==>
      d.subtareas[r.value[i]].fechaCreacion >= d.subtareas[r.value[j]].fechaCreacion
  {
    if caller.Authenticated? && f.tarea.Some? && f.tarea.value !in d.tareas then Err(Invalid("tarea"))
    else
      List(caller, ProfileOf(d.profiles, caller), d.subtareas, d.nextSubTareaId,
           (st: SubTarea) => SubTareaMatches(f, st), (st: SubTarea) => st.fechaCreacion)
  }

  /** An empty query string keeps every row the queryset holds: an admin lists every project. */
  lemma UnfilteredAdminListsAll(d: Db, caller: Caller)
    requires d.Valid() && AdminCaller(d.profiles, caller)
    ensures ProyectoList(d, caller, ProyectoFilter(None, None)).Ok?
    ensures forall k :: k in d.proyectos ==> k in ProyectoList(d, caller, ProyectoFilter(None, None)).value
  {
  }

  // ------------------------------------------------------------ Cliente

  /** ClienteViewSet.create: any authenticated caller, admin or not, may create a Cliente. */
  method ClienteCreate(s: Store, caller: Caller, data: ClienteData) returns (r: Result<Reply>)
    requires s.Valid()
    modifies s
    ensures s.Valid()
    ensures r.Ok? <==> caller.Authenticated? && ValidateCliente(data, Creating, old(s.clientes)).Ok?
    ensures r.Err? ==> s.Snapshot() == old(s.Snapshot())
    ensures r.Err? ==> (r.error.NotAuthenticated? <==> caller.Anonymous?) && (r.error.NotAuthenticated? || r.error.Invalid?)
    ensures r.Ok? ==>
      && r.value == Created(old(s.nextClienteId))
      && s.Snapshot() == ClienteInserted(old(s.Snapshot()), ValidateCliente(data, Creating, old(s.clientes)).value)
    ensures old(s.ProgressInRange()) ==> s.ProgressInRange()
  {
    if !HasPermission(caller) {
      return Err(NotAuthenticated);
    }
    var c :- ValidateCliente(data, Creating, s.clientes);
    var inserted := s.InsertCliente(c);
    r := Ok(Created(inserted.value));
  }

  /** ClienteViewSet.update (PUT) and partial_update (PATCH). */
  method ClienteUpdate(s: Store, caller: Caller, id: nat, data: ClienteData, partial: bool) returns (r: Result<Reply>)
    requires s.Valid()
    modifies s
    ensures s.Valid()
    ensures r.Ok? <==>
      && AdminCaller(old(s.profiles), caller) && id in old(s.clientes)
      && ValidateCliente(data, Updating(id, old(s.clientes)[id], partial), old(s.clientes)).Ok?
    ensures r.Err? ==> s.Snapshot() == old(s.Snapshot())
    ensures r.Err? ==>
      && (r.error.NotAuthenticated? <==> caller.Anonymous?)
      && (r.error.NotFound? <==> caller.Authenticated? && !(AdminCaller(old(s.profiles), caller) && id in old(s.clientes)))
      && (r.error.NotAuthenticated? || r.error.NotFound? || r.error.Invalid?)
    ensures r.Ok? ==>
      && r.value == Updated(id)
      && s.Snapshot() == ClienteUpdated(old(s.Snapshot()), id,
           ValidateCliente(data, Updating(id, old(s.clientes)[id], partial), old(s.clientes)).value)
    ensures old(s.ProgressInRange()) ==> s.ProgressInRange()
  {
    var row :- GetObject(caller, ProfileOf(s.profiles, caller), s.clientes, ClienteKind, id);
    var c :- ValidateCliente(data, Updating(id, row, partial), s.clientes);
    if data.email.None? {
      OwnEmailFree(s.clientes, id);
    }
    var saved := s.UpdateCliente(id, c);
    assert saved.Ok?;
    r := Ok(Updated(id));
  }

  /**
   * ClienteViewSet.destroy: a soft delete. The row stays, with `activo`
   * false; nothing cascades. The response is 200 with a detail message.
   */
  method ClienteDestroy(s: Store, caller: Caller, id: nat) returns (r: Result<Reply>)
    requires s.Valid()
    modifies s
    ensures s.Valid()
    ensures r.Ok? <==> AdminCaller(old(s.profiles), caller) && id in old(s.clientes)
    ensures r.Err? ==> s.Snapshot() == old(s.Snapshot())
    ensures r.Err? ==> r.error == if caller.Anonymous? then NotAuthenticated else NotFound
    ensures r.Ok? ==>
      && r.value == Deactivated(CLIENTE_DEACTIVATED)
      && s.Snapshot() == ClienteUpdated(old(s.Snapshot()), id, old(s.clientes)[id].(activo := false))
    ensures r.Ok? ==> s.clientes.Keys == old(s.clientes).Keys && !s.clientes[id].activo
    ensures s.proyectos == old(s.proyectos) && s.tareas == old(s.tareas) && s.subtareas == old(s.subtareas)
    ensures old(s.ProgressInRange()) ==> s.ProgressInRange()
  {
    var row :- GetObject(caller, ProfileOf(s.profiles, caller), s.clientes, ClienteKind, id);
    OwnEmailFree(s.clientes, id);
    var saved := s.UpdateCliente(id, row.(activo := false));
    assert saved.Ok?;
    r := Ok(Deactivated(CLIENTE_DEACTIVATED));
  }

  // ------------------------------------------------------------ Proyecto

  /** Every project is due no earlier than it starts: the rule of Proyecto.clean. */
  predicate DatesInOrder(proyectos: map<nat, Proyecto>)
  {
    forall k :: k in proyectos ==> proyectos[k].fechaInicio <= proyectos[k].fechaEntrega
  }

  /**
   * ProyectoViewSet.create: save, then perform_create's roll-up, which finds
   * no tasks for the new project and leaves its progreso at 0.
   */
  method ProyectoCreate(s: Store, caller: Caller, data: ProyectoData) returns (r: Result<Reply>)
    requires s.Valid()
    modifies s
    ensures s.Valid()
    ensures r.Ok? <==> caller.Authenticated? && ValidateProyectoFields(data, Creating, old(s.clientes)).Ok?
    ensures r.Err? ==> s.Snapshot() == old(s.Snapshot())
    ensures r.Err? ==> (r.error.NotAuthenticated? <==> caller.Anonymous?) && (r.error.NotAuthenticated? || r.error.Invalid?)
    ensures r.Ok? ==>
      && r.value == Created(old(s.nextProyectoId))
      && s.Snapshot() == ProyectoInserted(old(s.Snapshot()), ValidateProyectoFields(data, Creating, old(s.clientes)).value)
    ensures r.Ok? ==> s.proyectos[old(s.nextProyectoId)].progreso == PROGRESO_DEFAULT
    ensures old(s.ProgressInRange()) ==> s.ProgressInRange()
  {
    if !HasPermission(caller) {
      return Err(NotAuthenticated);
    }
    var p :- ValidateProyectoFields(data, Creating, s.clientes);
    ghost var d0 := s.Snapshot();
    var inserted := s.InsertProyecto(p);
    var id := inserted.value;
    NewProyectoHasNoTareas(d0, p);
    ghost var d1 := s.Snapshot();
    assert d1.proyectos[id := Recompute(d1.proyectos[id], d1.Progresses(id))] == d1.proyectos;
    s.ActualizarProgreso(id);
    r := Ok(Created(id));
  }

  /** ProyectoViewSet.update and partial_update: progreso is read-only and no roll-up runs. */
  method ProyectoUpdate(s: Store, caller: Caller, id: nat, data: ProyectoData, partial: bool) returns (r: Result<Reply>)
    requires s.Valid()
    modifies s
    ensures s.Valid()
    ensures r.Ok? <==>
      && AdminCaller(old(s.profiles), caller) && id in old(s.proyectos)
      && ValidateProyectoFields(data, Updating(id, old(s.proyectos)[id], partial), old(s.clientes)).Ok?
    ensures r.Err? ==> s.Snapshot() == old(s.Snapshot())
    ensures r.Err? ==>
      && (r.error.NotAuthenticated? <==> caller.Anonymous?)
      && (r.error.NotFound? <==> caller.Authenticated? && !(AdminCaller(old(s.profiles), caller) && id in old(s.proyectos)))
      && (r.error.NotAuthenticated? || r.error.NotFound? || r.error.Invalid?)
    ensures r.Ok? ==>
      && r.value == Updated(id)
      && s.Snapshot() == ProyectoUpdated(old(s.Snapshot()), id,
           ValidateProyectoFields(data, Updating(id, old(s.proyectos)[id], partial), old(s.clientes)).value)
    ensures r.Ok? ==> s.proyectos[id].progreso == old(s.proyectos)[id].progreso
    ensures old(s.ProgressInRange()) ==> s.ProgressInRange()
  {
    var row :- GetObject(caller, ProfileOf(s.profiles, caller), s.proyectos, ProyectoKind, id);
    var p :- ValidateProyectoFields(data, Updating(id, row, partial), s.clientes);
    assert ClienteOf(s.proyectos[id]) in s.clientes;
    var saved := s.UpdateProyecto(id, p);
    assert saved.Ok?;
    r := Ok(Updated(id));
  }

  /**
   * The endpoints as written can store a project due before it starts: the
   * payload of the lemma passes the serializer, and the database it is
   * inserted into no longer has its dates in order, however ordered they were.
   */
  lemma AsWrittenCreateBreaksDateOrder(d: Db, c: nat)
    requires c in d.clientes
    ensures var data := ProyectoData(None, Some("Web"), Some("Sitio"), None, None, Some(c), Some(20), Some(10));
      && ValidateProyectoFields(data, Creating, d.clientes).Ok?
      && !DatesInOrder(ProyectoInserted(d, ValidateProyectoFields(data, Creating, d.clientes).value).proyectos)
  {
    var data := ProyectoData(None, Some("Web"), Some("Sitio"), None, None, Some(c), Some(20), Some(10));
    var p := ValidateProyectoFields(data, Creating, d.clientes).value;
    assert ProyectoInserted(d, p).proyectos[d.nextProyectoId] == p;
  }

  /** With the date rule applied, a create keeps every project's dates in order. */
  lemma CheckedCreateKeepsDateOrder(d: Db, data: ProyectoData)
    requires DatesInOrder(d.proyectos) && ValidateProyecto(data, Creating, d.clientes).Ok?
    ensures DatesInOrder(ProyectoInserted(d, ValidateProyecto(data, Creating, d.clientes).value).proyectos)
  {
  }

  /** With the date rule applied, an update keeps every project's dates in order. */
  lemma CheckedUpdateKeepsDateOrder(d: Db, id: nat, data: ProyectoData, partial: bool)
    requires id in d.proyectos && DatesInOrder(d.proyectos)
    requires ValidateProyecto(data, Updating(id, d.proyectos[id], partial), d.clientes).Ok?
    ensures DatesInOrder(ProyectoUpdated(d, id, ValidateProyecto(data, Updating(id, d.proyectos[id], partial), d.clientes).value).proyectos)
  {
  }

  /** ProyectoViewSet.destroy: the project goes, with its tasks and their subtasks; 204. */
  method ProyectoDestroy(s: Store, caller: Caller, id: nat) returns (r: Result<Reply>)
    requires s.Valid()
    modifies s
    ensures s.Valid()
    ensures r.Ok? <==> AdminCaller(old(s.profiles), caller) && id in old(s.proyectos)
    ensures r.Err? ==> s.Snapshot() == old(s.Snapshot())
    ensures r.Err? ==> r.error == if caller.Anonymous? then NotAuthenticated else NotFound
    ensures r.Ok? ==> r.value == Deleted && s.Snapshot() == ProyectoDeleted(old(s.Snapshot()), id)
    ensures old(s.ProgressInRange()) ==> s.ProgressInRange()
  {
    var _ :- GetObject(caller, ProfileOf(s.profiles, caller), s.proyectos, ProyectoKind, id);
    s.DeleteProyecto(id);
    r := Ok(Deleted);
  }

  // ------------------------------------------------------------ Tarea

  /**
   * TareaViewSet.create: Tarea.save writes the row and rolls its project up;
   * perform_create rolls it up once more, which changes nothing. The
   * project's progreso is then the mean over its tasks, the new one included.
   */
  method TareaCreate(s: Store, caller: Caller, data: TareaData) returns (r: Result<Reply>)
    requires s.Valid()
    modifies s
    ensures s.Valid()
    ensures r.Ok? <==> caller.Authenticated? && ValidateTarea(data, Creating, old(s.proyectos)).Ok?
    ensures r.Err? ==> s.Snapshot() == old(s.Snapshot())
    ensures r.Err? ==> (r.error.NotAuthenticated? <==> caller.Anonymous?) && (r.error.NotAuthenticated? || r.error.Invalid?)
    ensures r.Ok? ==>
      var t := ValidateTarea(data, Creating, old(s.proyectos)).value;
      && r.value == Created(old(s.nextTareaId))
      && t.proyecto in old(s.proyectos)
      && s.Snapshot() == Actualizado(TareaInserted(old(s.Snapshot()), t), t.proyecto)
      && |s.TaskProgresses(t.proyecto)| > 0
      && s.proyectos[t.proyecto].progreso == Mean(s.TaskProgresses(t.proyecto))
    ensures old(s.ProgressInRange()) ==> s.ProgressInRange()
  {
    if !HasPermission(caller) {
      return Err(NotAuthenticated);
    }
    var t :- ValidateTarea(data, Creating, s.proyectos);
    ghost var d0 := s.Snapshot();
    var saved := s.SaveTarea(None, t);
    ActualizadoIdempotent(TareaInserted(d0, t), t.proyecto);
    s.ActualizarProgreso(t.proyecto);
    r := Ok(Created(saved.value));
  }

  /**
   * TareaViewSet.update and partial_update: Tarea.save rolls up the task's
   * project, as it is after the write, and perform_update once more (see
   * MovedTareaLeavesOldProyecto for the project a task leaves).
   */
  method TareaUpdate(s: Store, caller: Caller, id: nat, data: TareaData, partial: bool) returns (r: Result<Reply>)
    requires s.Valid()
    modifies s
    ensures s.Valid()
    ensures r.Ok? <==>
      && AdminCaller(old(s.profiles), caller) && id in old(s.tareas)
      && ValidateTarea(data, Updating(id, old(s.tareas)[id], partial), old(s.proyectos)).Ok?
    ensures r.Err? ==> s.Snapshot() == old(s.Snapshot())
    ensures r.Err? ==>
      && (r.error.NotAuthenticated? <==> caller.Anonymous?)
      && (r.error.NotFound? <==> caller.Authenticated? && !(AdminCaller(old(s.profiles), caller) && id in old(s.tareas)))
      && (r.error.NotAuthenticated? || r.error.NotFound? || r.error.Invalid?)
    ensures r.Ok? ==>
      var t := ValidateTarea(data, Updating(id, old(s.tareas)[id], partial), old(s.proyectos)).value;
      && r.value == Updated(id)
      && t.proyecto in old(s.proyectos)
      && s.Snapshot() == Actualizado(TareaUpdated(old(s.Snapshot()), id, t), t.proyecto)
      && |s.TaskProgresses(t.proyecto)| > 0
      && s.proyectos[t.proyecto].progreso == Mean(s.TaskProgresses(t.proyecto))
    ensures old(s.ProgressInRange()) ==> s.ProgressInRange()
  {
    var row :- GetObject(caller, ProfileOf(s.profiles, caller), s.tareas, TareaKind, id);
    var t :- ValidateTarea(data, Updating(id, row, partial), s.proyectos);
    assert ProyectoOf(s.tareas[id]) in s.proyectos;
    ghost var d0 := s.Snapshot();
    var saved := s.SaveTarea(Some(id), t);
    ActualizadoIdempotent(TareaUpdated(d0, id, t), t.proyecto);
    s.ActualizarProgreso(t.proyecto);
    r := Ok(Updated(id));
  }

  /**
   * Only the task's new project is rolled up: the project a task is moved
   * away from keeps the progreso it had, which still counts the task.
   */
  lemma MovedTareaLeavesOldProyecto(d: Db, id: nat, t: Tarea)
    requires id in d.tareas && t.proyecto in d.proyectos
    requires d.tareas[id].proyecto in d.proyectos && d.tareas[id].proyecto != t.proyecto
    ensures d.tareas[id].proyecto in Actualizado(TareaUpdated(d, id, t), t.proyecto).proyectos
    ensures Actualizado(TareaUpdated(d, id, t), t.proyecto).proyectos[d.tareas[id].proyecto] == d.proyectos[d.tareas[id].proyecto]
  {
  }

  /** TareaViewSet.destroy: the task goes with its subtasks; no roll-up runs, so the projects are untouched. */
  method TareaDestroy(s: Store, caller: Caller, id: nat) returns (r: Result<Reply>)
    requires s.Valid()
    modifies s
    ensures s.Valid()
    ensures r.Ok? <==> AdminCaller(old(s.profiles), caller) && id in old(s.tareas)
    ensures r.Err? ==> s.Snapshot() == old(s.Snapshot())
    ensures r.Err? ==> r.error == if caller.Anonymous? then NotAuthenticated else NotFound
    ensures r.Ok? ==> r.value == Deleted && s.Snapshot() == TareaDeleted(old(s.Snapshot()), id)
    ensures s.proyectos == old(s.proyectos)
    ensures old(s.ProgressInRange()) ==> s.ProgressInRange()
  {
    var _ :- GetObject(caller, ProfileOf(s.profiles, caller), s.tareas, TareaKind, id);
    s.DeleteTarea(id);
    r := Ok(Deleted);
  }

  // ------------------------------------------------------------ SubTarea

  /** SubTareaViewSet.create. */
  method SubTareaCreate(s: Store, caller: Caller, data: SubTareaData) returns (r: Result<Reply>)
    requires s.Valid()
    modifies s
    ensures s.Valid()
    ensures r.Ok? <==> caller.Authenticated? && ValidateSubTarea(data, Creating, old(s.tareas)).Ok?
    ensures r.Err? ==> s.Snapshot() == old(s.Snapshot())
    ensures r.Err? ==> (r.error.NotAuthenticated? <==> caller.Anonymous?) && (r.error.NotAuthenticated? || r.error.Invalid?)
    ensures r.Ok? ==>
      && r.value == Created(old(s.nextSubTareaId))
      && s.Snapshot() == SubTareaInserted(old(s.Snapshot()), ValidateSubTarea(data, Creating, old(s.tareas)).value)
    ensures old(s.ProgressInRange()) ==> s.ProgressInRange()
  {
    if !HasPermission(caller) {
      return Err(NotAuthenticated);
    }
    var st :- ValidateSubTarea(data, Creating, s.tareas);
    var inserted := s.InsertSubTarea(st);
    r := Ok(Created(inserted.value));
  }

  /** SubTareaViewSet.update and partial_update. */
  method SubTareaUpdate(s: Store, caller: Caller, id: nat, data: SubTareaData, partial: bool) returns (r: Result<Reply>)
    requires s.Valid()
    modifies s
    ensures s.Valid()
    ensures r.Ok? <==>
      && AdminCaller(old(s.profiles), caller) && id in old(s.subtareas)
      && ValidateSubTarea(data, Updating(id, old(s.subtareas)[id], partial), old(s.tareas)).Ok?
    ensures r.Err? ==> s.Snapshot() == old(s.Snapshot())
    ensures r.Err? ==>
      && (r.error.NotAuthenticated? <==> caller.Anonymous?)
      && (r.error.NotFound? <==> caller.Authenticated? && !(AdminCaller(old(s.profiles), caller) && id in old(s.subtareas)))
      && (r.error.NotAuthenticated? || r.error.NotFound? || r.error.Invalid?)
    ensures r.Ok? ==>
      && r.value == Updated(id)
      && s.Snapshot() == SubTareaUpdated(old(s.Snapshot()), id,
           ValidateSubTarea(data, Updating(id, old(s.subtareas)[id], partial), old(s.tareas)).value)
    ensures old(s.ProgressInRange()) ==> s.ProgressInRange()
  {
    var row :- GetObject(caller, ProfileOf(s.profiles, caller), s.subtareas, SubTareaKind, id);
    var st :- ValidateSubTarea(data, Updating(id, row, partial), s.tareas);
    assert TareaOf(s.subtareas[id]) in s.tareas;
    var saved := s.UpdateSubTarea(id, st);
    assert saved.Ok?;
    r := Ok(Updated(id));
  }

  /** SubTareaViewSet.destroy; 204. */
  method SubTareaDestroy(s: Store, caller: Caller, id: nat) returns (r: Result<Reply>)
    requires s.Valid()
    modifies s
    ensures s.Valid()
    ensures r.Ok? <==> AdminCaller(old(s.profiles), caller) && id in old(s.subtareas)
    ensures r.Err? ==> s.Snapshot() == old(s.Snapshot())
    ensures r.Err? ==> r.error == if caller.Anonymous? then NotAuthenticated else NotFound
    ensures r.Ok? ==> r.value == Deleted && s.Snapshot() == SubTareaDeleted(old(s.Snapshot()), id)
    ensures old(s.ProgressInRange()) ==> s.ProgressInRange()
  {
    var _ :- GetObject(caller, ProfileOf(s.profiles, caller), s.subtareas, SubTareaKind, id);
    s.DeleteSubTarea(id);
    r := Ok(Deleted);
  }

  // ------------------------------------------------------------ registration

  /**
   * RegisterView.post: open to anyone. An invalid payload is a 400 and
   * nothing is written; a valid one creates the user, whose profile carries
   * the requested role, and answers 201.
   */
  method Register(s: Store, data: RegisterData) returns (r: Result<Reply>)
    requires s.Valid()
    modifies s
    ensures s.Valid()
    ensures r.Ok? <==> ValidateRegister(data, old(s.users)).Ok?
    ensures r.Err? ==> r.error.Invalid? && s.Snapshot() == old(s.Snapshot())
    ensures r.Ok? ==>
      var reg := ValidateRegister(data, old(s.users)).value;
      var user := old(s.nextUserId);
      && r.value == Registered(USER_REGISTERED)
      && s.Snapshot() == old(s.Snapshot()).(
           users := old(s.users)[user := User(reg.username, reg.password, reg.email)],
           profiles := old(s.profiles)[user := Profile(reg.role)],
           nextUserId := user + 1)
    ensures old(s.EveryUserHasProfile()) ==> s.EveryUserHasProfile()
  {
    var reg :- ValidateRegister(data, s.users);
    var _ := RegisterCreate(s, reg);
    r := Ok(Registered(USER_REGISTERED));
  }
}
