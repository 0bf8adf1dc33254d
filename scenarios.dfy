/**
 * The scenarios of core/tests.py, replayed on the model: each method builds
 * the test's fixture on a fresh store and issues the test's requests; its
 * postcondition is what the test asserts, derived from the contracts of the
 * endpoints.
 */
module Scenarios {
  import opened Common
  import opened Models
  import opened Storage
  import opened Signals
  import opened Serializers
  import opened Views
  import opened Ordering

  /**
   * test_register_creates_user_and_profile_role: registering with role CLIENT
   * answers 201, and the profile of the user named "newuser" says CLIENT.
   */
  method RegisterCreatesUserAndProfileRole() returns (status: nat, role: Option<Role>)
    ensures status == 201
    ensures role == Some(Client)
  {
    var s := new Store();
    var r := Register(s, RegisterData(Some("newuser"), Some("strongpass123"), Some("test@example.com"), Some("CLIENT")));
    status := Status(r);
    // `User.objects.get(username='newuser')`: the stored user with that username.
    assert 1 in s.users && s.users[1].username == "newuser";
    var u :| u in s.users && s.users[u].username == "newuser";
    role := if u in s.profiles then Some(s.profiles[u].role) else None;
  }

  // ------------------------------------------------------------ ProjectTaskTests

  /** The users of the ProjectTaskTests fixture: an admin and a client. */
  function UsersDb(): Db
  {
    Db(map[1 := User("admin", "adminpass", ""), 2 := User("user1", "userpass", "")],
       map[1 := Profile(Admin), 2 := Profile(Client)],
       map[], map[], map[], map[], 3, 1, 1, 1, 1, 0)
  }

  /** The whole fixture: the two users, a Cliente and one of its projects, created through the ORM. */
  function FixtureDb(): Db
  {
    UsersDb().(
      clientes := map[1 := Cliente("Cliente 1", "cliente1@example.com", "Empresa 1", true, 0)],
      proyectos := map[1 := Proyecto("Proyecto 1", "Descripcion del proyecto", EstadoProyecto.Pendiente, 0, 1, 0, 364)],
      nextClienteId := 2, nextProyectoId := 2, clock := 1)
  }

  /** The fixture of ProjectTaskTests after its `Tarea.objects.create` of a task at 0, saved at time 1. */
  function WithTareaDb(): Db
  {
    FixtureDb().(
      tareas := map[1 := Tarea("Tarea 1", "Descripcion de tarea", EstadoTarea.Pendiente, 0, 1, 1)],
      nextTareaId := 2, clock := 2)
  }

  /**
   * `create_user` twice, each profile's role then set and saved: the steps of
   * RegisterSerializer.create.
   */
  method Users() returns (s: Store)
    ensures fresh(s) && s.Valid() && s.Snapshot() == UsersDb()
  {
    s := new Store();
    var admin := RegisterCreate(s, Registration("admin", "adminpass", "", Admin));
    var client := RegisterCreate(s, Registration("user1", "userpass", "", Client));
  }

  /** The Cliente and the project, created through the ORM. */
  method Fixture() returns (s: Store)
    ensures fresh(s) && s.Valid() && s.Snapshot() == FixtureDb()
  {
    s := Users();
    var c := s.InsertCliente(Cliente("Cliente 1", "cliente1@example.com", "Empresa 1", ACTIVO_DEFAULT, 0));
    var p := s.InsertProyecto(Proyecto("Proyecto 1", "Descripcion del proyecto", EstadoProyecto.Pendiente,
                                       PROGRESO_DEFAULT, c.value, 0, 364));
  }

  /** The fixture's task at 0: saving it rolls the project up to the mean of [0], which is 0. */
  method FirstTarea(s: Store)
    requires s.Valid() && s.Snapshot() == FixtureDb()
    modifies s
    ensures s.Valid() && s.Snapshot() == WithTareaDb()
  {
    var t := Tarea("Tarea 1", "Descripcion de tarea", EstadoTarea.Pendiente, 0, 1, 0);
    assert ProgressList(WithTareaDb().tareas, 1, 2) == [0];
    var saved := s.SaveTarea(None, t);
  }

  /** The whole setUp of ProjectTaskTests. */
  method ProjectTaskFixture() returns (s: Store)
    ensures fresh(s) && s.Valid() && s.Snapshot() == WithTareaDb()
  {
    s := Fixture();
    FirstTarea(s);
  }

  /** On the fixture, the admin's unfiltered Cliente list holds exactly Cliente 1. */
  lemma AdminListsTheCliente(d: Db)
    requires d.Valid() && d == WithTareaDb()
    ensures ClienteList(d, Authenticated(1), ClienteFilter(None, None)).Ok?
    ensures forall k :: k in ClienteList(d, Authenticated(1), ClienteFilter(None, None)).value <==> k == 1
  {
    assert AdminCaller(d.profiles, Authenticated(1));
  }

  /** On the fixture, the admin's project list filtered on Cliente 1 holds exactly project 1. */
  lemma AdminListsTheProyecto(d: Db)
    requires d.Valid() && d == WithTareaDb()
    ensures ProyectoList(d, Authenticated(1), ProyectoFilter(None, Some(1))).Ok?
    ensures forall k :: k in ProyectoList(d, Authenticated(1), ProyectoFilter(None, Some(1))).value <==> k == 1
  {
    assert AdminCaller(d.profiles, Authenticated(1));
  }

  /**
   * test_clientes_list_admin_sees_all: the admin's GET of the Cliente list
   * answers 200 and lists the fixture's only Cliente, once.
   */
  method ClientesListAdminSeesAll() returns (status: nat, ids: seq<nat>)
    ensures status == 200 && Distinct(ids) && forall k :: k in ids <==> k == 1
  {
    var s := ProjectTaskFixture();
    var d := s.Snapshot();
    AdminListsTheCliente(d);
    var r := ClienteList(d, Authenticated(1), ClienteFilter(None, None));
    status := ListStatus(r);
    ids := r.value;
  }

  /**
   * test_proyectos_list_filtering: the admin's GET of the project list with
   * `?cliente=` the fixture's Cliente answers 200 and lists its project, once.
   */
  method ProyectosListFiltering() returns (status: nat, ids: seq<nat>)
    ensures status == 200 && Distinct(ids) && forall k :: k in ids <==> k == 1
  {
    var s := ProjectTaskFixture();
    var d := s.Snapshot();
    AdminListsTheProyecto(d);
    var r := ProyectoList(d, Authenticated(1), ProyectoFilter(None, Some(1)));
    status := ListStatus(r);
    ids := r.value;
  }

  /** The roll-up after the test's POST: tasks at 0 and 50, mean 25. */
  lemma SecondTareaProgreso(t: Tarea)
    requires t == Tarea("Nueva Tarea", "Descripcion", EstadoTarea.Pendiente, 50, 1, 0)
    ensures 1 in Actualizado(TareaInserted(WithTareaDb(), t), 1).proyectos
    ensures Actualizado(TareaInserted(WithTareaDb(), t), 1).proyectos[1].progreso == 25
  {
    var e := TareaInserted(WithTareaDb(), t);
    assert ProgressList(e.tareas, 1, 1) == [];
    assert ProgressList(e.tareas, 1, 2) == [0];
    assert e.Progresses(1) == [0, 50];
    assert [0, 50][..1] == [0] && [0][..0] == [];
    assert Sum([0, 50]) == 50;
  }

  /** The payload the test posts validates to a task at 50 of project 1. */
  lemma PostedTarea(proyectos: map<nat, Proyecto>)
    requires 1 in proyectos
    ensures ValidateTarea(TareaData(None, Some("Nueva Tarea"), Some("Descripcion"), None, Some(50), Some(1), None), Creating, proyectos)
            == Ok(Tarea("Nueva Tarea", "Descripcion", EstadoTarea.Pendiente, 50, 1, 0))
  {
  }

  /**
   * test_tarea_creation_updates_proyecto_progreso: with a task at 0 already
   * there, the admin's POST of a task at 50 answers 201 and the project's
   * progreso becomes the truncated mean of 0 and 50, which is above 0.
   */
  method TareaCreationUpdatesProyectoProgreso() returns (status: nat, progreso: int)
    ensures status == 201
    ensures progreso == 25 && progreso > 0
  {
    var s := ProjectTaskFixture();
    var data := TareaData(None, Some("Nueva Tarea"), Some("Descripcion"), None, Some(50), Some(1), None);
    PostedTarea(s.proyectos);
    SecondTareaProgreso(Tarea("Nueva Tarea", "Descripcion", EstadoTarea.Pendiente, 50, 1, 0));
    var r := TareaCreate(s, Authenticated(1), data);
    status := Status(r);
    progreso := s.proyectos[1].progreso;
  }

  /**
   * The endpoints as written store a project due before it starts: the
   * admin's POST of such a project answers 201, and the projects' dates are
   * then no longer in order.
   */
  method InvertedDatesStored() returns (status: nat, inOrder: bool)
    ensures status == 201 && !inOrder
  {
    var s := Fixture();
    AsWrittenCreateBreaksDateOrder(s.Snapshot(), 1);
    var data := ProyectoData(None, Some("Web"), Some("Sitio"), None, None, Some(1), Some(20), Some(10));
    var r := ProyectoCreate(s, Authenticated(1), data);
    status := Status(r);
    inOrder := DatesInOrder(s.proyectos);
  }

  // ------------------------------------------------------------ CRUDPermissionsTests

  /** The users of the CRUDPermissionsTests fixture: admin2 (ADMIN), userA and userB (CLIENT). */
  function CrudUsersDb(): Db
  {
    Db(map[1 := User("admin2", "adminpass", ""), 2 := User("userA", "userpass", ""), 3 := User("userB", "otherpass", "")],
       map[1 := Profile(Admin), 2 := Profile(Client), 3 := Profile(Client)],
       map[], map[], map[], map[], 4, 1, 1, 1, 1, 0)
  }

  /** The fixture: the three users, the test Cliente and its project. */
  function CrudFixtureDb(): Db
  {
    CrudUsersDb().(
      clientes := map[1 := Cliente("Test Cliente", "test@example.com", "Test Corp", true, 0)],
      proyectos := map[1 := Proyecto("Test Proyecto", "Test", EstadoProyecto.Pendiente, 0, 1, 0, 364)],
      nextClienteId := 2, nextProyectoId := 2, clock := 1)
  }

  /** The fixture after test_tarea_crud_permissions' `Tarea.objects.create` of a task at 0. */
  function CrudWithTareaDb(): Db
  {
    CrudFixtureDb().(
      tareas := map[1 := Tarea("Test Task", "Test", EstadoTarea.Pendiente, 0, 1, 1)],
      nextTareaId := 2, clock := 2)
  }

  /** admin2 and userA alone. */
  function CrudFirstUsersDb(): Db
  {
    Db(map[1 := User("admin2", "adminpass", ""), 2 := User("userA", "userpass", "")],
       map[1 := Profile(Admin), 2 := Profile(Client)],
       map[], map[], map[], map[], 3, 1, 1, 1, 1, 0)
  }

  /** `create_user` for admin2 and userA, each profile's role then set and saved. */
  method CrudFirstUsers() returns (s: Store)
    ensures fresh(s) && s.Valid() && s.Snapshot() == CrudFirstUsersDb()
  {
    s := new Store();
    var admin := RegisterCreate(s, Registration("admin2", "adminpass", "", Admin));
    var user := RegisterCreate(s, Registration("userA", "userpass", "", Client));
  }

  /** Then userB. */
  method CrudUsers() returns (s: Store)
    ensures fresh(s) && s.Valid() && s.Snapshot() == CrudUsersDb()
  {
    s := CrudFirstUsers();
    var other := RegisterCreate(s, Registration("userB", "otherpass", "", Client));
  }

  /** The Cliente and the project, created through the ORM. */
  method CrudFixture() returns (s: Store)
    ensures fresh(s) && s.Valid() && s.Snapshot() == CrudFixtureDb()
  {
    s := CrudUsers();
    var c := s.InsertCliente(Cliente("Test Cliente", "test@example.com", "Test Corp", ACTIVO_DEFAULT, 0));
    var p := s.InsertProyecto(Proyecto("Test Proyecto", "Test", EstadoProyecto.Pendiente,
                                       PROGRESO_DEFAULT, c.value, 0, 364));
  }

  /** A PATCH of the admin (user 1) renaming the project. */
  method AdminPatch(s: Store) returns (status: nat)
    requires s.Valid() && s.Snapshot() == CrudFixtureDb()
    modifies s
    ensures s.Valid() && s.profiles == CrudFixtureDb().profiles && 1 in s.proyectos
    ensures status == 200
  {
    var patch := ProyectoData(None, Some("P1-nuevo"), None, None, None, None, None, None);
    RenamingPatch(1, s.proyectos[1], s.clientes, "P1-nuevo");
    var r := ProyectoUpdate(s, Authenticated(1), 1, patch, true);
    status := Status(r);
  }

  /** A PATCH of the client userA (user 2): the project is not in its queryset. */
  method ClientPatch(s: Store) returns (status: nat)
    requires s.Valid() && s.profiles == CrudFixtureDb().profiles
    modifies s
    ensures s.Valid() && s.Snapshot() == old(s.Snapshot())
    ensures status == 404
  {
    var patch := ProyectoData(None, Some("bad"), None, None, None, None, None, None);
    var r := ProyectoUpdate(s, Authenticated(2), 1, patch, true);
    status := Status(r);
  }

  /** A DELETE of the admin. */
  method AdminDelete(s: Store) returns (status: nat)
    requires s.Valid() && s.profiles == CrudFixtureDb().profiles && 1 in s.proyectos
    modifies s
    ensures status == 204
  {
    var r := ProyectoDestroy(s, Authenticated(1), 1);
    status := Status(r);
  }

  /**
   * test_proyecto_patch_put_delete_admin_only: the admin's PATCH answers
   * 200, the client's 404, and the admin's DELETE 204.
   */
  method ProyectoPatchPutDeleteAdminOnly() returns (adminPatch: nat, clientPatch: nat, adminDelete: nat)
    ensures adminPatch == 200 && clientPatch == 404 && adminDelete == 204
  {
    var s := CrudFixture();
    adminPatch := AdminPatch(s);
    clientPatch := ClientPatch(s);
    adminDelete := AdminDelete(s);
  }

  /** The test's task at 0: saving it rolls the project up to the mean of [0], which is 0. */
  method CrudTarea(s: Store)
    requires s.Valid() && s.Snapshot() == CrudFixtureDb()
    modifies s
    ensures s.Valid() && s.Snapshot() == CrudWithTareaDb()
  {
    var t := Tarea("Test Task", "Test", EstadoTarea.Pendiente, 0, 1, 0);
    assert ProgressList(CrudWithTareaDb().tareas, 1, 2) == [0];
    var saved := s.SaveTarea(None, t);
  }

  /** The admin's PATCH of the task's titulo. */
  method TareaAdminPatch(s: Store) returns (status: nat)
    requires s.Valid() && s.Snapshot() == CrudWithTareaDb()
    modifies s
    ensures s.Valid() && s.profiles == CrudFixtureDb().profiles
    ensures status == 200
  {
    var patch := TareaData(None, Some("Task Actualizada"), None, None, None, None, None);
    RetitlingPatch(1, s.tareas[1], s.proyectos, "Task Actualizada");
    var r := TareaUpdate(s, Authenticated(1), 1, patch, true);
    status := Status(r);
  }

  /** The client userA's PATCH of the task: not in its queryset. */
  method TareaClientPatch(s: Store) returns (status: nat)
    requires s.Valid() && s.profiles == CrudFixtureDb().profiles
    modifies s
    ensures status == 404
  {
    var patch := TareaData(None, Some("x"), None, None, None, None, None);
    var r := TareaUpdate(s, Authenticated(2), 1, patch, true);
    status := Status(r);
  }

  /**
   * test_tarea_crud_permissions: on a task of the fixture's project, the
   * admin's PATCH answers 200 and the client's 404.
   */
  method TareaCrudPermissions() returns (adminPatch: nat, clientPatch: nat)
    ensures adminPatch == 200 && clientPatch == 404
  {
    var s := CrudFixture();
    CrudTarea(s);
    adminPatch := TareaAdminPatch(s);
    clientPatch := TareaClientPatch(s);
  }
}
