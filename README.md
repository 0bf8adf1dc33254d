# Project tracking backend, modelled in Dafny

These modules model the core of a Django REST backend that tracks clients, their projects, the
tasks of a project and the subtasks of a task. The model covers:

- who may see and change rows: an ADMIN profile sees everything, anyone else sees nothing;
- how request payloads become rows;
- how a project's `progreso` follows from its tasks;
- what the post-save hooks on User guarantee.

Modules:

- **Common**: `Option`, `Result`, the error kinds with their HTTP status codes, and the caller of a request.
- **Models**: the entities as datatypes, with their constants and defaults and the choice lists. It
  holds `Proyecto.clean` and `SubTarea.clean`, and the arithmetic of `actualizar_progreso`: a sum
  and a mean truncated toward zero, as `int(a / b)` does.
- **Storage**: the database, as class `Store`. It holds one map per table and an autoincrement
  counter per table, starting at 1. A logical clock stamps `auto_now_add` fields. `Db` is the same
  state as a value. Each write is a pure function on `Db`, with a lemma saying that the write keeps
  the database's integrity. That integrity covers ids, foreign keys, unique emails and usernames,
  and "profiles belong to users". The methods hold the `actualizar_progreso` loop, `Tarea.save`,
  and the cascading deletes.
- **Permissions**: `IsOwnerOrAdmin`. It is a pure function of the caller, the caller's profile and
  the attributes the object check probes.
- **Signals**: the two `post_save` receivers on User, and `create_user`, which fires them.
- **Serializers**: the field-by-field validation of the four ModelSerializers, and
  RegisterSerializer with its `create`. A payload is a record of optional fields. Validation
  distinguishes create, PUT and PATCH. It honours required fields, model defaults, read-only
  fields, `max_length`, choices, the 0..100 validators, `unique` and existing primary keys.
- **Ordering**: the descending sort behind each model's `Meta.ordering`.
- **Views**: the viewsets. Lists and detail lookups are functions of the database. Create, update
  and destroy are methods on the store, including the overridden `perform_create`,
  `perform_update` and `perform_destroy` hooks.
- **Scenarios**: the six test cases in `core/tests.py`, replayed on a fresh store, each on the
  fixture its own `setUp` builds, with the asserted statuses and values proved. One more scenario
  shows the endpoints storing a project due before it starts.

A project's progress comes out as follows:

- Saving a task (`Tarea.save`) recomputes the progress of its project. The new value is the
  truncated mean of the progress of all the project's tasks.
- The create and update hooks of TareaViewSet recompute the progress once more. The model proves
  that this second roll-up changes nothing (`Storage.ActualizadoIdempotent`).
- A project with no tasks keeps its value. Creating a project therefore leaves it at 0.
- Only the task's current project is recomputed. A task moved to another project leaves the old
  project as it was (`Views.MovedTareaLeavesOldProyecto`).
- Deleting a task recomputes nothing (`Views.TareaDestroy`).

Who may do what:

- Every endpoint except registration refuses anonymous callers with 401.
- An admin may read and write any row.
- For anyone else, every queryset is empty, so every detail route answers 404. The object
  permission never gets to refuse anything (`Views.NoForbiddenDetail`).
- Creating a row goes through no queryset. Any authenticated caller may therefore create a
  Cliente, a Proyecto, a Tarea or a SubTarea.

The project endpoints validate as ProyectoSerializer does, with `Serializers.ValidateProyectoFields`.
Like the code, they do not apply the date rule of `Proyecto.clean`, so they can store a project due
before it starts (`Views.AsWrittenCreateBreaksDateOrder`, `Scenarios.InvertedDatesStored`). The
rule is modelled on its own as `Serializers.ValidateProyecto`, with what it would guarantee (see
Findings).

## Model

| member | source | states |
|---|---|---|
| Common.StatusCode | core/views.py:23-27 | Every error is a 4xx or 5xx code. Exactly a missing row is 404, and exactly an invalid field is 400. |
| Models.ParseRole | core/models.py:9-14 | Only "ADMIN" and "CLIENT" are roles. A string parses exactly when some role has that name, and it parses to that role. |
| Models.ParseEstadoProyecto | core/models.py:38-43 | A string is accepted exactly when it is one of the four project states, and it maps to that state. |
| Models.ParseEstadoTarea | core/models.py:91-96 | A string is accepted exactly when it is one of the four task states, and it maps to that state. |
| Models.ProyectoClean | core/models.py:81-84 | The rule fails exactly when both dates are present and the delivery date is before the start date. The failure is a non-field error. |
| Models.SubTareaClean | core/models.py:150-153 | The rule fails exactly when the subtask is completed and has no task id (none, or 0). |
| Models.TruncDiv | core/models.py:78 | `int(a / b)` with b > 0 gives the quotient rounded toward zero, for either sign of `a`. |
| Models.SumInRange | core/models.py:106-111 | The sum of n valid progress values lies between 0·n and 100·n. |
| Models.MeanInRange | core/models.py:73-79 | The truncated mean of valid progress values is itself a valid progress value. |
| Models.MeanPositive | core/models.py:78 | For a non-negative sum, the mean is above 0 exactly when the sum reaches the number of tasks. |
| Models.Mean | core/models.py:78 | The mean is the sum divided by the count, rounded toward zero: for a non-negative sum, mean·n ≤ sum < mean·n + n, and symmetrically for a negative one. |
| Models.MeanTruncates | core/models.py:78 | The mean truncates: 99 and 0 average to 49, and 100 and 0 average to 50. |
| Models.ProgressList | core/models.py:75-77 | `self.tareas.all()` yields one progress value per task of the project; its length is the number of tasks. |
| Models.TareaIds | core/models.py:75 | The ids of the project's tasks, each once, in increasing order. An id is in the list exactly when it is a task of the project. |
| Models.ProgressListInIdOrder | core/models.py:75-77 | Position by position, the list holds the progreso of the task with the matching id. So each task contributes exactly one value. |
| Models.ProgressListCovers | core/models.py:75-77 | Every task of the project contributes its progress to the list. |
| Models.ProgressListFrom | core/models.py:75-77 | Every value in the list is the progress of some task of the project. |
| Models.NoTareasOfUnknownProyecto | core/models.py:112-117 | When every task's foreign key names a stored project, an unstored project has no tasks. |
| Models.ProgressListValid | core/models.py:106-111 | When every task's progress is in 0..100, so is every value collected for a project. |
| Models.Recompute | core/models.py:76-79 | With tasks, progreso becomes their truncated mean. Without tasks, the row is unchanged. No other field changes (`update_fields=['progreso']`). |
| Models.RecomputeIdempotent | core/models.py:73-79 | Recomputing twice over the same tasks gives the same row as recomputing once. |
| Models.RecomputeValid | core/models.py:53-58 | Recomputing keeps progreso in 0..100 when the tasks' values are in range. |
| Storage.Actualizado | core/models.py:73-79 | Only the rolled-up project changes, and only its progreso. With tasks, progreso becomes their mean. Without tasks, the database is unchanged. |
| Storage.TareaDeleted | core/models.py:137-142 | The task goes, along with exactly the subtasks that point to it. The survivors are unchanged, and no other table changes. |
| Storage.ProyectoDeleted | core/models.py:112-117 | The project goes, along with exactly its tasks and the subtasks of those tasks. The survivors are unchanged, and no other table changes. |
| Storage.ClienteDeleted | core/models.py:59-64 | The Cliente goes, along with exactly its projects, their tasks and those tasks' subtasks. The survivors are unchanged. |
| Storage.Survivors | core/models.py:59-64 | On a cascading delete, a row survives exactly when its parent is not deleted, and it survives unchanged. |
| Storage.UniqueEmailsStore | core/models.py:23 | Writing a Cliente whose email no other Cliente has keeps emails unique. |
| Storage.UniqueUsernamesStore | core/serializers.py:18 | Writing a user whose username no other user has keeps usernames unique. |
| Storage.UniqueEmailsRemove | core/models.py:23 | Deleting Clientes keeps emails unique. |
| Storage.OwnEmailFree | core/models.py:23 | With emails unique, a Cliente's own email is taken by no other Cliente. |
| Storage.ActualizadoIdempotent | core/models.py:73-79 | Rolling a project up twice leaves the same database as rolling it up once. |
| Storage.NewProyectoHasNoTareas | core/views.py:85-88 | A project just inserted into a consistent database has no tasks, so its roll-up finds nothing to average. |
| Storage.ClienteInsertedKeepsValid | core/models.py:21-26 | Inserting a Cliente with a fresh email keeps ids, foreign keys and uniqueness consistent, and keeps every progreso in range. |
| Storage.ClienteUpdatedKeepsValid | core/models.py:21-26 | Rewriting a Cliente with an email that no other Cliente has keeps the database consistent. |
| Storage.ProyectoInsertedKeepsValid | core/models.py:59-64 | Inserting a project whose Cliente exists keeps the database consistent. A progreso in range keeps every progreso in range. |
| Storage.ProyectoUpdatedKeepsValid | core/models.py:59-64 | Rewriting a project with an existing Cliente keeps the database consistent, with the same condition on progreso. |
| Storage.TareaInsertedKeepsValid | core/models.py:106-117 | Inserting a task of an existing project keeps the database consistent. A progreso in range keeps every progreso in range. |
| Storage.TareaUpdatedKeepsValid | core/models.py:106-117 | Rewriting a task with an existing project keeps the database consistent. |
| Storage.SubTareaInsertedKeepsValid | core/models.py:137-142 | Inserting a subtask of an existing task keeps the database consistent. |
| Storage.SubTareaUpdatedKeepsValid | core/models.py:137-142 | Rewriting a subtask with an existing task keeps the database consistent. |
| Storage.UserInsertedKeepsValid | core/serializers.py:18 | Inserting a user with a free username keeps the database consistent. |
| Storage.ProfileStoredKeepsValid | core/models.py:13-14 | Writing the profile of an existing user keeps the one-to-one link consistent. |
| Storage.ActualizadoKeepsValid | core/models.py:73-79 | A roll-up keeps the database consistent. It keeps every progreso in range, because the mean of values in range is in range. |
| Storage.SubTareaDeletedKeepsValid | core/models.py:134-143 | Deleting a subtask keeps the database consistent. |
| Storage.TareaDeletedKeepsValid | core/models.py:137-142 | Deleting a task with its subtasks (CASCADE) leaves no dangling subtask. |
| Storage.ProyectoDeletedKeepsValid | core/models.py:112-117 | Deleting a project with its tasks and their subtasks leaves no dangling row. |
| Storage.ClienteDeletedKeepsValid | core/models.py:59-64 | Deleting a Cliente cascades through projects, tasks and subtasks and leaves no dangling row. |
| Storage.Store.TaskProgressesCount | core/models.py:75-76 | `tareas.count()` is the number of values `tareas.all()` yields. |
| Storage.Store.TotalProgreso | core/models.py:77-78 | The loop computes the sum of the project's task progress values and how many tasks there are. |
| Storage.Store.ActualizarProgreso | core/models.py:73-79 | The stored project becomes its roll-up, and nothing else changes. An unknown project changes nothing. Consistency is kept, and so is the progreso range. |
| Storage.Store.InsertTareaRow | core/models.py:127 | A new task gets the next id and the current creation time. |
| Storage.Store.UpdateTareaRow | core/models.py:127 | A stored task is rewritten and keeps its creation time. |
| Storage.Store.SaveTarea | core/models.py:125-128 | The row is written and its project rolled up, so the project's progreso is the mean over its tasks, this one included. A missing project is an integrity error, with nothing written. |
| Storage.Store.InsertCliente | core/models.py:21-26 | A Cliente gets the next id and the current time. A duplicate email is an integrity error. |
| Storage.Store.UpdateCliente | core/models.py:21-26 | The row is rewritten and keeps its creation time. An email held by another Cliente is an integrity error. |
| Storage.Store.InsertProyecto | core/models.py:45-66 | A project gets the next id. A missing Cliente is an integrity error. |
| Storage.Store.UpdateProyecto | core/models.py:45-66 | The project is rewritten. A missing Cliente is an integrity error. |
| Storage.Store.InsertSubTarea | core/models.py:134-143 | A subtask gets the next id and the current time. A missing task is an integrity error. |
| Storage.Store.UpdateSubTarea | core/models.py:134-143 | The subtask is rewritten and keeps its creation time. A missing task is an integrity error. |
| Storage.Store.InsertUser | core/serializers.py:18 | A user gets a fresh id, not yet in the users or profiles tables. A taken username is an integrity error. |
| Storage.Store.InsertProfile | core/signals.py:11 | A profile is created for an existing user with no profile yet. Anything else is an integrity error. |
| Storage.Store.UpdateProfile | core/serializers.py:19-20 | The profile of a user is rewritten. |
| Storage.Store.DeleteSubTarea | core/models.py:134-143 | The subtask is removed. |
| Storage.Store.DeleteTarea | core/models.py:137-142 | The task and its subtasks are removed. |
| Storage.Store.DeleteProyecto | core/models.py:112-117 | The project, its tasks and their subtasks are removed. |
| Storage.Store.DeleteCliente | core/models.py:59-64 | The Cliente and everything below it are removed. |
| Permissions.AttrsOf | core/permissions.py:24-34 | None of the four models has `user` or `owner`. Only a Proyecto has `cliente`, and a Cliente has no `user`. |
| Permissions.HasPermission | core/permissions.py:11-13 | The request passes exactly when the user is authenticated. |
| Permissions.HasObjectPermission | core/permissions.py:15-36 | An admin is always allowed. Otherwise the first of `user`, `owner` and `cliente.user` that the object has must equal the caller. With none of them, access is refused. |
| Permissions.ObjectPermissionOnModels | core/permissions.py:15-36 | On Cliente, Proyecto, Tarea and SubTarea the object check holds exactly for admins. |
| Permissions.MissingProfileIsNotAdmin | core/permissions.py:18-20 | A user without a profile is judged like a non-admin. |
| Permissions.UserProbedFirst | core/permissions.py:24-25 | Once the object has `user`, its `owner` and `cliente` do not matter. |
| Signals.CreateProfile | core/signals.py:7-11 | A created user gets a CLIENT profile. A save that creates nothing writes nothing. |
| Signals.SaveProfile | core/signals.py:14-17 | The profile is saved unchanged. A user without a profile raises. |
| Signals.PostSaveUser | core/signals.py:7-17 | Both receivers run in order. A new user ends with exactly a CLIENT profile added. |
| Signals.CreateUser | core/signals.py:7-17 | `create_user` stores the user and a CLIENT profile and keeps "every user has a profile". A taken username is refused, with nothing written. |
| Signals.SaveUser | core/signals.py:14-17 | Re-saving a user changes no row. It succeeds exactly when the user has a profile. |
| Serializers.Kept | core/serializers.py:24-63 | A required field left out is kept from the instance on a PATCH. On a create or a PUT it is refused. |
| Serializers.Defaulted | core/models.py:100-111 | A field with a model default that is left out keeps the instance's value on an update and takes the default on a create. |
| Serializers.Text | core/models.py:98-99 | A text field that is sent is accepted exactly when it is non-empty and within its length limit, and it is taken as sent. |
| Serializers.Plain | core/models.py:65-66 | A date that is sent is taken as sent. |
| Serializers.Reference | core/models.py:112-117 | A foreign key that is sent is accepted exactly when it names a stored row. |
| Serializers.Choice | core/models.py:100-105 | A choice that is sent is accepted exactly when it is one of the choices, and it maps to that choice. A choice left out takes its default. |
| Serializers.Progreso | core/models.py:106-111 | A progreso that is sent is accepted exactly when it is in 0..100. One left out defaults to 0 on a create. |
| Serializers.Flag | core/models.py:136 | A boolean that is sent is taken as sent. One left out takes its default. |
| Serializers.ValidateCliente | core/serializers.py:55-63 | A payload is accepted exactly when two things hold. First, nombre and empresa are non-empty and within 255 characters. Second, email is non-empty, within 254 characters and held by no other Cliente. A PATCH may leave any of them out. The accepted row takes each sent value and keeps the rest from the instance. activo defaults to true, and the creation time never comes from the payload. |
| Serializers.ValidateProyectoFields | core/serializers.py:44-52 | A payload is accepted exactly when four things hold. nombre is valid text within 255 characters, and descripcion is non-empty. estado, when sent, is one of the choices. cliente names a stored Cliente, and both dates are given. A PATCH may leave any required field out. The row takes each sent value and keeps the rest from the instance. estado defaults to Pendiente. progreso is read-only: the stored value, or 0. `clean` is not consulted. |
| Serializers.ValidateProyecto | core/models.py:81-84 | The fields above, then the date rule: it accepts exactly what the fields accept with start ≤ delivery. |
| Serializers.ValidateTarea | core/serializers.py:33-41 | A payload is accepted exactly when four things hold. titulo is valid text within 255 characters, and descripcion is non-empty. estado, when sent, is one of the choices, and progreso, when sent, is in 0..100. proyecto names a stored project. A PATCH may leave any required field out. The row takes each sent value. A field left out keeps the instance's value or takes its default: Pendiente for estado, 0 for progreso. |
| Serializers.ValidateSubTarea | core/serializers.py:24-30 | A payload is accepted exactly when titulo is valid text within 255 characters and tarea names a stored task; a PATCH may leave either out. completada defaults to false. The creation time never comes from the payload. |
| Serializers.ClienteReadOnly | core/serializers.py:63 | `id` and `fecha_creacion` in a payload change nothing. |
| Serializers.ProyectoReadOnly | core/serializers.py:52 | `id` and `progreso` in a payload change nothing, for the fields as written and with the date rule. |
| Serializers.TareaReadOnly | core/serializers.py:41 | `id` and `fecha_creacion` in a payload change nothing. |
| Serializers.SubTareaReadOnly | core/serializers.py:30 | `id` and `fecha_creacion` in a payload change nothing. |
| Serializers.EmptyPatchKeepsTarea | core/serializers.py:33-41 | An empty PATCH validates to the stored task. |
| Serializers.RetitlingPatch | core/serializers.py:33-41 | A PATCH with only a valid titulo changes the title and keeps every other field of the task. |
| Serializers.RenamingPatch | core/serializers.py:44-52 | A PATCH with only a valid nombre changes the name and keeps every other field. |
| Serializers.InvertedDatesPassTheFields | core/serializers.py:44-52 | A project due before it starts passes the serializer's fields, but the date rule refuses it. |
| Serializers.SubTareaCleanNeverFires | core/models.py:150-153 | A subtask accepted on create always names a stored task, so `SubTarea.clean` could not refuse it. |
| Serializers.ValidateRegister | core/serializers.py:6-13 | Acceptance happens exactly when four things hold: the username is required, at most 150 long and free; the password has at least 8 characters; the email is at most 254 long; the role is ADMIN or CLIENT. The email defaults to "", the role to CLIENT. |
| Serializers.ShortPasswordRefused | core/serializers.py:8 | A password shorter than 8 characters is always refused. |
| Serializers.RegisterCreate | core/serializers.py:15-21 | The user is created through `create_user` from username, password and email. The profile ends with the requested role, and nothing else changes. |
| Ordering.SortByKey | core/models.py:31 | Ordering a list is a permutation of it. |
| Ordering.SortByKeySorted | core/models.py:31 | The ordered list is descending on the ordering field, and distinct ids stay distinct. |
| Views.Status | core/views.py:25-28 | Creation and registration answer 201, a soft delete 200, a delete 204, and errors their own code. |
| Views.ListStatus | core/views.py:31-37 | A list answers 200 exactly when it succeeds. Otherwise it answers its error's code. |
| Views.ProfileOf | core/views.py:41 | An anonymous caller, or one with no profile, has no profile. Otherwise the caller has the stored one. |
| Views.Queryset | core/views.py:39-48 | An admin sees every row; anyone else sees none. |
| Views.GetObject | core/views.py:57 | A detail lookup succeeds exactly for an authenticated admin and a stored id. An anonymous caller gets 401 and anyone else 404. |
| Views.NoForbiddenDetail | core/permissions.py:15-36 | No detail request is ever refused with 403. A non-admin is always answered 404. |
| Views.Select | core/views.py:36 | A filter keeps exactly the rows it matches, unchanged. |
| Views.List | core/views.py:31-48 | A list refuses anonymous callers. It holds exactly the queryset's matching rows, each once, in descending order of the ordering field. |
| Views.ClienteList | core/views.py:35-48 | The clients an admin lists are exactly those matching `activo` and `empresa`, newest first. A client lists none. |
| Views.ProyectoList | core/views.py:69-83 | The projects listed are exactly those matching `estado` and `cliente`, latest start first, and only for an admin. A `cliente` naming no stored Cliente is a 400 for any authenticated caller. |
| Views.TareaList | core/views.py:95-108 | The tasks listed are exactly those matching `estado` and `proyecto`, newest first, and only for an admin. A `proyecto` naming no stored project is a 400 for any authenticated caller. |
| Views.SubTareaList | core/views.py:125-138 | The subtasks listed are exactly those matching `tarea` and `completada`, newest first, and only for an admin. A `tarea` naming no stored task is a 400 for any authenticated caller. |
| Views.UnfilteredAdminListsAll | core/views.py:73-79 | An admin with no filter lists every project. |
| Views.ClienteCreate | core/views.py:31-37 | Any authenticated caller with a valid payload creates the Cliente. Errors are 401 or 400, and they write nothing. |
| Views.ClienteUpdate | core/views.py:39-48 | Only an admin may update a stored Cliente. A kept email never clashes with the row's own. Non-admins get 404. |
| Views.ClienteDestroy | core/views.py:50-62 | A soft delete: the row stays, with `activo` false. No row is removed and nothing cascades. The answer is 200 with the detail message. |
| Views.ProyectoCreate | core/views.py:85-88 | Any authenticated caller whose payload passes the serializer's fields creates the project. As in the code, the date rule is not applied. The roll-up leaves progreso at 0. Errors write nothing. |
| Views.ProyectoUpdate | core/views.py:65-83 | Only an admin may update a stored project; the date rule is not applied. progreso is kept, and no roll-up runs. Non-admins get 404. |
| Views.AsWrittenCreateBreaksDateOrder | core/views.py:85-88 | As written, a payload due before it starts passes the serializer. The database it is inserted into no longer has its dates in order. |
| Views.CheckedCreateKeepsDateOrder | core/models.py:81-84 | With the date rule applied, a create keeps every project's start no later than its delivery. |
| Views.CheckedUpdateKeepsDateOrder | core/models.py:81-84 | With the date rule applied, an update keeps every project's start no later than its delivery. |
| Views.ProyectoDestroy | core/views.py:65-83 | An admin deletes the project with everything below it, and the answer is 204. |
| Views.TareaCreate | core/views.py:110-113 | The task is inserted. Its project's progreso is the mean over all its tasks. The second roll-up changes nothing. |
| Views.TareaUpdate | core/views.py:115-118 | The same as for a create, for the rewritten task. Only the task's current project is rolled up. |
| Views.MovedTareaLeavesOldProyecto | core/views.py:115-118 | A project a task is moved away from keeps its previous progreso. |
| Views.TareaDestroy | core/views.py:91-108 | The task and its subtasks go, and no project changes, not even its progreso. |
| Views.SubTareaCreate | core/views.py:121-127 | Any authenticated caller with a valid payload creates the subtask. |
| Views.SubTareaUpdate | core/views.py:129-138 | Only an admin may update a stored subtask. Non-admins get 404. |
| Views.SubTareaDestroy | core/views.py:129-138 | An admin deletes the subtask, and the answer is 204. |
| Views.Register | core/views.py:17-28 | Anyone may register. A valid payload creates the user with a profile of the requested role and answers 201 with the message. An invalid one answers 400, with nothing written. |
| Scenarios.RegisterCreatesUserAndProfileRole | core/tests.py:12-25 | Registering with role CLIENT answers 201, and the user's profile says CLIENT. |
| Scenarios.Users | core/tests.py:33-40 | `create_user` for admin and user1, each role then set and saved, leaves exactly the two users with their profiles, consistently. |
| Scenarios.Fixture | core/tests.py:33-56 | The two users, then the Cliente and its project created through the ORM, leave exactly the fixture's rows, consistently. |
| Scenarios.FirstTarea | core/tests.py:58-64 | Creating the task at 0 stores it and rolls its project up to 0. |
| Scenarios.ProjectTaskFixture | core/tests.py:31-64 | The whole setUp of ProjectTaskTests leaves exactly the fixture's consistent database. |
| Scenarios.AdminListsTheCliente | core/tests.py:66-72 | On the fixture, the admin's unfiltered Cliente list holds exactly the one Cliente. |
| Scenarios.ClientesListAdminSeesAll | core/tests.py:66-72 | The admin's GET of the Cliente list answers 200 and lists the fixture's Cliente, once. |
| Scenarios.AdminListsTheProyecto | core/tests.py:74-80 | On the fixture, the admin's project list filtered on the Cliente holds exactly its project. |
| Scenarios.ProyectosListFiltering | core/tests.py:74-80 | The admin's GET with `?cliente=` answers 200 and lists the Cliente's project, once. |
| Scenarios.PostedTarea | core/tests.py:87-92 | The posted payload validates to a task at 50 of the fixture's project. |
| Scenarios.SecondTareaProgreso | core/tests.py:96-98 | With tasks at 0 and 50, the roll-up sets the project to 25. |
| Scenarios.TareaCreationUpdatesProyectoProgreso | core/tests.py:82-98 | The POST answers 201, and the project's progreso becomes 25, which is above 0. |
| Scenarios.CrudFirstUsers | core/tests.py:106-112 | `create_user` for admin2 and userA, with their roles, leaves exactly those two users and profiles. |
| Scenarios.CrudUsers | core/tests.py:106-116 | `create_user` for admin2, userA and userB, each role then set and saved, leaves exactly the three users and their profiles, consistently. |
| Scenarios.CrudFixture | core/tests.py:104-132 | The whole setUp of CRUDPermissionsTests leaves exactly the fixture's consistent database. |
| Scenarios.AdminPatch | core/tests.py:153-155 | The admin's PATCH answers 200. |
| Scenarios.ClientPatch | core/tests.py:157-159 | The client's PATCH answers 404 and changes nothing. |
| Scenarios.AdminDelete | core/tests.py:161-163 | The admin's DELETE answers 204. |
| Scenarios.ProyectoPatchPutDeleteAdminOnly | core/tests.py:149-163 | PATCH by the admin gives 200, PATCH by the client 404, and DELETE by the admin 204. |
| Scenarios.CrudTarea | core/tests.py:167-172 | Creating the test's task at 0 stores it and rolls its project up to 0. |
| Scenarios.TareaAdminPatch | core/tests.py:176-178 | The admin's PATCH of the task's titulo answers 200. |
| Scenarios.TareaClientPatch | core/tests.py:180-182 | The client's PATCH of the task answers 404. |
| Scenarios.TareaCrudPermissions | core/tests.py:165-182 | On a task of the project, PATCH by the admin gives 200 and PATCH by the client 404. |
| Scenarios.InvertedDatesStored | core/views.py:85-88 | The admin's POST of a project due before it starts answers 201, and the stored projects' dates are then out of order. |

## Left out

- Password hashing, the e-mail address format of `EmailField` and the username character rule of Django's User are not modelled. Passwords are stored as given, and any e-mail within the length limit is accepted.
- Serializers.ValidateCliente: accepts any non-empty email of at most 254 characters, without checking its format.
- Serializers.ValidateRegister: accepts any username of at most 150 characters, without checking which characters it uses.
- Whitespace trimming of CharFields, JSON `null`, type coercion of payload values and query-string parsing are not modelled. Payload values arrive typed: an integer, a day number for a date, a state for a choice filter.
- A rejected payload reports only its first invalid field, in declaration order. DRF collects all of them.
- The serialized response bodies are left out: the nested `subtareas`, `tareas` and `proyectos`. Lists return the ids in order.
- The Django admin, URL routing, JWT authentication and pagination settings are not modelled. A caller is given as anonymous or as an authenticated user id.
- Concurrency and transactions are not modelled. Each request runs alone.
- The clocks of `auto_now_add` are not modelled; a logical counter stands in for them. Creation times are day or tick numbers, not datetimes. Ties in the ordering field come in an order the model chooses.
- Floating-point division: `int(total / count)` is modelled as exact division truncated toward zero. This matches the float result for the small values the progress validators allow.
- Storage.Store.SaveTarea: an update is only modelled for a stored id. Django would insert a row whose id vanished.
- Deleting users, and the cascade from User to Profile, are not modelled. No endpoint of the core deletes users.
- `Proyecto.clean` and `SubTarea.clean` are not run by the REST endpoints, as in the code. For `Proyecto.clean` see Findings. `SubTarea.clean` could never refuse a subtask there (Serializers.SubTareaCleanNeverFires).

## Findings

| source | as written | input that shows it | evidently intended | confidence | as-written member | corrected member |
|---|---|---|---|---|---|---|
| core/serializers.py:44-52 | ProyectoSerializer is a ModelSerializer, which never calls `Proyecto.clean`. A project may therefore be stored with a delivery date before its start date. | POST to the project list with `fecha_inicio` 20 and `fecha_entrega` 10, for an existing Cliente: the fields accept it and the row is stored. | The date rule of `Proyecto.clean` (core/models.py:81-84) refuses such a payload with a 400. | medium; not executed | Views.AsWrittenCreateBreaksDateOrder | Serializers.ValidateProyecto |
