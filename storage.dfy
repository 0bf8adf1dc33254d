/**
 * The database behind core/models.py: one table per model, each a map from
 * autoincrement id to row, and the operations the models perform on it:
 * inserts and updates with the database constraints (unique email and
 * username, foreign keys), the `Tarea.save` override with its progress
 * roll-up, `Proyecto.actualizar_progreso`, and cascading deletes.
 */
module Storage {
  import opened Common
  import opened Models

  /** Is `email` used by a Cliente other than `except`? (Cliente.email is unique.) */
  predicate EmailTaken(clientes: map<nat, Cliente>, email: string, except: Option<nat>)
  {
    exists k :: k in clientes && clientes[k].email == email && except != Some(k)
  }

  /** Is `username` used by some user? (User.username is unique.) */
  predicate UsernameTaken(users: map<UserId, User>, username: string)
  {
    exists u :: u in users && users[u].username == username
  }

  /** The rows left when every row whose parent is in `gone` is deleted along with it. */
  function Survivors<T>(rows: map<nat, T>, parent: T -> nat, gone: set<nat>): (r: map<nat, T>)
    ensures forall k :: k in r <==> k in rows && parent(rows[k]) !in gone
    ensures forall k :: k in r ==> r[k] == rows[k]
  {
    map k | k in rows && parent(rows[k]) !in gone :: rows[k]
  }

  /** The email of a stored Cliente; uniqueness is stated over it so that it is only unfolded where a proof names it. */
  function EmailAt(clientes: map<nat, Cliente>, k: nat): string
    requires k in clientes
  {
    clientes[k].email
  }

  /** The username of a stored user, for the same purpose. */
  function UsernameAt(users: map<UserId, User>, u: UserId): string
    requires u in users
  {
    users[u].username
  }

  /** No two stored Clientes share an email. */
  ghost predicate UniqueEmails(clientes: map<nat, Cliente>)
  {
    forall a, b :: a in clientes && b in clientes && EmailAt(clientes, a) == EmailAt(clientes, b) ==> a == b
  }

  /** No two users share a username. */
  ghost predicate UniqueUsernames(users: map<UserId, User>)
  {
    forall a, b :: a in users && b in users && UsernameAt(users, a) == UsernameAt(users, b) ==> a == b
  }

  /** Removing Clientes keeps the emails unique. */
  lemma UniqueEmailsRemove(clientes: map<nat, Cliente>, gone: set<nat>)
    requires UniqueEmails(clientes)
    ensures UniqueEmails(clientes - gone)
  {
    var m := clientes - gone;
    forall a, b | a in m && b in m && EmailAt(m, a) == EmailAt(m, b)
      ensures a == b
    {
      assert EmailAt(clientes, a) == EmailAt(clientes, b);
    }
  }

  /** Storing a Cliente at `id` keeps the emails unique when no other Cliente has its email. */
  lemma UniqueEmailsStore(clientes: map<nat, Cliente>, id: nat, c: Cliente)
    requires UniqueEmails(clientes)
    requires !EmailTaken(clientes, c.email, Some(id))
    ensures UniqueEmails(clientes[id := c])
  {
    var m := clientes[id := c];
    forall a, b | a in m && b in m && EmailAt(m, a) == EmailAt(m, b)
      ensures a == b
    {
      if a != id && b != id {
        assert EmailAt(clientes, a) == EmailAt(clientes, b);
      }
    }
  }

  /** Storing a user at `id` keeps the usernames unique when no other user has its username. */
  lemma UniqueUsernamesStore(users: map<UserId, User>, id: UserId, u: User)
    requires UniqueUsernames(users)
    requires forall v :: v in users && v != id ==> users[v].username != u.username
    ensures UniqueUsernames(users[id := u])
  {
    var m := users[id := u];
    forall a, b | a in m && b in m && UsernameAt(m, a) == UsernameAt(m, b)
      ensures a == b
    {
      if a != id && b != id {
        assert UsernameAt(users, a) == UsernameAt(users, b);
      }
    }
  }

  /** A stored Cliente's own email is free for it: saving the row unchanged never trips the unique constraint. */
  lemma OwnEmailFree(clientes: map<nat, Cliente>, id: nat)
    requires UniqueEmails(clientes) && id in clientes
    ensures !EmailTaken(clientes, clientes[id].email, Some(id))
  {
    forall k | k in clientes && clientes[k].email == clientes[id].email
      ensures k == id
    {
      assert EmailAt(clientes, k) == EmailAt(clientes, id);
    }
  }

  // The foreign keys, as functions; the integrity quantifiers are triggered by these terms.
  function ProyectoOf(t: Tarea): nat { t.proyecto }
  function TareaOf(s: SubTarea): nat { s.tarea }
  function ClienteOf(p: Proyecto): nat { p.cliente }

  /** Every table and counter of the store, as one value. */
  datatype Db = Db(
    users: map<UserId, User>,
    profiles: map<UserId, Profile>,
    clientes: map<nat, Cliente>,
    proyectos: map<nat, Proyecto>,
    tareas: map<nat, Tarea>,
    subtareas: map<nat, SubTarea>,
    nextUserId: nat,
    nextClienteId: nat,
    nextProyectoId: nat,
    nextTareaId: nat,
    nextSubTareaId: nat,
    clock: nat)
  {
    /** The database's integrity: ids from 1 below their counter, foreign keys, uniqueness of email and username. */
    ghost predicate Valid()
    {
      && nextUserId >= 1 && nextClienteId >= 1 && nextProyectoId >= 1 && nextTareaId >= 1 && nextSubTareaId >= 1
      && (forall u :: u in users ==> 1 <= u < nextUserId)
      && (forall k :: k in clientes ==> 1 <= k < nextClienteId)
      && (forall k :: k in proyectos ==> 1 <= k < nextProyectoId)
      && (forall k :: k in tareas ==> 1 <= k < nextTareaId)
      && (forall k :: k in subtareas ==> 1 <= k < nextSubTareaId)
      && profiles.Keys <= users.Keys
      && (forall k {:trigger ClienteOf(proyectos[k])} :: k in proyectos ==> ClienteOf(proyectos[k]) in clientes)
      && (forall k {:trigger ProyectoOf(tareas[k])} :: k in tareas ==> ProyectoOf(tareas[k]) in proyectos)
      && (forall k {:trigger TareaOf(subtareas[k])} :: k in subtareas ==> TareaOf(subtareas[k]) in tareas)
      && UniqueEmails(clientes)
      && UniqueUsernames(users)
    }

    /** `self.tareas.all()` of project `pid`, as the list of their progress values. */
    function Progresses(pid: nat): seq<int>
    {
      ProgressList(tareas, pid, nextTareaId)
    }

    /** What the progreso validators promise of every row written through them. */
    predicate ProgressInRange()
    {
      && (forall k :: k in proyectos ==> ProgresoValid(proyectos[k].progreso))
      && (forall k :: k in tareas ==> ProgresoValid(tareas[k].progreso))
    }
  }


  // ---------------------------------------------------------- the writes, as values

  /** Inserting Cliente `c` at the next id, stamped with the current time. */
  function ClienteInserted(d: Db, c: Cliente): Db
  {
    d.(clientes := d.clientes[d.nextClienteId := c.(fechaCreacion := d.clock)],
       nextClienteId := d.nextClienteId + 1, clock := d.clock + 1)
  }

  /** Rewriting Cliente `id` with the values of `c`; its creation time is kept. */
  function ClienteUpdated(d: Db, id: nat, c: Cliente): Db
    requires id in d.clientes
  {
    d.(clientes := d.clientes[id := c.(fechaCreacion := d.clientes[id].fechaCreacion)])
  }

  /** Inserting Proyecto `p` at the next id. */
  function ProyectoInserted(d: Db, p: Proyecto): Db
  {
    d.(proyectos := d.proyectos[d.nextProyectoId := p], nextProyectoId := d.nextProyectoId + 1)
  }

  /** Rewriting Proyecto `id` with `p`. */
  function ProyectoUpdated(d: Db, id: nat, p: Proyecto): Db
  {
    d.(proyectos := d.proyectos[id := p])
  }

  /** Inserting Tarea `t` at the next id, stamped with the current time. */
  function TareaInserted(d: Db, t: Tarea): Db
  {
    d.(tareas := d.tareas[d.nextTareaId := t.(fechaCreacion := d.clock)],
       nextTareaId := d.nextTareaId + 1, clock := d.clock + 1)
  }

  /** Rewriting Tarea `id` with the values of `t`; its creation time is kept. */
  function TareaUpdated(d: Db, id: nat, t: Tarea): Db
    requires id in d.tareas
  {
    d.(tareas := d.tareas[id := t.(fechaCreacion := d.tareas[id].fechaCreacion)])
  }

  /** Inserting SubTarea `st` at the next id, stamped with the current time. */
  function SubTareaInserted(d: Db, st: SubTarea): Db
  {
    d.(subtareas := d.subtareas[d.nextSubTareaId := st.(fechaCreacion := d.clock)],
       nextSubTareaId := d.nextSubTareaId + 1, clock := d.clock + 1)
  }

  /** Rewriting SubTarea `id` with the values of `st`; its creation time is kept. */
  function SubTareaUpdated(d: Db, id: nat, st: SubTarea): Db
    requires id in d.subtareas
  {
    d.(subtareas := d.subtareas[id := st.(fechaCreacion := d.subtareas[id].fechaCreacion)])
  }

  /** Inserting user `u` at the next id. */
  function UserInserted(d: Db, u: User): Db
  {
    d.(users := d.users[d.nextUserId := u], nextUserId := d.nextUserId + 1)
  }

  /** Writing the profile of `user`. */
  function ProfileStored(d: Db, user: UserId, p: Profile): Db
  {
    d.(profiles := d.profiles[user := p])
  }

  /** The row actualizar_progreso leaves for `pid`, written back. */
  function Actualizado(d: Db, pid: nat): (r: Db)
    requires pid in d.proyectos
    ensures r.(proyectos := d.proyectos) == d
    ensures r.proyectos.Keys == d.proyectos.Keys
    ensures forall k :: k in d.proyectos && k != pid ==> r.proyectos[k] == d.proyectos[k]
    ensures r.proyectos[pid].(progreso := d.proyectos[pid].progreso) == d.proyectos[pid]
    ensures |d.Progresses(pid)| == 0 ==> r == d
    ensures |d.Progresses(pid)| > 0 ==> r.proyectos[pid].progreso == Mean(d.Progresses(pid))
  {
    d.(proyectos := d.proyectos[pid := Recompute(d.proyectos[pid], d.Progresses(pid))])
  }

  /** Deleting SubTarea `id`. */
  function SubTareaDeleted(d: Db, id: nat): Db
  {
    d.(subtareas := d.subtareas - {id})
  }

  /** Deleting Tarea `id` with its subtasks. */
  function TareaDeleted(d: Db, id: nat): (r: Db)
    ensures r.(tareas := d.tareas, subtareas := d.subtareas) == d
    ensures r.tareas.Keys == d.tareas.Keys - {id}
    ensures forall k :: k in r.subtareas <==> k in d.subtareas && d.subtareas[k].tarea != id
    ensures forall k :: k in r.tareas ==> r.tareas[k] == d.tareas[k]
    ensures forall k :: k in r.subtareas ==> r.subtareas[k] == d.subtareas[k]
  {
    d.(tareas := d.tareas - {id}, subtareas := Survivors(d.subtareas, TareaOf, {id}))
  }

  /** Deleting Proyecto `id` with its tasks and their subtasks. */
  function ProyectoDeleted(d: Db, id: nat): (r: Db)
    ensures r.(proyectos := d.proyectos, tareas := d.tareas, subtareas := d.subtareas) == d
    ensures r.proyectos.Keys == d.proyectos.Keys - {id}
    ensures forall k :: k in r.tareas <==> k in d.tareas && d.tareas[k].proyecto != id
    ensures forall k :: k in r.subtareas <==>
      k in d.subtareas && !(d.subtareas[k].tarea in d.tareas && d.tareas[d.subtareas[k].tarea].proyecto == id)
    ensures forall k :: k in r.proyectos ==> r.proyectos[k] == d.proyectos[k]
    ensures forall k :: k in r.tareas ==> r.tareas[k] == d.tareas[k]
    ensures forall k :: k in r.subtareas ==> r.subtareas[k] == d.subtareas[k]
  {
    var keptTareas := Survivors(d.tareas, ProyectoOf, {id});
    d.(proyectos := d.proyectos - {id},
       tareas := keptTareas,
       subtareas := Survivors(d.subtareas, TareaOf, d.tareas.Keys - keptTareas.Keys))
  }

  /** Deleting Cliente `id` with its projects, their tasks and their subtasks. */
  function ClienteDeleted(d: Db, id: nat): (r: Db)
    ensures r.(clientes := d.clientes, proyectos := d.proyectos, tareas := d.tareas, subtareas := d.subtareas) == d
    ensures r.clientes.Keys == d.clientes.Keys - {id}
    ensures forall k :: k in r.proyectos <==> k in d.proyectos && d.proyectos[k].cliente != id
    ensures forall k :: k in r.tareas <==>
      k in d.tareas && !(d.tareas[k].proyecto in d.proyectos && d.proyectos[d.tareas[k].proyecto].cliente == id)
    ensures forall k :: k in r.subtareas <==>
      k in d.subtareas && !(d.subtareas[k].tarea in d.tareas && d.subtareas[k].tarea !in r.tareas)
    ensures forall k :: k in r.proyectos ==> r.proyectos[k] == d.proyectos[k]
    ensures forall k :: k in r.tareas ==> r.tareas[k] == d.tareas[k]
    ensures forall k :: k in r.subtareas ==> r.subtareas[k] == d.subtareas[k]
  {
    var keptProyectos := Survivors(d.proyectos, ClienteOf, {id});
    var keptTareas := Survivors(d.tareas, ProyectoOf, d.proyectos.Keys - keptProyectos.Keys);
    d.(clientes := d.clientes - {id},
       proyectos := keptProyectos,
       tareas := keptTareas,
       subtareas := Survivors(d.subtareas, TareaOf, d.tareas.Keys - keptTareas.Keys))
  }

  /** Rolling up twice is rolling up once: the second pass finds the same tasks and the same mean. */
  lemma ActualizadoIdempotent(d: Db, pid: nat)
    requires pid in d.proyectos
    ensures Actualizado(Actualizado(d, pid), pid) == Actualizado(d, pid)
  {
    RecomputeIdempotent(d.proyectos[pid], d.Progresses(pid));
  }

  /** A project inserted into a valid database has no tasks yet, so rolling it up changes nothing. */
  lemma NewProyectoHasNoTareas(d: Db, p: Proyecto)
    requires d.Valid()
    ensures ProyectoInserted(d, p).Progresses(d.nextProyectoId) == []
  {
    forall k | k in d.tareas
      ensures d.tareas[k].proyecto in d.proyectos.Keys
    {
      assert ProyectoOf(d.tareas[k]) in d.proyectos;
    }
    NoTareasOfUnknownProyecto(d.tareas, d.proyectos.Keys, d.nextProyectoId, d.nextTareaId);
  }

  // ---------------------------------------------------------- what each write keeps

  lemma ClienteInsertedKeepsValid(d: Db, c: Cliente)
    requires d.Valid() && !EmailTaken(d.clientes, c.email, None)
    ensures ClienteInserted(d, c).Valid()
    ensures d.ProgressInRange() ==> ClienteInserted(d, c).ProgressInRange()
  {
    UniqueEmailsStore(d.clientes, d.nextClienteId, c.(fechaCreacion := d.clock));
  }

  lemma ClienteUpdatedKeepsValid(d: Db, id: nat, c: Cliente)
    requires d.Valid() && id in d.clientes && !EmailTaken(d.clientes, c.email, Some(id))
    ensures ClienteUpdated(d, id, c).Valid()
    ensures d.ProgressInRange() ==> ClienteUpdated(d, id, c).ProgressInRange()
  {
    UniqueEmailsStore(d.clientes, id, c.(fechaCreacion := d.clientes[id].fechaCreacion));
  }

  lemma ProyectoInsertedKeepsValid(d: Db, p: Proyecto)
    requires d.Valid() && p.cliente in d.clientes
    ensures ProyectoInserted(d, p).Valid()
    ensures d.ProgressInRange() && ProgresoValid(p.progreso) ==> ProyectoInserted(d, p).ProgressInRange()
  {
    var e := ProyectoInserted(d, p);
    forall k | k in e.proyectos
      ensures ClienteOf(e.proyectos[k]) in e.clientes
    {
      if k != d.nextProyectoId {
        assert e.proyectos[k] == d.proyectos[k];
      }
    }
  }

  lemma ProyectoUpdatedKeepsValid(d: Db, id: nat, p: Proyecto)
    requires d.Valid() && id in d.proyectos && p.cliente in d.clientes
    ensures ProyectoUpdated(d, id, p).Valid()
    ensures d.ProgressInRange() && ProgresoValid(p.progreso) ==> ProyectoUpdated(d, id, p).ProgressInRange()
  {
    var e := ProyectoUpdated(d, id, p);
    forall k | k in e.proyectos
      ensures ClienteOf(e.proyectos[k]) in e.clientes
    {
      if k != id {
        assert e.proyectos[k] == d.proyectos[k];
      }
    }
  }

  lemma TareaInsertedKeepsValid(d: Db, t: Tarea)
    requires d.Valid() && t.proyecto in d.proyectos
    ensures TareaInserted(d, t).Valid()
    ensures d.ProgressInRange() && ProgresoValid(t.progreso) ==> TareaInserted(d, t).ProgressInRange()
  {
    var e := TareaInserted(d, t);
    forall k | k in e.tareas
      ensures ProyectoOf(e.tareas[k]) in e.proyectos
    {
      if k != d.nextTareaId {
        assert e.tareas[k] == d.tareas[k];
      }
    }
  }

  lemma TareaUpdatedKeepsValid(d: Db, id: nat, t: Tarea)
    requires d.Valid() && id in d.tareas && t.proyecto in d.proyectos
    ensures TareaUpdated(d, id, t).Valid()
    ensures d.ProgressInRange() && ProgresoValid(t.progreso) ==> TareaUpdated(d, id, t).ProgressInRange()
  {
    var e := TareaUpdated(d, id, t);
    forall k | k in e.tareas
      ensures ProyectoOf(e.tareas[k]) in e.proyectos
    {
      if k != id {
        assert e.tareas[k] == d.tareas[k];
      }
    }
  }

  lemma SubTareaInsertedKeepsValid(d: Db, st: SubTarea)
    requires d.Valid() && st.tarea in d.tareas
    ensures SubTareaInserted(d, st).Valid()
    ensures d.ProgressInRange() ==> SubTareaInserted(d, st).ProgressInRange()
  {
    var e := SubTareaInserted(d, st);
    forall k | k in e.subtareas
      ensures TareaOf(e.subtareas[k]) in e.tareas
    {
      if k != d.nextSubTareaId {
        assert e.subtareas[k] == d.subtareas[k];
      }
    }
  }

  lemma SubTareaUpdatedKeepsValid(d: Db, id: nat, st: SubTarea)
    requires d.Valid() && id in d.subtareas && st.tarea in d.tareas
    ensures SubTareaUpdated(d, id, st).Valid()
    ensures d.ProgressInRange() ==> SubTareaUpdated(d, id, st).ProgressInRange()
  {
    var e := SubTareaUpdated(d, id, st);
    forall k | k in e.subtareas
      ensures TareaOf(e.subtareas[k]) in e.tareas
    {
      if k != id {
        assert e.subtareas[k] == d.subtareas[k];
      }
    }
  }

  lemma UserInsertedKeepsValid(d: Db, u: User)
    requires d.Valid() && !UsernameTaken(d.users, u.username)
    ensures UserInserted(d, u).Valid()
    ensures d.ProgressInRange() ==> UserInserted(d, u).ProgressInRange()
  {
    UniqueUsernamesStore(d.users, d.nextUserId, u);
  }

  lemma ProfileStoredKeepsValid(d: Db, user: UserId, p: Profile)
    requires d.Valid() && user in d.users
    ensures ProfileStored(d, user, p).Valid()
    ensures d.ProgressInRange() ==> ProfileStored(d, user, p).ProgressInRange()
  {
  }

  /** Rolling up a project's progress keeps the integrity, and the range of every progreso. */
  lemma ActualizadoKeepsValid(d: Db, pid: nat)
    requires d.Valid() && pid in d.proyectos
    ensures Actualizado(d, pid).Valid()
    ensures d.ProgressInRange() ==> Actualizado(d, pid).ProgressInRange()
  {
    var e := Actualizado(d, pid);
    forall k | k in e.proyectos
      ensures ClienteOf(e.proyectos[k]) in e.clientes
    {
      assert ClienteOf(e.proyectos[k]) == ClienteOf(d.proyectos[k]);
    }
    if d.ProgressInRange() {
      ProgressListValid(d.tareas, pid, d.nextTareaId);
      RecomputeValid(d.proyectos[pid], d.Progresses(pid));
    }
  }

  lemma SubTareaDeletedKeepsValid(d: Db, id: nat)
    requires d.Valid()
    ensures SubTareaDeleted(d, id).Valid()
    ensures d.ProgressInRange() ==> SubTareaDeleted(d, id).ProgressInRange()
  {
  }

  /** No subtask is left pointing at the deleted task. */
  lemma TareaDeletedKeepsValid(d: Db, id: nat)
    requires d.Valid()
    ensures TareaDeleted(d, id).Valid()
    ensures d.ProgressInRange() ==> TareaDeleted(d, id).ProgressInRange()
  {
    var e := TareaDeleted(d, id);
    forall k | k in e.subtareas
      ensures TareaOf(e.subtareas[k]) in e.tareas
    {
      assert e.subtareas[k] == d.subtareas[k];
    }
  }

  /** No task or subtask is left pointing at a deleted row. */
  lemma ProyectoDeletedKeepsValid(d: Db, id: nat)
    requires d.Valid()
    ensures ProyectoDeleted(d, id).Valid()
    ensures d.ProgressInRange() ==> ProyectoDeleted(d, id).ProgressInRange()
  {
    var e := ProyectoDeleted(d, id);
    forall k | k in e.tareas
      ensures ProyectoOf(e.tareas[k]) in e.proyectos
    {
      assert e.tareas[k] == d.tareas[k];
    }
    forall k | k in e.subtareas
      ensures TareaOf(e.subtareas[k]) in e.tareas
    {
      assert e.subtareas[k] == d.subtareas[k];
    }
  }

  /** No project, task or subtask is left pointing at a deleted row. */
  lemma ClienteDeletedKeepsValid(d: Db, id: nat)
    requires d.Valid()
    ensures ClienteDeleted(d, id).Valid()
    ensures d.ProgressInRange() ==> ClienteDeleted(d, id).ProgressInRange()
  {
    var e := ClienteDeleted(d, id);
    forall k | k in e.proyectos
      ensures ClienteOf(e.proyectos[k]) in e.clientes
    {
      assert e.proyectos[k] == d.proyectos[k];
    }
    forall k | k in e.tareas
      ensures ProyectoOf(e.tareas[k]) in e.proyectos
    {
      assert e.tareas[k] == d.tareas[k];
    }
    forall k | k in e.subtareas
      ensures TareaOf(e.subtareas[k]) in e.tareas
    {
      assert e.subtareas[k] == d.subtareas[k];
    }
    UniqueEmailsRemove(d.clientes, {id});
  }

  class Store {
    var users: map<UserId, User>
    var profiles: map<UserId, Profile>
    var clientes: map<nat, Cliente>
    var proyectos: map<nat, Proyecto>
    var tareas: map<nat, Tarea>
    var subtareas: map<nat, SubTarea>
    var nextUserId: nat
    var nextClienteId: nat
    var nextProyectoId: nat
    var nextTareaId: nat
    var nextSubTareaId: nat
    var clock: nat      // the logical time auto_now_add stamps on new rows

    function Snapshot(): Db
      reads this
    {
      Db(users, profiles, clientes, proyectos, tareas, subtareas,
         nextUserId, nextClienteId, nextProyectoId, nextTareaId, nextSubTareaId, clock)
    }

    ghost predicate Valid()
      reads this
    {
      Snapshot().Valid()
    }

    predicate ProgressInRange()
      reads this
    {
      Snapshot().ProgressInRange()
    }

    /** The invariant the post_save hooks maintain: every user has a profile. */
    predicate EveryUserHasProfile()
      reads this
    {
      users.Keys <= profiles.Keys
    }

    /** `self.tareas.all()` of project `pid`, as the list of their progress values. */
    function TaskProgresses(pid: nat): seq<int>
      reads this
    {
      Snapshot().Progresses(pid)
    }

    /** Ids of the tasks of `pid`. */
    function TareasDelProyecto(pid: nat): set<nat>
      reads this
    {
      set k | k in tareas && tareas[k].proyecto == pid
    }

    lemma TaskProgressesCount(pid: nat)
      requires Valid()
      ensures |TaskProgresses(pid)| == |TareasDelProyecto(pid)|
    {
      assert TareasDe(tareas, pid, nextTareaId) == TareasDelProyecto(pid);
    }

    constructor ()
      ensures Valid() && ProgressInRange() && EveryUserHasProfile()
      ensures Snapshot() == Db(map[], map[], map[], map[], map[], map[], 1, 1, 1, 1, 1, 0)
    {
      users, profiles := map[], map[];
      clientes, proyectos, tareas, subtareas := map[], map[], map[], map[];
      nextUserId, nextClienteId, nextProyectoId, nextTareaId, nextSubTareaId := 1, 1, 1, 1, 1;
      clock := 0;
    }

    // ---------------------------------------------------------- progress roll-up

    /** `sum(t.progreso for t in tareas)` and `tareas.count()` for the tasks of `pid`. */
    method TotalProgreso(pid: nat) returns (total: int, count: nat)
      ensures total == Sum(TaskProgresses(pid))
      ensures count == |TaskProgresses(pid)|
    {
      total, count := 0, 0;
      var i := 0;
      while i < nextTareaId
        invariant i <= nextTareaId
        invariant total == Sum(ProgressList(tareas, pid, i))
        invariant count == |ProgressList(tareas, pid, i)|
      {
        if i in tareas && tareas[i].proyecto == pid {
          SumAppend(ProgressList(tareas, pid, i), tareas[i].progreso);
          total := total + tareas[i].progreso;
          count := count + 1;
        }
        i := i + 1;
      }
    }

    /**
     * Proyecto.actualizar_progreso: when the project has tasks, its progreso
     * becomes their truncated mean, written alone (update_fields); otherwise
     * nothing changes. A project that is not stored has no tasks either.
     */
    method ActualizarProgreso(pid: nat)
      requires Valid()
      modifies this
      ensures Valid()
      ensures pid in old(proyectos) ==> Snapshot() == Actualizado(old(Snapshot()), pid)
      ensures pid !in old(proyectos) ==> Snapshot() == old(Snapshot())
      ensures old(ProgressInRange()) ==> ProgressInRange()
    {
      if pid in proyectos {
        var total, count := TotalProgreso(pid);
        ActualizadoKeepsValid(Snapshot(), pid);
        if count > 0 {
          proyectos := proyectos[pid := proyectos[pid].(progreso := TruncDiv(total, count))];
        }
      }
    }

    /** The `super().save()` half of Tarea.save for a new task: insert, stamping its creation time. */
    method InsertTareaRow(t: Tarea) returns (k: nat)
      requires Valid() && t.proyecto in proyectos
      modifies this
      ensures Valid()
      ensures k == old(nextTareaId) && Snapshot() == TareaInserted(old(Snapshot()), t)
      ensures old(ProgressInRange()) && ProgresoValid(t.progreso) ==> ProgressInRange()
    {
      k := nextTareaId;
      TareaInsertedKeepsValid(Snapshot(), t);
      var e := TareaInserted(Snapshot(), t);
      tareas, nextTareaId, clock := e.tareas, e.nextTareaId, e.clock;
    }

    /** The `super().save()` half of Tarea.save for a loaded task: rewrite the row, creation time kept. */
    method UpdateTareaRow(k: nat, t: Tarea)
      requires Valid() && t.proyecto in proyectos && k in tareas
      modifies this
      ensures Valid()
      ensures Snapshot() == TareaUpdated(old(Snapshot()), k, t)
      ensures old(ProgressInRange()) && ProgresoValid(t.progreso) ==> ProgressInRange()
    {
      TareaUpdatedKeepsValid(Snapshot(), k, t);
      var e := TareaUpdated(Snapshot(), k, t);
      tareas := e.tareas;
    }

    /**
     * Tarea.save: writes the row, then rolls up the progress of the task's
     * project, so that the project's progreso is the mean over all its tasks,
     * this one included. A missing project is a foreign-key error and
     * nothing is written.
     */
    method SaveTarea(id: Option<nat>, t: Tarea) returns (r: Result<nat>)
      requires Valid()
      requires id.Some? ==> id.value in tareas
      modifies this
      ensures Valid()
      ensures r.Err? <==> t.proyecto !in old(proyectos)
      ensures r.Err? ==> r.error == Integrity && Snapshot() == old(Snapshot())
      ensures r.Ok? && id.None? ==>
        r.value == old(nextTareaId) && Snapshot() == Actualizado(TareaInserted(old(Snapshot()), t), t.proyecto)
      ensures r.Ok? && id.Some? ==>
        r.value == id.value && Snapshot() == Actualizado(TareaUpdated(old(Snapshot()), id.value, t), t.proyecto)
      ensures r.Ok? ==>
        && r.value in tareas && tareas[r.value].proyecto == t.proyecto
        && |TaskProgresses(t.proyecto)| > 0
        && proyectos[t.proyecto].progreso == Mean(TaskProgresses(t.proyecto))
      ensures old(ProgressInRange()) && ProgresoValid(t.progreso) ==> ProgressInRange()
    {
      if t.proyecto !in proyectos {
        return Err(Integrity);
      }
      var k: nat;
      if id.None? {
        k := InsertTareaRow(t);
      } else {
        k := id.value;
        UpdateTareaRow(k, t);
      }
      assert k in TareasDelProyecto(t.proyecto);
      TaskProgressesCount(t.proyecto);
      ActualizarProgreso(t.proyecto);
      r := Ok(k);
    }

    // ---------------------------------------------------------- inserts and updates

    /** Cliente.objects.create: a fresh id and creation time; a duplicate email is refused. */
    method InsertCliente(c: Cliente) returns (r: Result<nat>)
      requires Valid()
      modifies this
      ensures Valid()
      ensures r.Err? <==> EmailTaken(old(clientes), c.email, None)
      ensures r.Err? ==> r.error == Integrity && Snapshot() == old(Snapshot())
      ensures r.Ok? ==> r.value == old(nextClienteId) && Snapshot() == ClienteInserted(old(Snapshot()), c)
      ensures old(ProgressInRange()) ==> ProgressInRange()
    {
      if EmailTaken(clientes, c.email, None) {
        return Err(Integrity);
      }
      r := Ok(nextClienteId);
      ClienteInsertedKeepsValid(Snapshot(), c);
      var e := ClienteInserted(Snapshot(), c);
      clientes, nextClienteId, clock := e.clientes, e.nextClienteId, e.clock;
    }

    /** Saving a loaded Cliente: the row is rewritten, its creation time kept; a duplicate email is refused. */
    method UpdateCliente(id: nat, c: Cliente) returns (r: Result<()>)
      requires Valid() && id in clientes
      modifies this
      ensures Valid()
      ensures r.Err? <==> EmailTaken(old(clientes), c.email, Some(id))
      ensures r.Err? ==> r.error == Integrity && Snapshot() == old(Snapshot())
      ensures r.Ok? ==> Snapshot() == ClienteUpdated(old(Snapshot()), id, c)
      ensures old(ProgressInRange()) ==> ProgressInRange()
    {
      if EmailTaken(clientes, c.email, Some(id)) {
        return Err(Integrity);
      }
      ClienteUpdatedKeepsValid(Snapshot(), id, c);
      var e := ClienteUpdated(Snapshot(), id, c);
      clientes := e.clientes;
      r := Ok(());
    }

    /** Proyecto.objects.create; a missing cliente is a foreign-key error. */
    method InsertProyecto(p: Proyecto) returns (r: Result<nat>)
      requires Valid()
      modifies this
      ensures Valid()
      ensures r.Err? <==> p.cliente !in old(clientes)
      ensures r.Err? ==> r.error == Integrity && Snapshot() == old(Snapshot())
      ensures r.Ok? ==> r.value == old(nextProyectoId) && Snapshot() == ProyectoInserted(old(Snapshot()), p)
      ensures old(ProgressInRange()) && ProgresoValid(p.progreso) ==> ProgressInRange()
    {
      if p.cliente !in clientes {
        return Err(Integrity);
      }
      r := Ok(nextProyectoId);
      ProyectoInsertedKeepsValid(Snapshot(), p);
      var e := ProyectoInserted(Snapshot(), p);
      proyectos, nextProyectoId := e.proyectos, e.nextProyectoId;
    }

    /** Saving a loaded Proyecto (Proyecto has no save override: no roll-up). */
    method UpdateProyecto(id: nat, p: Proyecto) returns (r: Result<()>)
      requires Valid() && id in proyectos
      modifies this
      ensures Valid()
      ensures r.Err? <==> p.cliente !in old(clientes)
      ensures r.Err? ==> r.error == Integrity && Snapshot() == old(Snapshot())
      ensures r.Ok? ==> Snapshot() == ProyectoUpdated(old(Snapshot()), id, p)
      ensures old(ProgressInRange()) && ProgresoValid(p.progreso) ==> ProgressInRange()
    {
      if p.cliente !in clientes {
        return Err(Integrity);
      }
      ProyectoUpdatedKeepsValid(Snapshot(), id, p);
      var e := ProyectoUpdated(Snapshot(), id, p);
      proyectos := e.proyectos;
      r := Ok(());
    }

    /** SubTarea.objects.create; a missing tarea is a foreign-key error. */
    method InsertSubTarea(st: SubTarea) returns (r: Result<nat>)
      requires Valid()
      modifies this
      ensures Valid()
      ensures r.Err? <==> st.tarea !in old(tareas)
      ensures r.Err? ==> r.error == Integrity && Snapshot() == old(Snapshot())
      ensures r.Ok? ==> r.value == old(nextSubTareaId) && Snapshot() == SubTareaInserted(old(Snapshot()), st)
      ensures old(ProgressInRange()) ==> ProgressInRange()
    {
      if st.tarea !in tareas {
        return Err(Integrity);
      }
      r := Ok(nextSubTareaId);
      SubTareaInsertedKeepsValid(Snapshot(), st);
      var e := SubTareaInserted(Snapshot(), st);
      subtareas, nextSubTareaId, clock := e.subtareas, e.nextSubTareaId, e.clock;
    }

    /** Saving a loaded SubTarea: rewritten, creation time kept. */
    method UpdateSubTarea(id: nat, st: SubTarea) returns (r: Result<()>)
      requires Valid() && id in subtareas
      modifies this
      ensures Valid()
      ensures r.Err? <==> st.tarea !in old(tareas)
      ensures r.Err? ==> r.error == Integrity && Snapshot() == old(Snapshot())
      ensures r.Ok? ==> Snapshot() == SubTareaUpdated(old(Snapshot()), id, st)
      ensures old(ProgressInRange()) ==> ProgressInRange()
    {
      if st.tarea !in tareas {
        return Err(Integrity);
      }
      SubTareaUpdatedKeepsValid(Snapshot(), id, st);
      var e := SubTareaUpdated(Snapshot(), id, st);
      subtareas := e.subtareas;
      r := Ok(());
    }

    /** Inserting a User row; a duplicate username is refused. */
    method InsertUser(u: User) returns (r: Result<UserId>)
      requires Valid()
      modifies this
      ensures Valid()
      ensures r.Err? <==> UsernameTaken(old(users), u.username)
      ensures r.Err? ==> r.error == Integrity && Snapshot() == old(Snapshot())
      ensures r.Ok? ==>
        && r.value == old(nextUserId) && r.value !in old(users) && r.value !in old(profiles)
        && Snapshot() == UserInserted(old(Snapshot()), u)
      ensures old(ProgressInRange()) ==> ProgressInRange()
    {
      if UsernameTaken(users, u.username) {
        return Err(Integrity);
      }
      r := Ok(nextUserId);
      UserInsertedKeepsValid(Snapshot(), u);
      var e := UserInserted(Snapshot(), u);
      users, nextUserId := e.users, e.nextUserId;
    }

    /** Profile.objects.create: the user must exist and have no profile yet (one-to-one). */
    method InsertProfile(user: UserId, p: Profile) returns (r: Result<()>)
      requires Valid()
      modifies this
      ensures Valid()
      ensures r.Err? <==> user !in old(users) || user in old(profiles)
      ensures r.Err? ==> r.error == Integrity && Snapshot() == old(Snapshot())
      ensures r.Ok? ==> Snapshot() == ProfileStored(old(Snapshot()), user, p)
      ensures old(ProgressInRange()) ==> ProgressInRange()
    {
      if user !in users || user in profiles {
        return Err(Integrity);
      }
      ProfileStoredKeepsValid(Snapshot(), user, p);
      var e := ProfileStored(Snapshot(), user, p);
      profiles := e.profiles;
      r := Ok(());
    }

    /** Saving a loaded profile. */
    method UpdateProfile(user: UserId, p: Profile)
      requires Valid() && user in profiles
      modifies this
      ensures Valid()
      ensures Snapshot() == ProfileStored(old(Snapshot()), user, p)
      ensures old(ProgressInRange()) ==> ProgressInRange()
    {
      ProfileStoredKeepsValid(Snapshot(), user, p);
      var e := ProfileStored(Snapshot(), user, p);
      profiles := e.profiles;
    }

    // ---------------------------------------------------------- cascading deletes

    /** Deleting a SubTarea row. */
    method DeleteSubTarea(id: nat)
      requires Valid()
      modifies this
      ensures Valid()
      ensures Snapshot() == SubTareaDeleted(old(Snapshot()), id)
      ensures old(ProgressInRange()) ==> ProgressInRange()
    {
      SubTareaDeletedKeepsValid(Snapshot(), id);
      var e := SubTareaDeleted(Snapshot(), id);
      subtareas := e.subtareas;
    }

    /** Deleting a Tarea cascades to its subtasks; the project is not recomputed. */
    method DeleteTarea(id: nat)
      requires Valid()
      modifies this
      ensures Valid()
      ensures Snapshot() == TareaDeleted(old(Snapshot()), id)
      ensures old(ProgressInRange()) ==> ProgressInRange()
    {
      TareaDeletedKeepsValid(Snapshot(), id);
      var e := TareaDeleted(Snapshot(), id);
      tareas, subtareas := e.tareas, e.subtareas;
    }

    /** Deleting a Proyecto cascades to its tasks and their subtasks. */
    method DeleteProyecto(id: nat)
      requires Valid()
      modifies this
      ensures Valid()
      ensures Snapshot() == ProyectoDeleted(old(Snapshot()), id)
      ensures old(ProgressInRange()) ==> ProgressInRange()
    {
      ProyectoDeletedKeepsValid(Snapshot(), id);
      var e := ProyectoDeleted(Snapshot(), id);
      proyectos, tareas, subtareas := e.proyectos, e.tareas, e.subtareas;
    }

    /** Deleting a Cliente row cascades to its projects, their tasks and subtasks. */
    method DeleteCliente(id: nat)
      requires Valid()
      modifies this
      ensures Valid()
      ensures Snapshot() == ClienteDeleted(old(Snapshot()), id)
      ensures old(ProgressInRange()) ==> ProgressInRange()
    {
      ClienteDeletedKeepsValid(Snapshot(), id);
      var e := ClienteDeleted(Snapshot(), id);
      clientes, proyectos, tareas, subtareas := e.clientes, e.proyectos, e.tareas, e.subtareas;
    }
  }
}
