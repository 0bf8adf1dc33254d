/**
 * The entities of core/models.py as values, the field constraints and the
 * two `clean` validators the models declare, and the arithmetic behind
 * `Proyecto.actualizar_progreso`.
 *
 * Rows do not carry their id: a table is a map from id to row (see Storage).
 * Dates are day numbers; `fecha_creacion` is the value of a logical clock.
 */
module Models {
  import opened Common

  // ------------------------------------------------------------ constants

  /** Bounds of the MinValueValidator/MaxValueValidator pair on both `progreso` fields. */
  const PROGRESO_MIN: int := 0
  const PROGRESO_MAX: int := 100
  /** Default of both `progreso` fields. */
  const PROGRESO_DEFAULT: int := 0
  /** `max_length` of the CharFields nombre, empresa and titulo. */
  const NAME_MAX_LENGTH: nat := 255
  /** `max_length` Django gives an EmailField. */
  const EMAIL_MAX_LENGTH: nat := 254

  // ------------------------------------------------------------ entities

  /** ROLE_CHOICES of Profile. */
  datatype Role = Admin | Client

  function RoleName(r: Role): string
  {
    match r
    case Admin => "ADMIN"
    case Client => "CLIENT"
  }

  /** The stored choice values of `role`, read back; any other text is no role. */
  function ParseRole(s: string): (r: Option<Role>)
    ensures r.Some? ==> RoleName(r.value) == s
    ensures r.None? <==> forall role: Role :: RoleName(role) != s
  {
    if s == "ADMIN" then Some(Admin)
    else if s == "CLIENT" then Some(Client)
    else None
  }

  /** Profile.role's default. */
  const DEFAULT_ROLE: Role := Client

  /** django.contrib.auth's User, reduced to the fields registration writes. */
  datatype User = User(username: string, password: string, email: string)

  /** One-to-one with User: the store keys profiles by their user's id. */
  datatype Profile = Profile(role: Role)

  datatype Cliente = Cliente(
    nombre: string,
    email: string,          // unique over every row, active or not
    empresa: string,
    activo: bool,           // the soft-delete flag
    fechaCreacion: nat)     // auto_now_add

  const ACTIVO_DEFAULT: bool := true

  /** ESTADOS_PROYECTO. */
  datatype EstadoProyecto = Pendiente | EnDesarrollo | EnPruebas | Finalizado

  function EstadoProyectoName(e: EstadoProyecto): string
  {
    match e
    case Pendiente => "Pendiente"
    case EnDesarrollo => "En Desarrollo"
    case EnPruebas => "En Pruebas"
    case Finalizado => "Finalizado"
  }

  function ParseEstadoProyecto(s: string): (r: Option<EstadoProyecto>)
    ensures r.Some? ==> EstadoProyectoName(r.value) == s
    ensures r.None? <==> forall e: EstadoProyecto :: EstadoProyectoName(e) != s
  {
    if s == "Pendiente" then Some(EstadoProyecto.Pendiente)
    else if s == "En Desarrollo" then Some(EnDesarrollo)
    else if s == "En Pruebas" then Some(EnPruebas)
    else if s == "Finalizado" then Some(Finalizado)
    else None
  }

  datatype Proyecto = Proyecto(
    nombre: string,
    descripcion: string,
    estado: EstadoProyecto,
    progreso: int,
    cliente: nat,           // foreign key, cascade
    fechaInicio: int,
    fechaEntrega: int)

  /** ESTADOS_TAREA. */
  datatype EstadoTarea = Pendiente | EnProgreso | Bloqueada | Completada

  function EstadoTareaName(e: EstadoTarea): string
  {
    match e
    case Pendiente => "Pendiente"
    case EnProgreso => "En Progreso"
    case Bloqueada => "Bloqueada"
    case Completada => "Completada"
  }

  function ParseEstadoTarea(s: string): (r: Option<EstadoTarea>)
    ensures r.Some? ==> EstadoTareaName(r.value) == s
    ensures r.None? <==> forall e: EstadoTarea :: EstadoTareaName(e) != s
  {
    if s == "Pendiente" then Some(EstadoTarea.Pendiente)
    else if s == "En Progreso" then Some(EnProgreso)
    else if s == "Bloqueada" then Some(Bloqueada)
    else if s == "Completada" then Some(Completada)
    else None
  }

  datatype Tarea = Tarea(
    titulo: string,
    descripcion: string,
    estado: EstadoTarea,
    progreso: int,
    proyecto: nat,          // foreign key, cascade
    fechaCreacion: nat)     // auto_now_add

  datatype SubTarea = SubTarea(
    titulo: string,
    completada: bool,
    tarea: nat,             // foreign key, cascade
    fechaCreacion: nat)     // auto_now_add

  const COMPLETADA_DEFAULT: bool := false

  // ------------------------------------------------------------ validators

  /** The range the progreso validators admit. */
  predicate ProgresoValid(v: int)
  {
    PROGRESO_MIN <= v <= PROGRESO_MAX
  }

  /** Django's NON_FIELD_ERRORS key, under which a `clean` error is reported. */
  const NON_FIELD_ERRORS: string := "__all__"

  /**
   * Proyecto.clean: a delivery date before the start date is rejected; equal
   * dates pass, and so does an instance whose dates are not both set.
   */
  function ProyectoClean(fechaInicio: Option<int>, fechaEntrega: Option<int>): (r: Result<()>)
    ensures r.Err? ==> r.error == Invalid(NON_FIELD_ERRORS)
    ensures r.Err? <==> fechaInicio.Some? && fechaEntrega.Some? && fechaEntrega.value < fechaInicio.value
  {
    if fechaEntrega.Some? && fechaInicio.Some? && fechaEntrega.value < fechaInicio.value then
      Err(Invalid(NON_FIELD_ERRORS))
    else
      Ok(())
  }

  /**
   * SubTarea.clean: `completada` needs a task id, and `not self.tarea_id`
   * holds for a missing id and for the id 0 alike.
   */
  function SubTareaClean(completada: bool, tareaId: Option<nat>): (r: Result<()>)
    ensures r.Err? ==> r.error == Invalid(NON_FIELD_ERRORS)
    ensures r.Err? <==> completada && (tareaId.None? || tareaId.value == 0)
  {
    if completada && (tareaId.None? || tareaId.value == 0) then Err(Invalid(NON_FIELD_ERRORS)) else Ok(())
  }

  // ------------------------------------------------------------ progress arithmetic

  function Sum(s: seq<int>): int
  {
    if s == [] then 0 else Sum(s[..|s| - 1]) + s[|s| - 1]
  }

  lemma SumAppend(s: seq<int>, x: int)
    ensures Sum(s + [x]) == Sum(s) + x
  {
    assert (s + [x])[..|s|] == s;
  }

  /**
   * `int(a / b)` for a positive b: the quotient rounded toward zero, which for
   * a negative `a` is not Dafny's (Euclidean) `a / b`.
   */
  function TruncDiv(a: int, b: int): (q: int)
    requires b > 0
    ensures 0 <= a ==> q * b <= a < q * b + b
    ensures a < 0 ==> q * b - b < a <= q * b
  {
    if a >= 0 then a / b else -((-a) / b)
  }

  /** The truncated mean of a non-empty list of progress values. */
  function Mean(s: seq<int>): (m: int)
    requires |s| > 0
    ensures 0 <= Sum(s) ==> m * |s| <= Sum(s) < m * |s| + |s|
    ensures Sum(s) < 0 ==> m * |s| - |s| < Sum(s) <= m * |s|
  {
    TruncDiv(Sum(s), |s|)
  }

  predicate AllProgresoValid(s: seq<int>)
  {
    forall i :: 0 <= i < |s| ==> ProgresoValid(s[i])
  }

  lemma {:induction false} SumInRange(s: seq<int>)
    requires AllProgresoValid(s)
    ensures PROGRESO_MIN * |s| <= Sum(s) <= PROGRESO_MAX * |s|
  {
    if s != [] {
      var init := s[..|s| - 1];
      assert forall i :: 0 <= i < |init| ==> init[i] == s[i];
      SumInRange(init);
    }
  }

  /** The mean of values in 0..100 is in 0..100. */
  lemma MeanInRange(s: seq<int>)
    requires |s| > 0 && AllProgresoValid(s)
    ensures ProgresoValid(Mean(s))
  {
    SumInRange(s);
    var n, q := |s|, Mean(s);
    if q > PROGRESO_MAX {
      MulMonotone(PROGRESO_MAX + 1, q, n);
    }
    if q < PROGRESO_MIN {
      MulMonotone(q + 1, PROGRESO_MIN, n);
    }
  }

  lemma MulMonotone(a: int, b: int, n: nat)
    requires a <= b
    ensures a * n <= b * n
  {
  }

  /** A task list of non-negative values has a positive mean exactly when the sum reaches the count. */
  lemma MeanPositive(s: seq<int>)
    requires |s| > 0 && Sum(s) >= 0
    ensures Mean(s) > 0 <==> Sum(s) >= |s|
  {
    var n, q := |s|, Mean(s);
    if q > 0 {
      MulMonotone(1, q, n);
    } else {
      MulMonotone(q, 0, n);
    }
  }

  /** The worked example of truncation: 99 and 0 average to 49, not 50. */
  lemma MeanTruncates()
    ensures Mean([99, 0]) == 49 && Mean([100, 0]) == 50
  {
    assert [99, 0][..1] == [99] && [99][..0] == [];
    assert Sum([99, 0]) == 99;
    assert [100, 0][..1] == [100] && [100][..0] == [];
    assert Sum([100, 0]) == 100;
  }

  // ------------------------------------------------------------ the tasks of a project

  /** Ids below `n` of the tasks that belong to project `pid`. */
  function TareasDe(ts: map<nat, Tarea>, pid: nat, n: nat): set<nat>
  {
    set k | k in ts && k < n && ts[k].proyecto == pid
  }

  /**
   * The progress values of the tasks of `pid` with ids below `n`, in id order:
   * one entry per task, each the progreso of one of them.
   */
  function ProgressList(ts: map<nat, Tarea>, pid: nat, n: nat): (r: seq<int>)
    ensures |r| == |TareasDe(ts, pid, n)|
    decreases n
  {
    if n == 0 then
      assert TareasDe(ts, pid, 0) == {};
      []
    else
      var prev := ProgressList(ts, pid, n - 1);
      if n - 1 in ts && ts[n - 1].proyecto == pid then
        assert TareasDe(ts, pid, n) == TareasDe(ts, pid, n - 1) + {n - 1};
        prev + [ts[n - 1].progreso]
      else
        assert TareasDe(ts, pid, n) == TareasDe(ts, pid, n - 1);
        prev
  }

  /**
   * The ids of the tasks of `pid` below `n`, in increasing order: the rows
   * `self.tareas.all()` visits, each once.
   */
  function TareaIds(ts: map<nat, Tarea>, pid: nat, n: nat): (ids: seq<nat>)
    ensures forall k :: k in ids <==> k in TareasDe(ts, pid, n)
    ensures forall i, j :: 0 <= i < j < |ids| ==> ids[i] < ids[j]
    ensures forall i :: 0 <= i < |ids| ==> ids[i] < n
    decreases n
  {
    if n == 0 then []
    else
      var prev := TareaIds(ts, pid, n - 1);
      if n - 1 in ts && ts[n - 1].proyecto == pid then prev + [n - 1] else prev
  }

  /**
   * The list holds, position by position, the progreso of the tasks in id
   * order: one entry per task, so the sum counts every task exactly once.
   */
  lemma {:induction false} ProgressListInIdOrder(ts: map<nat, Tarea>, pid: nat, n: nat)
    ensures |ProgressList(ts, pid, n)| == |TareaIds(ts, pid, n)|
    ensures forall i :: 0 <= i < |TareaIds(ts, pid, n)| ==>
      TareaIds(ts, pid, n)[i] in ts && ProgressList(ts, pid, n)[i] == ts[TareaIds(ts, pid, n)[i]].progreso
  {
    if n > 0 {
      ProgressListInIdOrder(ts, pid, n - 1);
    }
  }

  /** Each task of `pid` below `n` contributes its progreso to the list. */
  lemma {:induction false} ProgressListCovers(ts: map<nat, Tarea>, pid: nat, n: nat)
    ensures forall k :: k in TareasDe(ts, pid, n) ==> ts[k].progreso in ProgressList(ts, pid, n)
  {
    if n > 0 {
      ProgressListCovers(ts, pid, n - 1);
      forall k | k in TareasDe(ts, pid, n)
        ensures ts[k].progreso in ProgressList(ts, pid, n)
      {
        if k != n - 1 {
          assert k in TareasDe(ts, pid, n - 1);
        }
      }
    }
  }

  /** Every entry of the list is the progreso of a task of `pid` below `n`. */
  lemma {:induction false} ProgressListFrom(ts: map<nat, Tarea>, pid: nat, n: nat)
    ensures forall x :: x in ProgressList(ts, pid, n) ==>
      exists k :: k in TareasDe(ts, pid, n) && ts[k].progreso == x
  {
    if n > 0 {
      ProgressListFrom(ts, pid, n - 1);
      forall x | x in ProgressList(ts, pid, n)
        ensures exists k :: k in TareasDe(ts, pid, n) && ts[k].progreso == x
      {
        if x in ProgressList(ts, pid, n - 1) {
          var k :| k in TareasDe(ts, pid, n - 1) && ts[k].progreso == x;
          assert k in TareasDe(ts, pid, n);
        } else {
          assert n - 1 in TareasDe(ts, pid, n);
        }
      }
    }
  }

  /** A project no task refers to has no progress values. */
  lemma NoTareasOfUnknownProyecto(ts: map<nat, Tarea>, proyectos: set<nat>, pid: nat, n: nat)
    requires forall k :: k in ts ==> ts[k].proyecto in proyectos
    requires pid !in proyectos
    ensures ProgressList(ts, pid, n) == []
  {
    assert TareasDe(ts, pid, n) == {};
  }

  /** Tasks whose progress is in range give a list in range. */
  lemma ProgressListValid(ts: map<nat, Tarea>, pid: nat, n: nat)
    requires forall k :: k in ts ==> ProgresoValid(ts[k].progreso)
    ensures AllProgresoValid(ProgressList(ts, pid, n))
  {
    ProgressListFrom(ts, pid, n);
    var s := ProgressList(ts, pid, n);
    forall i | 0 <= i < |s| ensures ProgresoValid(s[i]) {
      assert s[i] in s;
    }
  }

  /**
   * The row `actualizar_progreso` leaves: with tasks, progreso becomes their
   * truncated mean; without, the row is untouched. No other field changes.
   */
  function Recompute(p: Proyecto, progresses: seq<int>): (r: Proyecto)
    ensures r.(progreso := p.progreso) == p
    ensures |progresses| == 0 ==> r == p
    ensures |progresses| > 0 ==> r.progreso == Mean(progresses)
  {
    if |progresses| == 0 then p else p.(progreso := Mean(progresses))
  }

  lemma RecomputeIdempotent(p: Proyecto, progresses: seq<int>)
    ensures Recompute(Recompute(p, progresses), progresses) == Recompute(p, progresses)
  {
  }

  lemma RecomputeValid(p: Proyecto, progresses: seq<int>)
    requires ProgresoValid(p.progreso) && AllProgresoValid(progresses)
    ensures ProgresoValid(Recompute(p, progresses).progreso)
  {
    if |progresses| > 0 {
      MeanInRange(progresses);
    }
  }
}
