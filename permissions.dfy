/**
 * IsOwnerOrAdmin (core/permissions.py): the request-level check and the
 * per-object check. The object check probes attributes of the object at run
 * time; an object is modelled by which of the probed attributes it has.
 */
module Permissions {
  import opened Common
  import opened Models

  /** Whether an object has an attribute (`hasattr`), and its value when it does. */
  datatype Attr<T> = Absent | Present(value: T)

  /** The attributes of `obj.cliente` that the policy probes. */
  datatype ClienteAttrs = ClienteAttrs(user: Attr<Option<UserId>>)

  /** The attributes of an object that the policy probes, in the order it probes them. */
  datatype ObjectAttrs = ObjectAttrs(
    user: Attr<Option<UserId>>,
    owner: Attr<Option<UserId>>,
    cliente: Attr<ClienteAttrs>)

  /** The four models the viewsets serve. */
  datatype Kind = ClienteKind | ProyectoKind | TareaKind | SubTareaKind

  /**
   * What the four models answer to the probes: none has `user` or `owner`;
   * only Proyecto has `cliente`, and a Cliente has no `user`.
   */
  function AttrsOf(kind: Kind): (r: ObjectAttrs)
    ensures r.user.Absent? && r.owner.Absent?
    ensures r.cliente.Present? <==> kind == ProyectoKind
    ensures r.cliente.Present? ==> r.cliente.value.user.Absent?
  {
    match kind
    case ProyectoKind => ObjectAttrs(Absent, Absent, Present(ClienteAttrs(Absent)))
    case _ => ObjectAttrs(Absent, Absent, Absent)
  }

  /** `profile and profile.role == 'ADMIN'`: a missing profile is not an admin. */
  predicate IsAdmin(profile: Option<Profile>)
  {
    profile.Some? && profile.value.role == Admin
  }

  /** `obj.user == request.user`: a user reference equals only the authenticated caller it names. */
  predicate SameUser(u: Option<UserId>, caller: Caller)
  {
    caller.Authenticated? && u == Some(caller.id)
  }

  /** has_permission: the caller is authenticated; role and object play no part. */
  function HasPermission(caller: Caller): (r: bool)
    ensures r <==> caller.Authenticated?
  {
    caller.Authenticated?
  }

  /**
   * has_object_permission: admins may access anything; anyone else is judged
   * by the first of `user`, `owner`, `cliente` that the object has, and an
   * object with none of them is refused.
   */
  function HasObjectPermission(caller: Caller, profile: Option<Profile>, obj: ObjectAttrs): (r: bool)
    ensures IsAdmin(profile) ==> r
    ensures !IsAdmin(profile) && obj.user.Present? ==> (r <==> SameUser(obj.user.value, caller))
    ensures !IsAdmin(profile) && obj.user.Absent? && obj.owner.Present? ==> (r <==> SameUser(obj.owner.value, caller))
    ensures !IsAdmin(profile) && obj.user.Absent? && obj.owner.Absent? && obj.cliente.Present? ==>
      (r <==> obj.cliente.value.user.Present? && SameUser(obj.cliente.value.user.value, caller))
    ensures !IsAdmin(profile) && obj.user.Absent? && obj.owner.Absent? && obj.cliente.Absent? ==> !r
    ensures r ==> IsAdmin(profile) || caller.Authenticated?
  {
    if IsAdmin(profile) then true
    else match obj.user
      case Present(u) => SameUser(u, caller)
      case Absent => match obj.owner
        case Present(o) => SameUser(o, caller)
        case Absent => match obj.cliente
          case Present(c) => (match c.user
            case Present(u) => SameUser(u, caller)
            case Absent => false)
          case Absent => false
  }

  /**
   * On the four models the object check reduces to the role: a non-admin,
   * with or without a profile, is refused every Cliente, Proyecto, Tarea and SubTarea.
   */
  lemma ObjectPermissionOnModels(caller: Caller, profile: Option<Profile>, kind: Kind)
    ensures HasObjectPermission(caller, profile, AttrsOf(kind)) <==> IsAdmin(profile)
  {
  }

  /** A caller without a profile is judged like any non-admin. */
  lemma MissingProfileIsNotAdmin(caller: Caller, obj: ObjectAttrs, role: Role)
    requires role != Admin
    ensures HasObjectPermission(caller, None, obj) == HasObjectPermission(caller, Some(Profile(role)), obj)
  {
  }

  /** The `user` probe comes first: once the object has `user`, `owner` and `cliente` are never consulted. */
  lemma UserProbedFirst(caller: Caller, profile: Option<Profile>, obj: ObjectAttrs,
                        owner: Attr<Option<UserId>>, cliente: Attr<ClienteAttrs>)
    requires obj.user.Present?
    ensures HasObjectPermission(caller, profile, obj) ==
            HasObjectPermission(caller, profile, obj.(owner := owner, cliente := cliente))
  {
  }
}
