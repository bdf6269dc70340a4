// Access decisions: the permission helpers the views call, and the decision each access
// decorator takes before it lets a view run.
module Access {
  import opened Wrappers
  import opened Text
  import opened Python
  import opened Users

  /** The network, substation and feeder records only matter through their network's operator. */
  datatype Reseau = Reseau(operateurId: Option<int>)
  datatype Poste = Poste(reseau: Reseau)
  datatype Feeder = Feeder(reseau: Reseau)

  /** `permissions.get_accessible_operateurs`: every active operator for either administrator role. */
  function AccessibleOperateurs(u: User, ops: seq<Operateur>): seq<Operateur>
  {
    if IsAdmin(u) then Actives(ops)
    else if TruthyInt(u.operateurId) then
      (match FindOperateur(ops, u.operateurId.value) case Some(o) => [o] case None => [])
    else []
  }

  /** `permissions.can_access_operateur`: any administrator, or a user of that very operator. */
  predicate CanAccessOperateur(u: User, operateurId: Option<int>)
  {
    IsAdmin(u) || u.operateurId == operateurId
  }

  /**
   * The helper grants at least what `User.can_access_operateur` grants, and strictly more:
   * an operator administrator reaches every operator and every active one is listed (though
   * no longer the own operator if that one is inactive).
   */
  lemma {:induction false} PermissionsBroaderThanUser(u: User, ops: seq<Operateur>, id: Option<int>)
    ensures UserCanAccessOperateur(u, id) ==> CanAccessOperateur(u, id)
    ensures IsAdminOperateur(u) ==> CanAccessOperateur(u, id)
    ensures forall o :: o in GetAccessibleOperateurs(u, ops) && (o.actif || !IsAdmin(u)) ==> o in AccessibleOperateurs(u, ops)
    ensures IsAdminOperateur(u) ==> AccessibleOperateurs(u, ops) == Actives(ops)
  {
  }

  /** The two checks disagree on an operator administrator asking for another operator. */
  lemma {:induction false} PermissionsDisagree()
    ensures var u := User(1, "a", "a@x", None, None, AdminOperateur, Some(1), true);
      CanAccessOperateur(u, Some(2)) && !UserCanAccessOperateur(u, Some(2))
  {
  }

  predicate CanAccessReseau(u: User, r: Reseau)
  {
    IsAdmin(u) || u.operateurId == r.operateurId
  }

  predicate CanAccessPoste(u: User, p: Poste)
  {
    IsAdmin(u) || u.operateurId == p.reseau.operateurId
  }

  predicate CanAccessFeeder(u: User, f: Feeder)
  {
    IsAdmin(u) || u.operateurId == f.reseau.operateurId
  }

  /** Substations and feeders are reached exactly when their network's operator is. */
  lemma {:induction false} AccessThroughReseau(u: User, r: Reseau, p: Poste, f: Feeder)
    ensures CanAccessReseau(u, r) <==> CanAccessOperateur(u, r.operateurId)
    ensures CanAccessPoste(u, p) <==> CanAccessReseau(u, p.reseau)
    ensures CanAccessFeeder(u, f) <==> CanAccessReseau(u, f.reseau)
    ensures IsAdmin(u) ==> CanAccessPoste(u, p) && CanAccessFeeder(u, f)
  {
  }

  /**
   * `can_access_dashboard_are`: a principal with a truthy `operateur_id` (a contact or a
   * user), or a user whose role is an administrator one; `hasattr` keeps the others out.
   */
  predicate CanAccessDashboardAre(p: Principal)
  {
    match p
    case Anonymous => false
    case AContact(c) => c.operateurId != 0
    case AUser(u) => TruthyInt(u.operateurId) || IsAdmin(u)
  }

  /** `get_dashboard_are_operateur_filter`: no filter, the principal's operator, or -1 for nothing. */
  function DashboardAreOperateurFilter(p: Principal): Option<int>
  {
    match p
    case Anonymous => Some(-1)
    case AContact(c) => if c.operateurId != 0 then Some(c.operateurId) else Some(-1)
    case AUser(u) =>
      if IsSuperAdmin(u) then None
      else if TruthyInt(u.operateurId) then u.operateurId
      else Some(-1)
  }

  /**
   * Only the super administrator gets no filter; anyone kept out of the dashboard gets the
   * filter -1 that matches nothing, and so does an operator administrator without an operator.
   */
  lemma {:induction false} DashboardFilterMatchesAccess(p: Principal)
    ensures DashboardAreOperateurFilter(p).None? <==> p.AUser? && IsSuperAdmin(p.user)
    ensures !CanAccessDashboardAre(p) ==> DashboardAreOperateurFilter(p) == Some(-1)
    ensures p.AUser? && IsAdminOperateur(p.user) && !TruthyInt(p.user.operateurId)
      ==> CanAccessDashboardAre(p) && DashboardAreOperateurFilter(p) == Some(-1)
    ensures p.AContact? && p.contact.operateurId != 0 ==> DashboardAreOperateurFilter(p) == Some(p.contact.operateurId)
  {
  }

  /** A choice key is the empty text of the placeholder or an operator id. */
  function OperateurChoiceList(ops: seq<Operateur>): (r: seq<(PyValue, string)>)
    ensures |r| == |ops|
    ensures forall k :: 0 <= k < |ops| ==> r[k] == (PyInt(ops[k].id), ops[k].nom)
  {
    seq(|ops|, k requires 0 <= k < |ops| => (PyInt(ops[k].id), ops[k].nom))
  }

  /** `get_operateur_choices`: administrators get the placeholder first. */
  function OperateurChoices(u: User, ops: seq<Operateur>): seq<(PyValue, string)>
  {
    var choices := OperateurChoiceList(AccessibleOperateurs(u, ops));
    if IsAdmin(u) then [(PyStr(""), "Sélectionner un opérateur")] + choices else choices
  }

  /** The placeholder comes first exactly for administrators; every other choice is an accessible operator. */
  lemma {:induction false} OperateurChoicesShape(u: User, ops: seq<Operateur>)
    ensures var r := OperateurChoices(u, ops);
      var acc := AccessibleOperateurs(u, ops);
      var off := if IsAdmin(u) then 1 else 0;
      && |r| == |acc| + off
      && (IsAdmin(u) ==> r[0] == (PyStr(""), "Sélectionner un opérateur"))
      && (forall k :: off <= k < |r| ==> r[k] == (PyInt(acc[k - off].id), acc[k - off].nom))
      && (forall k :: 0 <= k < |r| ==> r[k].0.PyStr? ==> IsAdmin(u) && k == 0)
  {
  }

  /** `get_default_operateur_id`: the user's operator for a non-administrator who has one. */
  function DefaultOperateurId(u: User): Option<int>
  {
    if !IsAdmin(u) && TruthyInt(u.operateurId) then u.operateurId else None
  }

  /** The default operator is set only for non-administrators, and is one they may access and choose. */
  lemma {:induction false} DefaultOperateurIsAccessible(u: User, ops: seq<Operateur>)
    ensures DefaultOperateurId(u).Some? <==> !IsAdmin(u) && TruthyInt(u.operateurId)
    ensures DefaultOperateurId(u).Some? ==> CanAccessOperateur(u, DefaultOperateurId(u))
    ensures DefaultOperateurId(u).Some? && FindOperateur(ops, u.operateurId.value).Some?
      ==> OperateurChoices(u, ops) == [(PyInt(u.operateurId.value), FindOperateur(ops, u.operateurId.value).value.nom)]
  {
  }

  /** What a decorator does with a request: send to the login page, refuse, raise, or run the view. */
  datatype Outcome = RedirectLogin | Forbidden | Raises(error: string) | RunView

  /**
   * `role_required(*roles)`: unauthenticated, then inactive, go to the login page; a role not
   * listed is refused; a contact has no `role` attribute, so the check raises for it.
   */
  function RoleRequired(p: Principal, roles: seq<string>): Outcome
  {
    if !IsAuthenticated(p) then RedirectLogin
    else if !IsActive(p) then RedirectLogin
    else match p
      case AContact(_) => Raises("AttributeError")
      case AUser(u) => if u.role !in roles then Forbidden else RunView
      case Anonymous => RedirectLogin
  }

  /** The view runs exactly for an active user holding a listed role, and the checks come in order. */
  lemma {:induction false} RoleRequiredRuns(p: Principal, roles: seq<string>)
    ensures RoleRequired(p, roles) == RunView <==> p.AUser? && p.user.isActive && p.user.role in roles
    ensures !IsAuthenticated(p) ==> RoleRequired(p, roles) == RedirectLogin
    ensures IsAuthenticated(p) && !IsActive(p) ==> RoleRequired(p, roles) == RedirectLogin
    ensures RoleRequired(p, roles) == Forbidden <==> p.AUser? && p.user.isActive && p.user.role !in roles
  {
  }

  function SuperAdminRequired(p: Principal): Outcome
  {
    RoleRequired(p, [SuperAdmin])
  }

  function AdminRequired(p: Principal): Outcome
  {
    RoleRequired(p, [SuperAdmin, AdminOperateur])
  }

  /** `super_admin_required` lets only an active super administrator through, `admin_required` either admin. */
  lemma {:induction false} AdminDecorators(p: Principal)
    ensures SuperAdminRequired(p) == RunView <==> p.AUser? && p.user.isActive && IsSuperAdmin(p.user)
    ensures AdminRequired(p) == RunView <==> p.AUser? && p.user.isActive && IsAdmin(p.user)
    ensures SuperAdminRequired(p) == RunView ==> AdminRequired(p) == RunView
  {
    RoleRequiredRuns(p, [SuperAdmin]);
    RoleRequiredRuns(p, [SuperAdmin, AdminOperateur]);
  }

  /** `kwargs.get('operateur_id') or request.args.get('operateur_id')`. */
  function RequestedOperateur(routeArg: PyValue, queryArg: Option<string>): PyValue
  {
    if Truthy(routeArg) then routeArg
    else if queryArg.Some? then PyStr(queryArg.value) else PyNone
  }

  /** `int(operateur_id)`: an integer passes, text goes through `int()`. */
  function IntOf(v: PyValue): Option<int>
  {
    match v
    case PyInt(i) => Some(i)
    case PyStr(s) => ParseInt(s)
    case PyNone => None
  }

  /**
   * `operateur_access_required`: after the login and activity checks, a requested operator is
   * checked with `current_user.can_access_operateur(int(operateur_id))`. Python looks the method
   * up before it evaluates the argument, so a contact, which has no such method, raises
   * AttributeError whatever it asks for, and only a user's request goes through `int()`. No
   * request passes.
   */
  function OperateurAccessRequired(p: Principal, routeArg: PyValue, queryArg: Option<string>): (r: Outcome)
    ensures var requested := RequestedOperateur(routeArg, queryArg);
      && (!IsActive(p) ==> r == RedirectLogin)
      && (IsActive(p) && !Truthy(requested) ==> r == RunView)
      && (IsActive(p) && Truthy(requested) && p.AContact? ==> r == Raises("AttributeError"))
      && (IsActive(p) && Truthy(requested) && p.AUser? && IntOf(requested).None? ==> r == Raises("ValueError"))
      && (IsActive(p) && Truthy(requested) && p.AUser? && IntOf(requested).Some? ==>
            (r == RunView <==> UserCanAccessOperateur(p.user, IntOf(requested))) && (r == RunView || r == Forbidden))
  {
    var requested := RequestedOperateur(routeArg, queryArg);
    if !IsAuthenticated(p) then RedirectLogin
    else if !IsActive(p) then RedirectLogin
    else if !Truthy(requested) then RunView
    else match p
      case AContact(_) => Raises("AttributeError")
      case AUser(u) =>
        (match IntOf(requested)
         case None => Raises("ValueError")
         case Some(n) => if UserCanAccessOperateur(u, Some(n)) then RunView else Forbidden)
      case Anonymous => RedirectLogin
  }

  /** An active contact asking for "abc" meets the missing method first: AttributeError, not ValueError. */
  lemma {:induction false} ContactFailsBeforeInt(c: Contact)
    requires c.isActive
    ensures OperateurAccessRequired(AContact(c), PyNone, Some("abc")) == Raises("AttributeError")
  {
  }

  /** The decorator refuses only a requested operator the active user cannot access; a super admin is never refused. */
  lemma {:induction false} OperateurAccessRefusal(p: Principal, routeArg: PyValue, queryArg: Option<string>)
    ensures OperateurAccessRequired(p, routeArg, queryArg) == Forbidden
      <==> (p.AUser? && p.user.isActive && Truthy(RequestedOperateur(routeArg, queryArg))
            && IntOf(RequestedOperateur(routeArg, queryArg)).Some?
            && !UserCanAccessOperateur(p.user, IntOf(RequestedOperateur(routeArg, queryArg))))
    ensures p.AUser? && IsSuperAdmin(p.user) ==> OperateurAccessRequired(p, routeArg, queryArg) != Forbidden
    ensures IsActive(p) && !Truthy(RequestedOperateur(routeArg, queryArg)) ==> OperateurAccessRequired(p, routeArg, queryArg) == RunView
  {
  }

  /** A route argument wins over the query string; a falsy one lets the query string decide. */
  lemma {:induction false} RouteArgumentFirst(routeArg: PyValue, queryArg: Option<string>)
    ensures Truthy(routeArg) ==> RequestedOperateur(routeArg, queryArg) == routeArg
    ensures !Truthy(routeArg) && queryArg == Some("") ==> !Truthy(RequestedOperateur(routeArg, queryArg))
    ensures !Truthy(routeArg) && queryArg.None? ==> RequestedOperateur(routeArg, queryArg) == PyNone
  {
  }

  /**
   * `same_operateur_required`: the login check only (no activity check), then a super admin
   * passes and anyone else needs a truthy `operateur_id`; a contact has no `is_super_admin`.
   */
  function SameOperateurRequired(p: Principal): Outcome
  {
    if !IsAuthenticated(p) then RedirectLogin
    else match p
      case AContact(_) => Raises("AttributeError")
      case AUser(u) =>
        if IsSuperAdmin(u) then RunView
        else if !TruthyInt(u.operateurId) then Forbidden
        else RunView
      case Anonymous => RedirectLogin
  }

  /** The view runs for a super admin or a user with an operator, active or not. */
  lemma {:induction false} SameOperateurRuns(p: Principal)
    ensures SameOperateurRequired(p) == RunView <==> p.AUser? && (IsSuperAdmin(p.user) || TruthyInt(p.user.operateurId))
    ensures SameOperateurRequired(p) == Forbidden <==> p.AUser? && !IsSuperAdmin(p.user) && !TruthyInt(p.user.operateurId)
  {
  }
}
