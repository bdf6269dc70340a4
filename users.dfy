// Accounts: platform users with a role, operator contacts who log in with a prefixed id,
// and the loader that turns a stored session id back into one of them.
module Users {
  import opened Wrappers
  import opened Text
  import opened Python

  const SuperAdmin: string := "super_admin"
  const AdminOperateur: string := "admin_operateur"
  const UtilisateurOperateur: string := "utilisateur_operateur"

  datatype Operateur = Operateur(id: int, nom: string, actif: bool)

  /** A `users` row; `role` is the text of the column, `None` columns are nullable. */
  datatype User = User(
    id: int, username: string, email: string, nom: Option<string>, prenom: Option<string>,
    role: string, operateurId: Option<int>, isActive: bool)

  /** A `contacts` row: an operator's representative, who may also log in. */
  datatype Contact = Contact(
    id: int, operateurId: int, nom: string, prenom: string, email: string,
    username: Option<string>, passwordHash: Option<string>, isActive: bool)

  /** Who `current_user` is: nobody, a user, or a contact. */
  datatype Principal = Anonymous | AUser(user: User) | AContact(contact: Contact)

  predicate IsSuperAdmin(u: User) { u.role == SuperAdmin }

  predicate IsAdminOperateur(u: User) { u.role == AdminOperateur }

  predicate IsUtilisateurOperateur(u: User) { u.role == UtilisateurOperateur }

  /** `is_admin`: membership of the two administrator roles. */
  predicate IsAdmin(u: User)
    ensures IsAdmin(u) <==> IsSuperAdmin(u) || IsAdminOperateur(u)
    ensures IsAdmin(u) ==> !IsUtilisateurOperateur(u)
  {
    u.role in [SuperAdmin, AdminOperateur]
  }

  /** `nom_complet`: "prenom nom" when both are set, else whichever is set, else the username. */
  function NomComplet(u: User): string
  {
    if TruthyStr(u.nom) && TruthyStr(u.prenom) then u.prenom.value + " " + u.nom.value
    else if TruthyStr(u.nom) then u.nom.value
    else if TruthyStr(u.prenom) then u.prenom.value
    else u.username
  }

  /** The full name ends with the last name and starts with the first name whenever they are set. */
  lemma {:induction false} NomCompletParts(u: User)
    ensures TruthyStr(u.nom) ==> EndsWith(NomComplet(u), u.nom.value)
    ensures TruthyStr(u.prenom) ==> StartsWith(NomComplet(u), u.prenom.value)
    ensures !TruthyStr(u.nom) && !TruthyStr(u.prenom) ==> NomComplet(u) == u.username
    ensures TruthyStr(u.nom) || TruthyStr(u.prenom) ==> NomComplet(u) != ""
  {
    if TruthyStr(u.nom) && TruthyStr(u.prenom) {
      var r := u.prenom.value + " " + u.nom.value;
      assert r[|r| - |u.nom.value|..] == u.nom.value;
      assert r[..|u.prenom.value|] == u.prenom.value;
    }
  }

  /** The permission lists of `has_permission`, by role; an unknown role has none. */
  function PermissionsOf(role: string): seq<string>
  {
    if role == SuperAdmin then
      ["create_operateur", "edit_operateur", "delete_operateur", "create_user", "edit_user", "delete_user", "view_all_reports"]
    else if role == AdminOperateur then
      ["edit_own_operateur", "create_user_operateur", "edit_user_operateur", "view_own_reports", "create_reports"]
    else if role == UtilisateurOperateur then
      ["view_own_reports", "create_reports", "edit_own_reports"]
    else []
  }

  predicate HasPermission(u: User, permission: string)
  {
    permission in PermissionsOf(u.role)
  }

  /**
   * Who holds which permission: nothing without a known role; `view_all_reports` only the
   * super administrator, who does not hold `create_reports`; `edit_own_reports` only plain users.
   */
  lemma {:induction false} HasPermissionTable(u: User, permission: string)
    ensures u.role !in [SuperAdmin, AdminOperateur, UtilisateurOperateur] ==> !HasPermission(u, permission)
    ensures HasPermission(u, "view_all_reports") <==> IsSuperAdmin(u)
    ensures HasPermission(u, "create_reports") <==> IsAdminOperateur(u) || IsUtilisateurOperateur(u)
    ensures HasPermission(u, "edit_own_reports") <==> IsUtilisateurOperateur(u)
    ensures HasPermission(u, "create_user") <==> IsSuperAdmin(u)
  {
  }

  /** `User.can_access_operateur`: the super administrator, or a user of that very operator. */
  predicate UserCanAccessOperateur(u: User, operateurId: Option<int>)
  {
    IsSuperAdmin(u) || u.operateurId == operateurId
  }

  /** The `operateur` relationship: the first operator with that id. */
  function FindOperateur(ops: seq<Operateur>, id: int): (r: Option<Operateur>)
    ensures r.Some? ==> r.value in ops && r.value.id == id
    ensures r.None? ==> forall k :: 0 <= k < |ops| ==> ops[k].id != id
  {
    if ops == [] then None else if ops[0].id == id then Some(ops[0]) else FindOperateur(ops[1..], id)
  }

  /** `Operateur.query.filter_by(actif=True).all()`, in table order. */
  function Actives(ops: seq<Operateur>): (r: seq<Operateur>)
    ensures forall o :: o in r <==> o in ops && o.actif
    ensures |r| <= |ops|
  {
    if ops == [] then [] else (if ops[0].actif then [ops[0]] else []) + Actives(ops[1..])
  }

  /** `User.get_accessible_operateurs`. */
  function GetAccessibleOperateurs(u: User, ops: seq<Operateur>): seq<Operateur>
  {
    if IsSuperAdmin(u) then Actives(ops)
    else if TruthyInt(u.operateurId) then
      (match FindOperateur(ops, u.operateurId.value) case Some(o) => [o] case None => [])
    else []
  }

  /**
   * The accessible operators are operators the user may access: every active one for the
   * super administrator, otherwise the user's own operator when it exists, and nothing else.
   */
  lemma {:induction false} AccessibleOperateursAreAccessible(u: User, ops: seq<Operateur>)
    ensures forall o :: o in GetAccessibleOperateurs(u, ops) ==> o in ops && UserCanAccessOperateur(u, Some(o.id))
    ensures IsSuperAdmin(u) ==> forall o :: o in ops && o.actif ==> o in GetAccessibleOperateurs(u, ops)
    ensures !IsSuperAdmin(u) ==> |GetAccessibleOperateurs(u, ops)| <= 1
    ensures !IsSuperAdmin(u) && TruthyInt(u.operateurId) && FindOperateur(ops, u.operateurId.value).Some?
      ==> GetAccessibleOperateurs(u, ops) == [FindOperateur(ops, u.operateurId.value).value]
    ensures !IsSuperAdmin(u) && !TruthyInt(u.operateurId) ==> GetAccessibleOperateurs(u, ops) == []
  {
  }

  /** `Contact.get_id`: the login id is the contact's id behind a `contact_` prefix. */
  function ContactGetId(c: Contact): string
  {
    "contact_" + IntToString(c.id)
  }

  /** `UserMixin.get_id` for a user: the id in decimal. */
  function UserGetId(u: User): string
  {
    IntToString(u.id)
  }

  /** `Contact.check_password`: no stored hash means no match; otherwise the hash verifier decides. */
  function ContactCheckPassword(c: Contact, password: string, verify: (string, string) -> bool): (b: bool)
    ensures !TruthyStr(c.passwordHash) ==> !b
    ensures TruthyStr(c.passwordHash) ==> (b <==> verify(c.passwordHash.value, password))
  {
    TruthyStr(c.passwordHash) && verify(c.passwordHash.value, password)
  }

  /**
   * `current_user.is_authenticated`: a user (through `UserMixin`) and a contact (whose
   * `is_authenticated` is a bound method, hence truthy) are authenticated, nobody else is.
   */
  predicate IsAuthenticated(p: Principal)
  {
    !p.Anonymous?
  }

  /** `Contact.is_anonymous` answers `False` for every contact. */
  predicate ContactIsAnonymous(c: Contact) { false }

  /** `current_user.is_active`. */
  predicate IsActive(p: Principal)
  {
    match p
    case Anonymous => false
    case AUser(u) => u.isActive
    case AContact(c) => c.isActive
  }

  /** A contact is always authenticated and never anonymous, active or not. */
  lemma {:induction false} ContactAlwaysAuthenticated(c: Contact)
    ensures IsAuthenticated(AContact(c)) && !ContactIsAnonymous(c)
    ensures !IsAuthenticated(Anonymous)
  {
  }

  /** `nom_complet` of `Contact.to_dict`: first name, a space, last name. */
  function ContactNomComplet(c: Contact): string
  {
    c.prenom + " " + c.nom
  }

  lemma {:induction false} ContactNomCompletParts(c: Contact)
    ensures StartsWith(ContactNomComplet(c), c.prenom) && EndsWith(ContactNomComplet(c), c.nom)
    ensures |ContactNomComplet(c)| == |c.prenom| + 1 + |c.nom| && ContactNomComplet(c)[|c.prenom|] == ' '
  {
    var r := ContactNomComplet(c);
    assert r[|r| - |c.nom|..] == c.nom;
    assert r[..|c.prenom|] == c.prenom;
  }

  /** `User.query.get(id)`: the first user with the id, none when no user has it. */
  function FindUser(users: seq<User>, id: int): (r: Option<User>)
    ensures r.Some? ==> r.value in users && r.value.id == id
    ensures r.None? <==> forall k :: 0 <= k < |users| ==> users[k].id != id
    ensures forall k :: 0 <= k < |users| && users[k].id == id && (forall j :: 0 <= j < k ==> users[j].id != id) ==>
      r == Some(users[k])
  {
    if users == [] then None
    else if users[0].id == id then Some(users[0])
    else
      var r := FindUser(users[1..], id);
      assert forall k :: 1 <= k < |users| ==> users[k] == users[1..][k - 1];
      r
  }

  /** `Contact.query.get(id)`: the contact with the id, none when no contact has it. */
  function FindContact(contacts: seq<Contact>, id: int): (r: Option<Contact>)
    ensures r.Some? ==> r.value in contacts && r.value.id == id
    ensures r.None? <==> forall k :: 0 <= k < |contacts| ==> contacts[k].id != id
    ensures forall k :: 0 <= k < |contacts| && contacts[k].id == id && (forall j :: 0 <= j < k ==> contacts[j].id != id) ==>
      r == Some(contacts[k])
  {
    if contacts == [] then None
    else if contacts[0].id == id then Some(contacts[0])
    else
      var r := FindContact(contacts[1..], id);
      assert forall k :: 1 <= k < |contacts| ==> contacts[k] == contacts[1..][k - 1];
      r
  }

  /** `query.get(id)` mapped to the session's principal: a missing row leaves the session anonymous. */
  function AsUser(r: Option<User>): Principal
  {
    if r.Some? then AUser(r.value) else Anonymous
  }

  function AsContact(r: Option<Contact>): Principal
  {
    if r.Some? then AContact(r.value) else Anonymous
  }

  /**
   * `load_user`: an id starting with `contact_` loses every `contact_` and names a contact;
   * any other id names a user. `Err` is the `ValueError` of `int()` on text that is no number.
   */
  function LoadUser(userId: string, users: seq<User>, contacts: seq<Contact>): Result<Principal>
  {
    if StartsWith(userId, "contact_") then
      match ParseInt(ReplaceAll(userId, "contact_", ""))
      case None => Err("ValueError")
      case Some(n) => Ok(AsContact(FindContact(contacts, n)))
    else
      match ParseInt(userId)
      case None => Err("ValueError")
      case Some(n) => Ok(AsUser(FindUser(users, n)))
  }

  /** Decimal text never holds `contact_`. */
  lemma {:induction false} NumberHasNoPrefix(n: int)
    ensures !Contains(IntToString(n), "contact_")
    ensures !StartsWith(IntToString(n), "contact_")
  {
    var s := IntToString(n);
    IntToStringHead(n);
  }

  /** Removing every `contact_` from the prefixed text gives back a remainder free of it. */
  lemma {:induction false} StripPrefix(rest: string)
    requires !Contains(rest, "contact_")
    ensures StartsWith("contact_" + rest, "contact_")
    ensures ReplaceAll("contact_" + rest, "contact_", "") == rest
  {
    var s := "contact_" + rest;
    assert s[..8] == "contact_" && s[8..] == rest;
    ReplaceAllAbsent(rest, "contact_", "");
  }

  /** Logging a contact in and loading the session back gives the same contact. */
  lemma {:induction false} LoadContactRoundTrip(c: Contact, users: seq<User>, contacts: seq<Contact>)
    requires FindContact(contacts, c.id) == Some(c)
    ensures LoadUser(ContactGetId(c), users, contacts) == Ok(AContact(c))
  {
    NumberHasNoPrefix(c.id);
    StripPrefix(IntToString(c.id));
    ParseIntOfString(c.id);
  }

  /** Logging a user in and loading the session back gives the same user, never a contact. */
  lemma {:induction false} LoadUserRoundTrip(u: User, users: seq<User>, contacts: seq<Contact>)
    requires FindUser(users, u.id) == Some(u)
    ensures LoadUser(UserGetId(u), users, contacts) == Ok(AUser(u))
  {
    NumberHasNoPrefix(u.id);
    ParseIntOfString(u.id);
  }

  /** A prefixed id whose remainder is not a number makes the loader raise. */
  lemma {:induction false} LoadContactRejects(rest: string, users: seq<User>, contacts: seq<Contact>)
    requires |rest| > 0 && 'a' <= rest[0] <= 'z' && !Contains(rest, "contact_")
    ensures LoadUser("contact_" + rest, users, contacts).Err?
  {
    StripPrefix(rest);
    ParseIntRejects(rest, 0);
  }

  /** Any other id that is not a number makes the loader raise too. */
  lemma {:induction false} LoadUserRejects(userId: string, users: seq<User>, contacts: seq<Contact>)
    requires |userId| > 0 && 'a' <= userId[0] <= 'z' && !StartsWith(userId, "contact_")
    ensures LoadUser(userId, users, contacts).Err?
  {
    ParseIntRejects(userId, 0);
  }
}
