// The collection routes: submitting a month (create, update a draft, or refuse), who may view
// a collection, and the regulator's validate/reject API, over an in-memory table.
module CollecteRoutes {
  import opened Wrappers
  import opened Users
  import opened Access
  import opened CollecteModel
  import opened CollecteForms

  /** The roles the collection routes list: `'operateur'` is the name of no role of the application. */
  const CollecteRolesAsWritten: seq<string> := ["operateur", AdminOperateur]

  /** The roles evidently meant: the operator's ordinary users and its administrators. */
  const CollecteRoles: seq<string> := [UtilisateurOperateur, AdminOperateur]

  /**
   * As written, an active `utilisateur_operateur` is refused by every collection route that lists
   * only these roles; with the intended list it gets through. Admins get through under both.
   */
  lemma {:induction false} CollecteRolesAsWrittenRefuseUsers(u: User)
    requires u.isActive
    ensures u.role == UtilisateurOperateur ==> RoleRequired(AUser(u), CollecteRolesAsWritten) == Forbidden
    ensures u.role == UtilisateurOperateur ==> RoleRequired(AUser(u), CollecteRoles) == RunView
    ensures u.role == AdminOperateur ==>
      RoleRequired(AUser(u), CollecteRolesAsWritten) == RunView && RoleRequired(AUser(u), CollecteRoles) == RunView
    ensures RoleRequired(AUser(u), CollecteRolesAsWritten) == RunView ==> u.role in ["operateur", AdminOperateur]
    ensures "operateur" !in [SuperAdmin, AdminOperateur, UtilisateurOperateur]
  {
    RoleRequiredRuns(AUser(u), CollecteRolesAsWritten);
    RoleRequiredRuns(AUser(u), CollecteRoles);
  }

  /** No two rows share an operator and a period (the table's unique key), and ids lie below the next one. */
  ghost predicate TableValid(rows: seq<Collecte>, nextId: int)
  {
    && (forall i, j :: 0 <= i < j < |rows| ==>
          !(rows[i].operateurId == rows[j].operateurId && rows[i].annee == rows[j].annee && rows[i].mois == rows[j].mois))
    && (forall k :: 0 <= k < |rows| ==> rows[k].id < nextId)
  }

  /** Some row, active or not, already holds the unique key. */
  predicate KeyTaken(rows: seq<Collecte>, operateurId: int, annee: int, mois: int)
  {
    exists k :: 0 <= k < |rows| && rows[k].operateurId == operateurId && rows[k].annee == annee && rows[k].mois == mois
  }

  datatype SubmitOutcome =
    | NoOperateur                       // the user has no operator: back to the index
    | FormInvalid                       // the form is shown again with its errors
    | Refused(statut: Option<StatutCollecte>)  // an existing collection blocks the period
    | Updated(id: int)                  // the existing draft was filled in again
    | Created(id: int)                  // a new row was inserted
    | InsertFails(error: string)        // the insert broke the unique key
    | SubmitRaises(error: string)       // the request fails with a server error before anything is saved

  /** A new object: operator, period and submitter; every other column empty until filled. */
  function NewCollecte(id: int, operateurId: int, annee: int, mois: int, userId: int): Collecte
  {
    Collecte(id, operateurId, mois, annee, None, Clients(None, None, None, None, None, None), map[],
             Some(userId), None, None, None, true)
  }

  /**
   * The assignments of `soumettre_collecte`: the status the button chose (`save_draft` keeps a
   * draft and its date, any other submit stamps the submission date) and the form's data.
   */
  function Filled(c: Collecte, saveDraft: bool, clients: Clients, autres: map<string, string>, now: int): Collecte
  {
    c.(statut := Some(if saveDraft then Brouillon else Soumis),
       dateSoumission := if saveDraft then c.dateSoumission else Some(now),
       clients := clients, autres := autres)
  }

  /** The filled record keeps its identity and key; a draft stays editable and a submission does not. */
  lemma {:induction false} FilledKeepsKey(c: Collecte, saveDraft: bool, clients: Clients, autres: map<string, string>, now: int)
    ensures var f := Filled(c, saveDraft, clients, autres, now);
      f.id == c.id && f.operateurId == c.operateurId && f.annee == c.annee && f.mois == c.mois && f.actif == c.actif
    ensures PeutEtreModifie(Filled(c, saveDraft, clients, autres, now).statut) <==> saveDraft
    ensures !saveDraft ==> Filled(c, saveDraft, clients, autres, now).dateSoumission == Some(now)
    ensures saveDraft ==> Filled(c, saveDraft, clients, autres, now).dateSoumission == c.dateSoumission
    ensures Filled(c, saveDraft, clients, autres, now).clients == clients
  {
  }

  /** The table after a submission: the outcome, the rows and the next id. */
  datatype Submission = Submission(outcome: SubmitOutcome, rows: seq<Collecte>, nextId: int)

  /**
   * `soumettre_collecte` after its decorators, on values: the user's id and operator, the
   * form's verdict and period, the button, the data, the clock, and the test that decides
   * whether an existing collection blocks. The new row records its submitter in the
   * `soumis_par_user_id` column and its status as a member (the corrected assignments).
   */
  function SubmitSpec(rows: seq<Collecte>, nextId: int, userId: int, operateurId: Option<int>, formValid: bool,
                      annee: int, mois: int, saveDraft: bool, clients: Clients, autres: map<string, string>, now: int,
                      blocks: Option<Collecte> -> bool): Submission
  {
    if operateurId.None? then Submission(NoOperateur, rows, nextId)
    else if !formValid then Submission(FormInvalid, rows, nextId)
    else match ExistingIndex(rows, operateurId.value, annee, mois, 0)
      case Some(i) =>
        if blocks(Some(rows[i])) then Submission(Refused(rows[i].statut), rows, nextId)
        else Submission(Updated(rows[i].id), rows[i := Filled(rows[i], saveDraft, clients, autres, now)], nextId)
      case None =>
        if KeyTaken(rows, operateurId.value, annee, mois) then Submission(InsertFails("IntegrityError"), rows, nextId)
        else
          var c := NewCollecte(nextId, operateurId.value, annee, mois, userId);
          Submission(Created(nextId), rows + [Filled(c, saveDraft, clients, autres, now)], nextId + 1)
  }

  /** Every submission keeps the unique key and the ids below the next one, whatever the test. */
  lemma {:induction false} SubmitKeepsTable(rows: seq<Collecte>, nextId: int, userId: int, operateurId: Option<int>, formValid: bool,
                         annee: int, mois: int, saveDraft: bool, clients: Clients, autres: map<string, string>, now: int,
                         blocks: Option<Collecte> -> bool)
    requires TableValid(rows, nextId)
    ensures var s := SubmitSpec(rows, nextId, userId, operateurId, formValid, annee, mois, saveDraft, clients, autres, now, blocks);
      TableValid(s.rows, s.nextId) && |s.rows| >= |rows|
  {
    var s := SubmitSpec(rows, nextId, userId, operateurId, formValid, annee, mois, saveDraft, clients, autres, now, blocks);
    if operateurId.Some? && formValid {
      match ExistingIndex(rows, operateurId.value, annee, mois, 0)
      case Some(i) =>
        FilledKeepsKey(rows[i], saveDraft, clients, autres, now);
      case None =>
        if !KeyTaken(rows, operateurId.value, annee, mois) {
          var c := NewCollecte(nextId, operateurId.value, annee, mois, userId);
          FilledKeepsKey(c, saveDraft, clients, autres, now);
          assert s.rows == rows + [Filled(c, saveDraft, clients, autres, now)];
          assert forall k :: 0 <= k < |rows| ==> s.rows[k] == rows[k];
        }
    }
  }

  /**
   * With the test as written an existing collection, draft or not, is always refused, so the
   * "update the existing draft" branch never runs; with the intended test a draft is filled in again.
   */
  lemma {:induction false} SubmitAsWrittenNeverUpdates(rows: seq<Collecte>, nextId: int, userId: int, operateurId: int,
                                    annee: int, mois: int, saveDraft: bool, clients: Clients, autres: map<string, string>, now: int)
    ensures !SubmitSpec(rows, nextId, userId, Some(operateurId), true, annee, mois, saveDraft, clients, autres, now, BlocksAsWritten).outcome.Updated?
    ensures ExistingFor(rows, operateurId, annee, mois).Some? ==>
      SubmitSpec(rows, nextId, userId, Some(operateurId), true, annee, mois, saveDraft, clients, autres, now, BlocksAsWritten).outcome.Refused?
    ensures var e := ExistingFor(rows, operateurId, annee, mois);
      e.Some? && e.value.statut == Some(Brouillon) ==>
        SubmitSpec(rows, nextId, userId, Some(operateurId), true, annee, mois, saveDraft, clients, autres, now, Blocks).outcome
        == Updated(e.value.id)
  {
  }

  /**
   * `soumettre_collecte` as written: every existing collection blocks, and constructing a new
   * one with `soumis_par=current_user.id` hands an int to a relationship, so SQLAlchemy raises
   * `AttributeError` before anything is added. No row ever changes.
   */
  function SubmitAsWrittenSpec(rows: seq<Collecte>, operateurId: Option<int>, formValid: bool, annee: int, mois: int)
    : SubmitOutcome
  {
    if operateurId.None? then NoOperateur
    else if !formValid then FormInvalid
    else match ExistingIndex(rows, operateurId.value, annee, mois, 0)
      case Some(i) => Refused(rows[i].statut)
      case None => SubmitRaises("AttributeError")
  }

  /**
   * As written, a valid submission from an operator's user never stores anything: an existing
   * collection refuses it, and otherwise the request fails exactly where the corrected route
   * inserts the new row.
   */
  lemma {:induction false} SubmitAsWrittenNeverStores(rows: seq<Collecte>, nextId: int, userId: int, operateurId: int,
                                   annee: int, mois: int, saveDraft: bool, clients: Clients, autres: map<string, string>, now: int)
    ensures var out := SubmitAsWrittenSpec(rows, Some(operateurId), true, annee, mois);
      !out.Created? && !out.Updated?
    ensures SubmitAsWrittenSpec(rows, Some(operateurId), true, annee, mois) == SubmitRaises("AttributeError")
      <==> ExistingFor(rows, operateurId, annee, mois).None?
    ensures ExistingFor(rows, operateurId, annee, mois).None? && !KeyTaken(rows, operateurId, annee, mois) ==>
      SubmitSpec(rows, nextId, userId, Some(operateurId), true, annee, mois, saveDraft, clients, autres, now, Blocks).outcome
      == Created(nextId)
  {
  }

  /** What a saved submission stores under the intended test: the form's data and the chosen status. */
  lemma {:induction false} SubmitStores(rows: seq<Collecte>, nextId: int, userId: int, operateurId: int,
                     annee: int, mois: int, saveDraft: bool, clients: Clients, autres: map<string, string>, now: int)
    ensures var s := SubmitSpec(rows, nextId, userId, Some(operateurId), true, annee, mois, saveDraft, clients, autres, now, Blocks);
      s.outcome.Created? ==> (|s.rows| == |rows| + 1 && s.rows[|rows|].id == nextId
        && s.rows[|rows|].soumisPar == Some(userId) && SamePeriod(s.rows[|rows|], operateurId, annee, mois)
        && s.rows[|rows|].clients == clients
        && (PeutEtreModifie(s.rows[|rows|].statut) <==> saveDraft)
        && (s.rows[|rows|].dateSoumission.Some? <==> !saveDraft))
    ensures var s := SubmitSpec(rows, nextId, userId, Some(operateurId), true, annee, mois, saveDraft, clients, autres, now, Blocks);
      s.outcome.Refused? ==> s.rows == rows && s.outcome.statut != Some(Brouillon)
  {
  }

  /** The `collecte_donnees_mensuelles` table and the id the next insert receives. */
  class CollecteTable {
    var rows: seq<Collecte>
    var nextId: int

    ghost predicate Valid()
      reads this
    {
      TableValid(rows, nextId)
    }

    constructor ()
      ensures Valid() && rows == [] && nextId == 1
    {
      rows := [];
      nextId := 1;
    }

    /** The route, with the existing-collection test passed in (as written or as intended). */
    method Soumettre(userId: int, operateurId: Option<int>, formValid: bool, annee: int, mois: int, saveDraft: bool,
                     clients: Clients, autres: map<string, string>, now: int, blocks: Option<Collecte> -> bool)
      returns (out: SubmitOutcome)
      requires Valid()
      modifies this
      ensures Valid()
      ensures var s := SubmitSpec(old(rows), old(nextId), userId, operateurId, formValid, annee, mois,
                                  saveDraft, clients, autres, now, blocks);
        out == s.outcome && rows == s.rows && nextId == s.nextId
    {
      SubmitKeepsTable(rows, nextId, userId, operateurId, formValid, annee, mois, saveDraft, clients, autres, now, blocks);
      if operateurId.None? {
        return NoOperateur;
      }
      if !formValid {
        return FormInvalid;
      }
      var existing := ExistingIndex(rows, operateurId.value, annee, mois, 0);
      if existing.Some? {
        var i := existing.value;
        if blocks(Some(rows[i])) {
          return Refused(rows[i].statut);
        }
        rows := rows[i := Filled(rows[i], saveDraft, clients, autres, now)];
        return Updated(rows[i].id);
      }
      if KeyTaken(rows, operateurId.value, annee, mois) {
        return InsertFails("IntegrityError");
      }
      var c := NewCollecte(nextId, operateurId.value, annee, mois, userId);
      c := Filled(c, saveDraft, clients, autres, now);
      rows := rows + [c];
      out := Created(nextId);
      nextId := nextId + 1;
    }

    /** `soumettre_collecte` as written: refused, or an `AttributeError`; the table stays as it was. */
    method SoumettreAsWritten(operateurId: Option<int>, formValid: bool, annee: int, mois: int)
      returns (out: SubmitOutcome)
      ensures out == SubmitAsWrittenSpec(rows, operateurId, formValid, annee, mois)
    {
      if operateurId.None? {
        return NoOperateur;
      }
      if !formValid {
        return FormInvalid;
      }
      var existing := ExistingIndex(rows, operateurId.value, annee, mois, 0);
      if existing.Some? {
        // `existing.statut != 'brouillon'` holds for every member.
        return Refused(rows[existing.value].statut);
      }
      return SubmitRaises("AttributeError");
    }

    /**
     * `soumettre_collecte` corrected: an existing draft is updated in place, a new row records
     * `soumis_par_user_id`, and statuses are members.
     */
    method SoumettreCollecte(userId: int, operateurId: Option<int>, formValid: bool, annee: int, mois: int, saveDraft: bool,
                             clients: Clients, autres: map<string, string>, now: int)
      returns (out: SubmitOutcome)
      requires Valid()
      modifies this
      ensures Valid()
      ensures var s := SubmitSpec(old(rows), old(nextId), userId, operateurId, formValid, annee, mois,
                                  saveDraft, clients, autres, now, Blocks);
        out == s.outcome && rows == s.rows && nextId == s.nextId
    {
      out := Soumettre(userId, operateurId, formValid, annee, mois, saveDraft, clients, autres, now, Blocks);
    }

    /**
     * `api_valider_collecte` corrected: look the row up by id, then apply the action, recording
     * the validator in `valide_par_user_id` and the status as a member.
     */
    method ApiValider(collecteId: int, action: Option<string>, validateurId: int, now: int) returns (out: ApiOutcome)
      requires Valid()
      modifies this`rows
      ensures Valid()
      ensures var v := ValiderSpec(old(rows), collecteId, action, validateurId, now); out == v.outcome && rows == v.rows
    {
      ValiderKeepsTable(rows, nextId, collecteId, action, validateurId, now);
      var i := IndexOfId(rows, collecteId, 0);
      if i.None? {
        return NotFound;
      }
      var st := ActionStatut(action);
      if st.None? {
        return BadRequest;
      }
      rows := rows[i.value := Decided(rows[i.value], st.value, validateurId, now)];
      return Decision(st.value);
    }

    /**
     * `api_valider_collecte` as written: `collecte.valide_par = current_user.id` hands an int to a
     * relationship and raises `AttributeError` before the save, so no decision is stored.
     */
    method ApiValiderAsWritten(collecteId: int, action: Option<string>) returns (out: ApiOutcome)
      ensures out == ValiderAsWrittenSpec(rows, collecteId, action)
    {
      var i := IndexOfId(rows, collecteId, 0);
      if i.None? {
        return NotFound;
      }
      if ActionStatut(action).None? {
        return BadRequest;
      }
      return ServerError("AttributeError");
    }
  }

  /** `voir_collecte`'s check: a super administrator, or a user of the collection's operator. */
  datatype View = LoginRedirect | Denied | ViewRaises(error: string) | Shown

  function VoirCollecte(p: Principal, c: Collecte): View
  {
    match p
    case Anonymous => LoginRedirect
    case AContact(_) => ViewRaises("AttributeError")
    case AUser(u) => if u.role != SuperAdmin && u.operateurId != Some(c.operateurId) then Denied else Shown
  }

  /** A user sees a collection exactly when they are super administrator or belong to its operator. */
  lemma {:induction false} VoirCollecteAccess(u: User, c: Collecte)
    ensures VoirCollecte(AUser(u), c) == Shown <==> IsSuperAdmin(u) || u.operateurId == Some(c.operateurId)
    ensures VoirCollecte(AUser(u), c) == Shown <==> UserCanAccessOperateur(u, Some(c.operateurId))
    ensures VoirCollecte(AUser(u), c) != Shown ==> VoirCollecte(AUser(u), c) == Denied
  {
  }

  datatype ApiOutcome = NotFound | BadRequest | Decision(statut: StatutCollecte) | ServerError(error: string)

  /** The first row with that id (`get_or_404`). */
  function IndexOfId(rows: seq<Collecte>, id: int, from: nat): (r: Option<nat>)
    requires from <= |rows|
    ensures r.Some? ==> from <= r.value < |rows| && rows[r.value].id == id
    ensures r.None? <==> forall k :: from <= k < |rows| ==> rows[k].id != id
    decreases |rows| - from
  {
    if from == |rows| then None
    else if rows[from].id == id then Some(from)
    else IndexOfId(rows, id, from + 1)
  }

  /** 'valider' validates, 'rejeter' rejects, anything else (or no action) is refused. */
  function ActionStatut(action: Option<string>): (r: Option<StatutCollecte>)
    ensures r == Some(Valide) <==> action == Some("valider")
    ensures r == Some(Rejete) <==> action == Some("rejeter")
    ensures r.None? <==> action != Some("valider") && action != Some("rejeter")
  {
    if action == Some("valider") then Some(Valide)
    else if action == Some("rejeter") then Some(Rejete)
    else None
  }

  /** The decision's assignments: status, validation date and validator. */
  function Decided(c: Collecte, statut: StatutCollecte, validateurId: int, now: int): Collecte
  {
    c.(statut := Some(statut), dateValidation := Some(now), validePar := Some(validateurId))
  }

  datatype ValiderResult = ValiderResult(outcome: ApiOutcome, rows: seq<Collecte>)

  function ValiderSpec(rows: seq<Collecte>, collecteId: int, action: Option<string>, validateurId: int, now: int): ValiderResult
  {
    match IndexOfId(rows, collecteId, 0)
    case None => ValiderResult(NotFound, rows)
    case Some(i) =>
      match ActionStatut(action)
      case None => ValiderResult(BadRequest, rows)
      case Some(st) => ValiderResult(Decision(st), rows[i := Decided(rows[i], st, validateurId, now)])
  }

  /**
   * A decision changes only the status, date and validator of the one row; a validated collection
   * is locked and a rejected one editable again; an unknown action or id changes nothing.
   */
  lemma {:induction false} ValiderEffect(rows: seq<Collecte>, collecteId: int, action: Option<string>, validateurId: int, now: int)
    ensures var v := ValiderSpec(rows, collecteId, action, validateurId, now);
      (v.outcome == NotFound || v.outcome == BadRequest) ==> v.rows == rows
    ensures var v := ValiderSpec(rows, collecteId, action, validateurId, now);
      v.outcome.Decision? ==>
        exists i :: 0 <= i < |rows| && rows[i].id == collecteId && v.rows == rows[i := Decided(rows[i], v.outcome.statut, validateurId, now)]
    ensures var v := ValiderSpec(rows, collecteId, action, validateurId, now);
      v.outcome.Decision? ==> (PeutEtreModifie(Some(v.outcome.statut)) <==> action == Some("rejeter"))
    ensures var v := ValiderSpec(rows, collecteId, action, validateurId, now);
      v.outcome == BadRequest <==> (exists k :: 0 <= k < |rows| && rows[k].id == collecteId)
                                   && action != Some("valider") && action != Some("rejeter")
  {
    var v := ValiderSpec(rows, collecteId, action, validateurId, now);
    if v.outcome.Decision? {
      var i := IndexOfId(rows, collecteId, 0).value;
      assert rows[i].id == collecteId;
    }
    if IndexOfId(rows, collecteId, 0).Some? {
      var i := IndexOfId(rows, collecteId, 0).value;
      assert rows[i].id == collecteId;
    }
  }

  /** The outcome as written: absent id, unknown action, or the `AttributeError` of the validator assignment. */
  function ValiderAsWrittenSpec(rows: seq<Collecte>, collecteId: int, action: Option<string>): ApiOutcome
  {
    match IndexOfId(rows, collecteId, 0)
    case None => NotFound
    case Some(_) => if ActionStatut(action).None? then BadRequest else ServerError("AttributeError")
  }

  /** As written, the request fails exactly where the corrected route records a decision, and never records one. */
  lemma {:induction false} ValiderAsWrittenNeverDecides(rows: seq<Collecte>, collecteId: int, action: Option<string>, validateurId: int, now: int)
    ensures !ValiderAsWrittenSpec(rows, collecteId, action).Decision?
    ensures ValiderAsWrittenSpec(rows, collecteId, action) == ServerError("AttributeError") <==>
      ValiderSpec(rows, collecteId, action, validateurId, now).outcome.Decision?
    ensures !ValiderAsWrittenSpec(rows, collecteId, action).ServerError? ==>
      ValiderAsWrittenSpec(rows, collecteId, action) == ValiderSpec(rows, collecteId, action, validateurId, now).outcome
  {
  }

  lemma {:induction false} ValiderKeepsTable(rows: seq<Collecte>, nextId: int, collecteId: int, action: Option<string>, validateurId: int, now: int)
    requires TableValid(rows, nextId)
    ensures TableValid(ValiderSpec(rows, collecteId, action, validateurId, now).rows, nextId)
  {
  }
}
