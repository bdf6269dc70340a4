// Report-validation workflow: workflow configurations, the validation record and its
// state machine (soumettre / valider / rejeter), expiry and the remaining-time text,
// and the history table every transition appends to.
module WorkflowModel {
  import opened Wrappers
  import opened Text

  datatype TypeRapport =
    | Production | Transport | Distribution | Maintenance
    | Incident | Financier | Technique | Environnemental

  /** The enum member's `.value`. */
  function TypeValue(t: TypeRapport): string
  {
    match t
    case Production => "production"
    case Transport => "transport"
    case Distribution => "distribution"
    case Maintenance => "maintenance"
    case Incident => "incident"
    case Financier => "financier"
    case Technique => "technique"
    case Environnemental => "environnemental"
  }

  datatype StatutWorkflow = Brouillon | Soumis | EnValidation | Valide | Rejete | Expire

  datatype TypeAction = Creation | Soumission | Validation | Rejet | Modification | Expiration | Relance

  /** Times are whole seconds since an epoch; `timedelta(hours=h)` is `h * Hour`. */
  const Hour: int := 3600
  const Day: int := 86400

  /** A row of the `workflows` table (the JSON `etapes` column is not modelled). */
  datatype Workflow = Workflow(id: nat, typeRapport: TypeRapport, nom: string, description: string,
                               delaiValidation: int, validateursRequis: int, rappelAutomatique: bool)

  /** `Workflow.get_workflow_for_type`: the first row of the table for that report type. */
  function WorkflowFor(ws: seq<Workflow>, t: TypeRapport): (r: Option<Workflow>)
    ensures r.Some? ==> r.value in ws && r.value.typeRapport == t
    ensures r.None? <==> forall k :: 0 <= k < |ws| ==> ws[k].typeRapport != t
  {
    if ws == [] then None
    else if ws[0].typeRapport == t then Some(ws[0])
    else
      assert forall k :: 1 <= k < |ws| ==> ws[1..][k - 1] == ws[k];
      WorkflowFor(ws[1..], t)
  }

  /** `Workflow.is_delai_expire`: a submission date exists and `now` lies beyond it plus the delay. */
  predicate IsDelaiExpire(w: Workflow, dateSoumission: Option<int>, now: int)
  {
    dateSoumission.Some? && now > dateSoumission.value + w.delaiValidation * Hour
  }

  predicate EnAttente(s: Option<StatutWorkflow>)
  {
    s == Some(Soumis) || s == Some(EnValidation)
  }

  /** VALIDE, REJETE and EXPIRE: no transition leaves them. */
  predicate Final(s: Option<StatutWorkflow>)
  {
    s == Some(Valide) || s == Some(Rejete) || s == Some(Expire)
  }

  /**
   * The columns of a `validations_rapport` row. `None` is SQL NULL, and also a column a fresh
   * object has not been given yet: column defaults (statut, priorite, rappels_envoyes) are only
   * applied when the row is inserted.
   */
  datatype ValidationRow = ValidationRow(id: Option<nat>, rapportId: int, typeRapport: TypeRapport, workflowId: int,
                     validateurId: Option<int>, etape: string, statut: Option<StatutWorkflow>,
                     dateSoumission: Option<int>, dateValidation: Option<int>, dateExpiration: Option<int>,
                     commentaires: Option<string>, signature: Option<string>,
                     priorite: Option<int>, rappelsEnvoyes: Option<int>)

  /** A row of `historique_validation` (IP address, user agent and JSON snapshots are not modelled). */
  datatype Historique = Historique(rapportId: int, validationId: Option<nat>, utilisateurId: int,
                                   action: TypeAction, details: Option<string>, timestamp: int)

  /** `str(x)` of an optional string: `None` prints as "None". */
  function PyStr(x: Option<string>): string
  {
    if x.None? then "None" else x.value
  }

  /** `x or 'Aucun'`: an absent or empty comment reads "Aucun". */
  function OrAucun(x: Option<string>): string
  {
    if x.None? || x.value == "" then "Aucun" else x.value
  }

  function ExpirationFor(r: ValidationRow, now: int, ws: seq<Workflow>): Option<int>
  {
    var w := WorkflowFor(ws, r.typeRapport);
    if w.Some? then Some(now + w.value.delaiValidation * Hour) else r.dateExpiration
  }

  /** The row after `soumettre`, or `None` when the guard refuses it. */
  function AfterSoumettre(r: ValidationRow, now: int, ws: seq<Workflow>): Option<ValidationRow>
  {
    if r.statut == Some(Brouillon) then
      Some(r.(statut := Some(Soumis), dateSoumission := Some(now), dateExpiration := ExpirationFor(r, now, ws)))
    else None
  }

  function AfterValider(r: ValidationRow, validateurId: int, commentaires: Option<string>, signature: Option<string>,
                        now: int): Option<ValidationRow>
  {
    if EnAttente(r.statut) then
      Some(r.(statut := Some(Valide), validateurId := Some(validateurId), dateValidation := Some(now),
              commentaires := commentaires, signature := signature))
    else None
  }

  function AfterRejeter(r: ValidationRow, validateurId: int, commentaires: Option<string>, now: int): Option<ValidationRow>
  {
    if EnAttente(r.statut) then
      Some(r.(statut := Some(Rejete), validateurId := Some(validateurId), dateValidation := Some(now),
              commentaires := commentaires))
    else None
  }

  function SoumissionEntry(r: ValidationRow, utilisateurId: int, now: int): Historique
  {
    Historique(r.rapportId, r.id, utilisateurId, Soumission,
               Some("Rapport soumis pour validation - Type: " + TypeValue(r.typeRapport)), now)
  }

  function ValidationEntry(r: ValidationRow, validateurId: int, commentaires: Option<string>, now: int): Historique
  {
    Historique(r.rapportId, r.id, validateurId, Validation,
               Some("Rapport validé - Commentaires: " + OrAucun(commentaires)), now)
  }

  function RejetEntry(r: ValidationRow, validateurId: int, commentaires: Option<string>, now: int): Historique
  {
    Historique(r.rapportId, r.id, validateurId, Rejet, Some("Rapport rejeté - Motif: " + PyStr(commentaires)), now)
  }

  /** The row as `BaseModel.save` leaves it: an unsaved row gets its id and its column defaults. */
  function Inserted(r: ValidationRow, nextId: nat): ValidationRow
  {
    if r.id.Some? then r
    else
      r.(id := Some(nextId),
         statut := if r.statut.None? then Some(Brouillon) else r.statut,
         priorite := if r.priorite.None? then Some(1) else r.priorite,
         rappelsEnvoyes := if r.rappelsEnvoyes.None? then Some(0) else r.rappelsEnvoyes)
  }

  function Expired(exp: Option<int>, now: int): bool
  {
    exp.Some? && now > exp.value
  }

  /** `temps_restant` for an expiration date: whole days and hours left, truncated. */
  function RemainingText(exp: Option<int>, now: int): Option<string>
  {
    if exp.None? then None
    else
      var delta := exp.value - now;
      if delta <= 0 then Some("Expiré")
      else
        var jours := delta / Day;
        var heures := (delta % Day) / Hour;
        if jours > 0 then Some(NatToString(jours) + "j " + NatToString(heures) + "h")
        else Some(NatToString(heures) + "h")
  }

  /** The database tables the workflow writes to. */
  class Tables {
    var workflows: seq<Workflow>
    var validations: seq<ValidationRapport>
    var historique: seq<Historique>
    var nextWorkflowId: nat
    var nextValidationId: nat

    constructor (workflows: seq<Workflow>, nextWorkflowId: nat)
      ensures this.workflows == workflows && this.nextWorkflowId == nextWorkflowId
      ensures validations == [] && historique == [] && nextValidationId == 1
    {
      this.workflows := workflows;
      this.nextWorkflowId := nextWorkflowId;
      validations := [];
      historique := [];
      nextValidationId := 1;
    }

    /** `HistoriqueValidation.ajouter_action` followed by its commit. */
    method AjouterAction(h: Historique)
      modifies this`historique
      ensures historique == old(historique) + [h]
    {
      historique := historique + [h];
    }
  }

  /**
   * A `ValidationRapport` object: the ORM object whose column attributes the workflow updates
   * in place, held together as the row they form.
   */
  class ValidationRapport {
    var row: ValidationRow

    /**
     * `ValidationRapport(rapport_id=..., type_rapport=..., workflow_id=..., etape=..., ...)`: the
     * keyword arguments given (an absent one is `None`), and an expiration derived from the
     * submission date and the type's workflow when a submission date but no expiration is given.
     */
    constructor (rapportId: int, typeRapport: TypeRapport, workflowId: int, etape: string,
                 statut: Option<StatutWorkflow>, dateSoumission: Option<int>, dateExpiration: Option<int>,
                 workflows: seq<Workflow>)
      ensures row == ValidationRow(None, rapportId, typeRapport, workflowId, None, etape, statut,
                                   dateSoumission, None,
                                   if dateSoumission.Some? && dateExpiration.None? &&
                                      WorkflowFor(workflows, typeRapport).Some?
                                   then Some(dateSoumission.value +
                                             WorkflowFor(workflows, typeRapport).value.delaiValidation * Hour)
                                   else dateExpiration,
                                   None, None, None, None)
    {
      var exp := dateExpiration;
      if dateSoumission.Some? && dateExpiration.None? {
        var w := WorkflowFor(workflows, typeRapport);
        if w.Some? {
          exp := Some(dateSoumission.value + w.value.delaiValidation * Hour);
        }
      }
      row := ValidationRow(None, rapportId, typeRapport, workflowId, None, etape, statut,
                           dateSoumission, None, exp, None, None, None, None);
    }

    /** `BaseModel.save`: an unsaved object is inserted, gets the next id and its column defaults. */
    method Save(tables: Tables)
      modifies this, tables`validations, tables`nextValidationId
      ensures row == Inserted(old(row), old(tables.nextValidationId))
      ensures old(row.id).Some? ==> tables.validations == old(tables.validations) &&
                                    tables.nextValidationId == old(tables.nextValidationId)
      ensures old(row.id).None? ==> tables.validations == old(tables.validations) + [this] &&
                                    tables.nextValidationId == old(tables.nextValidationId) + 1
    {
      if row.id.None? {
        row := Inserted(row, tables.nextValidationId);
        tables.validations := tables.validations + [this];
        tables.nextValidationId := tables.nextValidationId + 1;
      }
    }

    /**
     * `soumettre`: from BROUILLON only, the record becomes SOUMIS at `now`, expires after the
     * workflow's delay when its type has one, logs a SOUMISSION entry and is saved.
     */
    method Soumettre(utilisateurId: int, now: int, tables: Tables) returns (ok: bool)
      modifies this, tables`validations, tables`nextValidationId, tables`historique
      ensures ok == (old(row.statut) == Some(Brouillon))
      ensures ok ==> row == Inserted(AfterSoumettre(old(row), now, tables.workflows).value,
                                     old(tables.nextValidationId))
      ensures ok ==> tables.historique == old(tables.historique) + [SoumissionEntry(old(row), utilisateurId, now)]
      ensures ok && old(row.id).None? ==> tables.validations == old(tables.validations) + [this] &&
                                          tables.nextValidationId == old(tables.nextValidationId) + 1
      ensures !ok || old(row.id).Some? ==> tables.validations == old(tables.validations) &&
                                           tables.nextValidationId == old(tables.nextValidationId)
      ensures !ok ==> row == old(row) && tables.historique == old(tables.historique)
    {
      var r := AfterSoumettre(row, now, tables.workflows);
      ok := r.Some?;
      if ok {
        var entry := SoumissionEntry(row, utilisateurId, now);
        row := r.value;
        tables.historique := tables.historique + [entry];
        Save(tables);
      }
    }

    /** `valider`: from SOUMIS or EN_VALIDATION only; records validator, date, comment and signature. */
    method Valider(validateurId: int, commentaires: Option<string>, signature: Option<string>, now: int,
                   tables: Tables) returns (ok: bool)
      modifies this, tables`validations, tables`nextValidationId, tables`historique
      ensures ok == EnAttente(old(row.statut))
      ensures ok ==> row == Inserted(AfterValider(old(row), validateurId, commentaires, signature, now).value,
                                     old(tables.nextValidationId))
      ensures ok ==> tables.historique ==
                     old(tables.historique) + [ValidationEntry(old(row), validateurId, commentaires, now)]
      ensures ok && old(row.id).None? ==> tables.validations == old(tables.validations) + [this] &&
                                          tables.nextValidationId == old(tables.nextValidationId) + 1
      ensures !ok || old(row.id).Some? ==> tables.validations == old(tables.validations) &&
                                           tables.nextValidationId == old(tables.nextValidationId)
      ensures !ok ==> row == old(row) && tables.historique == old(tables.historique)
    {
      var r := AfterValider(row, validateurId, commentaires, signature, now);
      ok := r.Some?;
      if ok {
        var entry := ValidationEntry(row, validateurId, commentaires, now);
        row := r.value;
        tables.historique := tables.historique + [entry];
        Save(tables);
      }
    }

    /** `rejeter`: the same guard as `valider`; the record becomes REJETE with the reason as comment. */
    method Rejeter(validateurId: int, commentaires: Option<string>, now: int, tables: Tables) returns (ok: bool)
      modifies this, tables`validations, tables`nextValidationId, tables`historique
      ensures ok == EnAttente(old(row.statut))
      ensures ok ==> row == Inserted(AfterRejeter(old(row), validateurId, commentaires, now).value,
                                     old(tables.nextValidationId))
      ensures ok ==> tables.historique ==
                     old(tables.historique) + [RejetEntry(old(row), validateurId, commentaires, now)]
      ensures ok && old(row.id).None? ==> tables.validations == old(tables.validations) + [this] &&
                                          tables.nextValidationId == old(tables.nextValidationId) + 1
      ensures !ok || old(row.id).Some? ==> tables.validations == old(tables.validations) &&
                                           tables.nextValidationId == old(tables.nextValidationId)
      ensures !ok ==> row == old(row) && tables.historique == old(tables.historique)
    {
      var r := AfterRejeter(row, validateurId, commentaires, now);
      ok := r.Some?;
      if ok {
        var entry := RejetEntry(row, validateurId, commentaires, now);
        row := r.value;
        tables.historique := tables.historique + [entry];
        Save(tables);
      }
    }

    /** `est_expire`. */
    function EstExpire(now: int): (b: bool)
      reads this
      ensures b <==> row.dateExpiration.Some? && now > row.dateExpiration.value
    {
      Expired(row.dateExpiration, now)
    }

    /** `temps_restant`. */
    function TempsRestant(now: int): Option<string>
      reads this
    {
      RemainingText(row.dateExpiration, now)
    }
  }

  // ---------------------------------------------------------------------------------------
  // Properties of the state machine.

  /** Only BROUILLON can be submitted; only SOUMIS and EN_VALIDATION can be validated or rejected. */
  lemma {:induction false} Guards(r: ValidationRow, now: int, ws: seq<Workflow>, v: int, c: Option<string>, sig: Option<string>)
    ensures AfterSoumettre(r, now, ws).Some? <==> r.statut == Some(Brouillon)
    ensures AfterValider(r, v, c, sig, now).Some? <==> r.statut in {Some(Soumis), Some(EnValidation)}
    ensures AfterRejeter(r, v, c, now).Some? <==> r.statut in {Some(Soumis), Some(EnValidation)}
  {
  }

  /** The target status of each successful transition. */
  lemma {:induction false} TransitionTargets(r: ValidationRow, now: int, ws: seq<Workflow>, v: int, c: Option<string>, sig: Option<string>)
    ensures AfterSoumettre(r, now, ws).Some? ==> AfterSoumettre(r, now, ws).value.statut == Some(Soumis)
    ensures AfterValider(r, v, c, sig, now).Some? ==> AfterValider(r, v, c, sig, now).value.statut == Some(Valide)
    ensures AfterRejeter(r, v, c, now).Some? ==> AfterRejeter(r, v, c, now).value.statut == Some(Rejete)
  {
  }

  /** A submission's expiration is exactly the workflow's `is_delai_expire` deadline. */
  lemma {:induction false} SubmissionDeadline(r: ValidationRow, now: int, ws: seq<Workflow>, t: int)
    requires AfterSoumettre(r, now, ws).Some? && WorkflowFor(ws, r.typeRapport).Some?
    ensures Expired(AfterSoumettre(r, now, ws).value.dateExpiration, t) ==
            IsDelaiExpire(WorkflowFor(ws, r.typeRapport).value, AfterSoumettre(r, now, ws).value.dateSoumission, t)
  {
  }

  /** An action on the validation record, as the routes issue them. */
  datatype Op =
    | DoSoumettre(utilisateurId: int, now: int)
    | DoValider(validateurId: int, commentaires: Option<string>, signature: Option<string>, now: int)
    | DoRejeter(validateurId: int, commentaires: Option<string>, now: int)

  function Step(r: ValidationRow, op: Op, ws: seq<Workflow>): Option<ValidationRow>
  {
    match op
    case DoSoumettre(_, now) => AfterSoumettre(r, now, ws)
    case DoValider(v, c, sig, now) => AfterValider(r, v, c, sig, now)
    case DoRejeter(v, c, now) => AfterRejeter(r, v, c, now)
  }

  function StepEntry(r: ValidationRow, op: Op): Historique
  {
    match op
    case DoSoumettre(u, now) => SoumissionEntry(r, u, now)
    case DoValider(v, c, _, now) => ValidationEntry(r, v, c, now)
    case DoRejeter(v, c, now) => RejetEntry(r, v, c, now)
  }

  /** A sequence of actions: refused ones change nothing; accepted ones log one history entry each. */
  function Run(r: ValidationRow, ops: seq<Op>, ws: seq<Workflow>): (ValidationRow, seq<Historique>)
    decreases |ops|
  {
    if ops == [] then (r, [])
    else
      var next := Step(r, ops[0], ws);
      var rest := Run(if next.Some? then next.value else r, ops[1..], ws);
      if next.Some? then (rest.0, [StepEntry(r, ops[0])] + rest.1) else rest
  }

  /** VALIDE, REJETE and EXPIRE are dead ends: no action sequence changes the record or logs anything. */
  lemma {:induction false} FinalIsAbsorbing(r: ValidationRow, ops: seq<Op>, ws: seq<Workflow>)
    requires Final(r.statut)
    ensures Run(r, ops, ws) == (r, [])
    decreases |ops|
  {
    if ops != [] {
      assert Step(r, ops[0], ws).None?;
      FinalIsAbsorbing(r, ops[1..], ws);
    }
  }

  /** Every history entry a run logs is one per accepted action, so a run never logs more than it acts. */
  lemma {:induction false} RunLogsAtMostOnePerAction(r: ValidationRow, ops: seq<Op>, ws: seq<Workflow>)
    ensures |Run(r, ops, ws).1| <= |ops|
    decreases |ops|
  {
    if ops != [] {
      var next := Step(r, ops[0], ws);
      RunLogsAtMostOnePerAction(if next.Some? then next.value else r, ops[1..], ws);
    }
  }

  /** A run that ends VALIDE logged a validation entry on the way (unless it started VALIDE). */
  lemma {:induction false} ValidatedRunLoggedValidation(r: ValidationRow, ops: seq<Op>, ws: seq<Workflow>)
    requires r.statut != Some(Valide) && Run(r, ops, ws).0.statut == Some(Valide)
    ensures exists k :: 0 <= k < |Run(r, ops, ws).1| && Run(r, ops, ws).1[k].action == Validation
    decreases |ops|
  {
    if ops == [] {
      assert false;
    } else {
      var next := Step(r, ops[0], ws);
      var r' := if next.Some? then next.value else r;
      if next.Some? && ops[0].DoValider? {
        assert Run(r, ops, ws).1[0].action == Validation;
      } else {
        assert r'.statut != Some(Valide) by {
          if next.Some? {
            TransitionTargets(r, ops[0].now, ws, 0, None, None);
            match ops[0]
            case DoSoumettre(_, now) =>
            case DoRejeter(v, c, now) => TransitionTargets(r, now, ws, v, c, None);
          }
        }
        ValidatedRunLoggedValidation(r', ops[1..], ws);
        var k :| 0 <= k < |Run(r', ops[1..], ws).1| && Run(r', ops[1..], ws).1[k].action == Validation;
        if next.Some? {
          assert Run(r, ops, ws).1[k + 1] == Run(r', ops[1..], ws).1[k];
        } else {
          assert Run(r, ops, ws).1 == Run(r', ops[1..], ws).1;
        }
      }
    }
  }

  // ---------------------------------------------------------------------------------------
  // Expiry and remaining time.

  lemma {:induction false} DayDivision(d: int, j: int, rest: int)
    requires 0 <= rest < Day && d == j * Day + rest
    ensures d / Day == j && d % Day == rest
  {
  }

  lemma {:induction false} HourDivision(d: int, h: int, rest: int)
    requires 0 <= rest < Hour && d == h * Hour + rest
    ensures d / Hour == h
  {
  }

  /**
   * The remaining-time text names the whole days `j` and the whole hours `h` (fewer than 24)
   * left before expiration, and shows days only when at least one remains.
   */
  lemma {:induction false} RemainingTextParts(exp: int, now: int, j: nat, h: nat)
    requires exp - now > 0 && h < 24
    requires j * Day + h * Hour <= exp - now < j * Day + (h + 1) * Hour
    ensures RemainingText(Some(exp), now) ==
            Some(if j > 0 then NatToString(j) + "j " + NatToString(h) + "h" else NatToString(h) + "h")
  {
    var d := exp - now;
    var rest := d - j * Day;
    DayDivision(d, j, rest);
    HourDivision(rest, h, rest - h * Hour);
    RemainingTextAt(exp, now, j, h);
  }

  lemma {:induction false} RemainingTextAt(exp: int, now: int, j: int, h: int)
    requires exp - now > 0 && (exp - now) / Day == j && ((exp - now) % Day) / Hour == h
    ensures RemainingText(Some(exp), now) ==
            Some(if j > 0 then NatToString(j) + "j " + NatToString(h) + "h" else NatToString(h) + "h")
  {
    var delta := exp - now;
    var jours := delta / Day;
    var heures := (delta % Day) / Hour;
    assert jours == j && heures == h;
  }

  /** `temps_restant` says "Expiré" exactly when the deadline is reached: an expired record always does. */
  lemma {:induction false} RemainingTextExpired(exp: Option<int>, now: int)
    ensures Expired(exp, now) ==> RemainingText(exp, now) == Some("Expiré")
    ensures RemainingText(exp, now) == Some("Expiré") <==> exp.Some? && now >= exp.value
    ensures RemainingText(exp, now).None? <==> exp.None?
  {
    if exp.Some? && exp.value - now > 0 {
      RemainingTextPending(exp.value, now);
    }
  }

  /** Before the deadline the text is a count of days and hours, which never reads "Expiré". */
  lemma {:induction false} RemainingTextPending(exp: int, now: int)
    requires exp - now > 0
    ensures RemainingText(Some(exp), now).Some? && RemainingText(Some(exp), now) != Some("Expiré")
  {
    var delta := exp - now;
    var jours := delta / Day;
    var heures := (delta % Day) / Hour;
    RemainingTextAt(exp, now, jours, heures);
    NatToStringShape(heures);
    var t := if jours > 0 then NatToString(jours) + "j " + NatToString(heures) + "h" else NatToString(heures) + "h";
    if jours > 0 {
      NatToStringShape(jours);
      assert t[0] == NatToString(jours)[0];
    } else {
      assert t[0] == NatToString(heures)[0];
    }
    assert "Expiré"[0] == 'E';
  }
}
