// The workflow service: submitting a report, the validator's decision, the pending and
// expired queues, reminders, statistics and the default workflow of every report type.
module WorkflowServices {
  import opened Wrappers
  import opened Text
  import opened WorkflowModel

  // ---------------------------------------------------------------------------------------
  // Queries on the validations table.

  /** `ValidationRapport.query.get(id)`: the row with that primary key, scanning from `from`. */
  function FindIdFrom(vs: seq<ValidationRapport>, id: nat, from: nat): (r: Option<ValidationRapport>)
    requires from <= |vs|
    reads vs
    ensures r.Some? ==> r.value in vs && r.value.row.id == Some(id)
    ensures r.None? ==> forall k :: from <= k < |vs| ==> vs[k].row.id != Some(id)
    decreases |vs| - from
  {
    if from == |vs| then None
    else if vs[from].row.id == Some(id) then Some(vs[from])
    else FindIdFrom(vs, id, from + 1)
  }

  function FindById(vs: seq<ValidationRapport>, id: nat): Option<ValidationRapport>
    reads vs
  {
    FindIdFrom(vs, id, 0)
  }

  /** `ValidationRapport.query.filter_by(rapport_id=...).first()`. */
  function ForRapportFrom(vs: seq<ValidationRapport>, rapportId: int, from: nat): (r: Option<ValidationRapport>)
    requires from <= |vs|
    reads vs
    ensures r.Some? ==> r.value in vs && r.value.row.rapportId == rapportId
    ensures r.None? ==> forall k :: from <= k < |vs| ==> vs[k].row.rapportId != rapportId
    decreases |vs| - from
  {
    if from == |vs| then None
    else if vs[from].row.rapportId == rapportId then Some(vs[from])
    else ForRapportFrom(vs, rapportId, from + 1)
  }

  function ForRapport(vs: seq<ValidationRapport>, rapportId: int): Option<ValidationRapport>
    reads vs
  {
    ForRapportFrom(vs, rapportId, 0)
  }

  /** `if validateur_id:` — only a given, non-zero validator id filters. */
  predicate MatchesValidateur(r: ValidationRow, validateurId: Option<int>)
  {
    validateurId.None? || validateurId.value == 0 || r.validateurId == validateurId
  }

  predicate IsPending(r: ValidationRow, validateurId: Option<int>)
  {
    EnAttente(r.statut) && MatchesValidateur(r, validateurId)
  }

  /** The SOUMIS and EN_VALIDATION rows, optionally of one validator, in table order. */
  function Pending(vs: seq<ValidationRapport>, validateurId: Option<int>): (r: seq<ValidationRapport>)
    reads vs
    ensures |r| <= |vs|
    ensures forall k :: 0 <= k < |r| ==> r[k] in vs && IsPending(r[k].row, validateurId)
    ensures forall k :: 0 <= k < |vs| && IsPending(vs[k].row, validateurId) ==> vs[k] in r
    decreases |vs|
  {
    if vs == [] then []
    else
      var p := Pending(vs[..|vs| - 1], validateurId);
      assert forall k :: 0 <= k < |vs| - 1 ==> vs[..|vs| - 1][k] == vs[k];
      if IsPending(vs[|vs| - 1].row, validateurId) then p + [vs[|vs| - 1]] else p
  }

  /** `get_validations_expirees`: pending rows whose expiration is before `now` (NULL never is). */
  predicate IsExpiree(r: ValidationRow, now: int)
  {
    EnAttente(r.statut) && r.dateExpiration.Some? && r.dateExpiration.value < now
  }

  function Expirees(vs: seq<ValidationRapport>, now: int): (r: seq<ValidationRapport>)
    reads vs
    ensures |r| <= |vs|
    ensures forall k :: 0 <= k < |r| ==> r[k] in vs && IsExpiree(r[k].row, now)
    ensures forall k :: 0 <= k < |vs| && IsExpiree(vs[k].row, now) ==> vs[k] in r
    decreases |vs|
  {
    if vs == [] then []
    else
      var p := Expirees(vs[..|vs| - 1], now);
      assert forall k :: 0 <= k < |vs| - 1 ==> vs[..|vs| - 1][k] == vs[k];
      if IsExpiree(vs[|vs| - 1].row, now) then p + [vs[|vs| - 1]] else p
  }

  lemma {:induction false} ExpireesMembership(vs: seq<ValidationRapport>, now: int)
    ensures forall k :: 0 <= k < |vs| ==> (vs[k] in Expirees(vs, now) <==> IsExpiree(vs[k].row, now))
  {
  }

  /** A row as the cleanup leaves it: EXPIRE when it was pending past its expiration, otherwise as it was. */
  function Expiring(r: ValidationRow, now: int): ValidationRow
  {
    if IsExpiree(r, now) then r.(statut := Some(Expire)) else r
  }

  /** A row is expired for the cleanup exactly when it is pending and `est_expire` holds. */
  lemma {:induction false} ExpireeIsEstExpire(v: ValidationRapport, now: int)
    ensures IsExpiree(v.row, now) <==> EnAttente(v.row.statut) && v.EstExpire(now)
  {
  }

  // ---------------------------------------------------------------------------------------
  // Ordering of the pending queue.

  /** `order_by(date_soumission.asc())` alone, or preceded by `priorite.desc()`. */
  datatype Ordre = ParDate | ParPrioriteEtDate

  /** SQLite places NULL before every value in ascending order and after every value in descending order. */
  predicate DateAsc(a: Option<int>, b: Option<int>)
  {
    a.None? || (b.Some? && a.value <= b.value)
  }

  predicate PrioriteDesc(a: Option<int>, b: Option<int>)
  {
    b.None? || (a.Some? && a.value >= b.value)
  }

  /** `a` may come before `b`. */
  predicate Le(o: Ordre, a: ValidationRow, b: ValidationRow)
  {
    match o
    case ParDate => DateAsc(a.dateSoumission, b.dateSoumission)
    case ParPrioriteEtDate =>
      PrioriteDesc(a.priorite, b.priorite) &&
      (PrioriteDesc(b.priorite, a.priorite) ==> DateAsc(a.dateSoumission, b.dateSoumission))
  }

  lemma {:induction false} LeTotal(o: Ordre, a: ValidationRow, b: ValidationRow)
    ensures Le(o, a, b) || Le(o, b, a)
  {
  }

  lemma {:induction false} LeTransitive(o: Ordre, a: ValidationRow, b: ValidationRow, c: ValidationRow)
    requires Le(o, a, b) && Le(o, b, c)
    ensures Le(o, a, c)
  {
  }

  predicate Sorted(o: Ordre, s: seq<ValidationRapport>)
    reads s
  {
    forall i, j :: 0 <= i < j < |s| ==> Le(o, s[i].row, s[j].row)
  }

  function Insert(o: Ordre, x: ValidationRapport, s: seq<ValidationRapport>): (r: seq<ValidationRapport>)
    reads x, s
    ensures forall k :: 0 <= k < |r| ==> r[k] == x || r[k] in s
    decreases |s|
  {
    if s == [] then [x]
    else if Le(o, x.row, s[0].row) then [x] + s
    else [s[0]] + Insert(o, x, s[1..])
  }

  function SortBy(o: Ordre, s: seq<ValidationRapport>): (r: seq<ValidationRapport>)
    reads s
    ensures forall k :: 0 <= k < |r| ==> r[k] in s
    decreases |s|
  {
    if s == [] then [] else Insert(o, s[0], SortBy(o, s[1..]))
  }

  lemma {:induction false} InsertPermutes(o: Ordre, x: ValidationRapport, s: seq<ValidationRapport>)
    ensures multiset(Insert(o, x, s)) == multiset(s) + multiset{x}
    decreases |s|
  {
    if s != [] && !Le(o, x.row, s[0].row) {
      InsertPermutes(o, x, s[1..]);
      assert s == [s[0]] + s[1..];
    }
  }

  lemma {:induction false} InsertSorted(o: Ordre, x: ValidationRapport, s: seq<ValidationRapport>)
    requires Sorted(o, s)
    ensures Sorted(o, Insert(o, x, s))
    decreases |s|
  {
    if s == [] {
    } else if Le(o, x.row, s[0].row) {
      PrependSorted(o, x, s);
    } else {
      LeTotal(o, x.row, s[0].row);
      InsertSorted(o, x, s[1..]);
      InsertPermutes(o, x, s[1..]);
      ConsSorted(o, s[0], Insert(o, x, s[1..]), s[1..], x);
    }
  }

  /** An element no greater than the head of a sorted sequence may go in front of it. */
  lemma {:induction false} PrependSorted(o: Ordre, x: ValidationRapport, s: seq<ValidationRapport>)
    requires s != [] && Sorted(o, s) && Le(o, x.row, s[0].row)
    ensures Sorted(o, [x] + s)
  {
    var t := [x] + s;
    forall i, j | 0 <= i < j < |t|
      ensures Le(o, t[i].row, t[j].row)
    {
      if i == 0 && j > 1 {
        LeTransitive(o, x.row, s[0].row, s[j - 1].row);
      }
    }
  }

  /** A head no greater than every element of a sorted permutation of `rest + [x]` keeps it sorted. */
  lemma {:induction false} ConsSorted(o: Ordre, h: ValidationRapport, tail: seq<ValidationRapport>, rest: seq<ValidationRapport>,
                   x: ValidationRapport)
    requires Sorted(o, tail) && multiset(tail) == multiset(rest) + multiset{x}
    requires Le(o, h.row, x.row) && forall k :: 0 <= k < |rest| ==> Le(o, h.row, rest[k].row)
    ensures Sorted(o, [h] + tail)
  {
    var t := [h] + tail;
    forall i, j | 0 <= i < j < |t|
      ensures Le(o, t[i].row, t[j].row)
    {
      if i == 0 {
        assert t[j] in multiset(rest) + multiset{x} by {
          assert t[j] == tail[j - 1];
          assert tail[j - 1] in multiset(tail);
        }
        if t[j] != x {
          var m :| 0 <= m < |rest| && rest[m] == t[j];
        }
      }
    }
  }

  lemma {:induction false} SortByCorrect(o: Ordre, s: seq<ValidationRapport>)
    ensures Sorted(o, SortBy(o, s))
    ensures multiset(SortBy(o, s)) == multiset(s)
    decreases |s|
  {
    if s != [] {
      SortByCorrect(o, s[1..]);
      InsertSorted(o, s[0], SortBy(o, s[1..]));
      InsertPermutes(o, s[0], SortBy(o, s[1..]));
      assert s == [s[0]] + s[1..];
    }
  }

  /** `WorkflowService.get_validations_en_attente`: by priority (highest first), then submission date. */
  function GetValidationsEnAttente(vs: seq<ValidationRapport>, validateurId: Option<int>): seq<ValidationRapport>
    reads vs
  {
    SortBy(ParPrioriteEtDate, Pending(vs, validateurId))
  }

  /** `ValidationRapport.get_validations_en_attente`: by submission date only. */
  function GetValidationsEnAttenteParDate(vs: seq<ValidationRapport>, validateurId: Option<int>): seq<ValidationRapport>
    reads vs
  {
    SortBy(ParDate, Pending(vs, validateurId))
  }

  /**
   * Both pending queues hold exactly the pending rows (of the validator, when one is given),
   * each as often as the table does, in their order.
   */
  lemma {:induction false} EnAttenteQueues(vs: seq<ValidationRapport>, validateurId: Option<int>)
    ensures Sorted(ParPrioriteEtDate, GetValidationsEnAttente(vs, validateurId))
    ensures Sorted(ParDate, GetValidationsEnAttenteParDate(vs, validateurId))
    ensures multiset(GetValidationsEnAttente(vs, validateurId)) == multiset(Pending(vs, validateurId))
    ensures multiset(GetValidationsEnAttenteParDate(vs, validateurId)) == multiset(Pending(vs, validateurId))
    ensures forall v :: v in GetValidationsEnAttente(vs, validateurId) <==> v in vs && IsPending(v.row, validateurId)
  {
    SortByCorrect(ParPrioriteEtDate, Pending(vs, validateurId));
    SortByCorrect(ParDate, Pending(vs, validateurId));
    forall v
      ensures v in GetValidationsEnAttente(vs, validateurId) <==> v in Pending(vs, validateurId)
    {
      assert v in GetValidationsEnAttente(vs, validateurId) <==> v in multiset(GetValidationsEnAttente(vs, validateurId));
      assert v in Pending(vs, validateurId) <==> v in multiset(Pending(vs, validateurId));
    }
  }

  // ---------------------------------------------------------------------------------------
  // Submission and decision.

  function CommentEntry(rapportId: int, validationId: Option<nat>, utilisateurId: int, commentaires: string,
                        now: int): Historique
  {
    Historique(rapportId, validationId, utilisateurId, Modification, Some("Commentaires: " + commentaires), now)
  }

  /** The columns of a fresh `ValidationRapport(rapport_id=..., type_rapport=..., workflow_id=..., etape=...)`. */
  function NewRow(rapportId: int, typeRapport: TypeRapport, workflowId: int, statut: Option<StatutWorkflow>): ValidationRow
  {
    ValidationRow(None, rapportId, typeRapport, workflowId, None, "validation_initiale", statut,
                  None, None, None, None, None, None, None)
  }

  /** The existing validation of a report, as the set of objects a submission may change. */
  function ExistingFor(vs: seq<ValidationRapport>, rapportId: int): set<ValidationRapport>
    reads vs
  {
    var e := ForRapport(vs, rapportId);
    if e.Some? then {e.value} else {}
  }

  /**
   * `soumettre_rapport` with the initial status a new validation object carries; `validateur`
   * is the id of the user `assigner_validateur` picked, if any. A report type without workflow,
   * or an existing validation past BROUILLON, is refused; otherwise the existing validation or a
   * new one gets the priority and validator, is submitted and saved, and the comment is logged.
   */
  method Submit(tables: Tables, rapportId: int, typeRapport: TypeRapport, utilisateurId: int,
                commentaires: Option<string>, priorite: int, validateur: Option<int>, now: int,
                statutInitial: Option<StatutWorkflow>) returns (v: Option<ValidationRapport>)
    modifies tables`validations, tables`nextValidationId, tables`historique, ExistingFor(tables.validations, rapportId)
    ensures v.Some? <==>
              old(WorkflowFor(tables.workflows, typeRapport)).Some? &&
              (old(ForRapport(tables.validations, rapportId)).None? ==> statutInitial == Some(Brouillon)) &&
              (old(ForRapport(tables.validations, rapportId)).Some? ==>
                 old(ForRapport(tables.validations, rapportId).value.row.statut) == Some(Brouillon))
    ensures v.None? ==>
              && tables.historique == old(tables.historique)
              && tables.validations == old(tables.validations)
              && tables.nextValidationId == old(tables.nextValidationId)
              && (old(ForRapport(tables.validations, rapportId)).Some? ==>
                    old(ForRapport(tables.validations, rapportId)).value.row ==
                    old(ForRapport(tables.validations, rapportId).value.row))
    ensures v.Some? && old(ForRapport(tables.validations, rapportId)).Some? ==>
              var e := old(ForRapport(tables.validations, rapportId)).value;
              var r0 := Prepared(old(e.row), priorite, validateur);
              && v.value == e
              && e.row == Inserted(AfterSoumettre(r0, now, tables.workflows).value, old(tables.nextValidationId))
              && tables.historique == old(tables.historique) + SubmissionLog(r0, utilisateurId, commentaires, e.row.id, now)
              && tables.validations == old(tables.validations) + (if old(e.row.id).Some? then [] else [e])
    ensures v.Some? && old(ForRapport(tables.validations, rapportId)).None? ==>
              var r0 := Prepared(NewRow(rapportId, typeRapport, old(WorkflowFor(tables.workflows, typeRapport)).value.id,
                                        statutInitial), priorite, validateur);
              && fresh(v.value)
              && v.value.row == Inserted(AfterSoumettre(r0, now, tables.workflows).value, old(tables.nextValidationId))
              && tables.historique == old(tables.historique) + SubmissionLog(r0, utilisateurId, commentaires, v.value.row.id, now)
              && tables.validations == old(tables.validations) + [v.value]
  {
    var workflow := WorkflowFor(tables.workflows, typeRapport);
    if workflow.None? {
      return None;
    }
    var existante := ForRapport(tables.validations, rapportId);
    if existante.Some? && existante.value.row.statut != Some(Brouillon) {
      return None;
    }
    if existante.Some? {
      var ok := SoumettreAvecCommentaire(existante.value, tables, utilisateurId, commentaires, priorite, validateur, now);
      v := Some(existante.value);
    } else {
      v := SubmitNew(tables, rapportId, typeRapport, workflow.value.id, utilisateurId, commentaires, priorite,
                     validateur, now, statutInitial);
    }
  }

  /** `soumettre_rapport` for a report without validation: a new object, submitted if its status allows. */
  method SubmitNew(tables: Tables, rapportId: int, typeRapport: TypeRapport, workflowId: int, utilisateurId: int,
                   commentaires: Option<string>, priorite: int, validateur: Option<int>, now: int,
                   statutInitial: Option<StatutWorkflow>) returns (v: Option<ValidationRapport>)
    modifies tables`validations, tables`nextValidationId, tables`historique
    ensures v.Some? <==> statutInitial == Some(Brouillon)
    ensures v.None? ==>
              && tables.historique == old(tables.historique)
              && tables.validations == old(tables.validations)
              && tables.nextValidationId == old(tables.nextValidationId)
    ensures v.Some? ==>
              var r0 := Prepared(NewRow(rapportId, typeRapport, workflowId, statutInitial), priorite, validateur);
              && fresh(v.value)
              && v.value.row == Inserted(AfterSoumettre(r0, now, tables.workflows).value, old(tables.nextValidationId))
              && tables.historique == old(tables.historique) + SubmissionLog(r0, utilisateurId, commentaires, v.value.row.id, now)
              && tables.validations == old(tables.validations) + [v.value]
  {
    var validation := new ValidationRapport(rapportId, typeRapport, workflowId, "validation_initiale",
                                            statutInitial, None, None, tables.workflows);
    var ok := SoumettreAvecCommentaire(validation, tables, utilisateurId, commentaires, priorite, validateur, now);
    v := if ok then Some(validation) else None;
  }

  /** The columns `soumettre_rapport` sets before submitting: the priority, and the validator when one was found. */
  function Prepared(r: ValidationRow, priorite: int, validateur: Option<int>): ValidationRow
  {
    r.(priorite := Some(priorite), validateurId := if validateur.Some? then validateur else r.validateurId)
  }

  /** The row a successful submission leaves, column by column. */
  lemma {:induction false} SubmittedRow(r: ValidationRow, priorite: int, validateur: Option<int>, now: int, ws: seq<Workflow>, nextId: nat)
    requires r.statut == Some(Brouillon)
    ensures var s := Inserted(AfterSoumettre(Prepared(r, priorite, validateur), now, ws).value, nextId);
            && s.id.Some? && (r.id.Some? ==> s.id == r.id)
            && s.rapportId == r.rapportId && s.typeRapport == r.typeRapport
            && s.statut == Some(Soumis) && s.priorite == Some(priorite) && s.dateSoumission == Some(now)
            && (WorkflowFor(ws, r.typeRapport).Some? ==>
                  s.dateExpiration == Some(now + WorkflowFor(ws, r.typeRapport).value.delaiValidation * Hour))
            && s.validateurId == (if validateur.Some? then validateur else r.validateurId)
  {
  }

  /** The history a successful submission appends: the SOUMISSION entry, then the comment if one is given. */
  function SubmissionLog(r: ValidationRow, utilisateurId: int, commentaires: Option<string>, id: Option<nat>,
                         now: int): seq<Historique>
  {
    [SoumissionEntry(r, utilisateurId, now)] +
    (if commentaires.Some? && commentaires.value != ""
     then [CommentEntry(r.rapportId, id, utilisateurId, commentaires.value, now)] else [])
  }

  /** The end of `soumettre_rapport`: the priority and validator are set, `soumettre`, then the comment entry. */
  method SoumettreAvecCommentaire(validation: ValidationRapport, tables: Tables, utilisateurId: int,
                                  commentaires: Option<string>, priorite: int, validateur: Option<int>, now: int)
    returns (ok: bool)
    modifies validation, tables`validations, tables`nextValidationId, tables`historique
    ensures ok == (old(validation.row.statut) == Some(Brouillon))
    ensures ok ==> validation.row ==
                   Inserted(AfterSoumettre(Prepared(old(validation.row), priorite, validateur), now, tables.workflows).value,
                            old(tables.nextValidationId))
    ensures ok ==> tables.historique ==
                   old(tables.historique) +
                   SubmissionLog(Prepared(old(validation.row), priorite, validateur), utilisateurId, commentaires,
                                 validation.row.id, now)
    ensures ok && old(validation.row.id).None? ==> tables.validations == old(tables.validations) + [validation]
    ensures !ok || old(validation.row.id).Some? ==> tables.validations == old(tables.validations)
    ensures !ok ==> tables.historique == old(tables.historique) &&
                    tables.nextValidationId == old(tables.nextValidationId) &&
                    validation.row == Prepared(old(validation.row), priorite, validateur)
  {
    validation.row := Prepared(validation.row, priorite, validateur);
    ok := validation.Soumettre(utilisateurId, now, tables);
    if ok && commentaires.Some? && commentaires.value != "" {
      tables.AjouterAction(CommentEntry(validation.row.rapportId, validation.row.id, utilisateurId, commentaires.value, now));
    }
  }

  /**
   * `soumettre_rapport` as written: a new `ValidationRapport(...)` has no status until it is
   * inserted (the column default applies at INSERT), so `soumettre` refuses it and a report
   * that was never submitted before can never be submitted.
   */
  method SoumettreRapportAsWritten(tables: Tables, rapportId: int, typeRapport: TypeRapport, utilisateurId: int,
                                   commentaires: Option<string>, priorite: int, validateur: Option<int>, now: int)
    returns (v: Option<ValidationRapport>)
    modifies tables`validations, tables`nextValidationId, tables`historique, ExistingFor(tables.validations, rapportId)
    ensures old(ForRapport(tables.validations, rapportId)).None? ==>
              v.None? && tables.historique == old(tables.historique) && tables.validations == old(tables.validations)
  {
    v := Submit(tables, rapportId, typeRapport, utilisateurId, commentaires, priorite, validateur, now, None);
  }

  /**
   * `soumettre_rapport` with the evidently intended BROUILLON start: a report with a workflow
   * and no validation yet, or only a BROUILLON one, is submitted, and the validation is in the
   * table, SOUMIS at `now` with the given priority, validator and the workflow's deadline.
   */
  method SoumettreRapport(tables: Tables, rapportId: int, typeRapport: TypeRapport, utilisateurId: int,
                          commentaires: Option<string>, priorite: int, validateur: Option<int>, now: int)
    returns (v: Option<ValidationRapport>)
    modifies tables`validations, tables`nextValidationId, tables`historique, ExistingFor(tables.validations, rapportId)
    ensures v.Some? <==>
              old(WorkflowFor(tables.workflows, typeRapport)).Some? &&
              (old(ForRapport(tables.validations, rapportId)).None? ||
               old(ForRapport(tables.validations, rapportId).value.row.statut) == Some(Brouillon))
    ensures v.Some? ==>
              && v.value in tables.validations && v.value.row.id.Some?
              && v.value.row.rapportId == rapportId && v.value.row.statut == Some(Soumis)
              && v.value.row.priorite == Some(priorite) && v.value.row.dateSoumission == Some(now)
              && (WorkflowFor(tables.workflows, v.value.row.typeRapport).Some? ==>
                    v.value.row.dateExpiration ==
                    Some(now + WorkflowFor(tables.workflows, v.value.row.typeRapport).value.delaiValidation * Hour))
              && (validateur.Some? ==> v.value.row.validateurId == validateur)
    ensures v.Some? && old(ForRapport(tables.validations, rapportId)).None? ==> v.value.row.typeRapport == typeRapport
    ensures v.None? ==> tables.historique == old(tables.historique) && tables.validations == old(tables.validations)
  {
    ghost var existante := ForRapport(tables.validations, rapportId);
    ghost var r := if existante.Some? then existante.value.row
                   else NewRow(rapportId, typeRapport,
                               if WorkflowFor(tables.workflows, typeRapport).Some?
                               then WorkflowFor(tables.workflows, typeRapport).value.id else 0,
                               Some(Brouillon));
    v := Submit(tables, rapportId, typeRapport, utilisateurId, commentaires, priorite, validateur, now,
                Some(Brouillon));
    if v.Some? {
      SubmittedRow(r, priorite, validateur, now, tables.workflows, old(tables.nextValidationId));
    }
  }

  function ModificationEntry(r: ValidationRow, validateurId: int, commentaires: Option<string>, now: int): Historique
  {
    Historique(r.rapportId, r.id, validateurId, Modification, Some("Modifications demandées: " + PyStr(commentaires)), now)
  }

  /** `valider_rapport`: dispatch of 'valider', 'rejeter' and 'demander_modification' on a validation. */
  method ValiderRapport(tables: Tables, validationId: nat, validateurId: int, action: string,
                        commentaires: Option<string>, signature: Option<string>, now: int) returns (ok: bool)
    modifies tables`historique, tables`validations, tables`nextValidationId, tables.validations
    ensures old(FindById(tables.validations, validationId)).None? ==>
              !ok && tables.historique == old(tables.historique) &&
              forall w :: w in old(tables.validations) ==> w.row == old(w.row)
    ensures old(FindById(tables.validations, validationId)).Some? ==>
              var v := old(FindById(tables.validations, validationId)).value;
              && tables.validations == old(tables.validations)
              && (forall w :: w in old(tables.validations) && w != v ==> w.row == old(w.row))
              && ok == (((action == "valider" || action == "rejeter") && EnAttente(old(v.row.statut))) ||
                        action == "demander_modification")
              && (action == "valider" && ok ==>
                    v.row == AfterValider(old(v.row), validateurId, commentaires, signature, now).value &&
                    tables.historique ==
                      old(tables.historique) + [ValidationEntry(old(v.row), validateurId, commentaires, now)])
              && (action == "rejeter" && ok ==>
                    v.row == AfterRejeter(old(v.row), validateurId, commentaires, now).value &&
                    tables.historique ==
                      old(tables.historique) + [RejetEntry(old(v.row), validateurId, commentaires, now)])
              && (action == "demander_modification" ==>
                    v.row == old(v.row).(statut := Some(Brouillon)) &&
                    tables.historique ==
                      old(tables.historique) + [ModificationEntry(old(v.row), validateurId, commentaires, now)])
              && (!ok ==> v.row == old(v.row) && tables.historique == old(tables.historique))
  {
    var found := FindById(tables.validations, validationId);
    if found.None? {
      return false;
    }
    var v := found.value;
    if action == "valider" {
      ok := v.Valider(validateurId, commentaires, signature, now, tables);
    } else if action == "rejeter" {
      ok := v.Rejeter(validateurId, commentaires, now, tables);
    } else if action == "demander_modification" {
      v.row := v.row.(statut := Some(Brouillon));
      tables.AjouterAction(ModificationEntry(v.row, validateurId, commentaires, now));
      ok := true;
    } else {
      ok := false;
    }
  }

  // ---------------------------------------------------------------------------------------
  // Reminders and cleanup.

  function RelanceEntry(r: ValidationRow, utilisateurId: int, n: int, now: int): Historique
  {
    Historique(r.rapportId, r.id, utilisateurId, Relance, Some("Relance #" + IntToString(n) + " envoyée"), now)
  }

  /**
   * `envoyer_relance`: one more reminder on the validation and a RELANCE entry. A missing
   * validation, or a counter still NULL (the `+= 1` raises and is rolled back), gives False.
   */
  method EnvoyerRelance(tables: Tables, validationId: nat, utilisateurId: int, now: int) returns (ok: bool)
    modifies tables`historique, tables.validations
    ensures ok <==> old(FindById(tables.validations, validationId)).Some? &&
                    old(FindById(tables.validations, validationId).value.row.rappelsEnvoyes).Some?
    ensures !ok ==> tables.historique == old(tables.historique) &&
                    forall w :: w in tables.validations ==> w.row == old(w.row)
    ensures ok ==>
              var v := old(FindById(tables.validations, validationId)).value;
              var n := old(v.row.rappelsEnvoyes).value + 1;
              && v.row == old(v.row).(rappelsEnvoyes := Some(n))
              && (forall w :: w in tables.validations && w != v ==> w.row == old(w.row))
              && tables.historique == old(tables.historique) + [RelanceEntry(old(v.row), utilisateurId, n, now)]
  {
    var found := FindById(tables.validations, validationId);
    if found.None? || found.value.row.rappelsEnvoyes.None? {
      return false;
    }
    var v := found.value;
    var n := v.row.rappelsEnvoyes.value + 1;
    v.row := v.row.(rappelsEnvoyes := Some(n));
    tables.AjouterAction(RelanceEntry(v.row, utilisateurId, n, now));
    ok := true;
  }

  function RowsOf(vs: seq<ValidationRapport>): (r: seq<ValidationRow>)
    reads vs
    ensures |r| == |vs| && forall k :: 0 <= k < |vs| ==> r[k] == vs[k].row
    decreases |vs|
  {
    if vs == [] then [] else RowsOf(vs[..|vs| - 1]) + [vs[|vs| - 1].row]
  }

  function ExpirationEntry(rapportId: int, id: Option<nat>, now: int): Historique
  {
    Historique(rapportId, id, 1, Expiration, Some("Validation expirée automatiquement"), now)
  }

  function ExpirationEntries(rows: seq<ValidationRow>, now: int): (h: seq<Historique>)
    ensures |h| == |rows| && forall k :: 0 <= k < |rows| ==> h[k] == ExpirationEntry(rows[k].rapportId, rows[k].id, now)
    decreases |rows|
  {
    if rows == [] then [] else ExpirationEntries(rows[..|rows| - 1], now) + [ExpirationEntry(rows[|rows| - 1].rapportId, rows[|rows| - 1].id, now)]
  }

  lemma {:induction false} SplitAfter<T>(h: seq<T>, h0: seq<T>)
    requires |h0| <= |h| && h[..|h0|] == h0
    ensures h == h0 + h[|h0|..]
  {
  }

  lemma {:induction false} ExpirationEntriesAre(rows: seq<ValidationRow>, now: int, hs: seq<Historique>)
    requires |hs| == |rows|
    requires forall k :: 0 <= k < |rows| ==> hs[k] == ExpirationEntry(rows[k].rapportId, rows[k].id, now)
    ensures hs == ExpirationEntries(rows, now)
  {
  }

  /**
   * `nettoyer_validations_expirees`: every pending validation whose expiration is before `now`
   * becomes EXPIRE (nothing else changes), one EXPIRATION entry by the system user is logged
   * per validation, and their count is returned.
   */
  method NettoyerValidationsExpirees(tables: Tables, now: int) returns (n: nat)
    modifies tables`historique, tables.validations
    ensures n == old(|Expirees(tables.validations, now)|)
    ensures forall k :: 0 <= k < |tables.validations| ==>
              tables.validations[k].row == Expiring(old(tables.validations[k].row), now)
    ensures tables.historique == old(tables.historique) + ExpirationEntries(old(RowsOf(Expirees(tables.validations, now))), now)
  {
    var expirees := Expirees(tables.validations, now);
    ghost var rows := RowsOf(expirees);
    ghost var h0 := tables.historique;
    ExpireesMembership(tables.validations, now);
    assert forall k :: 0 <= k < |tables.validations| ==>
      (tables.validations[k] in expirees <==> IsExpiree(tables.validations[k].row, now));
    MarquerExpirees(expirees, tables, now);
    forall k | 0 <= k < |tables.validations|
      ensures tables.validations[k].row == Expiring(old(tables.validations[k].row), now)
    {
      var v := tables.validations[k];
      ExpiringCases(old(v.row), now);
      if v !in expirees {
        assert v.row == old(v.row);
      }
    }
    ghost var added := tables.historique[|h0|..];
    assert forall k :: 0 <= k < |rows| ==> added[k] == ExpirationEntry(rows[k].rapportId, rows[k].id, now);
    ExpirationEntriesAre(rows, now, added);
    SplitAfter(tables.historique, h0);
    n := |expirees|;
  }

  /** An expired row becomes EXPIRE; any other row is left as it was. */
  lemma {:induction false} ExpiringCases(r: ValidationRow, now: int)
    ensures IsExpiree(r, now) ==> Expiring(r, now) == r.(statut := Some(Expire))
    ensures !IsExpiree(r, now) ==> Expiring(r, now) == r
  {
  }

  /** The loop of the cleanup: each listed validation becomes EXPIRE and the system logs it. */
  method MarquerExpirees(expirees: seq<ValidationRapport>, tables: Tables, now: int)
    modifies tables`historique, expirees
    ensures forall v :: v in expirees ==> v.row == old(v.row).(statut := Some(Expire))
    ensures |tables.historique| == |old(tables.historique)| + |expirees|
    ensures tables.historique[..|old(tables.historique)|] == old(tables.historique)
    ensures forall k :: 0 <= k < |expirees| ==>
              tables.historique[|old(tables.historique)| + k] ==
              ExpirationEntry(old(expirees[k].row.rapportId), old(expirees[k].row.id), now)
  {
    ghost var h0 := tables.historique;
    ghost var done: set<ValidationRapport> := {};
    var i := 0;
    while i < |expirees|
      invariant 0 <= i <= |expirees|
      invariant forall v :: v in done ==> v in expirees
      invariant forall k :: 0 <= k < i ==> expirees[k] in done
      invariant forall v :: v in expirees ==> v.row == if v in done then old(v.row).(statut := Some(Expire)) else old(v.row)
      invariant |tables.historique| == |h0| + i && tables.historique[..|h0|] == h0
      invariant forall k :: 0 <= k < i ==>
                  tables.historique[|h0| + k] == ExpirationEntry(old(expirees[k].row.rapportId), old(expirees[k].row.id), now)
    {
      var v := expirees[i];
      MarquerExpiree(v, tables, now);
      done := done + {v};
      i := i + 1;
    }
  }

  /** One iteration of the cleanup. */
  method MarquerExpiree(v: ValidationRapport, tables: Tables, now: int)
    modifies v, tables`historique
    ensures v.row == old(v.row).(statut := Some(Expire))
    ensures tables.historique == old(tables.historique) + [ExpirationEntry(v.row.rapportId, v.row.id, now)]
  {
    v.row := v.row.(statut := Some(Expire));
    tables.AjouterAction(ExpirationEntry(v.row.rapportId, v.row.id, now));
  }

  // ---------------------------------------------------------------------------------------
  // Statistics.

  /** The figures of `get_statistiques_workflow`; `delaiMoyen` is `None` where the report shows "N/A". */
  datatype Statistiques = Statistiques(total: nat, validees: nat, rejetees: nat, enAttente: nat,
                                       delaiMoyen: Option<real>, tauxValidation: real)

  /** `if workflow_id:` — only a given, non-zero workflow id filters. */
  predicate InWorkflow(r: ValidationRow, workflowId: Option<int>)
  {
    workflowId.None? || workflowId.value == 0 || r.workflowId == workflowId.value
  }

  function OfWorkflow(rows: seq<ValidationRow>, workflowId: Option<int>): seq<ValidationRow>
    decreases |rows|
  {
    if rows == [] then []
    else
      var p := OfWorkflow(rows[..|rows| - 1], workflowId);
      if InWorkflow(rows[|rows| - 1], workflowId) then p + [rows[|rows| - 1]] else p
  }

  function CountStatut(rows: seq<ValidationRow>, s: StatutWorkflow): nat
    decreases |rows|
  {
    if rows == [] then 0
    else CountStatut(rows[..|rows| - 1], s) + (if rows[|rows| - 1].statut == Some(s) then 1 else 0)
  }

  function CountEnAttente(rows: seq<ValidationRow>): nat
    decreases |rows|
  {
    if rows == [] then 0
    else CountEnAttente(rows[..|rows| - 1]) + (if EnAttente(rows[|rows| - 1].statut) then 1 else 0)
  }

  /** `date_validation isnot None`: the rows whose decision has been taken. */
  function Terminees(rows: seq<ValidationRow>): seq<ValidationRow>
    decreases |rows|
  {
    if rows == [] then []
    else
      var p := Terminees(rows[..|rows| - 1]);
      if rows[|rows| - 1].dateValidation.Some? then p + [rows[|rows| - 1]] else p
  }

  predicate HasBothDates(r: ValidationRow)
  {
    r.dateSoumission.Some? && r.dateValidation.Some?
  }

  /** Hours from submission to decision. */
  function DelaiHeures(r: ValidationRow): real
    requires HasBothDates(r)
  {
    (r.dateValidation.value - r.dateSoumission.value) as real / 3600.0
  }

  function SumDelais(rows: seq<ValidationRow>): real
    decreases |rows|
  {
    if rows == [] then 0.0
    else
      var last := rows[|rows| - 1];
      SumDelais(rows[..|rows| - 1]) + (if HasBothDates(last) then DelaiHeures(last) else 0.0)
  }

  function CountDelais(rows: seq<ValidationRow>): nat
    decreases |rows|
  {
    if rows == [] then 0
    else CountDelais(rows[..|rows| - 1]) + (if HasBothDates(rows[|rows| - 1]) then 1 else 0)
  }

  function Moyenne(somme: real, n: nat): real
  {
    if n > 0 then somme / (n as real) else 0.0
  }

  function Taux(validees: nat, total: nat): real
  {
    if total > 0 then (validees as real) / (total as real) * 100.0 else 0.0
  }

  function StatsOf(rows: seq<ValidationRow>): Statistiques
  {
    var moyen := Moyenne(SumDelais(rows), CountDelais(rows));
    Statistiques(|rows|, CountStatut(rows, Valide), CountStatut(rows, Rejete), CountEnAttente(rows),
                 if moyen > 0.0 then Some(moyen) else None,
                 Taux(CountStatut(rows, Valide), |rows|))
  }

  /** Restricting to decided rows first, as the source's loop does, drops no delay. */
  lemma {:induction false} TermineesKeepDelais(rows: seq<ValidationRow>)
    ensures SumDelais(Terminees(rows)) == SumDelais(rows)
    ensures CountDelais(Terminees(rows)) == CountDelais(rows)
    decreases |rows|
  {
    if rows != [] {
      var init := rows[..|rows| - 1];
      var last := rows[|rows| - 1];
      TermineesKeepDelais(init);
      if last.dateValidation.Some? {
        var t := Terminees(init) + [last];
        assert t[..|t| - 1] == Terminees(init);
      }
    }
  }

  /** `get_statistiques_workflow`: the counts, the mean delay over decided rows and the validation rate. */
  method StatistiquesWorkflow(tables: Tables, workflowId: Option<int>) returns (s: Statistiques)
    ensures s == StatsOf(OfWorkflow(RowsOf(tables.validations), workflowId))
  {
    var rows := OfWorkflow(RowsOf(tables.validations), workflowId);
    var terminees := Terminees(rows);
    var somme := 0.0;
    var n := 0;
    var i := 0;
    while i < |terminees|
      invariant 0 <= i <= |terminees|
      invariant somme == SumDelais(terminees[..i]) && n == CountDelais(terminees[..i])
    {
      var v := terminees[i];
      assert terminees[..i + 1][..i] == terminees[..i];
      if v.dateSoumission.Some? && v.dateValidation.Some? {
        somme := somme + DelaiHeures(v);
        n := n + 1;
      }
      i := i + 1;
    }
    assert terminees[..i] == terminees;
    TermineesKeepDelais(rows);
    var moyen := Moyenne(somme, n);
    var validees := CountStatut(rows, Valide);
    s := Statistiques(|rows|, validees, CountStatut(rows, Rejete), CountEnAttente(rows),
                      if moyen > 0.0 then Some(moyen) else None, Taux(validees, |rows|));
  }

  lemma {:induction false} CountsWithinTotal(rows: seq<ValidationRow>)
    ensures CountStatut(rows, Valide) + CountStatut(rows, Rejete) + CountEnAttente(rows) <= |rows|
    decreases |rows|
  {
    if rows != [] {
      CountsWithinTotal(rows[..|rows| - 1]);
    }
  }

  lemma {:induction false} TauxBounds(validees: nat, total: nat)
    requires validees <= total
    ensures 0.0 <= Taux(validees, total) <= 100.0
  {
    if total > 0 {
      assert (validees as real) / (total as real) <= 1.0;
    }
  }

  /**
   * The statuses counted are disjoint, so their counts never exceed the total; the rate is a
   * percentage, and 0 when the table is empty.
   */
  lemma {:induction false} StatsBounds(rows: seq<ValidationRow>)
    ensures StatsOf(rows).validees + StatsOf(rows).rejetees + StatsOf(rows).enAttente <= StatsOf(rows).total
    ensures 0.0 <= StatsOf(rows).tauxValidation <= 100.0
    ensures rows == [] ==> StatsOf(rows).tauxValidation == 0.0 && StatsOf(rows).delaiMoyen.None?
  {
    CountsWithinTotal(rows);
    TauxBounds(CountStatut(rows, Valide), |rows|);
  }

  /** A row missing either date does not enter the mean delay. */
  lemma {:induction false} StatsIgnoreIncomplete(rows: seq<ValidationRow>, r: ValidationRow)
    requires !HasBothDates(r)
    ensures StatsOf(rows + [r]).delaiMoyen == StatsOf(rows).delaiMoyen
  {
    assert (rows + [r])[..|rows + [r]| - 1] == rows;
  }

  /** With no row holding both dates the report shows "N/A". */
  lemma {:induction false} NoDelaiWithoutDates(rows: seq<ValidationRow>)
    requires forall k :: 0 <= k < |rows| ==> !HasBothDates(rows[k])
    ensures StatsOf(rows).delaiMoyen.None?
    decreases |rows|
  {
    if rows != [] {
      NoDelaiWithoutDates(rows[..|rows| - 1]);
    }
  }

  // ---------------------------------------------------------------------------------------
  // Default workflows.

  datatype WorkflowConfig = WorkflowConfig(typeRapport: TypeRapport, nom: string, description: string,
                                           delaiValidation: int, validateursRequis: int)

  /** The eight default configurations, one per report type, with their delays in hours. */
  const DefaultConfigs: seq<WorkflowConfig> := [
    WorkflowConfig(Production, "Validation Production", "Workflow pour les rapports de production électrique", 48, 1),
    WorkflowConfig(Transport, "Validation Transport", "Workflow pour les rapports de transport d'électricité", 72, 1),
    WorkflowConfig(Distribution, "Validation Distribution", "Workflow pour les rapports de distribution électrique", 72, 1),
    WorkflowConfig(Maintenance, "Validation Maintenance", "Workflow pour les rapports de maintenance", 24, 1),
    WorkflowConfig(Incident, "Validation Incident", "Workflow pour les rapports d'incident", 12, 1),
    WorkflowConfig(Financier, "Validation Financier", "Workflow pour les rapports financiers", 120, 2),
    WorkflowConfig(Technique, "Validation Technique", "Workflow pour les rapports techniques", 96, 1),
    WorkflowConfig(Environnemental, "Validation Environnemental", "Workflow pour les rapports environnementaux", 168, 1)
  ]

  function MakeWorkflow(id: nat, c: WorkflowConfig): Workflow
  {
    Workflow(id, c.typeRapport, c.nom, c.description, c.delaiValidation, c.validateursRequis, true)
  }

  /** The table after inserting, in order, each configuration whose type has no workflow yet, and the count inserted. */
  function WithDefaults(ws: seq<Workflow>, cs: seq<WorkflowConfig>, nextId: nat): (seq<Workflow>, nat)
    decreases |cs|
  {
    if cs == [] then (ws, 0)
    else if WorkflowFor(ws, cs[0].typeRapport).None? then
      var r := WithDefaults(ws + [MakeWorkflow(nextId, cs[0])], cs[1..], nextId + 1);
      (r.0, r.1 + 1)
    else WithDefaults(ws, cs[1..], nextId)
  }

  /**
   * `creer_workflow_defaut`: inserts the default workflow of every type that has none and
   * reports how many were created.
   */
  method CreerWorkflowDefaut(tables: Tables) returns (created: nat, message: string)
    modifies tables`workflows, tables`nextWorkflowId
    ensures (tables.workflows, created) == WithDefaults(old(tables.workflows), DefaultConfigs, old(tables.nextWorkflowId))
    ensures message == NatToString(created) + " workflows créés avec succès"
  {
    created := InsererManquants(tables, DefaultConfigs);
    message := NatToString(created) + " workflows créés avec succès";
  }

  /** The loop of `creer_workflow_defaut` over any list of configurations. */
  method InsererManquants(tables: Tables, cs: seq<WorkflowConfig>) returns (created: nat)
    modifies tables`workflows, tables`nextWorkflowId
    ensures (tables.workflows, created) == WithDefaults(old(tables.workflows), cs, old(tables.nextWorkflowId))
  {
    created := 0;
    var i := 0;
    while i < |cs|
      invariant 0 <= i <= |cs|
      invariant var r := WithDefaults(tables.workflows, cs[i..], tables.nextWorkflowId);
                (r.0, created + r.1) == WithDefaults(old(tables.workflows), cs, old(tables.nextWorkflowId))
    {
      assert cs[i..][1..] == cs[i + 1..];
      if WorkflowFor(tables.workflows, cs[i].typeRapport).None? {
        tables.workflows := tables.workflows + [MakeWorkflow(tables.nextWorkflowId, cs[i])];
        tables.nextWorkflowId := tables.nextWorkflowId + 1;
        created := created + 1;
      }
      i := i + 1;
    }
  }

  lemma {:induction false} WorkflowForExtend(ws: seq<Workflow>, extra: seq<Workflow>, t: TypeRapport)
    ensures WorkflowFor(ws, t).Some? ==> WorkflowFor(ws + extra, t) == WorkflowFor(ws, t)
    ensures WorkflowFor(ws + extra, t).None? ==> WorkflowFor(ws, t).None?
    decreases |ws|
  {
    if ws != [] && ws[0].typeRapport != t {
      assert (ws + extra)[1..] == ws[1..] + extra;
      WorkflowForExtend(ws[1..], extra, t);
    }
  }

  /** Existing workflows are kept, first and unchanged; the table only grows by the count. */
  lemma {:induction false} DefaultsKeepExisting(ws: seq<Workflow>, cs: seq<WorkflowConfig>, nextId: nat)
    ensures |WithDefaults(ws, cs, nextId).0| == |ws| + WithDefaults(ws, cs, nextId).1
    ensures WithDefaults(ws, cs, nextId).0[..|ws|] == ws
    ensures forall t :: WorkflowFor(ws, t).Some? ==> WorkflowFor(WithDefaults(ws, cs, nextId).0, t) == WorkflowFor(ws, t)
    decreases |cs|
  {
    if cs != [] {
      if WorkflowFor(ws, cs[0].typeRapport).None? {
        var ws' := ws + [MakeWorkflow(nextId, cs[0])];
        DefaultsKeepExisting(ws', cs[1..], nextId + 1);
        assert WithDefaults(ws, cs, nextId).0[..|ws'|][..|ws|] == ws;
        forall t | WorkflowFor(ws, t).Some?
          ensures WorkflowFor(WithDefaults(ws, cs, nextId).0, t) == WorkflowFor(ws, t)
        {
          WorkflowForExtend(ws, [MakeWorkflow(nextId, cs[0])], t);
        }
      } else {
        DefaultsKeepExisting(ws, cs[1..], nextId);
      }
    }
  }

  /** After the defaults every type listed in the configurations has a workflow. */
  lemma {:induction false} DefaultsCover(ws: seq<Workflow>, cs: seq<WorkflowConfig>, nextId: nat, t: TypeRapport)
    requires WorkflowFor(ws, t).Some? || exists k :: 0 <= k < |cs| && cs[k].typeRapport == t
    ensures WorkflowFor(WithDefaults(ws, cs, nextId).0, t).Some?
    decreases |cs|
  {
    DefaultsKeepExisting(ws, cs, nextId);
    if WorkflowFor(ws, t).None? {
      var k :| 0 <= k < |cs| && cs[k].typeRapport == t;
      if WorkflowFor(ws, cs[0].typeRapport).None? {
        var ws' := ws + [MakeWorkflow(nextId, cs[0])];
        if k == 0 {
          assert ws'[|ws|].typeRapport == t;
        } else {
          assert cs[1..][k - 1].typeRapport == t;
        }
        DefaultsCover(ws', cs[1..], nextId + 1, t);
      } else {
        assert k != 0;
        assert cs[1..][k - 1].typeRapport == t;
        DefaultsCover(ws, cs[1..], nextId, t);
      }
    }
  }

  lemma {:induction false} AllTypesListed(t: TypeRapport)
    ensures exists k :: 0 <= k < |DefaultConfigs| && DefaultConfigs[k].typeRapport == t
  {
    match t
    case Production => assert DefaultConfigs[0].typeRapport == t;
    case Transport => assert DefaultConfigs[1].typeRapport == t;
    case Distribution => assert DefaultConfigs[2].typeRapport == t;
    case Maintenance => assert DefaultConfigs[3].typeRapport == t;
    case Incident => assert DefaultConfigs[4].typeRapport == t;
    case Financier => assert DefaultConfigs[5].typeRapport == t;
    case Technique => assert DefaultConfigs[6].typeRapport == t;
    case Environnemental => assert DefaultConfigs[7].typeRapport == t;
  }

  /** Whatever the table held, afterwards every report type has a workflow. */
  lemma {:induction false} DefaultsCoverEveryType(ws: seq<Workflow>, nextId: nat, t: TypeRapport)
    ensures WorkflowFor(WithDefaults(ws, DefaultConfigs, nextId).0, t).Some?
  {
    AllTypesListed(t);
    DefaultsCover(ws, DefaultConfigs, nextId, t);
  }

  lemma {:induction false} AllPresentNoop(ws: seq<Workflow>, cs: seq<WorkflowConfig>, nextId: nat)
    requires forall k :: 0 <= k < |cs| ==> WorkflowFor(ws, cs[k].typeRapport).Some?
    ensures WithDefaults(ws, cs, nextId) == (ws, 0)
    decreases |cs|
  {
    if cs != [] {
      assert forall k :: 0 <= k < |cs[1..]| ==> cs[1..][k] == cs[k + 1];
      AllPresentNoop(ws, cs[1..], nextId);
    }
  }

  /** Running the defaults a second time creates nothing and changes nothing. */
  lemma {:induction false} DefaultsIdempotent(ws: seq<Workflow>, nextId: nat, nextId': nat)
    ensures var once := WithDefaults(ws, DefaultConfigs, nextId).0;
            WithDefaults(once, DefaultConfigs, nextId') == (once, 0)
  {
    var once := WithDefaults(ws, DefaultConfigs, nextId).0;
    forall k | 0 <= k < |DefaultConfigs|
      ensures WorkflowFor(once, DefaultConfigs[k].typeRapport).Some?
    {
      DefaultsCoverEveryType(ws, nextId, DefaultConfigs[k].typeRapport);
    }
    AllPresentNoop(once, DefaultConfigs, nextId');
  }

  /** The number of configurations whose type has no workflow in `ws`. */
  function CountMissing(ws: seq<Workflow>, cs: seq<WorkflowConfig>): nat
    decreases |cs|
  {
    if cs == [] then 0
    else CountMissing(ws, cs[1..]) + (if WorkflowFor(ws, cs[0].typeRapport).None? then 1 else 0)
  }

  predicate DistinctTypes(cs: seq<WorkflowConfig>)
  {
    forall i, j :: 0 <= i < j < |cs| ==> cs[i].typeRapport != cs[j].typeRapport
  }

  lemma {:induction false} CountMissingAppend(ws: seq<Workflow>, w: Workflow, cs: seq<WorkflowConfig>)
    requires forall k :: 0 <= k < |cs| ==> cs[k].typeRapport != w.typeRapport
    ensures CountMissing(ws + [w], cs) == CountMissing(ws, cs)
    decreases |cs|
  {
    if cs != [] {
      assert forall k :: 0 <= k < |cs[1..]| ==> cs[1..][k] == cs[k + 1];
      CountMissingAppend(ws, w, cs[1..]);
      WorkflowForExtend(ws, [w], cs[0].typeRapport);
      assert WorkflowFor(ws, cs[0].typeRapport).None? ==> WorkflowFor(ws + [w], cs[0].typeRapport).None?;
    }
  }

  /** With one configuration per type, exactly the types lacking a workflow are created. */
  lemma {:induction false} CreatedAreMissing(ws: seq<Workflow>, cs: seq<WorkflowConfig>, nextId: nat)
    requires DistinctTypes(cs)
    ensures WithDefaults(ws, cs, nextId).1 == CountMissing(ws, cs)
    decreases |cs|
  {
    if cs != [] {
      assert DistinctTypes(cs[1..]) by {
        assert forall k :: 0 <= k < |cs[1..]| ==> cs[1..][k] == cs[k + 1];
      }
      if WorkflowFor(ws, cs[0].typeRapport).None? {
        var w := MakeWorkflow(nextId, cs[0]);
        CreatedAreMissing(ws + [w], cs[1..], nextId + 1);
        assert forall k :: 0 <= k < |cs[1..]| ==> cs[1..][k].typeRapport != w.typeRapport by {
          assert forall k :: 0 <= k < |cs[1..]| ==> cs[1..][k] == cs[k + 1];
        }
        CountMissingAppend(ws, w, cs[1..]);
      } else {
        CreatedAreMissing(ws, cs[1..], nextId);
      }
    }
  }

  lemma {:induction false} NoneMissingFromEmpty(cs: seq<WorkflowConfig>)
    ensures CountMissing([], cs) == |cs|
    decreases |cs|
  {
    if cs != [] {
      NoneMissingFromEmpty(cs[1..]);
    }
  }

  /** The position of each type in the default list. */
  function TypeIndex(t: TypeRapport): nat
  {
    match t
    case Production => 0
    case Transport => 1
    case Distribution => 2
    case Maintenance => 3
    case Incident => 4
    case Financier => 5
    case Technique => 6
    case Environnemental => 7
  }

  /** The default list has one configuration per type. */
  lemma {:induction false} DefaultsDistinct()
    ensures DistinctTypes(DefaultConfigs)
  {
    assert forall k :: 0 <= k < |DefaultConfigs| ==> TypeIndex(DefaultConfigs[k].typeRapport) == k;
  }

  /** On an empty table all eight defaults are created. */
  lemma {:induction false} EmptyTableGetsEight(nextId: nat)
    ensures WithDefaults([], DefaultConfigs, nextId).1 == 8
  {
    DefaultsDistinct();
    CreatedAreMissing([], DefaultConfigs, nextId);
    NoneMissingFromEmpty(DefaultConfigs);
  }
}
