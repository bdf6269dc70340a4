// The default notification templates, their installation into the templates table, and the
// variables the notification shortcuts pass to them.
module NotificationTemplates {
  import opened Wrappers
  import opened Text
  import opened NotificationsModel

  /** A text with keyword fields: literal pieces, each but the last followed by one `{name}` field. */
  datatype Pattern = Lit(text: string) | Piece(lit: string, name: string, rest: Pattern)

  /** Brace-free literal pieces and keyword field names. */
  predicate WellFormed(p: Pattern)
  {
    match p
    case Lit(text) => NoBraces(text)
    case Piece(lit, name, rest) => NoBraces(lit) && PlainName(name) && WellFormed(rest)
  }

  /** The template text the pattern stands for. */
  function Build(p: Pattern): string
  {
    match p
    case Lit(text) => text
    case Piece(lit, name, rest) => lit + "{" + name + "}" + Build(rest)
  }

  /** Every field of the pattern has a variable. */
  predicate Covers(p: Pattern, vars: map<string, string>)
  {
    match p
    case Lit(_) => true
    case Piece(_, name, rest) => name in vars && Covers(rest, vars)
  }

  /** The text with every field replaced by its variable. */
  function Fill(p: Pattern, vars: map<string, string>): string
    requires Covers(p, vars)
  {
    match p
    case Lit(text) => text
    case Piece(lit, name, rest) => lit + vars[name] + Fill(rest, vars)
  }

  /** Formatting a text with keyword fields fills each of them, or raises `KeyError` when one is missing. */
  lemma {:induction false} FormatBuild(p: Pattern, vars: map<string, string>)
    requires WellFormed(p)
    ensures Format(Build(p), vars) == if Covers(p, vars) then Ok(Fill(p, vars)) else Err("KeyError")
  {
    match p
    case Lit(text) =>
      FormatLiteral(text, vars);
    case Piece(lit, name, rest) =>
      var tail := Build(rest);
      assert Build(p) == lit + ("{" + name + "}" + tail);
      FormatPlain(lit, "{" + name + "}" + tail, vars);
      FormatField(name, tail, vars);
      FormatBuild(rest, vars);
      if name in vars {
        PrependPrepend(lit, vars[name], Format(tail, vars));
        if Format(tail, vars).Ok? {
          assert lit + vars[name] + Fill(rest, vars) == lit + (vars[name] + Fill(rest, vars));
        }
      }
  }

  // The texts of the default templates.
  const RappelTitre := Piece("Rappel: Rapport ", "type_rapport", Piece(" pour ", "mois", Lit("")))
  const RappelMessage := Piece("Votre rapport ", "type_rapport", Piece(" pour ", "operateur",
    Piece(" du mois de ", "mois", Piece(" doit être soumis avant le ", "date_limite", Lit(".")))))
  const RappelUrl := Piece("/rapports/nouveau?type=", "type_rapport", Lit(""))
  const ValidationTitre := Piece("Rapport validé: ", "type_rapport", Lit(""))
  const ValidationMessage := Piece("Votre rapport ", "type_rapport", Piece(" du ", "periode",
    Piece(" a été validé par ", "validateur", Lit("."))))
  const RapportUrl := Piece("/rapports/", "rapport_id", Lit(""))
  const RejetTitre := Piece("Rapport rejeté: ", "type_rapport", Lit(""))
  const RejetMessage := Piece("Votre rapport ", "type_rapport", Piece(" du ", "periode",
    Piece(" a été rejeté. Motif: ", "motif", Lit(""))))
  const RejetUrl := Piece("/rapports/", "rapport_id", Lit("/modifier"))
  const AlerteTitre := Lit("Alerte: Données anormales détectées")
  const AlerteMessage := Piece(AlerteIntro, "type_donnee",
    Piece(": ", "details", Lit("")))
  /** The opening words of the data alert, kept in two halves for the proofs about its characters. */
  const AlerteIntro := "Des valeurs anormales ont été " + "détectées dans vos données "
  const AlerteUrl := Piece("/rapports/", "rapport_id", Lit("#donnees"))
  const MaintenanceTitre := Piece("Maintenance programmée le ", "date", Lit(""))
  const MaintenanceMessage := Piece("Une maintenance du système est programmée le ", "date",
    Piece(" de ", "heure_debut", Piece(" à ", "heure_fin", Lit(". Certaines fonctionnalités seront indisponibles."))))
  const IncidentTitre := Piece("Incident technique: ", "type_incident", Lit(""))
  const IncidentMessage := Piece("Un incident technique a été détecté: ", "description",
    Lit(". Notre équipe travaille à la résolution."))
  const ReglementationTitre := Piece("Nouvelle réglementation: ", "titre", Lit(""))
  const ReglementationMessage := Piece("Une nouvelle réglementation a été publiée: ", "description",
    Piece(". Date d'entrée en vigueur: ", "date_vigueur", Lit("")))
  const ReglementationUrl := Piece("/reglementations/", "regulation_id", Lit(""))

  /** One entry of the default template list. */
  datatype TemplateSpec = TemplateSpec(
    code: string, nom: string, typ: TypeNotification, titre: string, message: string,
    priorite: int, url: Option<string>)

  const RappelRapportTemplate := TemplateSpec("rappel_rapport_mensuel", "Rappel rapport mensuel", RappelRapport,
    Build(RappelTitre), Build(RappelMessage), 2, Some(Build(RappelUrl)))
  const ValidationRapportTemplate := TemplateSpec("validation_rapport", "Validation de rapport", ValidationRapport,
    Build(ValidationTitre), Build(ValidationMessage), 1, Some(Build(RapportUrl)))
  const RejetRapportTemplate := TemplateSpec("rejet_rapport", "Rejet de rapport", RejetRapport,
    Build(RejetTitre), Build(RejetMessage), 3, Some(Build(RejetUrl)))
  const AlerteDonneesTemplate := TemplateSpec("alerte_donnee_anormale", "Alerte données anormales", AlerteDonnees,
    Build(AlerteTitre), Build(AlerteMessage), 2, Some(Build(AlerteUrl)))
  const MaintenanceTemplate := TemplateSpec("maintenance_planifiee", "Maintenance programmée", MaintenancePlanifiee,
    Build(MaintenanceTitre), Build(MaintenanceMessage), 2, None)
  const IncidentTemplate := TemplateSpec("incident_technique", "Incident technique", IncidentTechnique,
    Build(IncidentTitre), Build(IncidentMessage), 3, None)
  const ReglementationTemplate := TemplateSpec("nouvelle_reglementation", "Nouvelle réglementation", NouvelleReglementation,
    Build(ReglementationTitre), Build(ReglementationMessage), 2, Some(Build(ReglementationUrl)))

  /** The seven default templates, in the order they are installed. */
  const DefaultTemplates: seq<TemplateSpec> := [
    RappelRapportTemplate, ValidationRapportTemplate, RejetRapportTemplate, AlerteDonneesTemplate,
    MaintenanceTemplate, IncidentTemplate, ReglementationTemplate]

  /** The row `TemplateNotification(**spec)` saves: active, with the given id. */
  function RowOf(s: TemplateSpec, id: int): TemplateRow
  {
    TemplateRow(id, s.code, s.nom, s.titre, s.message, s.typ, Some(s.priorite), s.url, true)
  }

  /** Some row of the table, active or not, has this code. */
  predicate HasCode(ts: seq<TemplateRow>, code: string)
  {
    exists k :: 0 <= k < |ts| && ts[k].code == code
  }

  /** One iteration of `creer_templates_defaut`: a template is saved only when its code is new. */
  function InstallStep(ts: seq<TemplateRow>, nextId: int, s: TemplateSpec): (seq<TemplateRow>, int)
  {
    if HasCode(ts, s.code) then (ts, nextId) else (ts + [RowOf(s, nextId)], nextId + 1)
  }

  /** The table and the next id after the loop has handled `specs` in order. */
  function Installed(ts: seq<TemplateRow>, nextId: int, specs: seq<TemplateSpec>): (seq<TemplateRow>, int)
    decreases |specs|
  {
    if specs == [] then (ts, nextId)
    else
      var before := Installed(ts, nextId, specs[..|specs| - 1]);
      InstallStep(before.0, before.1, specs[|specs| - 1])
  }

  /**
   * Installing keeps every existing row as it is, adds only rows for the listed codes, and leaves
   * each listed code present afterwards.
   */
  lemma {:induction false} InstalledProperties(ts: seq<TemplateRow>, nextId: int, specs: seq<TemplateSpec>)
    ensures var r := Installed(ts, nextId, specs).0;
      |ts| <= |r| && r[..|ts|] == ts
    ensures var r := Installed(ts, nextId, specs).0;
      forall k :: |ts| <= k < |r| ==> exists j :: 0 <= j < |specs| && r[k] == RowOf(specs[j], r[k].id)
    ensures forall j :: 0 <= j < |specs| ==> HasCode(Installed(ts, nextId, specs).0, specs[j].code)
  {
    InstalledKeeps(ts, nextId, specs);
    InstalledListed(ts, nextId, specs);
    InstalledCodes(ts, nextId, specs);
  }

  /** Installing only appends. */
  lemma {:induction false} InstalledKeeps(ts: seq<TemplateRow>, nextId: int, specs: seq<TemplateSpec>)
    ensures var r := Installed(ts, nextId, specs).0;
      |ts| <= |r| && r[..|ts|] == ts
    decreases |specs|
  {
    if specs != [] {
      var init := specs[..|specs| - 1];
      InstalledKeeps(ts, nextId, init);
      var before := Installed(ts, nextId, init);
      var r := Installed(ts, nextId, specs).0;
      assert r == before.0 || r == before.0 + [RowOf(specs[|specs| - 1], before.1)];
      assert r[..|before.0|] == before.0;
      assert r[..|ts|] == before.0[..|ts|];
    }
  }

  /** Every appended row is the row of a listed template. */
  lemma {:induction false} InstalledListed(ts: seq<TemplateRow>, nextId: int, specs: seq<TemplateSpec>)
    ensures var r := Installed(ts, nextId, specs).0;
      forall k :: |ts| <= k < |r| ==> exists j :: 0 <= j < |specs| && r[k] == RowOf(specs[j], r[k].id)
    decreases |specs|
  {
    if specs != [] {
      var init := specs[..|specs| - 1];
      InstalledListed(ts, nextId, init);
      InstalledKeeps(ts, nextId, init);
      var before := Installed(ts, nextId, init);
      var r := Installed(ts, nextId, specs).0;
      var last := specs[|specs| - 1];
      assert r == before.0 || r == before.0 + [RowOf(last, before.1)];
      forall k | |ts| <= k < |r|
        ensures exists j :: 0 <= j < |specs| && r[k] == RowOf(specs[j], r[k].id)
      {
        if k < |before.0| {
          assert exists j :: 0 <= j < |init| && before.0[k] == RowOf(init[j], before.0[k].id);
          var j :| 0 <= j < |init| && before.0[k] == RowOf(init[j], before.0[k].id);
          assert r[k] == before.0[k];
          assert specs[j] == init[j];
        } else {
          assert r[k] == RowOf(last, r[k].id);
        }
      }
    }
  }

  /** Every listed code is present afterwards. */
  lemma {:induction false} InstalledCodes(ts: seq<TemplateRow>, nextId: int, specs: seq<TemplateSpec>)
    ensures forall j :: 0 <= j < |specs| ==> HasCode(Installed(ts, nextId, specs).0, specs[j].code)
    decreases |specs|
  {
    if specs != [] {
      var init := specs[..|specs| - 1];
      InstalledCodes(ts, nextId, init);
      var before := Installed(ts, nextId, init);
      var r := Installed(ts, nextId, specs).0;
      var last := specs[|specs| - 1];
      assert r == before.0 || r == before.0 + [RowOf(last, before.1)];
      forall j | 0 <= j < |specs|
        ensures HasCode(r, specs[j].code)
      {
        if j < |init| {
          assert specs[j] == init[j];
          assert HasCode(before.0, init[j].code);
          var k :| 0 <= k < |before.0| && before.0[k].code == specs[j].code;
          assert r[k] == before.0[k];
        } else if !HasCode(before.0, last.code) {
          assert r[|before.0|].code == last.code;
        }
      }
    }
  }

  /** When every listed code is already present nothing is saved: running the installation twice adds nothing. */
  lemma {:induction false} InstalledNoop(ts: seq<TemplateRow>, nextId: int, specs: seq<TemplateSpec>)
    requires forall j :: 0 <= j < |specs| ==> HasCode(ts, specs[j].code)
    ensures Installed(ts, nextId, specs) == (ts, nextId)
    decreases |specs|
  {
    if specs != [] {
      InstalledNoop(ts, nextId, specs[..|specs| - 1]);
    }
  }

  lemma {:induction false} InstalledIdempotent(ts: seq<TemplateRow>, nextId: int, specs: seq<TemplateSpec>)
    ensures var once := Installed(ts, nextId, specs);
      Installed(once.0, once.1, specs) == once
  {
    InstalledProperties(ts, nextId, specs);
    var once := Installed(ts, nextId, specs);
    InstalledNoop(once.0, once.1, specs);
  }

  // ---------------------------------------------------------------------------------------
  // The shortcuts `notifier_rappel_rapport`, `notifier_validation_rapport`,
  // `notifier_rejet_rapport` and `notifier_alerte_donnees`: a template code and its variables
  // (an integer variable is formatted as its decimal text).

  function RappelRapportVariables(typeRapport: string, operateur: string, mois: string, dateLimite: string): map<string, string>
  {
    map["type_rapport" := typeRapport, "operateur" := operateur, "mois" := mois, "date_limite" := dateLimite]
  }

  function ValidationRapportVariables(typeRapport: string, periode: string, validateur: string, rapportId: int): map<string, string>
  {
    map["type_rapport" := typeRapport, "periode" := periode, "validateur" := validateur, "rapport_id" := IntToString(rapportId)]
  }

  function RejetRapportVariables(typeRapport: string, periode: string, motif: string, rapportId: int): map<string, string>
  {
    map["type_rapport" := typeRapport, "periode" := periode, "motif" := motif, "rapport_id" := IntToString(rapportId)]
  }

  function AlerteDonneesVariables(typeDonnee: string, details: string, rapportId: int): map<string, string>
  {
    map["type_donnee" := typeDonnee, "details" := details, "rapport_id" := IntToString(rapportId)]
  }

  // The field names and literal pieces of the four templates the shortcuts use, one small fact at a time.
  lemma {:induction false} TypeRapportPlain() ensures PlainName("type_rapport") { assert !IsDigit("type_rapport"[0]); }
  lemma {:induction false} OperateurPlain() ensures PlainName("operateur") { assert !IsDigit("operateur"[0]); }
  lemma {:induction false} MoisPlain() ensures PlainName("mois") { assert !IsDigit("mois"[0]); }
  lemma {:induction false} DateLimitePlain() ensures PlainName("date_limite") { assert !IsDigit("date_limite"[0]); }
  lemma {:induction false} PeriodePlain() ensures PlainName("periode") { assert !IsDigit("periode"[0]); }
  lemma {:induction false} ValidateurPlain() ensures PlainName("validateur") { assert !IsDigit("validateur"[0]); }
  lemma {:induction false} RapportIdPlain() ensures PlainName("rapport_id") { assert !IsDigit("rapport_id"[0]); }
  lemma {:induction false} MotifPlain() ensures PlainName("motif") { assert !IsDigit("motif"[0]); }
  lemma {:induction false} TypeDonneePlain() ensures PlainName("type_donnee") { assert !IsDigit("type_donnee"[0]); }
  lemma {:induction false} DetailsPlain() ensures PlainName("details") { assert !IsDigit("details"[0]); }

  lemma {:induction false} RappelLiterals()
    ensures NoBraces("Rappel: Rapport ")
      && NoBraces(" pour ")
      && NoBraces("")
      && NoBraces("Votre rapport ")
      && NoBraces(" du mois de ")
      && NoBraces(" doit être soumis avant le ")
      && NoBraces(".")
      && NoBraces("/rapports/nouveau?type=")
  {
  }

  lemma {:induction false} ValidationLiterals()
    ensures NoBraces("Rapport validé: ")
      && NoBraces("")
      && NoBraces("Votre rapport ")
      && NoBraces(" du ")
      && NoBraces(" a été validé par ")
      && NoBraces(".")
      && NoBraces("/rapports/")
  {
  }

  lemma {:induction false} RejetLiterals()
    ensures NoBraces("Rapport rejeté: ")
      && NoBraces("")
      && NoBraces("Votre rapport ")
      && NoBraces(" du ")
      && NoBraces(" a été rejeté. Motif: ")
      && NoBraces("/rapports/")
      && NoBraces("/modifier")
  {
  }

  lemma {:induction false} AlerteLongLiteral()
    ensures NoBraces(AlerteIntro)
  {
    var a, b := "Des valeurs anormales ont été ", "détectées dans vos données ";
    assert NoBraces(a);
    assert NoBraces(b);
    assert forall k :: 0 <= k < |a + b| ==> (a + b)[k] == if k < |a| then a[k] else b[k - |a|];
  }

  lemma {:induction false} AlerteLiterals()
    ensures NoBraces("Alerte: Données anormales détectées")
      && NoBraces(": ")
      && NoBraces("")
      && NoBraces("/rapports/")
      && NoBraces("#donnees")
  {
  }

  lemma {:induction false} RappelPatterns()
    ensures WellFormed(RappelTitre) && WellFormed(RappelMessage) && WellFormed(RappelUrl)
  {
    RappelLiterals();
    TypeRapportPlain(); MoisPlain(); OperateurPlain(); DateLimitePlain();
  }

  lemma {:induction false} ValidationPatterns()
    ensures WellFormed(ValidationTitre) && WellFormed(ValidationMessage) && WellFormed(RapportUrl)
  {
    ValidationLiterals();
    TypeRapportPlain(); PeriodePlain(); ValidateurPlain(); RapportIdPlain();
  }

  lemma {:induction false} RejetPatterns()
    ensures WellFormed(RejetTitre) && WellFormed(RejetMessage) && WellFormed(RejetUrl)
  {
    RejetLiterals();
    TypeRapportPlain(); PeriodePlain(); MotifPlain(); RapportIdPlain();
  }

  lemma {:induction false} AlertePatterns()
    ensures WellFormed(AlerteTitre) && WellFormed(AlerteMessage) && WellFormed(AlerteUrl)
  {
    AlerteLiterals(); AlerteLongLiteral();
    TypeDonneePlain(); DetailsPlain(); RapportIdPlain();
  }

  /**
   * A template row whose title, message and link are well-formed patterns that the variables cover
   * generates the filled texts, with the template's type and default priority.
   */
  lemma {:induction false} GenererFilled(s: TemplateSpec, pt: Pattern, pm: Pattern, pu: Pattern, id: int, userId: int, vars: map<string, string>)
    requires s.titre == Build(pt) && s.message == Build(pm) && s.url == Some(Build(pu)) && pu.Piece?
    requires WellFormed(pt) && WellFormed(pm) && WellFormed(pu)
    requires Covers(pt, vars) && Covers(pm, vars) && Covers(pu, vars)
    ensures GenererNotification(RowOf(s, id), userId, vars) ==
      Ok(NotificationDraft(userId, s.typ, Fill(pt, vars), Fill(pm, vars), Some(s.priorite), Some(Fill(pu, vars))))
  {
    FormatBuild(pt, vars);
    FormatBuild(pm, vars);
    FormatBuild(pu, vars);
    assert |Build(pu)| > 0 by { assert Build(pu) == pu.lit + "{" + pu.name + "}" + Build(pu.rest); }
  }

  lemma {:induction false} RappelFilled(typeRapport: string, operateur: string, mois: string, dateLimite: string)
    ensures var vars := RappelRapportVariables(typeRapport, operateur, mois, dateLimite);
      && Covers(RappelTitre, vars) && Covers(RappelMessage, vars) && Covers(RappelUrl, vars)
      && Fill(RappelTitre, vars) == "Rappel: Rapport " + typeRapport + " pour " + mois
      && Fill(RappelMessage, vars) == "Votre rapport " + typeRapport + " pour " + operateur + " du mois de " + mois
           + " doit être soumis avant le " + dateLimite + "."
      && Fill(RappelUrl, vars) == "/rapports/nouveau?type=" + typeRapport
  {
    var vars := RappelRapportVariables(typeRapport, operateur, mois, dateLimite);
    assert vars["type_rapport"] == typeRapport && vars["operateur"] == operateur;
    assert vars["mois"] == mois && vars["date_limite"] == dateLimite;
    RappelMessageFilled(vars, typeRapport, operateur, mois, dateLimite);
    var t1 := Piece(" pour ", "mois", Lit(""));
    assert Covers(t1, vars) && Fill(t1, vars) == " pour " + mois;
  }

  /** The reminder's message, filled from any variables that hold the four values. */
  lemma {:induction false} RappelMessageFilled(vars: map<string, string>, typeRapport: string, operateur: string, mois: string, dateLimite: string)
    requires "type_rapport" in vars && vars["type_rapport"] == typeRapport
    requires "operateur" in vars && vars["operateur"] == operateur
    requires "mois" in vars && vars["mois"] == mois
    requires "date_limite" in vars && vars["date_limite"] == dateLimite
    ensures Covers(RappelMessage, vars)
    ensures Fill(RappelMessage, vars) == "Votre rapport " + typeRapport + " pour " + operateur + " du mois de " + mois
      + " doit être soumis avant le " + dateLimite + "."
  {
    var m3 := Piece(" doit être soumis avant le ", "date_limite", Lit("."));
    var m2 := Piece(" du mois de ", "mois", m3);
    var m1 := Piece(" pour ", "operateur", m2);
    assert Fill(Lit("."), vars) == ".";
    assert Covers(m3, vars) && Fill(m3, vars) == " doit être soumis avant le " + dateLimite + ".";
    assert Covers(m2, vars) && Fill(m2, vars) == " du mois de " + mois + Fill(m3, vars);
    assert Covers(m1, vars) && Fill(m1, vars) == " pour " + operateur + Fill(m2, vars);
  }

  lemma {:induction false} ValidationFilled(typeRapport: string, periode: string, validateur: string, rapportId: int)
    ensures var vars := ValidationRapportVariables(typeRapport, periode, validateur, rapportId);
      && Covers(ValidationTitre, vars) && Covers(ValidationMessage, vars) && Covers(RapportUrl, vars)
      && Fill(ValidationTitre, vars) == "Rapport validé: " + typeRapport
      && Fill(ValidationMessage, vars) == "Votre rapport " + typeRapport + " du " + periode + " a été validé par " + validateur + "."
      && Fill(RapportUrl, vars) == "/rapports/" + IntToString(rapportId)
  {
    var vars := ValidationRapportVariables(typeRapport, periode, validateur, rapportId);
    var m2 := Piece(" a été validé par ", "validateur", Lit("."));
    var m1 := Piece(" du ", "periode", m2);
    assert vars["validateur"] == validateur && Fill(Lit("."), vars) == ".";
    assert Covers(m2, vars) && Fill(m2, vars) == " a été validé par " + validateur + ".";
    assert Covers(m1, vars) && Fill(m1, vars) == " du " + periode + Fill(m2, vars);
  }

  lemma {:induction false} RejetFilled(typeRapport: string, periode: string, motif: string, rapportId: int)
    ensures var vars := RejetRapportVariables(typeRapport, periode, motif, rapportId);
      && Covers(RejetTitre, vars) && Covers(RejetMessage, vars) && Covers(RejetUrl, vars)
      && Fill(RejetTitre, vars) == "Rapport rejeté: " + typeRapport
      && Fill(RejetMessage, vars) == "Votre rapport " + typeRapport + " du " + periode + " a été rejeté. Motif: " + motif
      && Fill(RejetUrl, vars) == "/rapports/" + IntToString(rapportId) + "/modifier"
  {
    var vars := RejetRapportVariables(typeRapport, periode, motif, rapportId);
    var m2 := Piece(" a été rejeté. Motif: ", "motif", Lit(""));
    var m1 := Piece(" du ", "periode", m2);
    assert Covers(m2, vars) && Fill(m2, vars) == " a été rejeté. Motif: " + motif;
    assert Covers(m1, vars) && Fill(m1, vars) == " du " + periode + Fill(m2, vars);
  }

  lemma {:induction false} AlerteFilled(typeDonnee: string, details: string, rapportId: int)
    ensures var vars := AlerteDonneesVariables(typeDonnee, details, rapportId);
      && Covers(AlerteTitre, vars) && Covers(AlerteMessage, vars) && Covers(AlerteUrl, vars)
      && Fill(AlerteTitre, vars) == "Alerte: Données anormales détectées"
      && Fill(AlerteMessage, vars) == AlerteIntro + typeDonnee + ": " + details
      && Fill(AlerteUrl, vars) == "/rapports/" + IntToString(rapportId) + "#donnees"
  {
    var vars := AlerteDonneesVariables(typeDonnee, details, rapportId);
    var m1 := Piece(": ", "details", Lit(""));
    assert vars["details"] == details && Fill(Lit(""), vars) == "";
    assert Covers(m1, vars) && Fill(m1, vars) == ": " + details;
  }

  /** The reminder shortcut supplies every field of its default template: title, message and link are filled. */
  lemma {:induction false} RappelRapportFills(typeRapport: string, operateur: string, mois: string, dateLimite: string, userId: int, id: int)
    ensures var vars := RappelRapportVariables(typeRapport, operateur, mois, dateLimite);
      GenererNotification(RowOf(RappelRapportTemplate, id), userId, vars) ==
      Ok(NotificationDraft(userId, RappelRapport, "Rappel: Rapport " + typeRapport + " pour " + mois,
        "Votre rapport " + typeRapport + " pour " + operateur + " du mois de " + mois
          + " doit être soumis avant le " + dateLimite + ".",
        Some(2), Some("/rapports/nouveau?type=" + typeRapport)))
  {
    var vars := RappelRapportVariables(typeRapport, operateur, mois, dateLimite);
    RappelPatterns();
    RappelFilled(typeRapport, operateur, mois, dateLimite);
    GenererFilled(RappelRapportTemplate, RappelTitre, RappelMessage, RappelUrl, id, userId, vars);
  }

  /** The validation shortcut fills its default template. */
  lemma {:induction false} ValidationRapportFills(typeRapport: string, periode: string, validateur: string, rapportId: int, userId: int, id: int)
    ensures var vars := ValidationRapportVariables(typeRapport, periode, validateur, rapportId);
      GenererNotification(RowOf(ValidationRapportTemplate, id), userId, vars) ==
      Ok(NotificationDraft(userId, ValidationRapport, "Rapport validé: " + typeRapport,
        "Votre rapport " + typeRapport + " du " + periode + " a été validé par " + validateur + ".",
        Some(1), Some("/rapports/" + IntToString(rapportId))))
  {
    var vars := ValidationRapportVariables(typeRapport, periode, validateur, rapportId);
    ValidationPatterns();
    ValidationFilled(typeRapport, periode, validateur, rapportId);
    GenererFilled(ValidationRapportTemplate, ValidationTitre, ValidationMessage, RapportUrl, id, userId, vars);
  }

  /** The rejection shortcut fills its default template. */
  lemma {:induction false} RejetRapportFills(typeRapport: string, periode: string, motif: string, rapportId: int, userId: int, id: int)
    ensures var vars := RejetRapportVariables(typeRapport, periode, motif, rapportId);
      GenererNotification(RowOf(RejetRapportTemplate, id), userId, vars) ==
      Ok(NotificationDraft(userId, RejetRapport, "Rapport rejeté: " + typeRapport,
        "Votre rapport " + typeRapport + " du " + periode + " a été rejeté. Motif: " + motif,
        Some(3), Some("/rapports/" + IntToString(rapportId) + "/modifier")))
  {
    var vars := RejetRapportVariables(typeRapport, periode, motif, rapportId);
    RejetPatterns();
    RejetFilled(typeRapport, periode, motif, rapportId);
    GenererFilled(RejetRapportTemplate, RejetTitre, RejetMessage, RejetUrl, id, userId, vars);
  }

  /** The data-alert shortcut fills its default template, whose title has no field. */
  lemma {:induction false} AlerteDonneesFills(typeDonnee: string, details: string, rapportId: int, userId: int, id: int)
    ensures var vars := AlerteDonneesVariables(typeDonnee, details, rapportId);
      GenererNotification(RowOf(AlerteDonneesTemplate, id), userId, vars) ==
      Ok(NotificationDraft(userId, AlerteDonnees, "Alerte: Données anormales détectées",
        AlerteIntro + typeDonnee + ": " + details,
        Some(2), Some("/rapports/" + IntToString(rapportId) + "#donnees")))
  {
    var vars := AlerteDonneesVariables(typeDonnee, details, rapportId);
    AlertePatterns();
    AlerteFilled(typeDonnee, details, rapportId);
    GenererFilled(AlerteDonneesTemplate, AlerteTitre, AlerteMessage, AlerteUrl, id, userId, vars);
  }
}
