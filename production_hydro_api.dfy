// The hydro JSON endpoints: the load-factor and availability calculators the report forms
// call, and the equipment list that pre-fills a new report.
module ProductionHydroApi {
  import opened Wrappers
  import opened Users
  import opened Access
  import opened Collections
  import opened Ratios
  import opened ProductionHydroModel

  /** A JSON value as `request.get_json()` decodes it. */
  datatype Json = JNull | JBool(b: bool) | JNum(x: real) | JStr(s: string) | JList(items: seq<Json>) | JObject

  /**
   * Python's `float(v)`: numbers and booleans convert, text goes through the float grammar
   * (passed in as `parseFloat`; `None` is a `ValueError`), null, lists and objects raise `TypeError`.
   */
  function ToFloat(v: Json, parseFloat: string -> Option<real>): Option<real>
  {
    match v
    case JNum(x) => Some(x)
    case JBool(b) => Some(if b then 1.0 else 0.0)
    case JStr(s) => parseFloat(s)
    case _ => None
  }

  /** `float(data.get(key, default))`. */
  function Field(data: map<string, Json>, key: string, default: real, parseFloat: string -> Option<real>): Option<real>
  {
    if key in data then ToFloat(data[key], parseFloat) else Some(default)
  }

  /**
   * The endpoint's answer: a success with the computed value, the 400 'Données invalides'
   * answer when a conversion raised, or a server error when the body is not a JSON object
   * (`data.get` on `None` raises outside the `try`).
   */
  datatype Reponse = Succes(valeur: real) | Invalides | ErreurServeur

  /** The load factor as the endpoint computes it: clamped, 0 without positive power and hours. */
  function FacteurChargeCalcule(energie: real, puissance: real, heures: real): real
  {
    if puissance > 0.0 && heures > 0.0 then Clamp100(Percent(energie, puissance * heures)) else 0.0
  }

  /** `api_calcul_facteur_charge` (rounding to two decimals left out). */
  function ApiFacteurCharge(body: Option<map<string, Json>>, parseFloat: string -> Option<real>): Reponse
  {
    match body
    case None => ErreurServeur
    case Some(data) =>
      var e := Field(data, "energie_produite", 0.0, parseFloat);
      var p := Field(data, "puissance_nominale", 0.0, parseFloat);
      var h := Field(data, "heures_fonctionnement", 0.0, parseFloat);
      if e.None? || p.None? || h.None? then Invalides else Succes(FacteurChargeCalcule(e.value, p.value, h.value))
  }

  /**
   * The answer is a success exactly when all three fields convert; its value is a percentage,
   * 0 without positive power and hours, and otherwise the energy produced over the theoretical energy.
   */
  lemma {:induction false} ApiFacteurChargeMeaning(body: Option<map<string, Json>>, parseFloat: string -> Option<real>)
    ensures body.None? <==> ApiFacteurCharge(body, parseFloat).ErreurServeur?
    ensures body.Some? ==>
      var e := Field(body.value, "energie_produite", 0.0, parseFloat);
      var p := Field(body.value, "puissance_nominale", 0.0, parseFloat);
      var h := Field(body.value, "heures_fonctionnement", 0.0, parseFloat);
      (ApiFacteurCharge(body, parseFloat).Succes? <==> e.Some? && p.Some? && h.Some?)
      && (ApiFacteurCharge(body, parseFloat).Succes? ==>
            0.0 <= ApiFacteurCharge(body, parseFloat).valeur <= 100.0
            && (p.value <= 0.0 || h.value <= 0.0 ==> ApiFacteurCharge(body, parseFloat).valeur == 0.0)
            && (p.value > 0.0 && h.value > 0.0 && 0.0 <= e.value <= p.value * h.value ==>
                  ApiFacteurCharge(body, parseFloat).valeur * (p.value * h.value) / 100.0 == e.value))
  {
    if body.Some? {
      var e := Field(body.value, "energie_produite", 0.0, parseFloat);
      var p := Field(body.value, "puissance_nominale", 0.0, parseFloat);
      var h := Field(body.value, "heures_fonctionnement", 0.0, parseFloat);
      if e.Some? && p.Some? && h.Some? && p.value > 0.0 && h.value > 0.0 {
        PercentOfShare(e.value, p.value * h.value);
      }
    }
  }

  /** An empty body object computes 0 from the defaults; a text that is not a number is invalid. */
  lemma {:induction false} ApiFacteurChargeEdges(parseFloat: string -> Option<real>)
    requires parseFloat("abc") == None
    ensures ApiFacteurCharge(Some(map[]), parseFloat) == Succes(0.0)
    ensures ApiFacteurCharge(Some(map["energie_produite" := JStr("abc")]), parseFloat) == Invalides
    ensures ApiFacteurCharge(Some(map["puissance_nominale" := JNull]), parseFloat) == Invalides
  {
  }

  /** On positive power and hours the endpoint returns the group's own load factor, clamped into [0, 100]. */
  lemma {:induction false} ApiAgreesWithGroupe(energie: real, puissance: real, heures: real, g: Groupe)
    requires puissance > 0.0 && heures > 0.0
    requires g.puissanceNominale == Some(puissance) && g.heuresFonctionnement == Some(heures)
    requires g.energieProduite == Some(energie)
    ensures FacteurChargeCalcule(energie, puissance, heures) == Clamp100(FacteurCharge(g))
  {
    assert puissance * heures > 0.0;
    if energie == 0.0 {
      assert FacteurCharge(g) == 0.0;
      assert Percent(energie, puissance * heures) == 0.0;
    } else {
      assert FacteurCharge(g) == Percent(energie, puissance * heures);
    }
  }

  /** The month the availability endpoint assumes when the request gives no period: 30 days. */
  const HeuresPeriodeDefaut: real := 24.0 * 30.0

  /** The availability as the endpoint computes it: clamped, 0 for a period that is not positive. */
  function DisponibiliteCalculee(programme: real, force: real, periode: real): real
  {
    if periode > 0.0 then Clamp100(Percent(periode - (programme + force), periode)) else 0.0
  }

  /** `api_calcul_disponibilite`. */
  function ApiDisponibilite(body: Option<map<string, Json>>, parseFloat: string -> Option<real>): Reponse
  {
    match body
    case None => ErreurServeur
    case Some(data) =>
      var a := Field(data, "duree_arrets_programme", 0.0, parseFloat);
      var b := Field(data, "duree_arrets_force", 0.0, parseFloat);
      var h := Field(data, "heures_periode", HeuresPeriodeDefaut, parseFloat);
      if a.None? || b.None? || h.None? then Invalides else Succes(DisponibiliteCalculee(a.value, b.value, h.value))
  }

  /**
   * A success exactly when the three fields convert, always a percentage, 0 for a period that
   * is not positive, and otherwise the share of the period not lost to stops.
   */
  lemma {:induction false} ApiDisponibiliteMeaning(body: Option<map<string, Json>>, parseFloat: string -> Option<real>)
    ensures body.None? <==> ApiDisponibilite(body, parseFloat).ErreurServeur?
    ensures body.Some? ==>
      var a := Field(body.value, "duree_arrets_programme", 0.0, parseFloat);
      var b := Field(body.value, "duree_arrets_force", 0.0, parseFloat);
      var h := Field(body.value, "heures_periode", HeuresPeriodeDefaut, parseFloat);
      (ApiDisponibilite(body, parseFloat).Succes? <==> a.Some? && b.Some? && h.Some?)
      && (ApiDisponibilite(body, parseFloat).Succes? ==>
            0.0 <= ApiDisponibilite(body, parseFloat).valeur <= 100.0
            && (h.value <= 0.0 ==> ApiDisponibilite(body, parseFloat).valeur == 0.0)
            && (h.value > 0.0 && 0.0 <= a.value + b.value <= h.value ==>
                  ApiDisponibilite(body, parseFloat).valeur == 100.0 - Percent(a.value + b.value, h.value)))
  {
    if body.Some? {
      var a := Field(body.value, "duree_arrets_programme", 0.0, parseFloat);
      var b := Field(body.value, "duree_arrets_force", 0.0, parseFloat);
      var h := Field(body.value, "heures_periode", HeuresPeriodeDefaut, parseFloat);
      if a.Some? && b.Some? && h.Some? && h.value > 0.0 {
        PercentAdditive(h.value - (a.value + b.value), a.value + b.value, h.value);
        PercentOfWhole(h.value);
        PercentOfShare(h.value - (a.value + b.value), h.value);
      }
    }
  }

  /** Without a period the endpoint uses the group's 720-hour month, so it returns the group's availability clamped. */
  lemma {:induction false} ApiDisponibiliteAgreesWithGroupe(data: map<string, Json>, parseFloat: string -> Option<real>, g: Groupe)
    requires "heures_periode" !in data
    requires Field(data, "duree_arrets_programme", 0.0, parseFloat) == Some(OrZeroR(g.dureeArretsProgramme))
    requires Field(data, "duree_arrets_force", 0.0, parseFloat) == Some(OrZeroR(g.dureeArretsForce))
    ensures ApiDisponibilite(Some(data), parseFloat) == Succes(Clamp100(GroupeDisponibilite(g)))
  {
    assert HeuresPeriodeDefaut == HeuresMois;
  }

  // ---------------------------------------------------------------------------------------
  // `api_centrale_equipements`.

  /** A stored column value. */
  datatype Valeur = Texte(s: string) | Nombre(x: real) | Date(jour: int)

  /** A row of equipment as column name to value; NULL is `None`. */
  type Ligne = map<string, Option<Valeur>>

  /** The hydro plant, its operator and its equipment, in relationship order. */
  datatype Centrale = Centrale(id: int, operateurId: Option<int>, groupes: seq<Ligne>, transformateurs: seq<Ligne>)

  /** The identity columns copied from each generating group. */
  const IdentiteGroupe: set<string> := {"id", "numero_groupe", "nom_groupe", "puissance_nominale",
    "tension_nominale", "vitesse_rotation", "type_turbine", "date_derniere_revision",
    "type_derniere_revision", "prochaine_revision"}

  /** The operating columns the report form must fill in, sent empty. */
  const OperationGroupe: set<string> := {"heures_fonctionnement", "energie_produite", "puissance_moyenne",
    "puissance_max", "nombre_arrets_programme", "nombre_arrets_force", "duree_arrets_programme",
    "duree_arrets_force", "rendement_moyen", "facteur_charge", "disponibilite", "incidents",
    "travaux_realises", "observations"}

  const IdentiteTransformateur: set<string> := {"id", "numero_transformateur", "nom_transformateur",
    "puissance_nominale", "tension_primaire", "tension_secondaire", "type_refroidissement",
    "date_derniere_maintenance", "type_maintenance", "prochaine_maintenance"}

  const OperationTransformateur: set<string> := {"energie_transferee", "heures_service", "charge_moyenne",
    "charge_max", "temperature_huile_moyenne", "temperature_huile_max", "temperature_enroulements_max",
    "etat_general", "incidents", "travaux_realises", "observations"}

  /** One pre-filled entry: the identity columns as stored, every operating column empty. */
  function Preremplie(row: Ligne, identite: set<string>, operation: set<string>): Ligne
  {
    map k | k in identite + operation :: if k in operation then None else if k in row then row[k] else None
  }

  /** The entry has exactly the listed keys, copies each identity column and leaves the operating ones empty. */
  lemma {:induction false} PreremplieShape(row: Ligne, identite: set<string>, operation: set<string>)
    requires identite !! operation
    ensures Preremplie(row, identite, operation).Keys == identite + operation
    ensures forall k :: k in identite && k in row ==> Preremplie(row, identite, operation)[k] == row[k]
    ensures forall k :: k in operation ==> Preremplie(row, identite, operation)[k] == None
  {
  }

  lemma {:induction false} ChampsGroupeDisjoints()
    ensures IdentiteGroupe !! OperationGroupe
  {
  }

  lemma {:induction false} ChampsTransformateurDisjoints()
    ensures IdentiteTransformateur !! OperationTransformateur
  {
  }

  function FindCentrale(cs: seq<Centrale>, id: int): (r: Option<Centrale>)
    ensures r.Some? ==> r.value in cs && r.value.id == id
    ensures r.None? <==> forall c :: c in cs ==> c.id != id
  {
    if cs == [] then None else if cs[0].id == id then Some(cs[0]) else FindCentrale(cs[1..], id)
  }

  /**
   * `api_centrale_equipements` as written: `CentraleHydro` has no `groupes_production` or
   * `transformateurs` relationship (both belong to `RapportHydro`), so once the permission check
   * passes the first loop raises `AttributeError`, answered with a 500.
   */
  function ApiEquipementsAsWritten(cs: seq<Centrale>, centraleId: int, u: User): (r: Http<(seq<Ligne>, seq<Ligne>)>)
    ensures r.Abort?
    ensures r.status == 404 <==> forall c :: c in cs ==> c.id != centraleId
    ensures r.status == 500 <==> FindCentrale(cs, centraleId).Some? && CanAccessOperateur(u, FindCentrale(cs, centraleId).value.operateurId)
  {
    match FindCentrale(cs, centraleId)
    case None => Abort(404)
    case Some(c) => if !CanAccessOperateur(u, c.operateurId) then Abort(403) else Abort(500)
  }

  /**
   * `api_centrale_equipements` corrected: `groupes` and `transformateurs` are the equipment lists
   * the route means to read. 404 for an unknown plant, 403 outside the user's operator, else both lists.
   */
  function ApiEquipements(cs: seq<Centrale>, centraleId: int, u: User): (r: Http<(seq<Ligne>, seq<Ligne>)>)
    ensures r.Abort? ==> r.status == 404 || r.status == 403
  {
    match FindCentrale(cs, centraleId)
    case None => Abort(404)
    case Some(c) =>
      if !CanAccessOperateur(u, c.operateurId) then Abort(403)
      else Done((MapSeq((g: Ligne) => Preremplie(g, IdentiteGroupe, OperationGroupe), c.groupes),
                 MapSeq((t: Ligne) => Preremplie(t, IdentiteTransformateur, OperationTransformateur), c.transformateurs)))
  }

  /** The lists follow the plant's equipment one for one, copying identities and emptying operating data. */
  lemma {:induction false} ApiEquipementsMeaning(cs: seq<Centrale>, centraleId: int, u: User)
    ensures ApiEquipements(cs, centraleId, u) == Abort(404) <==> forall c :: c in cs ==> c.id != centraleId
    ensures ApiEquipements(cs, centraleId, u).Done? ==>
      var c := FindCentrale(cs, centraleId).value;
      var (gs, ts) := ApiEquipements(cs, centraleId, u).value;
      CanAccessOperateur(u, c.operateurId) && |gs| == |c.groupes| && |ts| == |c.transformateurs|
      && (forall i, k :: 0 <= i < |gs| && k in IdentiteGroupe && k in c.groupes[i] ==> gs[i][k] == c.groupes[i][k])
      && (forall i, k :: 0 <= i < |gs| && k in OperationGroupe ==> k in gs[i] && gs[i][k] == None)
      && (forall i, k :: 0 <= i < |ts| && k in IdentiteTransformateur && k in c.transformateurs[i] ==>
            ts[i][k] == c.transformateurs[i][k])
      && (forall i, k :: 0 <= i < |ts| && k in OperationTransformateur ==> k in ts[i] && ts[i][k] == None)
  {
    ChampsGroupeDisjoints();
    ChampsTransformateurDisjoints();
  }

  /**
   * As written the endpoint never answers with the lists: it fails with a 500 exactly where the
   * corrected endpoint succeeds, and otherwise refuses as it does.
   */
  lemma {:induction false} ApiEquipementsAsWrittenFails(cs: seq<Centrale>, centraleId: int, u: User)
    ensures ApiEquipementsAsWritten(cs, centraleId, u) == Abort(500) <==> ApiEquipements(cs, centraleId, u).Done?
    ensures ApiEquipements(cs, centraleId, u).Abort? ==> ApiEquipementsAsWritten(cs, centraleId, u) == ApiEquipements(cs, centraleId, u)
  {
  }
}
