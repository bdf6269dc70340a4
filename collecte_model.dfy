// Monthly data collections: the record an operator fills in each month, its status,
// the derived totals, and the status label of a new-project submission.
module CollecteModel {
  import opened Wrappers
  import opened Python

  datatype StatutCollecte = Brouillon | Soumis | Valide | Rejete

  /** The enum member's `.value`. */
  function StatutValue(s: StatutCollecte): string
  {
    match s
    case Brouillon => "brouillon"
    case Soumis => "soumis"
    case Valide => "valide"
    case Rejete => "rejete"
  }

  /** The member whose `.value` is the text, if any. */
  function StatutOfValue(t: string): (r: Option<StatutCollecte>)
    ensures r.Some? ==> StatutValue(r.value) == t
  {
    if t == "brouillon" then Some(Brouillon) else if t == "soumis" then Some(Soumis)
    else if t == "valide" then Some(Valide) else if t == "rejete" then Some(Rejete) else None
  }

  lemma {:induction false} StatutValueRoundTrip(s: StatutCollecte)
    ensures StatutOfValue(StatutValue(s)) == Some(s)
  {
  }

  /**
   * What the `db.Enum(StatutCollecte)` column stores, and what a SQL comparison with the column
   * sees: SQLAlchemy persists an `Enum` class by its member names.
   */
  function StatutName(s: StatutCollecte): string
  {
    match s
    case Brouillon => "BROUILLON"
    case Soumis => "SOUMIS"
    case Valide => "VALIDE"
    case Rejete => "REJETE"
  }

  /** No stored name is the `.value` of any member: a SQL filter on the column with a value text finds nothing. */
  lemma {:induction false} StatutNameNotValue(s: StatutCollecte, t: StatutCollecte)
    ensures StatutName(s) != StatutValue(t)
  {
    assert StatutName(s)[0] != StatutValue(t)[0];
  }

  /** The column default, applied when a row is inserted without a status. */
  const DefaultStatut: StatutCollecte := Brouillon

  /**
   * Python's `==` between a status read from the column and a text. `StatutCollecte` is a
   * plain `Enum` (not a `str` subclass), so a member never equals a string, and `None` does not either.
   */
  predicate StatutEqualsText(s: Option<StatutCollecte>, t: string)
  {
    false
  }

  /** The six client counts entered for the month (`None` when left empty). */
  datatype Clients = Clients(nouveauxHt: Option<int>, nouveauxMt: Option<int>, nouveauxBt: Option<int>,
                             deconnectesHt: Option<int>, deconnectesMt: Option<int>, deconnectesBt: Option<int>)

  /**
   * A row of `collecte_donnees_mensuelles`. The other columns the form fills in (financial,
   * geographic, environmental, quality, comments) are copied as they are and kept in `autres`.
   */
  datatype Collecte = Collecte(id: int, operateurId: int, mois: int, annee: int,
                               statut: Option<StatutCollecte>, clients: Clients, autres: map<string, string>,
                               soumisPar: Option<int>, dateSoumission: Option<int>,
                               validePar: Option<int>, dateValidation: Option<int>, actif: bool)

  /** `peut_etre_modifie`: a draft or a rejected collection may still be edited. */
  predicate PeutEtreModifie(statut: Option<StatutCollecte>)
  {
    statut == Some(Brouillon) || statut == Some(Rejete)
  }

  /** A new collection may be edited; submitted and validated ones are locked, a missing status too. */
  lemma {:induction false} PeutEtreModifieCases()
    ensures PeutEtreModifie(Some(DefaultStatut))
    ensures PeutEtreModifie(Some(Rejete))
    ensures !PeutEtreModifie(Some(Soumis)) && !PeutEtreModifie(Some(Valide)) && !PeutEtreModifie(None)
  {
  }

  /** `total_nouveaux_clients`: the three tension levels with an empty count as zero. */
  function TotalNouveauxClients(c: Clients): int
  {
    OrZero(c.nouveauxHt) + OrZero(c.nouveauxMt) + OrZero(c.nouveauxBt)
  }

  /** `total_clients_deconnectes`. */
  function TotalClientsDeconnectes(c: Clients): int
  {
    OrZero(c.deconnectesHt) + OrZero(c.deconnectesMt) + OrZero(c.deconnectesBt)
  }

  /**
   * Each total counts every filled level once and ignores the empty ones: with nothing entered it
   * is zero, filling one level adds exactly that count, and non-negative counts give a total that
   * bounds each of them.
   */
  lemma {:induction false} TotalsCountEachLevel(c: Clients, x: int)
    ensures TotalNouveauxClients(Clients(None, None, None, None, None, None)) == 0
    ensures TotalClientsDeconnectes(Clients(None, None, None, None, None, None)) == 0
    ensures TotalNouveauxClients(c.(nouveauxHt := Some(x))) == TotalNouveauxClients(c.(nouveauxHt := None)) + x
    ensures TotalNouveauxClients(c.(nouveauxMt := Some(x))) == TotalNouveauxClients(c.(nouveauxMt := None)) + x
    ensures TotalNouveauxClients(c.(nouveauxBt := Some(x))) == TotalNouveauxClients(c.(nouveauxBt := None)) + x
    ensures TotalClientsDeconnectes(c.(deconnectesHt := Some(x))) == TotalClientsDeconnectes(c.(deconnectesHt := None)) + x
    ensures TotalClientsDeconnectes(c.(deconnectesMt := Some(x))) == TotalClientsDeconnectes(c.(deconnectesMt := None)) + x
    ensures TotalClientsDeconnectes(c.(deconnectesBt := Some(x))) == TotalClientsDeconnectes(c.(deconnectesBt := None)) + x
    ensures TotalNouveauxClients(c.(deconnectesHt := Some(x), deconnectesMt := Some(x), deconnectesBt := Some(x)))
            == TotalNouveauxClients(c)
  {
  }

  lemma {:induction false} TotalsBoundParts(c: Clients)
    requires OrZero(c.nouveauxHt) >= 0 && OrZero(c.nouveauxMt) >= 0 && OrZero(c.nouveauxBt) >= 0
    ensures TotalNouveauxClients(c) >= 0
    ensures TotalNouveauxClients(c) >= OrZero(c.nouveauxHt)
    ensures TotalNouveauxClients(c) >= OrZero(c.nouveauxMt)
    ensures TotalNouveauxClients(c) >= OrZero(c.nouveauxBt)
  {
  }

  /** `CollecteProjetNouveau.statut_display`: the label of a known ARE status, else the raw value. */
  function StatutDisplay(statutAre: Option<string>): (r: Option<string>)
    ensures r.Some? <==> statutAre.Some?
  {
    match statutAre
    case None => None
    case Some(s) =>
      if s == "en_attente" then Some("En attente d'avis ARE")
      else if s == "avis_favorable" then Some("Avis favorable ARE")
      else if s == "avis_defavorable" then Some("Avis défavorable ARE")
      else Some(s)
  }

  /** The three known statuses get distinct labels that are not themselves statuses; any other text shows as it is. */
  lemma {:induction false} StatutDisplayCases(s: string)
    ensures s !in ["en_attente", "avis_favorable", "avis_defavorable"] ==> StatutDisplay(Some(s)) == Some(s)
    ensures s in ["en_attente", "avis_favorable", "avis_defavorable"] ==>
      StatutDisplay(Some(s)).value != s
      && StatutDisplay(Some(s)).value !in ["en_attente", "avis_favorable", "avis_defavorable"]
    ensures StatutDisplay(Some("en_attente")) != StatutDisplay(Some("avis_favorable"))
    ensures StatutDisplay(Some("avis_favorable")) != StatutDisplay(Some("avis_defavorable"))
    ensures StatutDisplay(Some("en_attente")) != StatutDisplay(Some("avis_defavorable"))
  {
  }
}
