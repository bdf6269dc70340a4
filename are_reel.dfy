// The statistics computed from the operators' own data (app/are/services_reel.py): installed
// capacity from the declared plants, client records from the validated monthly collections,
// and the national aggregate over both; the pipeline stops at the first step that fails.
module AreReel {
  import opened Wrappers
  import opened Ratios
  import opened Python
  import opened AreStatistiques
  import CollecteModel
  import Collections

  // ---------------------------------------------------------------------------------------
  // Load factor.

  /**
   * `_calculer_facteur_charge_reel`: production over `capacity · 8.760` GWh, in percent and at
   * most 100; 0 for a NULL or zero capacity.
   */
  function FacteurChargeReel(capacite: Option<real>, productionGwh: real): real
  {
    if !TruthyR(capacite) then 0.0
    else
      var maxGwh := capacite.value * 8.760;
      if maxGwh == 0.0 then 0.0 else Min(100.0, productionGwh / maxGwh * 100.0)
  }

  /** The same load factor as the yearly statistics compute: 8.760 is 8760 / 1000. */
  lemma {:induction false} FacteurChargeReelMeaning(capacite: Option<real>, productionGwh: real)
    ensures FacteurChargeReel(capacite, productionGwh) == FacteurCharge(capacite, productionGwh)
    ensures !TruthyR(capacite) ==> FacteurChargeReel(capacite, productionGwh) == 0.0
    ensures FacteurChargeReel(capacite, productionGwh) <= 100.0
  {
    FacteurChargeMeaning(capacite, productionGwh);
  }

  // ---------------------------------------------------------------------------------------
  // Installed capacity (`calculer_capacites_installees_reelles`).

  /** The query's filter: active, and put into service no later than the year or with no date at all. */
  predicate EnServiceReel(c: Centrale, annee: int)
  {
    c.actif && (c.anneeMiseService.None? || c.anneeMiseService.value <= annee)
  }

  function OperateursReels(cs: seq<Centrale>, annee: int): (r: seq<int>)
    ensures forall k :: 0 <= k < |r| ==> exists c :: c in cs && EnServiceReel(c, annee) && c.operateurId == r[k]
  {
    if cs == [] then []
    else
      var c := cs[|cs| - 1];
      assert forall x :: x in cs[..|cs| - 1] ==> x in cs;
      OperateursReels(cs[..|cs| - 1], annee) + (if EnServiceReel(c, annee) then [c.operateurId] else [])
  }

  /** The `GROUP BY operateur_id` groups of the real-data query. */
  function GroupesReels(cs: seq<Centrale>, annee: int): seq<int>
  {
    Collections.Distinct(OperateursReels(cs, annee))
  }

  function PuissancesReelles(cs: seq<Centrale>, annee: int, op: int): seq<Option<real>>
  {
    if cs == [] then []
    else
      var c := cs[|cs| - 1];
      PuissancesReelles(cs[..|cs| - 1], annee, op)
      + (if EnServiceReel(c, annee) && c.operateurId == op then [c.puissance] else [])
  }

  /** The operator's production of the year: the reports' `energie_produite`, in MWh, converted to GWh. */
  function ProductionReelleGwh(p: Parc, annee: int, op: int): real
  {
    MwhEnGwh(OrZeroR(SommeSql(Energies(p.rapports, annee, op))))
  }

  /** The row of one group: available capacity is `(capacite_totale or 0)` times the source's share. */
  function LigneReelle(t: TypeProjet, p: Parc, annee: int, op: int): Capacite
  {
    var total := SommeSql(PuissancesReelles(p.centrales, annee, op));
    var prod := ProductionReelleGwh(p, annee, op);
    Capacite(annee, t, Some(op), OrZeroR(total), Some(OrZeroR(total) * Disponibilite(t)), Some(prod),
      Some(FacteurChargeReel(total, prod)))
  }

  function LignesReelles(t: TypeProjet, p: Parc, annee: int, ops: seq<int>): (r: seq<Capacite>)
    ensures |r| == |ops|
    ensures forall k :: 0 <= k < |ops| ==> r[k] == LigneReelle(t, p, annee, ops[k])
  {
    if ops == [] then [] else LignesReelles(t, p, annee, ops[..|ops| - 1]) + [LigneReelle(t, p, annee, ops[|ops| - 1])]
  }

  /** The rows of the three loops, in order. */
  function SauvegardeReelle(annee: int, h: Parc, th: Parc, so: Parc): seq<Capacite>
  {
    LignesReelles(ProductionHydro, h, annee, GroupesReels(h.centrales, annee))
    + LignesReelles(ProductionThermique, th, annee, GroupesReels(th.centrales, annee))
    + LignesReelles(ProductionSolaire, so, annee, GroupesReels(so.centrales, annee))
  }

  /** One loop: a row per group. */
  method EnregistrerReelles(t: TypeProjet, p: Parc, annee: int, ops: seq<int>) returns (lignes: seq<Capacite>)
    ensures lignes == LignesReelles(t, p, annee, ops)
  {
    lignes := [];
    for i := 0 to |ops|
      invariant lignes == LignesReelles(t, p, annee, ops[..i])
    {
      assert ops[..i + 1][..i] == ops[..i];
      lignes := lignes + [LigneReelle(t, p, annee, ops[i])];
    }
    assert ops[..|ops|] == ops;
  }

  /**
   * The step as written: the production query of each loop reads `operateur_id`,
   * `production_totale_kwh` and `date_debut` on the report class, which has none of them, so
   * the first group of any source raises before its row is saved and the session is rolled back.
   */
  method CalculerCapacitesReellesAsWritten(table: seq<Capacite>, annee: int, h: Parc, th: Parc, so: Parc)
    returns (ok: bool, t: seq<Capacite>)
    ensures ok <==> AnneeValide(annee) && GroupesReels(h.centrales, annee) == []
                    && GroupesReels(th.centrales, annee) == [] && GroupesReels(so.centrales, annee) == []
    ensures ok ==> t == PurgerCapacites(table, annee)
    ensures !ok ==> t == table
  {
    if !AnneeValide(annee) {
      return false, table;
    }
    if GroupesReels(h.centrales, annee) != [] {
      return false, table;
    }
    if GroupesReels(th.centrales, annee) != [] {
      return false, table;
    }
    if GroupesReels(so.centrales, annee) != [] {
      return false, table;
    }
    ok, t := true, PurgerCapacites(table, annee);
  }

  /** Any active plant with no commissioning date forms a group, so the step as written fails. */
  lemma {:induction false} CapacitesReellesEchouent(cs: seq<Centrale>, annee: int, c: Centrale)
    requires c in cs && c.actif && c.anneeMiseService.None?
    ensures GroupesReels(cs, annee) != []
  {
    var xs := OperateursReels(cs, annee);
    CentraleRetenue(cs, annee, c);
    assert xs[0] in GroupesReels(cs, annee);
  }

  lemma {:induction false} CentraleRetenue(cs: seq<Centrale>, annee: int, c: Centrale)
    requires c in cs && EnServiceReel(c, annee)
    ensures c.operateurId in OperateursReels(cs, annee)
  {
    if c != cs[|cs| - 1] {
      assert c in cs[..|cs| - 1];
      CentraleRetenue(cs[..|cs| - 1], annee, c);
    }
  }

  /**
   * The step with the report columns it evidently means (the report's operator through its
   * plant, the report's year, its production in kWh): the year's rows are replaced by one row
   * per source and operator.
   */
  method CalculerCapacitesReelles(table: seq<Capacite>, annee: int, h: Parc, th: Parc, so: Parc)
    returns (ok: bool, t: seq<Capacite>)
    ensures ok <==> AnneeValide(annee)
    ensures ok ==> t == PurgerCapacites(table, annee) + SauvegardeReelle(annee, h, th, so)
    ensures !ok ==> t == table
  {
    if !AnneeValide(annee) {
      return false, table;
    }
    var lh := EnregistrerReelles(ProductionHydro, h, annee, GroupesReels(h.centrales, annee));
    var lt := EnregistrerReelles(ProductionThermique, th, annee, GroupesReels(th.centrales, annee));
    var ls := EnregistrerReelles(ProductionSolaire, so, annee, GroupesReels(so.centrales, annee));
    var purge := PurgerCapacites(table, annee);
    assert SauvegardeReelle(annee, h, th, so) == lh + lt + ls;
    ok, t := true, purge + (lh + lt + ls);
  }

  /**
   * Every saved row belongs to one of the groups, keeps 90%, 85% or 80% of the installed
   * capacity as available for hydro, thermal and solar, and has a load factor of at most 100.
   */
  lemma {:induction false} LignesReellesMeaning(t: TypeProjet, p: Parc, annee: int, ops: seq<int>)
    ensures forall k :: 0 <= k < |ops| ==> LigneValide(LignesReelles(t, p, annee, ops)[k], t, annee, ops[k])
    ensures Disponibilite(ProductionHydro) == 0.90 && Disponibilite(ProductionThermique) == 0.85
    ensures Disponibilite(ProductionSolaire) == 0.80
  {
    forall k | 0 <= k < |ops|
      ensures LigneValide(LignesReelles(t, p, annee, ops)[k], t, annee, ops[k])
    {
      LigneReelleMeaning(t, p, annee, ops[k]);
    }
  }

  /** A saved row of source `t` for operator `op` in year `annee`, derated, with a load factor of at most 100. */
  predicate LigneValide(l: Capacite, t: TypeProjet, annee: int, op: int)
  {
    && l.annee == annee && l.typeSource == t && l.operateurId == Some(op)
    && l.disponible == Some(l.installee * Disponibilite(t))
    && l.facteur.Some? && l.facteur.value <= 100.0
  }

  /** One group's row: its year, source and operator, its derated capacity and a load factor of at most 100. */
  lemma {:induction false} LigneReelleMeaning(t: TypeProjet, p: Parc, annee: int, op: int)
    ensures LigneValide(LigneReelle(t, p, annee, op), t, annee, op)
  {
    var total := SommeSql(PuissancesReelles(p.centrales, annee, op));
    FacteurChargeReelMeaning(total, ProductionReelleGwh(p, annee, op));
  }

  // ---------------------------------------------------------------------------------------
  // Client records (`calculer_clientele_reelle_depuis_collecte`).

  /** A monthly collection, with the columns the step reads. */
  datatype Collecte = Collecte(
    operateurId: int,
    annee: int,
    statut: Option<CollecteModel.StatutCollecte>,
    clients: CollecteModel.Clients,
    localites: Option<int>,
    population: Option<int>)

  /**
   * The collections kept for an operator: its own, of the year, validated. The status filter
   * compares with the member `StatutCollecte.VALIDE` (the corrected query).
   */
  function CollectesDe(cs: seq<Collecte>, op: int, annee: int): (r: seq<Collecte>)
    ensures forall k :: 0 <= k < |r| ==> r[k] in cs && r[k].operateurId == op && r[k].annee == annee
    ensures forall k :: 0 <= k < |cs| ==>
      (cs[k].operateurId == op && cs[k].annee == annee && cs[k].statut == Some(CollecteModel.Valide) ==> cs[k] in r)
  {
    if cs == [] then []
    else
      var c := cs[|cs| - 1];
      assert forall k :: 0 <= k < |cs| - 1 ==> cs[..|cs| - 1][k] == cs[k];
      CollectesDe(cs[..|cs| - 1], op, annee)
      + (if c.operateurId == op && c.annee == annee && c.statut == Some(CollecteModel.Valide) then [c] else [])
  }

  /**
   * The query as written: `statut == 'valide'` compares the stored member name with the
   * member's value text.
   */
  function CollectesDeAsWritten(cs: seq<Collecte>, op: int, annee: int): seq<Collecte>
  {
    if cs == [] then []
    else
      var c := cs[|cs| - 1];
      CollectesDeAsWritten(cs[..|cs| - 1], op, annee)
      + (if c.operateurId == op && c.annee == annee && c.statut.Some?
            && CollecteModel.StatutName(c.statut.value) == CollecteModel.StatutValue(CollecteModel.Valide)
         then [c] else [])
  }

  /** As written the query finds no collection, whatever the table holds. */
  lemma {:induction false} CollectesDeAsWrittenVides(cs: seq<Collecte>, op: int, annee: int)
    ensures CollectesDeAsWritten(cs, op, annee) == []
  {
    if cs != [] {
      CollectesDeAsWrittenVides(cs[..|cs| - 1], op, annee);
      var c := cs[|cs| - 1];
      if c.statut.Some? {
        CollecteModel.StatutNameNotValue(c.statut.value, CollecteModel.Valide);
      }
    }
  }

  /** `sum(f(c) or 0 for c in collectes)`. */
  function Somme(cs: seq<Collecte>, f: Collecte -> Option<int>): int
  {
    if cs == [] then 0 else Somme(cs[..|cs| - 1], f) + OrZero(f(cs[|cs| - 1]))
  }

  function NouveauxHt(c: Collecte): Option<int> { c.clients.nouveauxHt }

  function NouveauxMt(c: Collecte): Option<int> { c.clients.nouveauxMt }

  function NouveauxBt(c: Collecte): Option<int> { c.clients.nouveauxBt }

  function DeconnectesHt(c: Collecte): Option<int> { c.clients.deconnectesHt }

  function DeconnectesMt(c: Collecte): Option<int> { c.clients.deconnectesMt }

  function DeconnectesBt(c: Collecte): Option<int> { c.clients.deconnectesBt }

  function Localites(c: Collecte): Option<int> { c.localites }

  function Population(c: Collecte): Option<int> { c.population }

  /** The year's net clients per tension (new minus disconnected), new localities and new population. */
  datatype Bilan = Bilan(ht: int, mt: int, bt: int, localites: int, population: int)

  function BilanDe(cs: seq<Collecte>): Bilan
  {
    Bilan(Somme(cs, NouveauxHt) - Somme(cs, DeconnectesHt), Somme(cs, NouveauxMt) - Somme(cs, DeconnectesMt),
      Somme(cs, NouveauxBt) - Somme(cs, DeconnectesBt), Somme(cs, Localites), Somme(cs, Population))
  }

  function MaxInt(a: int, b: int): int { if a >= b then a else b }

  function MinInt(a: int, b: int): int { if a <= b then a else b }

  /** `int(total * k) if total > 0 else 0`: Python's `int` truncates toward zero, here on a positive value. */
  function Estimation(total: int, k: real): int
  {
    if total > 0 then (total as real * k).Floor else 0
  }

  /** The record saved for an operator. */
  function LigneClientele(op: int, annee: int, b: Bilan): Clientele
  {
    var total := b.ht + b.mt + b.bt;
    Clientele(annee, Some(op), MaxInt(0, total), Some(MaxInt(0, b.ht)), Some(MaxInt(0, b.mt)), Some(MaxInt(0, b.bt)),
      Some(Estimation(total, 0.85)), Some(Estimation(total, 0.75)), Some(Estimation(total, 0.90)),
      Some(Min(100.0, if total != 0 then total as real / 1000.0 else 0.0)),
      Some(Min(100.0, if b.population != 0 then b.population as real / 1000.0 else 0.0)),
      Some(MinInt(100, b.localites * 2) as real))
  }

  /**
   * The saved counts are the nets clamped at 0, so they add up to at least the stored total;
   * the billed-client estimates are 0 unless the total is positive and otherwise the truncated
   * 85%, 75% and 90% of it; coverage is `min(100, 2·localities)` and the access rate
   * `min(100, total / 1000)`.
   */
  lemma {:induction false} LigneClienteleMeaning(op: int, annee: int, b: Bilan)
    ensures var r := LigneClientele(op, annee, b);
      && r.clientsHt.value >= 0 && (b.ht >= 0 ==> r.clientsHt.value == b.ht) && (b.ht < 0 ==> r.clientsHt.value == 0)
      && r.totalClients >= 0 && r.clientsHt.value + r.clientsMt.value + r.clientsBt.value >= r.totalClients
      && (b.ht >= 0 && b.mt >= 0 && b.bt >= 0 ==> r.totalClients == b.ht + b.mt + b.bt)
    ensures var r := LigneClientele(op, annee, b);
      var total := b.ht + b.mt + b.bt;
      && (total <= 0 ==> r.clientsFactures == Some(0) && r.menagesFactures == Some(0) && r.menagesDesservis == Some(0))
      && (total > 0 ==> 0 <= r.clientsFactures.value <= total
                        && r.clientsFactures.value as real <= total as real * 0.85 < r.clientsFactures.value as real + 1.0)
      && (total > 0 ==> r.menagesFactures.value <= r.clientsFactures.value <= r.menagesDesservis.value <= total)
    ensures var r := LigneClientele(op, annee, b);
      var total := b.ht + b.mt + b.bt;
      && r.tauxCouverture.value == (if b.localites * 2 <= 100 then (b.localites * 2) as real else 100.0)
      && r.tauxAcces.value <= 100.0
      && (total < 100000 ==> r.tauxAcces.value * 1000.0 == total as real)
      && (total >= 100000 ==> r.tauxAcces.value == 100.0)
  {
    var total := b.ht + b.mt + b.bt;
    if total > 0 {
      EstimationsOrdonnees(total);
    }
  }

  lemma {:induction false} EstimationsOrdonnees(total: int)
    requires total > 0
    ensures 0 <= Estimation(total, 0.75) <= Estimation(total, 0.85) <= Estimation(total, 0.90) <= total
  {
    var t := total as real;
    assert t * 0.75 <= t * 0.85 <= t * 0.90 <= t;
  }

  predicate EstActif(o: Operateur)
  {
    o.actif
  }

  /** The records of the year: one per active operator with at least one validated collection, in table order. */
  function ClienteleAnnee(ops: seq<Operateur>, cs: seq<Collecte>, annee: int): (r: seq<Clientele>)
    ensures |r| <= |ops|
  {
    if ops == [] then []
    else
      var o := ops[|ops| - 1];
      var kept := CollectesDe(cs, o.id, annee);
      ClienteleAnnee(ops[..|ops| - 1], cs, annee)
      + (if o.actif && kept != [] then [LigneClientele(o.id, annee, BilanDe(kept))] else [])
  }

  /** The clients table without the year's records. */
  function PurgerClientele(table: seq<Clientele>, annee: int): seq<Clientele>
  {
    if table == [] then []
    else
      PurgerClientele(table[..|table| - 1], annee)
      + (if table[|table| - 1].annee != annee then [table[|table| - 1]] else [])
  }

  /** The loop over the active operators; one without a validated collection is skipped. */
  method CalculerClienteleReelle(table: seq<Clientele>, ops: seq<Operateur>, cs: seq<Collecte>, annee: int)
    returns (t: seq<Clientele>)
    ensures t == PurgerClientele(table, annee) + ClienteleAnnee(ops, cs, annee)
  {
    var lignes: seq<Clientele> := [];
    for i := 0 to |ops|
      invariant lignes == ClienteleAnnee(ops[..i], cs, annee)
    {
      assert ops[..i + 1][..i] == ops[..i];
      var o := ops[i];
      if o.actif {
        var collectes := CollectesDe(cs, o.id, annee);
        if collectes != [] {
          lignes := lignes + [LigneClientele(o.id, annee, BilanDe(collectes))];
        }
      }
    }
    assert ops[..|ops|] == ops;
    t := PurgerClientele(table, annee) + lignes;
  }

  /**
   * The loop as written: the query finds no collection, so every operator is skipped and the
   * step only deletes the year's records.
   */
  method CalculerClienteleReelleAsWritten(table: seq<Clientele>, ops: seq<Operateur>, cs: seq<Collecte>, annee: int)
    returns (t: seq<Clientele>)
    ensures t == PurgerClientele(table, annee)
  {
    var lignes: seq<Clientele> := [];
    for i := 0 to |ops|
      invariant lignes == []
    {
      var o := ops[i];
      if o.actif {
        var collectes := CollectesDeAsWritten(cs, o.id, annee);
        CollectesDeAsWrittenVides(cs, o.id, annee);
        if collectes != [] {
          lignes := lignes + [LigneClientele(o.id, annee, BilanDe(collectes))];
        }
      }
    }
    t := PurgerClientele(table, annee) + lignes;
  }

  /**
   * A record is saved exactly for the active operators with a validated collection of the
   * year, each from the nets of that operator's collections.
   */
  lemma {:induction false} ClienteleAnneeMeaning(ops: seq<Operateur>, cs: seq<Collecte>, annee: int)
    ensures forall r :: r in ClienteleAnnee(ops, cs, annee) ==>
      exists o :: o in ops && o.actif && CollectesDe(cs, o.id, annee) != []
                  && r == LigneClientele(o.id, annee, BilanDe(CollectesDe(cs, o.id, annee)))
    ensures forall o :: o in ops && o.actif && CollectesDe(cs, o.id, annee) != [] ==>
      LigneClientele(o.id, annee, BilanDe(CollectesDe(cs, o.id, annee))) in ClienteleAnnee(ops, cs, annee)
  {
    if ops != [] {
      var prefix := ops[..|ops| - 1];
      ClienteleAnneeMeaning(prefix, cs, annee);
      assert ops == prefix + [ops[|ops| - 1]];
      assert forall o :: o in prefix ==> o in ops;
      assert forall o :: o in ops ==> o in prefix || o == ops[|ops| - 1];
    }
  }

  // ---------------------------------------------------------------------------------------
  // National aggregate (`calculer_statistiques_nationales_reelles`).

  /**
   * The loop as written: the entries per source compare the group's `TypeProjet` member with a
   * text (`== 'production_hydro'`); a plain `Enum` member never equals a string, so only the
   * three totals move.
   */
  function CumulerAsWritten(s: Totaux, g: GroupeSource): Totaux
  {
    s.(installee := s.installee + InstalleeDe(g), disponible := s.disponible + DisponibleDe(g),
       production := s.production + ProductionDe(g))
  }

  function TotauxAsWritten(gs: seq<GroupeSource>): Totaux
  {
    if gs == [] then TotauxInitiaux else CumulerAsWritten(TotauxAsWritten(gs[..|gs| - 1]), gs[|gs| - 1])
  }

  method AccumulerCapacitesAsWritten(gs: seq<GroupeSource>) returns (s: Totaux)
    ensures s == TotauxAsWritten(gs)
  {
    s := TotauxInitiaux;
    for i := 0 to |gs|
      invariant s == TotauxAsWritten(gs[..i])
    {
      assert gs[..i + 1][..i] == gs[..i];
      var g := gs[i];
      s := s.(installee := s.installee + OrZeroR(g.totalInstallee));
      s := s.(disponible := s.disponible + OrZeroR(g.totalDisponible));
      s := s.(production := s.production + OrZeroR(g.totalProduction));
    }
    assert gs[..|gs|] == gs;
  }

  /**
   * As written, the totals agree with the yearly statistics' loop but every per-source entry
   * stays 0, whatever the groups hold.
   */
  lemma {:induction false} TotauxAsWrittenMeaning(gs: seq<GroupeSource>)
    ensures TotauxAsWritten(gs).installee == TotauxDe(gs).installee
    ensures TotauxAsWritten(gs).disponible == TotauxDe(gs).disponible
    ensures TotauxAsWritten(gs).production == TotauxDe(gs).production
    ensures TotauxAsWritten(gs).(installee := 0.0, disponible := 0.0, production := 0.0) == TotauxInitiaux
    ensures forall t :: Part(TotauxAsWritten(gs), t) == (0.0, 0.0)
  {
    if gs != [] {
      TotauxAsWrittenMeaning(gs[..|gs| - 1]);
    }
    var s := TotauxAsWritten(gs);
    assert s.hydro == 0.0 && s.productionHydro == 0.0 && s.thermique == 0.0 && s.productionThermique == 0.0;
    assert s.solaire == 0.0 && s.productionSolaire == 0.0;
  }

  /** One hydro group of 5 MW: the intended loop reports 5 MW of hydro, the loop as written 0. */
  lemma {:induction false} PartHydroPerdue()
    ensures TotauxDe([GroupeSource(ProductionHydro, Some(5.0), None, None)]).hydro == 5.0
    ensures TotauxAsWritten([GroupeSource(ProductionHydro, Some(5.0), None, None)]).hydro == 0.0
  {
    var g := GroupeSource(ProductionHydro, Some(5.0), None, None);
    var gs := [g];
    assert gs[..0] == [];
    assert TotauxDe(gs) == Cumuler(TotauxInitiaux, g);
    assert TotauxAsWritten(gs) == CumulerAsWritten(TotauxInitiaux, g);
  }

  /** The national record as written. */
  function NationaleAsWritten(capacites: seq<Capacite>, cl: seq<Clientele>, ops: seq<Operateur>, annee: int, maintenant: int)
    : StatistiqueNationale
  {
    Nationale(capacites, cl, ops, annee, maintenant).(totaux := TotauxAsWritten(GroupesSources(capacites, annee)))
  }

  method CalculerStatistiquesNationalesReellesAsWritten(table: seq<StatistiqueNationale>, capacites: seq<Capacite>,
                                                        cl: seq<Clientele>, ops: seq<Operateur>, annee: int, maintenant: int)
    returns (t: seq<StatistiqueNationale>)
    ensures t == PurgerNationales(table, annee) + [NationaleAsWritten(capacites, cl, ops, annee, maintenant)]
  {
    var totaux := AccumulerCapacitesAsWritten(GroupesSources(capacites, annee));
    var stat := Nationale(capacites, cl, ops, annee, maintenant).(totaux := totaux);
    t := PurgerNationales(table, annee) + [stat];
  }

  // ---------------------------------------------------------------------------------------
  // The pipeline (`calculer_toutes_statistiques_reelles`).

  /** The three tables the pipeline rewrites. */
  datatype BaseReelle = BaseReelle(capacites: seq<Capacite>, clientele: seq<Clientele>, nationales: seq<StatistiqueNationale>)

  /** The tables it only reads. */
  datatype DonneesReelles = DonneesReelles(hydro: Parc, thermique: Parc, solaire: Parc, operateurs: seq<Operateur>,
                                           collectes: seq<Collecte>)

  /** The pipeline as written: capacities, clients, national aggregate; `false` at the first failure. */
  method CalculerToutesStatistiquesReellesAsWritten(b: BaseReelle, d: DonneesReelles, annee: int, maintenant: int)
    returns (ok: bool, r: BaseReelle)
    ensures ok <==> AnneeValide(annee) && GroupesReels(d.hydro.centrales, annee) == []
                    && GroupesReels(d.thermique.centrales, annee) == [] && GroupesReels(d.solaire.centrales, annee) == []
    ensures !ok ==> r == b
    ensures ok ==> r.capacites == PurgerCapacites(b.capacites, annee)
    ensures ok ==> r.clientele == PurgerClientele(b.clientele, annee)
    ensures ok ==>
      r.nationales == PurgerNationales(b.nationales, annee) + [NationaleAsWritten(r.capacites, r.clientele, d.operateurs, annee, maintenant)]
  {
    var capacites;
    ok, capacites := CalculerCapacitesReellesAsWritten(b.capacites, annee, d.hydro, d.thermique, d.solaire);
    if !ok {
      return false, b;
    }
    var clientele := CalculerClienteleReelleAsWritten(b.clientele, d.operateurs, d.collectes, annee);
    var nationales := CalculerStatistiquesNationalesReellesAsWritten(b.nationales, capacites, clientele, d.operateurs, annee, maintenant);
    r := BaseReelle(capacites, clientele, nationales);
  }

  /**
   * The pipeline with the three corrections: capacities from the reports' own data, then clients
   * from the collections validated (member comparison), then the national aggregate of the yearly statistics (per-source entries kept).
   */
  method CalculerToutesStatistiquesReelles(b: BaseReelle, d: DonneesReelles, annee: int, maintenant: int)
    returns (ok: bool, r: BaseReelle)
    ensures ok <==> AnneeValide(annee)
    ensures !ok ==> r == b
    ensures ok ==> r.capacites == PurgerCapacites(b.capacites, annee) + SauvegardeReelle(annee, d.hydro, d.thermique, d.solaire)
    ensures ok ==> r.clientele == PurgerClientele(b.clientele, annee) + ClienteleAnnee(d.operateurs, d.collectes, annee)
    ensures ok ==>
      r.nationales == PurgerNationales(b.nationales, annee) + [Nationale(r.capacites, r.clientele, d.operateurs, annee, maintenant)]
  {
    var capacites;
    ok, capacites := CalculerCapacitesReelles(b.capacites, annee, d.hydro, d.thermique, d.solaire);
    if !ok {
      return false, b;
    }
    var clientele := CalculerClienteleReelle(b.clientele, d.operateurs, d.collectes, annee);
    var nationales := CalculerStatistiquesNationales(b.nationales, capacites, clientele, d.operateurs, annee, maintenant);
    r := BaseReelle(capacites, clientele, nationales);
  }
}
