// The yearly statistics pipeline of the regulator (app/are/services_statistiques.py): installed
// capacity per source and operator, the solar table, and the national aggregate, each step
// replacing the year's rows of its table; the pipeline stops at the first step that fails.
module AreStatistiques {
  import opened Wrappers
  import opened Ratios
  import opened Text
  import Collections

  /** The `TypeProjet` enumeration, used as the source column of the capacity table. */
  datatype TypeProjet = ProductionHydro | ProductionThermique | ProductionSolaire | TransportProjet | DistributionProjet | MiniGrid

  // ---------------------------------------------------------------------------------------
  // Load factor.

  /**
   * `_calculer_facteur_charge`: the year's production in GWh over the theoretical maximum
   * `capacity · 8760 / 1000` GWh, in percent and at most 100; 0 for a NULL or zero capacity.
   */
  function FacteurCharge(capacite: Option<real>, productionGwh: real): real
  {
    if !TruthyR(capacite) then 0.0
    else
      var maxGwh := capacite.value * 8760.0 / 1000.0;
      if maxGwh == 0.0 then 0.0 else Min(100.0, productionGwh / maxGwh * 100.0)
  }

  lemma {:induction false} FacteurChargeMeaning(capacite: Option<real>, productionGwh: real)
    ensures !TruthyR(capacite) ==> FacteurCharge(capacite, productionGwh) == 0.0
    ensures FacteurCharge(capacite, productionGwh) <= 100.0
    ensures TruthyR(capacite) && FacteurCharge(capacite, productionGwh) < 100.0 ==>
      FacteurCharge(capacite, productionGwh) * (capacite.value * 8.76) == productionGwh * 100.0
    ensures capacite.Some? && capacite.value > 0.0 && productionGwh >= capacite.value * 8.76 ==>
      FacteurCharge(capacite, productionGwh) == 100.0
    ensures capacite.Some? && capacite.value > 0.0 && productionGwh >= 0.0 ==>
      FacteurCharge(capacite, productionGwh) >= 0.0
  {
    if TruthyR(capacite) {
      var c := capacite.value;
      var maxGwh := c * 8760.0 / 1000.0;
      assert maxGwh == c * 8.76;
      var x := productionGwh / maxGwh * 100.0;
      assert x * maxGwh == productionGwh * 100.0;
      if c > 0.0 && productionGwh >= c * 8.76 {
        assert productionGwh / maxGwh >= 1.0;
      }
      if c > 0.0 && productionGwh >= 0.0 {
        assert productionGwh / maxGwh >= 0.0;
      }
    }
  }

  // ---------------------------------------------------------------------------------------
  // SQL aggregates over nullable columns.

  /** SQL `SUM`: NULLs are skipped, and the sum of no value at all is NULL. */
  function SommeSql(xs: seq<Option<real>>): Option<real>
  {
    if xs == [] then None
    else
      var p := SommeSql(xs[..|xs| - 1]);
      if xs[|xs| - 1].None? then p else Some(OrZeroR(p) + xs[|xs| - 1].value)
  }

  lemma {:induction false} SommeSqlNull(xs: seq<Option<real>>)
    ensures SommeSql(xs).None? <==> forall k :: 0 <= k < |xs| ==> xs[k].None?
  {
    if xs != [] {
      SommeSqlNull(xs[..|xs| - 1]);
      assert forall k :: 0 <= k < |xs| - 1 ==> xs[..|xs| - 1][k] == xs[k];
    }
  }

  /** Every value scaled by `k`: the SQL expression `column * k`. */
  function Reduites(xs: seq<Option<real>>, k: real): (r: seq<Option<real>>)
    ensures |r| == |xs|
  {
    if xs == [] then [] else Reduites(xs[..|xs| - 1], k) + [Reduite(xs[|xs| - 1], k)]
  }

  function Reduite(x: Option<real>, k: real): Option<real>
  {
    if x.None? then None else Some(x.value * k)
  }

  /** `SUM(column * k)` is `SUM(column) * k`, and both are NULL together. */
  lemma {:induction false} SommeReduite(xs: seq<Option<real>>, k: real)
    ensures SommeSql(Reduites(xs, k)).None? <==> SommeSql(xs).None?
    ensures SommeSql(xs).Some? ==> SommeSql(Reduites(xs, k)).value == SommeSql(xs).value * k
  {
    SommeReduiteNull(xs, k);
    SommeReduiteValeur(xs, k);
  }

  lemma {:induction false} SommeReduiteNull(xs: seq<Option<real>>, k: real)
    ensures SommeSql(Reduites(xs, k)).None? <==> SommeSql(xs).None?
  {
    if xs != [] {
      var xp, x := xs[..|xs| - 1], xs[|xs| - 1];
      assert xs == xp + [x];
      SommeReduiteNull(xp, k);
      SommeSqlSnoc(xp, x);
      SommeSqlSnoc(Reduites(xp, k), Reduite(x, k));
    }
  }

  /** The sum with NULL read as 0 scales with the values. */
  lemma {:induction false} SommeReduiteValeur(xs: seq<Option<real>>, k: real)
    ensures Echelonne(OrZeroR(SommeSql(Reduites(xs, k))), OrZeroR(SommeSql(xs)), k)
  {
    if xs == [] {
      assert Reduites(xs, k) == [];
      assert 0.0 * k == 0.0;
    } else {
      var xp, x := xs[..|xs| - 1], xs[|xs| - 1];
      assert xs == xp + [x];
      SommeReduiteValeur(xp, k);
      SommeSqlOrZeroSnoc(xp, x);
      SommeSqlOrZeroSnoc(Reduites(xp, k), Reduite(x, k));
      ReduiteEchelonne(x, k);
      EchelleSomme(OrZeroR(SommeSql(xs)), OrZeroR(SommeSql(xp)), OrZeroR(x),
                   OrZeroR(SommeSql(Reduites(xs, k))), OrZeroR(SommeSql(Reduites(xp, k))), OrZeroR(Reduite(x, k)), k);
    }
  }

  /** `r` is `s` scaled by `k`. */
  predicate Echelonne(r: real, s: real, k: real)
  {
    r == s * k
  }

  lemma {:induction false} ReduiteEchelonne(x: Option<real>, k: real)
    ensures Echelonne(OrZeroR(Reduite(x, k)), OrZeroR(x), k)
  {
  }

  /** With NULL read as 0, one more value adds itself to the sum. */
  lemma {:induction false} SommeSqlOrZeroSnoc(xs: seq<Option<real>>, x: Option<real>)
    ensures OrZeroR(SommeSql(xs + [x])) == OrZeroR(SommeSql(xs)) + OrZeroR(x)
  {
    SommeSqlSnoc(xs, x);
  }

  /** One more value added to a SQL sum. */
  lemma {:induction false} SommeSqlSnoc(xs: seq<Option<real>>, x: Option<real>)
    ensures SommeSql(xs + [x]) == if x.None? then SommeSql(xs) else Some(OrZeroR(SommeSql(xs)) + x.value)
  {
    assert (xs + [x])[..|xs|] == xs;
  }

  /** A sum of two parts scales when each part does. */
  lemma {:induction false} EchelleSomme(s: real, sp: real, v: real, r: real, rp: real, rv: real, k: real)
    requires s == sp + v && r == rp + rv && Echelonne(rp, sp, k) && Echelonne(rv, v, k)
    ensures Echelonne(r, s, k)
  {
  }

  // ---------------------------------------------------------------------------------------
  // Installed capacity (`calculer_capacite_installee_annuelle`).

  /** A plant of one source, with the columns the capacity query reads. */
  datatype Centrale = Centrale(operateurId: int, actif: bool, anneeMiseService: Option<int>, puissance: Option<real>)

  /** A production report joined with its plant: the plant's operator, the year, the energy in MWh. */
  datatype Rapport = Rapport(operateurId: int, annee: int, energie: Option<real>)

  /** The plants and reports of one source. */
  datatype Parc = Parc(centrales: seq<Centrale>, rapports: seq<Rapport>)

  /** A row of the installed-capacity table. */
  datatype Capacite = Capacite(
    annee: int,
    typeSource: TypeProjet,
    operateurId: Option<int>,
    installee: real,
    disponible: Option<real>,
    production: Option<real>,
    facteur: Option<real>)

  /** The query's filter: active, and put into service no later than 31 December of the year. */
  predicate EnService(c: Centrale, annee: int)
  {
    c.actif && c.anneeMiseService.Some? && c.anneeMiseService.value <= annee
  }

  /** The operators of the plants the filter keeps, in table order. */
  function OperateursEnService(cs: seq<Centrale>, annee: int): (r: seq<int>)
    ensures forall k :: 0 <= k < |r| ==> exists c :: c in cs && EnService(c, annee) && c.operateurId == r[k]
  {
    if cs == [] then []
    else
      var c := cs[|cs| - 1];
      OperateursEnService(cs[..|cs| - 1], annee) + (if EnService(c, annee) then [c.operateurId] else [])
  }

  /** The `GROUP BY operateur_id` groups: one per operator owning a kept plant. */
  function Groupes(cs: seq<Centrale>, annee: int): seq<int>
  {
    Collections.Distinct(OperateursEnService(cs, annee))
  }

  /** The powers of the operator's kept plants, the values its `SUM(puissance_installee)` adds up. */
  function Puissances(cs: seq<Centrale>, annee: int, op: int): seq<Option<real>>
  {
    if cs == [] then []
    else
      var c := cs[|cs| - 1];
      Puissances(cs[..|cs| - 1], annee, op)
      + (if EnService(c, annee) && c.operateurId == op then [c.puissance] else [])
  }

  /** The energies of the operator's reports of the year, over all its plants. */
  function Energies(rs: seq<Rapport>, annee: int, op: int): seq<Option<real>>
  {
    if rs == [] then []
    else
      var r := rs[|rs| - 1];
      Energies(rs[..|rs| - 1], annee, op) + (if r.operateurId == op && r.annee == annee then [r.energie] else [])
  }

  /** `SUM(energie_produite) or 0`, converted from MWh to GWh. */
  function ProductionGwh(p: Parc, annee: int, op: int): real
  {
    MwhEnGwh(OrZeroR(SommeSql(Energies(p.rapports, annee, op))))
  }

  /** The share of the installed capacity counted as available, per source. */
  function Disponibilite(t: TypeProjet): real
  {
    match t
    case ProductionHydro => 0.9
    case ProductionThermique => 0.85
    case ProductionSolaire => 0.80
    case _ => 1.0
  }

  /** The hydro row of an operator: available capacity is `SUM(puissance * 0.9) or 0`. */
  function LigneHydro(p: Parc, annee: int, op: int): Capacite
  {
    var total := SommeSql(Puissances(p.centrales, annee, op));
    var prod := ProductionGwh(p, annee, op);
    Capacite(annee, ProductionHydro, Some(op), OrZeroR(total),
      Some(OrZeroR(SommeSql(Reduites(Puissances(p.centrales, annee, op), 0.9)))),
      Some(prod), Some(FacteurCharge(total, prod)))
  }

  /**
   * The thermal or solar row of an operator: available capacity is `capacite_totale * k`,
   * which raises a `TypeError` (None) when every power of the group is NULL.
   */
  function LigneReduite(t: TypeProjet, p: Parc, annee: int, op: int): Option<Capacite>
  {
    var total := SommeSql(Puissances(p.centrales, annee, op));
    var prod := ProductionGwh(p, annee, op);
    if total.None? then None
    else Some(Capacite(annee, t, Some(op), total.value, Some(total.value * Disponibilite(t)),
      Some(prod), Some(FacteurCharge(total, prod))))
  }

  /** The hydro rows saved, one per group in order. */
  function LignesHydro(p: Parc, annee: int, ops: seq<int>): (r: seq<Capacite>)
    ensures |r| == |ops|
  {
    if ops == [] then [] else LignesHydro(p, annee, ops[..|ops| - 1]) + [LigneHydro(p, annee, ops[|ops| - 1])]
  }

  /** The rows saved by one loop, and whether the loop ran to its end. */
  datatype Lot = Lot(lignes: seq<Capacite>, complet: bool)

  /** The thermal or solar loop: rows are saved group by group until a group raises. */
  function LotReduit(t: TypeProjet, p: Parc, annee: int, ops: seq<int>): Lot
  {
    if ops == [] then Lot([], true)
    else
      var l := LotReduit(t, p, annee, ops[..|ops| - 1]);
      if !l.complet then l
      else match LigneReduite(t, p, annee, ops[|ops| - 1])
        case None => Lot(l.lignes, false)
        case Some(c) => Lot(l.lignes + [c], true)
  }

  /** Every row the three loops save, in order, and whether all three ran to their end. */
  function Sauvegarde(annee: int, h: Parc, th: Parc, so: Parc): Lot
  {
    var lh := LignesHydro(h, annee, Groupes(h.centrales, annee));
    var lt := LotReduit(ProductionThermique, th, annee, Groupes(th.centrales, annee));
    if !lt.complet then Lot(lh + lt.lignes, false)
    else
      var ls := LotReduit(ProductionSolaire, so, annee, Groupes(so.centrales, annee));
      Lot(lh + lt.lignes + ls.lignes, ls.complet)
  }

  /** `date(annee, 12, 31)` exists: Python's years run from 1 to 9999. */
  predicate AnneeValide(annee: int)
  {
    1 <= annee <= 9999
  }

  /** The capacity table without the year's rows (`filter_by(annee=annee).delete()`). */
  function PurgerCapacites(table: seq<Capacite>, annee: int): (r: seq<Capacite>)
    ensures forall k :: 0 <= k < |r| ==> r[k].annee != annee && r[k] in table
    ensures forall k :: 0 <= k < |table| && table[k].annee != annee ==> table[k] in r
  {
    if table == [] then []
    else
      var p := PurgerCapacites(table[..|table| - 1], annee);
      assert forall k :: 0 <= k < |table| - 1 ==> table[..|table| - 1][k] == table[k];
      p + (if table[|table| - 1].annee != annee then [table[|table| - 1]] else [])
  }

  /** The hydro loop. */
  method EnregistrerHydro(p: Parc, annee: int, ops: seq<int>) returns (lignes: seq<Capacite>)
    ensures lignes == LignesHydro(p, annee, ops)
  {
    lignes := [];
    for i := 0 to |ops|
      invariant lignes == LignesHydro(p, annee, ops[..i])
    {
      assert ops[..i + 1][..i] == ops[..i];
      lignes := lignes + [LigneHydro(p, annee, ops[i])];
    }
    assert ops[..|ops|] == ops;
  }

  /** Once a loop has raised, the later groups change nothing. */
  lemma {:induction false} LotInterrompu(t: TypeProjet, p: Parc, annee: int, ops: seq<int>, i: nat)
    requires i <= |ops| && !LotReduit(t, p, annee, ops[..i]).complet
    ensures LotReduit(t, p, annee, ops) == LotReduit(t, p, annee, ops[..i])
    decreases |ops| - i
  {
    if i < |ops| {
      assert ops[..i + 1][..i] == ops[..i];
      LotInterrompu(t, p, annee, ops, i + 1);
    } else {
      assert ops[..i] == ops;
    }
  }

  /** One more group of a loop that has not raised yet. */
  lemma {:induction false} LotReduitPas(t: TypeProjet, p: Parc, annee: int, ops: seq<int>, i: nat, lot: Lot, ligne: Option<Capacite>)
    requires i < |ops| && lot == LotReduit(t, p, annee, ops[..i]) && lot.complet
    requires ligne == LigneReduite(t, p, annee, ops[i])
    ensures LotReduit(t, p, annee, ops[..i + 1])
      == (if ligne.None? then Lot(lot.lignes, false) else Lot(lot.lignes + [ligne.value], true))
  {
    assert ops[..i + 1][..i] == ops[..i];
  }

  /** The thermal or solar loop, leaving at the first group that raises. */
  method EnregistrerReduites(t: TypeProjet, p: Parc, annee: int, ops: seq<int>) returns (lot: Lot)
    ensures lot == LotReduit(t, p, annee, ops)
  {
    lot := Lot([], true);
    var i := 0;
    while i < |ops| && lot.complet
      invariant 0 <= i <= |ops|
      invariant lot == LotReduit(t, p, annee, ops[..i])
    {
      var ligne := LigneReduite(t, p, annee, ops[i]);
      LotReduitPas(t, p, annee, ops, i, lot, ligne);
      if ligne.None? {
        lot := Lot(lot.lignes, false);
      } else {
        lot := Lot(lot.lignes + [ligne.value], true);
      }
      i := i + 1;
    }
    if lot.complet {
      assert ops[..i] == ops;
    } else {
      LotInterrompu(t, p, annee, ops, i);
    }
  }

  /**
   * `calculer_capacite_installee_annuelle`: the year's rows are replaced by one row per source
   * and operator. On failure the session is rolled back to its last commit: every `save()`
   * commits, so the deletion and the rows saved before the failure stay.
   */
  method CalculerCapaciteInstallee(table: seq<Capacite>, annee: int, h: Parc, th: Parc, so: Parc)
    returns (ok: bool, t: seq<Capacite>)
    ensures ok <==> AnneeValide(annee) && Sauvegarde(annee, h, th, so).complet
    ensures ok ==> t == PurgerCapacites(table, annee) + Sauvegarde(annee, h, th, so).lignes
    ensures !ok ==> t == (if AnneeValide(annee) && Sauvegarde(annee, h, th, so).lignes != []
                          then PurgerCapacites(table, annee) + Sauvegarde(annee, h, th, so).lignes
                          else table)
  {
    if !AnneeValide(annee) {
      return false, table;
    }
    var purge := PurgerCapacites(table, annee);
    var lh := EnregistrerHydro(h, annee, Groupes(h.centrales, annee));
    var lt := EnregistrerReduites(ProductionThermique, th, annee, Groupes(th.centrales, annee));
    var lignes := lh + lt.lignes;
    ok := lt.complet;
    if ok {
      var ls := EnregistrerReduites(ProductionSolaire, so, annee, Groupes(so.centrales, annee));
      lignes := lignes + ls.lignes;
      ok := ls.complet;
    }
    assert lignes == Sauvegarde(annee, h, th, so).lignes;
    if ok || lignes != [] {
      t := purge + lignes;
    } else {
      t := table;
    }
  }

  /** Every hydro row has its operator, and its available capacity is 90% of the installed one. */
  lemma {:induction false} LignesHydroMeaning(p: Parc, annee: int, ops: seq<int>)
    ensures forall k :: 0 <= k < |ops| ==>
      && LignesHydro(p, annee, ops)[k].operateurId == Some(ops[k])
      && LignesHydro(p, annee, ops)[k].annee == annee
      && LignesHydro(p, annee, ops)[k].typeSource == ProductionHydro
      && LignesHydro(p, annee, ops)[k].disponible == Some(0.9 * LignesHydro(p, annee, ops)[k].installee)
      && LignesHydro(p, annee, ops)[k].facteur.Some? && LignesHydro(p, annee, ops)[k].facteur.value <= 100.0
  {
    if ops != [] {
      LignesHydroMeaning(p, annee, ops[..|ops| - 1]);
      var op := ops[|ops| - 1];
      var xs := Puissances(p.centrales, annee, op);
      SommeReduite(xs, 0.9);
      FacteurChargeMeaning(SommeSql(xs), ProductionGwh(p, annee, op));
    }
  }

  /** The thermal or solar loop runs to its end exactly when every group has a non-NULL power. */
  lemma {:induction false} LotReduitComplet(t: TypeProjet, p: Parc, annee: int, ops: seq<int>)
    ensures LotReduit(t, p, annee, ops).complet <==>
      forall k :: 0 <= k < |ops| ==> SommeSql(Puissances(p.centrales, annee, ops[k])).Some?
    ensures LotReduit(t, p, annee, ops).complet ==> |LotReduit(t, p, annee, ops).lignes| == |ops|
  {
    if ops != [] {
      var prefix := ops[..|ops| - 1];
      var op := ops[|ops| - 1];
      LotReduitComplet(t, p, annee, prefix);
      var l := LotReduit(t, p, annee, prefix);
      var r := LotReduit(t, p, annee, ops);
      assert forall k :: 0 <= k < |prefix| ==> prefix[k] == ops[k];
      if !l.complet {
        assert r == l;
        var k :| 0 <= k < |prefix| && SommeSql(Puissances(p.centrales, annee, prefix[k])).None?;
        assert ops[k] == prefix[k];
      } else if LigneReduite(t, p, annee, op).None? {
        assert !r.complet;
        assert SommeSql(Puissances(p.centrales, annee, ops[|ops| - 1])).None?;
      } else {
        assert r.complet && |r.lignes| == |l.lignes| + 1;
      }
    }
  }

  /** Every row such a loop saves is the source's row of one of the groups, its available capacity the source's share. */
  lemma {:induction false} LotReduitLignes(t: TypeProjet, p: Parc, annee: int, ops: seq<int>)
    ensures forall k :: 0 <= k < |LotReduit(t, p, annee, ops).lignes| ==>
      LigneSauvee(LotReduit(t, p, annee, ops).lignes[k], t, annee, ops)
  {
    if ops != [] {
      var prefix := ops[..|ops| - 1];
      var op := ops[|ops| - 1];
      LotReduitLignes(t, p, annee, prefix);
      var l := LotReduit(t, p, annee, prefix);
      var r := LotReduit(t, p, annee, ops);
      if l.complet && LigneReduite(t, p, annee, op).Some? {
        var c := LigneReduite(t, p, annee, op).value;
        assert r.lignes == l.lignes + [c];
        LigneReduiteSauvee(t, p, annee, ops);
        forall k | 0 <= k < |r.lignes| ensures LigneSauvee(r.lignes[k], t, annee, ops) {
          if k < |l.lignes| {
            assert r.lignes[k] == l.lignes[k];
            LigneSauveeEtendue(l.lignes[k], t, annee, prefix, ops);
          }
        }
      } else {
        assert r.lignes == l.lignes;
        forall k | 0 <= k < |r.lignes| ensures LigneSauvee(r.lignes[k], t, annee, ops) {
          LigneSauveeEtendue(l.lignes[k], t, annee, prefix, ops);
        }
      }
    }
  }

  /** The row of the last group, when it has one, is a row saved for the groups. */
  lemma {:induction false} LigneReduiteSauvee(t: TypeProjet, p: Parc, annee: int, ops: seq<int>)
    requires |ops| > 0 && LigneReduite(t, p, annee, ops[|ops| - 1]).Some?
    ensures LigneSauvee(LigneReduite(t, p, annee, ops[|ops| - 1]).value, t, annee, ops)
  {
    var op := ops[|ops| - 1];
    FacteurChargeMeaning(SommeSql(Puissances(p.centrales, annee, op)), ProductionGwh(p, annee, op));
  }

  /** A row saved for the first groups is a row saved for all of them. */
  lemma {:induction false} LigneSauveeEtendue(c: Capacite, t: TypeProjet, annee: int, prefix: seq<int>, ops: seq<int>)
    requires |ops| > 0 && prefix == ops[..|ops| - 1]
    requires LigneSauvee(c, t, annee, prefix)
    ensures LigneSauvee(c, t, annee, ops)
  {
    var k :| 0 <= k < |prefix| && prefix[k] == c.operateurId.value;
    assert ops[k] == prefix[k];
  }

  /** A row saved for source `t`: its year, source and one of the groups, the source's available share, a load factor of at most 100. */
  predicate LigneSauvee(c: Capacite, t: TypeProjet, annee: int, ops: seq<int>)
  {
    && c.annee == annee && c.typeSource == t && c.operateurId.Some? && c.operateurId.value in ops
    && c.disponible == Some(c.installee * Disponibilite(t)) && c.facteur.Some? && c.facteur.value <= 100.0
  }

  /** The groups are the operators owning a kept plant, each once. */
  lemma {:induction false} GroupesMeaning(cs: seq<Centrale>, annee: int)
    ensures forall i, j :: 0 <= i < j < |Groupes(cs, annee)| ==> Groupes(cs, annee)[i] != Groupes(cs, annee)[j]
    ensures forall op :: op in Groupes(cs, annee) ==>
      exists c :: c in cs && EnService(c, annee) && c.operateurId == op
  {
  }

  // ---------------------------------------------------------------------------------------
  // Unit conversions.

  function MwhEnGwh(x: real): real { x / 1000.0 }

  function KwhEnGwh(x: real): real { x / 1000000.0 }

  /** MWh to GWh divides by 1000, kWh to GWh by a million, and kWh to MWh to GWh agrees. */
  lemma {:induction false} ConversionsMeaning(x: real)
    ensures MwhEnGwh(x) * 1000.0 == x
    ensures KwhEnGwh(x) * 1000000.0 == x
    ensures KwhEnGwh(x) == MwhEnGwh(x / 1000.0)
    ensures x >= 0.0 ==> 0.0 <= KwhEnGwh(x) <= MwhEnGwh(x) <= x
  {
  }
  // ---------------------------------------------------------------------------------------
  // National aggregate (`calculer_statistiques_nationales`).

  /** The sources of the year's capacity rows, in table order. */
  function TypesAnnee(rows: seq<Capacite>, annee: int): (r: seq<TypeProjet>)
    ensures forall k :: 0 <= k < |r| ==> exists c :: c in rows && c.annee == annee && c.typeSource == r[k]
  {
    if rows == [] then []
    else
      var c := rows[|rows| - 1];
      assert forall x :: x in rows[..|rows| - 1] ==> x in rows;
      TypesAnnee(rows[..|rows| - 1], annee) + (if c.annee == annee then [c.typeSource] else [])
  }

  /** One column of the year's rows of one source: the values a `SUM` over the group adds up. */
  function Colonne(rows: seq<Capacite>, annee: int, t: TypeProjet, f: Capacite -> Option<real>): seq<Option<real>>
  {
    if rows == [] then []
    else
      var c := rows[|rows| - 1];
      Colonne(rows[..|rows| - 1], annee, t, f) + (if c.annee == annee && c.typeSource == t then [f(c)] else [])
  }

  function InstalleeCol(c: Capacite): Option<real> { Some(c.installee) }

  function DisponibleCol(c: Capacite): Option<real> { c.disponible }

  function ProductionCol(c: Capacite): Option<real> { c.production }

  /** A row of the `GROUP BY type_source` query. */
  datatype GroupeSource = GroupeSource(
    typeSource: TypeProjet,
    totalInstallee: Option<real>,
    totalDisponible: Option<real>,
    totalProduction: Option<real>)

  function GroupeDe(rows: seq<Capacite>, annee: int, t: TypeProjet): GroupeSource
  {
    GroupeSource(t, SommeSql(Colonne(rows, annee, t, InstalleeCol)), SommeSql(Colonne(rows, annee, t, DisponibleCol)),
      SommeSql(Colonne(rows, annee, t, ProductionCol)))
  }

  function GroupesDe(rows: seq<Capacite>, annee: int, ts: seq<TypeProjet>): (r: seq<GroupeSource>)
    ensures |r| == |ts|
    ensures forall k :: 0 <= k < |ts| ==> r[k] == GroupeDe(rows, annee, ts[k])
  {
    if ts == [] then [] else GroupesDe(rows, annee, ts[..|ts| - 1]) + [GroupeDe(rows, annee, ts[|ts| - 1])]
  }

  /** The groups of the year: one per source present, in order of first appearance. */
  function GroupesSources(rows: seq<Capacite>, annee: int): seq<GroupeSource>
  {
    GroupesDe(rows, annee, Collections.Distinct(TypesAnnee(rows, annee)))
  }

  /** The groups have pairwise distinct sources. */
  predicate SourcesDistinctes(gs: seq<GroupeSource>)
  {
    forall i, j :: 0 <= i < j < |gs| ==> gs[i].typeSource != gs[j].typeSource
  }

  /** The query yields one group per source, each summing its own source's column. */
  lemma {:induction false} GroupesSourcesMeaning(rows: seq<Capacite>, annee: int)
    ensures SourcesDistinctes(GroupesSources(rows, annee))
    ensures forall g :: g in GroupesSources(rows, annee) ==> g == GroupeDe(rows, annee, g.typeSource)
  {
  }

  /** The nine capacity and production entries of the `stats` dictionary. */
  datatype Totaux = Totaux(
    installee: real,
    disponible: real,
    production: real,
    hydro: real,
    thermique: real,
    solaire: real,
    productionHydro: real,
    productionThermique: real,
    productionSolaire: real)

  const TotauxInitiaux := Totaux(0.0, 0.0, 0.0, 0.0, 0.0, 0.0, 0.0, 0.0, 0.0)

  function InstalleeDe(g: GroupeSource): real { OrZeroR(g.totalInstallee) }

  function DisponibleDe(g: GroupeSource): real { OrZeroR(g.totalDisponible) }

  function ProductionDe(g: GroupeSource): real { OrZeroR(g.totalProduction) }

  /** One turn of the loop: the three totals grow, the group's own source entries are set. */
  function Cumuler(s: Totaux, g: GroupeSource): Totaux
  {
    var s1 := s.(installee := s.installee + InstalleeDe(g), disponible := s.disponible + DisponibleDe(g),
                 production := s.production + ProductionDe(g));
    match g.typeSource
    case ProductionHydro => s1.(hydro := InstalleeDe(g), productionHydro := ProductionDe(g))
    case ProductionThermique => s1.(thermique := InstalleeDe(g), productionThermique := ProductionDe(g))
    case ProductionSolaire => s1.(solaire := InstalleeDe(g), productionSolaire := ProductionDe(g))
    case _ => s1
  }

  function TotauxDe(gs: seq<GroupeSource>): Totaux
  {
    if gs == [] then TotauxInitiaux else Cumuler(TotauxDe(gs[..|gs| - 1]), gs[|gs| - 1])
  }

  /** The loop over the groups. */
  method AccumulerCapacites(gs: seq<GroupeSource>) returns (s: Totaux)
    ensures s == TotauxDe(gs)
  {
    s := TotauxInitiaux;
    for i := 0 to |gs|
      invariant s == TotauxDe(gs[..i])
    {
      assert gs[..i + 1][..i] == gs[..i];
      var g := gs[i];
      s := s.(installee := s.installee + OrZeroR(g.totalInstallee));
      s := s.(disponible := s.disponible + OrZeroR(g.totalDisponible));
      s := s.(production := s.production + OrZeroR(g.totalProduction));
      if g.typeSource == ProductionHydro {
        s := s.(hydro := OrZeroR(g.totalInstallee), productionHydro := OrZeroR(g.totalProduction));
      } else if g.typeSource == ProductionThermique {
        s := s.(thermique := OrZeroR(g.totalInstallee), productionThermique := OrZeroR(g.totalProduction));
      } else if g.typeSource == ProductionSolaire {
        s := s.(solaire := OrZeroR(g.totalInstallee), productionSolaire := OrZeroR(g.totalProduction));
      }
    }
    assert gs[..|gs|] == gs;
  }

  /** Each national total is the sum over the groups. */
  lemma {:induction false} TotauxSommes(gs: seq<GroupeSource>)
    ensures TotauxDe(gs).installee == Collections.SumOf(InstalleeDe, gs)
    ensures TotauxDe(gs).disponible == Collections.SumOf(DisponibleDe, gs)
    ensures TotauxDe(gs).production == Collections.SumOf(ProductionDe, gs)
  {
    if gs != [] {
      TotauxSommes(gs[..|gs| - 1]);
    }
  }

  /** The capacity and production entries of one of the three production sources. */
  function Part(s: Totaux, t: TypeProjet): (real, real)
  {
    match t
    case ProductionHydro => (s.hydro, s.productionHydro)
    case ProductionThermique => (s.thermique, s.productionThermique)
    case ProductionSolaire => (s.solaire, s.productionSolaire)
    case _ => (0.0, 0.0)
  }

  /** A source without a group keeps its entries at 0. */
  lemma {:induction false} PartAbsente(gs: seq<GroupeSource>, t: TypeProjet)
    requires forall k :: 0 <= k < |gs| ==> gs[k].typeSource != t
    ensures Part(TotauxDe(gs), t) == (0.0, 0.0)
  {
    if gs != [] {
      PartAbsente(gs[..|gs| - 1], t);
    }
  }

  /** With distinct sources, a source's entries are those of its own group. */
  lemma {:induction false} PartDuGroupe(gs: seq<GroupeSource>, i: nat)
    requires SourcesDistinctes(gs) && i < |gs|
    ensures Part(TotauxDe(gs), gs[i].typeSource)
      == if gs[i].typeSource in {ProductionHydro, ProductionThermique, ProductionSolaire}
         then (InstalleeDe(gs[i]), ProductionDe(gs[i])) else (0.0, 0.0)
  {
    var prefix := gs[..|gs| - 1];
    if i == |gs| - 1 {
    } else {
      assert prefix[i] == gs[i];
      PartDuGroupe(prefix, i);
      assert gs[|gs| - 1].typeSource != gs[i].typeSource;
    }
  }

  /** A production source. */
  predicate Production(t: TypeProjet)
  {
    t == ProductionHydro || t == ProductionThermique || t == ProductionSolaire
  }

  /** With distinct production sources only, each national total is the sum of the three per-source entries. */
  lemma {:induction false} TotauxDecomposes(gs: seq<GroupeSource>)
    requires SourcesDistinctes(gs)
    requires forall k :: 0 <= k < |gs| ==> Production(gs[k].typeSource)
    ensures TotauxDe(gs).installee == TotauxDe(gs).hydro + TotauxDe(gs).thermique + TotauxDe(gs).solaire
    ensures TotauxDe(gs).production
      == TotauxDe(gs).productionHydro + TotauxDe(gs).productionThermique + TotauxDe(gs).productionSolaire
  {
    if gs != [] {
      var prefix := gs[..|gs| - 1];
      var g := gs[|gs| - 1];
      assert forall k :: 0 <= k < |prefix| ==> prefix[k] == gs[k];
      TotauxDecomposes(prefix);
      PartAbsente(prefix, g.typeSource);
    }
  }

  /** A client record of the clients table. */
  datatype Clientele = Clientele(
    annee: int,
    operateurId: Option<int>,
    totalClients: int,
    clientsHt: Option<int>,
    clientsMt: Option<int>,
    clientsBt: Option<int>,
    clientsFactures: Option<int>,
    menagesFactures: Option<int>,
    menagesDesservis: Option<int>,
    tauxAcces: Option<real>,
    tauxElectrification: Option<real>,
    tauxCouverture: Option<real>)

  /** One integer column over the year's client records. */
  function ColonneInt(cl: seq<Clientele>, annee: int, f: Clientele -> Option<int>): seq<Option<int>>
  {
    if cl == [] then []
    else
      var c := cl[|cl| - 1];
      ColonneInt(cl[..|cl| - 1], annee, f) + (if c.annee == annee then [f(c)] else [])
  }

  /** One float column over the year's client records. */
  function ColonneReal(cl: seq<Clientele>, annee: int, f: Clientele -> Option<real>): (r: seq<Option<real>>)
    ensures forall k :: 0 <= k < |r| ==> exists c :: c in cl && c.annee == annee && r[k] == f(c)
  {
    if cl == [] then []
    else
      var c := cl[|cl| - 1];
      assert forall x :: x in cl[..|cl| - 1] ==> x in cl;
      ColonneReal(cl[..|cl| - 1], annee, f) + (if c.annee == annee then [f(c)] else [])
  }

  function TotalCol(c: Clientele): Option<int> { Some(c.totalClients) }

  function HtCol(c: Clientele): Option<int> { c.clientsHt }

  function MtCol(c: Clientele): Option<int> { c.clientsMt }

  function BtCol(c: Clientele): Option<int> { c.clientsBt }

  function AccesCol(c: Clientele): Option<real> { c.tauxAcces }

  function ElectrificationCol(c: Clientele): Option<real> { c.tauxElectrification }

  function CouvertureCol(c: Clientele): Option<real> { c.tauxCouverture }

  /** SQL `SUM` of an integer column. */
  function SommeSqlInt(xs: seq<Option<int>>): Option<int>
  {
    if xs == [] then None
    else
      var p := SommeSqlInt(xs[..|xs| - 1]);
      if xs[|xs| - 1].None? then p else Some(p.GetOr(0) + xs[|xs| - 1].value)
  }

  /** The number of non-NULL values. */
  function NonNuls(xs: seq<Option<real>>): nat
  {
    if xs == [] then 0 else NonNuls(xs[..|xs| - 1]) + (if xs[|xs| - 1].Some? then 1 else 0)
  }

  /** SQL `AVG`: the mean of the non-NULL values, NULL when there is none. */
  function MoyenneSql(xs: seq<Option<real>>): Option<real>
  {
    if NonNuls(xs) == 0 then None else Some(OrZeroR(SommeSql(xs)) / NonNuls(xs) as real)
  }

  lemma {:induction false} NonNulsSnoc(xs: seq<Option<real>>, x: Option<real>)
    ensures NonNuls(xs + [x]) == NonNuls(xs) + (if x.Some? then 1 else 0)
  {
    assert (xs + [x])[..|xs|] == xs;
  }

  /** A percentage: a value in [0, 100]. */
  predicate Pourcentages(xs: seq<Option<real>>)
  {
    forall k :: 0 <= k < |xs| && xs[k].Some? ==> 0.0 <= xs[k].value <= 100.0
  }

  /** The sum is NULL exactly when no value is; a sum of percentages lies between 0 and 100 times their number. */
  lemma {:induction false} SommeBornee(xs: seq<Option<real>>)
    requires Pourcentages(xs)
    ensures SommeSql(xs).None? <==> NonNuls(xs) == 0
    ensures 0.0 <= OrZeroR(SommeSql(xs)) <= 100.0 * NonNuls(xs) as real
  {
    if xs != [] {
      var xp, x := xs[..|xs| - 1], xs[|xs| - 1];
      assert xs == xp + [x];
      assert forall k :: 0 <= k < |xp| ==> xp[k] == xs[k];
      SommeBornee(xp);
      SommeSqlSnoc(xp, x);
      NonNulsSnoc(xp, x);
    }
  }

  /** The mean times the number of values is their sum, and a mean of percentages is a percentage. */
  lemma {:induction false} MoyenneMeaning(xs: seq<Option<real>>)
    requires Pourcentages(xs)
    ensures MoyenneSql(xs).None? <==> SommeSql(xs).None?
    ensures MoyenneSql(xs).Some? ==> MoyenneSql(xs).value * NonNuls(xs) as real == SommeSql(xs).value
    ensures MoyenneSql(xs).Some? ==> 0.0 <= MoyenneSql(xs).value <= 100.0
  {
    SommeBornee(xs);
    MoyenneDe(SommeSql(xs), NonNuls(xs), MoyenneSql(xs));
  }

  /** The mean of a sum of `n` percentages over `n`, NULL without values. */
  lemma {:induction false} MoyenneDe(somme: Option<real>, n: nat, m: Option<real>)
    requires (somme.None? <==> n == 0) && 0.0 <= OrZeroR(somme) <= 100.0 * n as real
    requires m == if n == 0 then None else Some(OrZeroR(somme) / n as real)
    ensures m.None? <==> somme.None?
    ensures m.Some? ==> m.value * n as real == somme.value
    ensures m.Some? ==> 0.0 <= m.value <= 100.0
  {
    if n > 0 {
      DiviseBorne(OrZeroR(somme), n as real);
    }
  }

  lemma {:induction false} DiviseBorne(s: real, n: real)
    requires n > 0.0 && 0.0 <= s <= 100.0 * n
    ensures 0.0 <= s / n <= 100.0
    ensures s / n * n == s
  {
  }

  /** An operator, with the columns the statistics read. */
  datatype Operateur = Operateur(id: int, nom: string, actif: bool, statutLicence: Option<string>)

  /** The operators counted: active, with an active licence. */
  predicate LicenceActive(o: Operateur)
  {
    o.actif && o.statutLicence == Some("active")
  }

  /** The row of the national statistics table. */
  datatype StatistiqueNationale = StatistiqueNationale(
    annee: int,
    totaux: Totaux,
    totalClients: int,
    clientsHt: int,
    clientsMt: int,
    clientsBt: int,
    tauxAcces: real,
    tauxElectrification: real,
    tauxCouverture: real,
    nombreOperateursActifs: nat,
    dateCalcul: int)

  /**
   * The record the step saves. The clients query aggregates without `GROUP BY`, so it always
   * yields one row and the client entries are always set (to 0 when the year has no record).
   */
  function Nationale(capacites: seq<Capacite>, cl: seq<Clientele>, ops: seq<Operateur>, annee: int, maintenant: int)
    : StatistiqueNationale
  {
    StatistiqueNationale(annee, TotauxDe(GroupesSources(capacites, annee)),
      SommeSqlInt(ColonneInt(cl, annee, TotalCol)).GetOr(0),
      SommeSqlInt(ColonneInt(cl, annee, HtCol)).GetOr(0),
      SommeSqlInt(ColonneInt(cl, annee, MtCol)).GetOr(0),
      SommeSqlInt(ColonneInt(cl, annee, BtCol)).GetOr(0),
      OrZeroR(MoyenneSql(ColonneReal(cl, annee, AccesCol))),
      OrZeroR(MoyenneSql(ColonneReal(cl, annee, ElectrificationCol))),
      OrZeroR(MoyenneSql(ColonneReal(cl, annee, CouvertureCol))),
      Collections.Count(LicenceActive, ops), maintenant)
  }

  /** The national table without the year's row. */
  function PurgerNationales(table: seq<StatistiqueNationale>, annee: int): (r: seq<StatistiqueNationale>)
    ensures forall k :: 0 <= k < |r| ==> r[k].annee != annee && r[k] in table
    ensures forall k :: 0 <= k < |table| && table[k].annee != annee ==> table[k] in r
  {
    if table == [] then []
    else
      var p := PurgerNationales(table[..|table| - 1], annee);
      assert forall k :: 0 <= k < |table| - 1 ==> table[..|table| - 1][k] == table[k];
      p + (if table[|table| - 1].annee != annee then [table[|table| - 1]] else [])
  }

  /** `calculer_statistiques_nationales`: the year's row is replaced by the new aggregate. */
  method CalculerStatistiquesNationales(table: seq<StatistiqueNationale>, capacites: seq<Capacite>,
                                        cl: seq<Clientele>, ops: seq<Operateur>, annee: int, maintenant: int)
    returns (t: seq<StatistiqueNationale>)
    ensures t == PurgerNationales(table, annee) + [Nationale(capacites, cl, ops, annee, maintenant)]
  {
    var purge := PurgerNationales(table, annee);
    var totaux := AccumulerCapacites(GroupesSources(capacites, annee));
    var nb := Collections.Count(LicenceActive, ops);
    var stat := StatistiqueNationale(annee, totaux,
      SommeSqlInt(ColonneInt(cl, annee, TotalCol)).GetOr(0),
      SommeSqlInt(ColonneInt(cl, annee, HtCol)).GetOr(0),
      SommeSqlInt(ColonneInt(cl, annee, MtCol)).GetOr(0),
      SommeSqlInt(ColonneInt(cl, annee, BtCol)).GetOr(0),
      OrZeroR(MoyenneSql(ColonneReal(cl, annee, AccesCol))),
      OrZeroR(MoyenneSql(ColonneReal(cl, annee, ElectrificationCol))),
      OrZeroR(MoyenneSql(ColonneReal(cl, annee, CouvertureCol))),
      nb, maintenant);
    t := purge + [stat];
  }

  /** After the step the year has exactly one national row, the new one, and no other year's row is lost. */
  lemma {:induction false} UneStatistiqueParAnnee(table: seq<StatistiqueNationale>, annee: int, s: StatistiqueNationale)
    requires s.annee == annee
    ensures forall k :: 0 <= k < |PurgerNationales(table, annee) + [s]| ==>
      ((PurgerNationales(table, annee) + [s])[k].annee == annee <==> k == |PurgerNationales(table, annee)|)
    ensures forall k :: 0 <= k < |table| && table[k].annee != annee ==> table[k] in PurgerNationales(table, annee) + [s]
  {
  }
  /**
   * The national row: its totals are sums over the source groups, they split into the three
   * per-source entries when the year only has production rows, the operator count is bounded by
   * the table, and the access rate is a percentage when every record's rate is one.
   */
  lemma {:induction false} NationaleMeaning(capacites: seq<Capacite>, cl: seq<Clientele>, ops: seq<Operateur>, annee: int, maintenant: int)
    ensures Nationale(capacites, cl, ops, annee, maintenant).totaux.installee
      == Collections.SumOf(InstalleeDe, GroupesSources(capacites, annee))
    ensures Nationale(capacites, cl, ops, annee, maintenant).totaux.production
      == Collections.SumOf(ProductionDe, GroupesSources(capacites, annee))
    ensures (forall c :: c in capacites && c.annee == annee ==> Production(c.typeSource)) ==>
      var s := Nationale(capacites, cl, ops, annee, maintenant).totaux;
      s.installee == s.hydro + s.thermique + s.solaire
    ensures Nationale(capacites, cl, ops, annee, maintenant).nombreOperateursActifs <= |ops|
    ensures (forall c :: c in cl && c.annee == annee && c.tauxAcces.Some? ==> 0.0 <= c.tauxAcces.value <= 100.0) ==>
      0.0 <= Nationale(capacites, cl, ops, annee, maintenant).tauxAcces <= 100.0
  {
    var gs := GroupesSources(capacites, annee);
    TotauxSommes(gs);
    GroupesSourcesMeaning(capacites, annee);
    if forall c :: c in capacites && c.annee == annee ==> Production(c.typeSource) {
      TotauxDecomposes(gs);
    }
    var xs := ColonneReal(cl, annee, AccesCol);
    if forall c :: c in cl && c.annee == annee && c.tauxAcces.Some? ==> 0.0 <= c.tauxAcces.value <= 100.0 {
      MoyenneMeaning(xs);
    }
  }

  // ---------------------------------------------------------------------------------------
  // Solar table (`generer_donnees_tableau_solaire`).

  /** A row of the solar production table. */
  datatype ProductionSolaireLigne = ProductionSolaireLigne(
    annee: int,
    typeInstallation: string,
    operateurId: Option<int>,
    puissance: real,
    nombreInstallations: Option<int>,
    productionGwh: Option<real>)

  /** One entry of the 2024 data: operator name, installation type, production in MWh, capacity in MW. */
  datatype DonneeSolaire = DonneeSolaire(operateur: string, typeInstallation: string, productionMwh: real, capaciteMw: real)

  const Donnees2024: seq<DonneeSolaire> := [
    DonneeSolaire("NURU", "Champs solaires", 2918.60, 1.90),
    DonneeSolaire("ALTECH", "Kits solaires", 0.20, 0.20),
    DonneeSolaire("BBOXX", "Kits Solaires", 618.10, 1.16)
  ]

  /** One entry of the 2020-2024 national evolution, in kWh. */
  datatype Evolution = Evolution(annee: int, productionKwh: real)

  const Evolutions: seq<Evolution> := [
    Evolution(2020, 253462.0),
    Evolution(2021, 1074312.72),
    Evolution(2022, 1895163.43),
    Evolution(2023, 2716014.145),
    Evolution(2024, 3536864.86)
  ]

  /** `type_installation.lower().replace(' ', '_')`. */
  function NormaliserType(s: string): string
  {
    ReplaceAll(Lower(s), " ", "_")
  }

  /** Replacing the space character, one character at a time. */
  function SansEspaces(s: string): (r: string)
    ensures |r| == |s|
    ensures forall i :: 0 <= i < |s| ==> r[i] == if s[i] == ' ' then '_' else s[i]
  {
    seq(|s|, i requires 0 <= i < |s| => if s[i] == ' ' then '_' else s[i])
  }

  lemma {:induction false} ReplaceEspaces(s: string)
    ensures ReplaceAll(s, " ", "_") == SansEspaces(s)
    decreases |s|
  {
    if |s| >= 1 {
      ReplaceEspaces(s[1..]);
      assert s[..1] == [s[0]];
      assert SansEspaces(s) == [if s[0] == ' ' then '_' else s[0]] + SansEspaces(s[1..]);
    }
  }

  /** The normalised type keeps the length, has no space and no upper-case ASCII letter, and marks each space with '_'. */
  lemma {:induction false} NormaliserTypeMeaning(s: string)
    ensures |NormaliserType(s)| == |s|
    ensures forall i :: 0 <= i < |s| ==> NormaliserType(s)[i] == if s[i] == ' ' then '_' else LowerChar(s[i])
    ensures ' ' !in NormaliserType(s)
    ensures forall i :: 0 <= i < |s| ==> !('A' <= NormaliserType(s)[i] <= 'Z')
  {
    ReplaceEspaces(Lower(s));
  }

  /** `Operateur.query.filter_by(nom=...).first()`. */
  function PremierNomme(ops: seq<Operateur>, nom: string): (r: Option<Operateur>)
    ensures r.Some? ==> r.value in ops && r.value.nom == nom
    ensures r.None? ==> forall k :: 0 <= k < |ops| ==> ops[k].nom != nom
  {
    if ops == [] then None else if ops[0].nom == nom then Some(ops[0]) else PremierNomme(ops[1..], nom)
  }

  /** The 2024 row of one entry: its operator when one has that name, one installation. */
  function Ligne2024(d: DonneeSolaire, ops: seq<Operateur>): ProductionSolaireLigne
  {
    var o := PremierNomme(ops, d.operateur);
    ProductionSolaireLigne(2024, NormaliserType(d.typeInstallation), if o.Some? then Some(o.value.id) else None,
      d.capaciteMw, Some(1), Some(MwhEnGwh(d.productionMwh)))
  }

  function Lignes2024(ds: seq<DonneeSolaire>, ops: seq<Operateur>): (r: seq<ProductionSolaireLigne>)
    ensures |r| == |ds|
    ensures forall k :: 0 <= k < |ds| ==> r[k] == Ligne2024(ds[k], ops)
  {
    if ds == [] then [] else Lignes2024(ds[..|ds| - 1], ops) + [Ligne2024(ds[|ds| - 1], ops)]
  }

  /**
   * The 2024 rows: each carries its entry's capacity and its production converted to GWh, and
   * the id of the first operator of that name exactly when one exists.
   */
  lemma {:induction false} Lignes2024Meaning(ops: seq<Operateur>)
    ensures forall k :: 0 <= k < |Donnees2024| ==>
      && Lignes2024(Donnees2024, ops)[k].annee == 2024
      && Lignes2024(Donnees2024, ops)[k].puissance == Donnees2024[k].capaciteMw
      && Lignes2024(Donnees2024, ops)[k].productionGwh.value * 1000.0 == Donnees2024[k].productionMwh
      && (Lignes2024(Donnees2024, ops)[k].operateurId.Some? <==> exists o :: o in ops && o.nom == Donnees2024[k].operateur)
  {
    forall k | 0 <= k < |Donnees2024|
      ensures Lignes2024(Donnees2024, ops)[k].operateurId.Some? <==> exists o :: o in ops && o.nom == Donnees2024[k].operateur
    {
      var o := PremierNomme(ops, Donnees2024[k].operateur);
      if o.None? {
        assert forall x :: x in ops ==> x.nom != Donnees2024[k].operateur;
      }
    }
  }

  /** The national row of one evolution entry. */
  function LigneEvolution(e: Evolution): ProductionSolaireLigne
  {
    ProductionSolaireLigne(e.annee, "nationale", None, 0.0, None, Some(KwhEnGwh(e.productionKwh)))
  }

  /** The evolution entries other than 2024, as rows. */
  function LignesEvolution(es: seq<Evolution>): seq<ProductionSolaireLigne>
  {
    if es == [] then []
    else LignesEvolution(es[..|es| - 1]) + (if es[|es| - 1].annee != 2024 then [LigneEvolution(es[|es| - 1])] else [])
  }

  /** The solar table without one year's rows. */
  function PurgerSolaire(table: seq<ProductionSolaireLigne>, annee: int): seq<ProductionSolaireLigne>
  {
    if table == [] then []
    else
      PurgerSolaire(table[..|table| - 1], annee)
      + (if table[|table| - 1].annee != annee then [table[|table| - 1]] else [])
  }

  /** The table after the step: 2024 rebuilt from its data, the other evolution years appended. */
  function TableauSolaire(table: seq<ProductionSolaireLigne>, ops: seq<Operateur>): seq<ProductionSolaireLigne>
  {
    PurgerSolaire(table, 2024) + Lignes2024(Donnees2024, ops) + LignesEvolution(Evolutions)
  }

  method GenererDonneesTableauSolaire(table: seq<ProductionSolaireLigne>, ops: seq<Operateur>)
    returns (t: seq<ProductionSolaireLigne>)
    ensures t == TableauSolaire(table, ops)
  {
    var purge := PurgerSolaire(table, 2024);
    var nouvelles := AjouterLignes2024(Donnees2024, ops);
    var evolution := AjouterEvolution(Evolutions);
    t := purge + nouvelles + evolution;
  }

  /** The loop over the 2024 data: one row per entry, in order. */
  method AjouterLignes2024(ds: seq<DonneeSolaire>, ops: seq<Operateur>) returns (nouvelles: seq<ProductionSolaireLigne>)
    ensures nouvelles == Lignes2024(ds, ops)
  {
    nouvelles := [];
    for i := 0 to |ds|
      invariant nouvelles == Lignes2024(ds[..i], ops)
    {
      assert ds[..i + 1][..i] == ds[..i];
      nouvelles := nouvelles + [Ligne2024(ds[i], ops)];
    }
    assert ds[..|ds|] == ds;
  }

  /** The loop over the national evolution: one row per year other than 2024, in order. */
  method AjouterEvolution(es: seq<Evolution>) returns (evolution: seq<ProductionSolaireLigne>)
    ensures evolution == LignesEvolution(es)
  {
    evolution := [];
    for i := 0 to |es|
      invariant evolution == LignesEvolution(es[..i])
    {
      assert es[..i + 1][..i] == es[..i];
      if es[i].annee != 2024 {
        evolution := evolution + [LigneEvolution(es[i])];
      }
    }
    assert es[..|es|] == es;
  }

  /** The number of rows of a year. */
  function NombreAnnee(t: seq<ProductionSolaireLigne>, annee: int): nat
  {
    if t == [] then 0 else NombreAnnee(t[..|t| - 1], annee) + (if t[|t| - 1].annee == annee then 1 else 0)
  }

  lemma {:induction false} NombreAnneeConcat(a: seq<ProductionSolaireLigne>, b: seq<ProductionSolaireLigne>, annee: int)
    ensures NombreAnnee(a + b, annee) == NombreAnnee(a, annee) + NombreAnnee(b, annee)
  {
    if b != [] {
      assert (a + b)[..|a + b| - 1] == a + b[..|b| - 1];
      NombreAnneeConcat(a, b[..|b| - 1], annee);
    } else {
      assert a + b == a;
    }
  }

  lemma {:induction false} NombreApresPurge(t: seq<ProductionSolaireLigne>, purgee: int, annee: int)
    ensures NombreAnnee(PurgerSolaire(t, purgee), annee) == if annee == purgee then 0 else NombreAnnee(t, annee)
  {
    if t != [] {
      NombreApresPurge(t[..|t| - 1], purgee, annee);
      NombreAnneeConcat(PurgerSolaire(t[..|t| - 1], purgee),
        if t[|t| - 1].annee != purgee then [t[|t| - 1]] else [], annee);
    }
  }

  /** The five evolution rows appended: one national row for each year 2020 to 2023, in kWh converted to GWh. */
  lemma {:induction false} LignesEvolutionMeaning()
    ensures |LignesEvolution(Evolutions)| == 4
    ensures forall k :: 0 <= k < 4 ==>
      && LignesEvolution(Evolutions)[k].annee == 2020 + k
      && LignesEvolution(Evolutions)[k].typeInstallation == "nationale"
      && LignesEvolution(Evolutions)[k].operateurId.None?
      && LignesEvolution(Evolutions)[k].productionGwh == Some(KwhEnGwh(Evolutions[k].productionKwh))
  {
    assert Evolutions[..4][..3] == Evolutions[..3];
    assert Evolutions[..3][..2] == Evolutions[..2];
    assert Evolutions[..2][..1] == Evolutions[..1];
    assert Evolutions[..1][..0] == [];
    assert LignesEvolution(Evolutions[..1]) == [LigneEvolution(Evolutions[0])];
    assert LignesEvolution(Evolutions[..2]) == [LigneEvolution(Evolutions[0]), LigneEvolution(Evolutions[1])];
    assert LignesEvolution(Evolutions[..3]) == LignesEvolution(Evolutions[..2]) + [LigneEvolution(Evolutions[2])];
    assert LignesEvolution(Evolutions[..4]) == LignesEvolution(Evolutions[..3]) + [LigneEvolution(Evolutions[3])];
    assert Evolutions[..5] == Evolutions;
  }

  lemma {:induction false} NombreAnneePas(t: seq<ProductionSolaireLigne>, i: nat, annee: int)
    requires i < |t|
    ensures NombreAnnee(t[..i + 1], annee) == NombreAnnee(t[..i], annee) + (if t[i].annee == annee then 1 else 0)
  {
    assert t[..i + 1][..i] == t[..i];
  }

  /** Rows that all belong to one year. */
  lemma {:induction false} NombreUniforme(t: seq<ProductionSolaireLigne>, y: int, annee: int)
    requires forall k :: 0 <= k < |t| ==> t[k].annee == y
    ensures NombreAnnee(t, annee) == if annee == y then |t| else 0
  {
    if t != [] {
      NombreUniforme(t[..|t| - 1], y, annee);
    }
  }

  /** The evolution rows hold one row for each year 2020 to 2023. */
  lemma {:induction false} NombreEvolution(annee: int)
    ensures NombreAnnee(LignesEvolution(Evolutions), annee) == if 2020 <= annee <= 2023 then 1 else 0
  {
    var c := LignesEvolution(Evolutions);
    LignesEvolutionMeaning();
    assert c[..0] == [];
    NombreAnneePas(c, 0, annee);
    NombreAnneePas(c, 1, annee);
    NombreAnneePas(c, 2, annee);
    NombreAnneePas(c, 3, annee);
    assert c[..4] == c;
  }

  /**
   * Each run rebuilds 2024 to exactly its three rows but only appends the other years: every
   * run adds one more national row for each of 2020 to 2023, and other years are untouched.
   */
  lemma {:induction false} TableauSolaireRelance(table: seq<ProductionSolaireLigne>, ops: seq<Operateur>, annee: int)
    ensures annee == 2024 ==> NombreAnnee(TableauSolaire(table, ops), annee) == 3
    ensures 2020 <= annee <= 2023 ==> NombreAnnee(TableauSolaire(table, ops), annee) == NombreAnnee(table, annee) + 1
    ensures !(2020 <= annee <= 2024) ==> NombreAnnee(TableauSolaire(table, ops), annee) == NombreAnnee(table, annee)
  {
    var a := PurgerSolaire(table, 2024);
    var b := Lignes2024(Donnees2024, ops);
    var c := LignesEvolution(Evolutions);
    NombreAnneeConcat(a + b, c, annee);
    NombreAnneeConcat(a, b, annee);
    NombreApresPurge(table, 2024, annee);
    NombreUniforme(b, 2024, annee);
    NombreEvolution(annee);
  }

  // ---------------------------------------------------------------------------------------
  // The pipeline (`calculer_toutes_statistiques`).

  /** The three tables the pipeline rewrites. */
  datatype Base = Base(
    capacites: seq<Capacite>,
    solaire: seq<ProductionSolaireLigne>,
    nationales: seq<StatistiqueNationale>)

  /** The tables it only reads. */
  datatype Donnees = Donnees(hydro: Parc, thermique: Parc, solaire: Parc, clientele: seq<Clientele>, operateurs: seq<Operateur>)

  /**
   * `calculer_toutes_statistiques`: the capacity step, then the solar table, then the national
   * aggregate over the new capacity rows; `false` as soon as a step fails, the later steps skipped.
   * `maintenant` is the clock reading stored as `date_calcul`.
   */
  method CalculerToutesStatistiques(b: Base, d: Donnees, annee: int, maintenant: int) returns (ok: bool, r: Base)
    ensures ok <==> AnneeValide(annee) && Sauvegarde(annee, d.hydro, d.thermique, d.solaire).complet
    ensures !ok ==> r.solaire == b.solaire && r.nationales == b.nationales
    ensures !ok ==> r.capacites == (if AnneeValide(annee) && Sauvegarde(annee, d.hydro, d.thermique, d.solaire).lignes != []
                                    then PurgerCapacites(b.capacites, annee) + Sauvegarde(annee, d.hydro, d.thermique, d.solaire).lignes
                                    else b.capacites)
    ensures ok ==> r.capacites == PurgerCapacites(b.capacites, annee) + Sauvegarde(annee, d.hydro, d.thermique, d.solaire).lignes
    ensures ok ==> r.solaire == TableauSolaire(b.solaire, d.operateurs)
    ensures ok ==>
      r.nationales == PurgerNationales(b.nationales, annee) + [Nationale(r.capacites, d.clientele, d.operateurs, annee, maintenant)]
  {
    var capacites;
    ok, capacites := CalculerCapaciteInstallee(b.capacites, annee, d.hydro, d.thermique, d.solaire);
    if !ok {
      return false, b.(capacites := capacites);
    }
    var solaire := GenererDonneesTableauSolaire(b.solaire, d.operateurs);
    var nationales := CalculerStatistiquesNationales(b.nationales, capacites, d.clientele, d.operateurs, annee, maintenant);
    r := Base(capacites, solaire, nationales);
  }
}
