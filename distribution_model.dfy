// The monthly distribution record: end-of-month client counts, energy and revenue totals,
// payment and loss rates, and the one-record-per-network-and-month rule.
module DistributionModel {
  import opened Wrappers
  import opened Python
  import opened Ratios

  /** A value per voltage level: high (HT), medium (MT) and low (BT) tension. */
  datatype ParNiveau<T> = ParNiveau(ht: T, mt: T, bt: T)

  datatype Niveau = HT | MT | BT

  function Au<T>(p: ParNiveau<T>, n: Niveau): T
  {
    match n
    case HT => p.ht
    case MT => p.mt
    case BT => p.bt
  }

  /** The columns of `DonneesDistributionMensuelles` the derived properties read; NULL is `None`. */
  datatype Donnees = Donnees(
    reseauId: int, operateurId: int, annee: int, mois: int,
    clientsDebut: ParNiveau<Option<int>>, nouveaux: ParNiveau<Option<int>>, deconnexions: ParNiveau<Option<int>>,
    energieDistribuee: ParNiveau<Option<real>>, revenus: ParNiveau<Option<real>>,
    energieAchetee: Option<real>, pertesTechniques: Option<real>, pertesCommerciales: Option<real>,
    facturesEmises: Option<int>, facturesPayees: Option<int>, impayes: Option<real>)

  /** `clients_<niveau>_fin_mois`: start of month plus connections minus disconnections, an empty count as 0. */
  function ClientsFinMois(d: Donnees, n: Niveau): int
  {
    OrZero(Au(d.clientsDebut, n)) + OrZero(Au(d.nouveaux, n)) - OrZero(Au(d.deconnexions, n))
  }

  /** `total_clients_fin_mois`. */
  function TotalClientsFinMois(d: Donnees): int
  {
    ClientsFinMois(d, HT) + ClientsFinMois(d, MT) + ClientsFinMois(d, BT)
  }

  function SumInt(p: ParNiveau<Option<int>>): int
  {
    OrZero(p.ht) + OrZero(p.mt) + OrZero(p.bt)
  }

  function SumReal(p: ParNiveau<Option<real>>): real
  {
    OrZeroR(p.ht) + OrZeroR(p.mt) + OrZeroR(p.bt)
  }

  /** `energie_totale_distribuee_mwh`. */
  function EnergieTotale(d: Donnees): real
  {
    SumReal(d.energieDistribuee)
  }

  /** `revenus_totaux_usd`. */
  function RevenusTotaux(d: Donnees): real
  {
    SumReal(d.revenus)
  }

  /** `taux_paiement`: paid over issued invoices in percent, 0 when no invoice was issued. */
  function TauxPaiement(d: Donnees): real
  {
    if !TruthyInt(d.facturesEmises) then 0.0
    else Percent(OrZero(d.facturesPayees) as real, d.facturesEmises.value as real)
  }

  /** `taux_pertes_techniques`: 0 when no energy was bought. */
  function TauxPertesTechniques(d: Donnees): real
  {
    if !TruthyR(d.energieAchetee) then 0.0 else Percent(OrZeroR(d.pertesTechniques), d.energieAchetee.value)
  }

  /** `taux_pertes_commerciales`. */
  function TauxPertesCommerciales(d: Donnees): real
  {
    if !TruthyR(d.energieAchetee) then 0.0 else Percent(OrZeroR(d.pertesCommerciales), d.energieAchetee.value)
  }

  /** `taux_pertes_totales`. */
  function TauxPertesTotales(d: Donnees): real
  {
    TauxPertesTechniques(d) + TauxPertesCommerciales(d)
  }

  /**
   * Clients are conserved level by level and in total: the month ends with what it started
   * with, plus the connections, minus the disconnections.
   */
  lemma {:induction false} ClientsConservation(d: Donnees)
    ensures forall n :: ClientsFinMois(d, n) - OrZero(Au(d.clientsDebut, n)) == OrZero(Au(d.nouveaux, n)) - OrZero(Au(d.deconnexions, n))
    ensures TotalClientsFinMois(d) == SumInt(d.clientsDebut) + SumInt(d.nouveaux) - SumInt(d.deconnexions)
    ensures (forall n :: OrZero(Au(d.deconnexions, n)) <= OrZero(Au(d.clientsDebut, n)) + OrZero(Au(d.nouveaux, n)))
              ==> TotalClientsFinMois(d) >= 0
  {
    assert forall n :: ClientsFinMois(d, n) >= 0 <==>
      OrZero(Au(d.deconnexions, n)) <= OrZero(Au(d.clientsDebut, n)) + OrZero(Au(d.nouveaux, n));
  }

  /** Nothing clamps the count: more disconnections than clients give a negative end-of-month figure. */
  lemma {:induction false} ClientsFinMoisMayBeNegative(d: Donnees)
    requires d.clientsDebut.bt == Some(0) && d.nouveaux.bt == None && d.deconnexions.bt == Some(3)
    ensures ClientsFinMois(d, BT) == -3
  {
  }

  /** The payment rate is 0 without invoices; otherwise it accounts for every paid invoice and is a percentage when at most all are paid. */
  lemma {:induction false} TauxPaiementMeaning(d: Donnees)
    ensures !TruthyInt(d.facturesEmises) ==> TauxPaiement(d) == 0.0
    ensures TruthyInt(d.facturesEmises) && d.facturesEmises.value > 0 ==>
      TauxPaiement(d) * (d.facturesEmises.value as real) / 100.0 == OrZero(d.facturesPayees) as real
    ensures d.facturesEmises.Some? && 0 <= OrZero(d.facturesPayees) <= d.facturesEmises.value ==>
      0.0 <= TauxPaiement(d) <= 100.0
  {
    if TruthyInt(d.facturesEmises) && d.facturesEmises.value > 0 {
      PercentOfShare(OrZero(d.facturesPayees) as real, d.facturesEmises.value as real);
    }
  }

  /**
   * The total loss rate is the loss of both kinds over the energy bought, 0 when none was
   * bought, and a percentage when the declared losses do not exceed the energy bought.
   */
  lemma {:induction false} TauxPertesMeaning(d: Donnees)
    ensures !TruthyR(d.energieAchetee) ==> TauxPertesTotales(d) == 0.0
    ensures TruthyR(d.energieAchetee) ==>
      TauxPertesTotales(d) == Percent(OrZeroR(d.pertesTechniques) + OrZeroR(d.pertesCommerciales), d.energieAchetee.value)
    ensures TruthyR(d.energieAchetee) && d.energieAchetee.value > 0.0 && 0.0 <= OrZeroR(d.pertesTechniques)
            && 0.0 <= OrZeroR(d.pertesCommerciales)
            && OrZeroR(d.pertesTechniques) + OrZeroR(d.pertesCommerciales) <= d.energieAchetee.value
      ==> 0.0 <= TauxPertesTechniques(d) <= TauxPertesTotales(d) <= 100.0
  {
    if TruthyR(d.energieAchetee) {
      var a := d.energieAchetee.value;
      var t := OrZeroR(d.pertesTechniques);
      var c := OrZeroR(d.pertesCommerciales);
      PercentAdditive(t, c, a);
      if a > 0.0 && 0.0 <= t && 0.0 <= c && t + c <= a {
        PercentOfShare(t, a);
        PercentOfShare(c, a);
        PercentOfShare(t + c, a);
      }
    }
  }

  /** The natural key of a monthly record. */
  function Periode(d: Donnees): (int, int, int)
  {
    (d.reseauId, d.annee, d.mois)
  }

  /** The unique constraint `uq_donnees_distrib_periode`: no two rows share network, year and month. */
  predicate PeriodesUniques(rows: seq<Donnees>)
  {
    forall i, j :: 0 <= i < j < |rows| ==> Periode(rows[i]) != Periode(rows[j])
  }

  predicate HasPeriode(rows: seq<Donnees>, k: (int, int, int))
  {
    exists i :: 0 <= i < |rows| && Periode(rows[i]) == k
  }

  /** An INSERT under the constraint: a second row for the same period is refused with an integrity error. */
  function Inserer(rows: seq<Donnees>, d: Donnees): Result<seq<Donnees>>
  {
    if HasPeriode(rows, Periode(d)) then Err("IntegrityError") else Ok(rows + [d])
  }

  /** Inserting keeps the constraint, refuses exactly the duplicates and otherwise appends the row. */
  lemma {:induction false} InsererPreservesUnique(rows: seq<Donnees>, d: Donnees)
    requires PeriodesUniques(rows)
    ensures Inserer(rows, d).Ok? ==> PeriodesUniques(Inserer(rows, d).value) && Inserer(rows, d).value == rows + [d]
    ensures Inserer(rows, d).Err? <==> exists i :: 0 <= i < |rows| && Periode(rows[i]) == Periode(d)
  {
    if !HasPeriode(rows, Periode(d)) {
      var r := rows + [d];
      forall i, j | 0 <= i < j < |r|
        ensures Periode(r[i]) != Periode(r[j])
      {
        if j == |rows| {
          assert r[i] == rows[i];
        } else {
          assert r[i] == rows[i] && r[j] == rows[j];
        }
      }
    }
  }
}
