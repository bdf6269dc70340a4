// Hydro production reports and their generating groups: availability over a 30-day month,
// the load factor, and the fallbacks the group's dictionary applies to stored values.
module ProductionHydroModel {
  import opened Wrappers
  import opened Ratios

  /** The month is approximated as 30 days of 24 hours. */
  const HeuresMois: real := 720.0

  /** `RapportHydro.calcul_disponibilite`: operating hours over the month, capped at 100 (never floored). */
  function RapportDisponibilite(tempsFonctionnement: Option<real>): real
  {
    if !TruthyR(tempsFonctionnement) then 0.0
    else Min(100.0, Percent(tempsFonctionnement.value, HeuresMois))
  }

  lemma {:induction false} RapportDisponibiliteMeaning(temps: Option<real>)
    ensures !TruthyR(temps) ==> RapportDisponibilite(temps) == 0.0
    ensures RapportDisponibilite(temps) <= 100.0
    ensures TruthyR(temps) && temps.value >= HeuresMois ==> RapportDisponibilite(temps) == 100.0
    ensures TruthyR(temps) && 0.0 <= temps.value <= HeuresMois ==>
      0.0 <= RapportDisponibilite(temps) && RapportDisponibilite(temps) * HeuresMois / 100.0 == temps.value
    ensures TruthyR(temps) && temps.value < 0.0 ==> RapportDisponibilite(temps) < 0.0
  {
    if TruthyR(temps) {
      PercentOfShare(temps.value, HeuresMois);
    }
  }

  /** The columns of a `GroupeProduction` the computations read. */
  datatype Groupe = Groupe(puissanceNominale: Option<real>, heuresFonctionnement: Option<real>,
                           energieProduite: Option<real>, dureeArretsProgramme: Option<real>,
                           dureeArretsForce: Option<real>, facteurCharge: Option<real>, disponibilite: Option<real>)

  /** `calcul_facteur_charge`: the energy produced over nominal power × hours, in percent; not clamped. */
  function FacteurCharge(g: Groupe): real
  {
    if TruthyR(g.puissanceNominale) && TruthyR(g.heuresFonctionnement) && TruthyR(g.energieProduite)
       && g.puissanceNominale.value * g.heuresFonctionnement.value > 0.0
    then Percent(g.energieProduite.value, g.puissanceNominale.value * g.heuresFonctionnement.value)
    else 0.0
  }

  /** The factor is 0 unless all three inputs are set and the theoretical energy is positive, and then it accounts exactly for the energy produced. */
  lemma {:induction false} FacteurChargeMeaning(g: Groupe)
    ensures !(TruthyR(g.puissanceNominale) && TruthyR(g.heuresFonctionnement) && TruthyR(g.energieProduite)) ==> FacteurCharge(g) == 0.0
    ensures TruthyR(g.puissanceNominale) && TruthyR(g.heuresFonctionnement) && TruthyR(g.energieProduite) ==>
      var theorique := g.puissanceNominale.value * g.heuresFonctionnement.value;
      (theorique <= 0.0 ==> FacteurCharge(g) == 0.0)
      && (theorique > 0.0 ==> FacteurCharge(g) * theorique / 100.0 == g.energieProduite.value
                              && (0.0 < g.energieProduite.value <= theorique ==> 0.0 < FacteurCharge(g) <= 100.0))
  {
    if TruthyR(g.puissanceNominale) && TruthyR(g.heuresFonctionnement) && TruthyR(g.energieProduite) {
      var theorique := g.puissanceNominale.value * g.heuresFonctionnement.value;
      if theorique > 0.0 {
        assert FacteurCharge(g) == Percent(g.energieProduite.value, theorique);
        PercentOfShare(g.energieProduite.value, theorique);
      }
    }
  }

  /** `GroupeProduction.calcul_disponibilite`: the hours not lost to stops over the month; not clamped. */
  function GroupeDisponibilite(g: Groupe): real
  {
    Percent(HeuresMois - (OrZeroR(g.dureeArretsProgramme) + OrZeroR(g.dureeArretsForce)), HeuresMois)
  }

  /** No stops give 100, a whole month of stops 0, and stops beyond the month a negative availability. */
  lemma {:induction false} GroupeDisponibiliteMeaning(g: Groupe)
    ensures var arrets := OrZeroR(g.dureeArretsProgramme) + OrZeroR(g.dureeArretsForce);
      GroupeDisponibilite(g) == 100.0 - Percent(arrets, HeuresMois)
      && (arrets == 0.0 ==> GroupeDisponibilite(g) == 100.0)
      && (arrets == HeuresMois ==> GroupeDisponibilite(g) == 0.0)
      && (arrets > HeuresMois ==> GroupeDisponibilite(g) < 0.0)
      && (0.0 <= arrets <= HeuresMois ==> 0.0 <= GroupeDisponibilite(g) <= 100.0)
  {
    var arrets := OrZeroR(g.dureeArretsProgramme) + OrZeroR(g.dureeArretsForce);
    PercentAdditive(HeuresMois - arrets, arrets, HeuresMois);
    PercentOfShare(arrets, HeuresMois);
  }

  /** `stored or computed`: the dictionary keeps a stored value unless it is NULL or 0. */
  function StoredOr(stored: Option<real>, computed: real): real
  {
    if TruthyR(stored) then stored.value else computed
  }

  /** The `facteur_charge` and `disponibilite` entries of `GroupeProduction.to_dict`. */
  function DictFacteurCharge(g: Groupe): real
  {
    StoredOr(g.facteurCharge, FacteurCharge(g))
  }

  function DictDisponibilite(g: Groupe): real
  {
    StoredOr(g.disponibilite, GroupeDisponibilite(g))
  }

  /** A stored non-zero value wins; NULL or a stored 0 is replaced by the computed value. */
  lemma {:induction false} DictFallbacks(g: Groupe)
    ensures TruthyR(g.facteurCharge) ==> DictFacteurCharge(g) == g.facteurCharge.value
    ensures !TruthyR(g.facteurCharge) ==> DictFacteurCharge(g) == FacteurCharge(g)
    ensures TruthyR(g.disponibilite) ==> DictDisponibilite(g) == g.disponibilite.value
    ensures !TruthyR(g.disponibilite) ==> DictDisponibilite(g) == GroupeDisponibilite(g)
    ensures g.disponibilite == Some(0.0) && OrZeroR(g.dureeArretsProgramme) + OrZeroR(g.dureeArretsForce) == 0.0
      ==> DictDisponibilite(g) == 100.0
  {
    GroupeDisponibiliteMeaning(g);
  }
}
