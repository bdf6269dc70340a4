// Alerts the regulator raises on the ARE dashboard: their column defaults, whether one is
// past its deadline and how many days remain. Dates are whole days.
module DashboardAreModel {
  import opened Wrappers

  /** The columns of `AlerteRegulateur` the computed properties read (`statut` is free text). */
  datatype Alerte = Alerte(dateEcheance: Option<int>, statut: Option<string>, priorite: Option<int>)

  /** The row as stored: a missing status becomes 'active' and a missing priority 3 (low). */
  function Inserted(a: Alerte): Alerte
  {
    a.(statut := Some(a.statut.GetOr("active")), priorite := Some(a.priorite.GetOr(3)))
  }

  /** Both properties look only at alerts that have a deadline and are still 'active'. */
  predicate Suivie(a: Alerte)
  {
    a.dateEcheance.Some? && a.statut == Some("active")
  }

  /** `is_expired`: today is strictly after the deadline. */
  predicate IsExpired(a: Alerte, today: int)
  {
    Suivie(a) && today > a.dateEcheance.value
  }

  /** `jours_restants`: the deadline minus today, in days (negative once passed). */
  function JoursRestants(a: Alerte, today: int): Option<int>
  {
    if Suivie(a) then Some(a.dateEcheance.value - today) else None
  }

  /** A freshly inserted alert is active with the given or the default priority, and inserting twice changes nothing. */
  lemma {:induction false} InsertedDefaults(a: Alerte)
    ensures Inserted(a).statut == (if a.statut.None? then Some("active") else a.statut)
    ensures Inserted(a).priorite == (if a.priorite.None? then Some(3) else a.priorite)
    ensures Inserted(Inserted(a)) == Inserted(a)
    ensures a.statut.None? ==> (Suivie(Inserted(a)) <==> a.dateEcheance.Some?)
  {
  }

  /** The two properties are defined together, and the alert is expired exactly when less than zero days remain. */
  lemma {:induction false} ExpiredIffNegative(a: Alerte, today: int)
    ensures JoursRestants(a, today).Some? <==> Suivie(a)
    ensures JoursRestants(a, today).None? ==> !IsExpired(a, today)
    ensures JoursRestants(a, today).Some? ==> (IsExpired(a, today) <==> JoursRestants(a, today).value < 0)
    ensures JoursRestants(a, today).Some? && JoursRestants(a, today).value == 0 ==> !IsExpired(a, today)
  {
  }

  /** Once expired an alert stays expired while nothing else changes, and each day takes one off the count. */
  lemma {:induction false} ExpiryMonotone(a: Alerte, today: int, later: int)
    requires today <= later
    ensures IsExpired(a, today) ==> IsExpired(a, later)
    ensures JoursRestants(a, today).Some? ==> JoursRestants(a, later) == Some(JoursRestants(a, today).value - (later - today))
  {
  }

  /** Resolving or starting work on an alert stops both properties. */
  lemma {:induction false} OnlyActiveAlertsExpire(a: Alerte, today: int)
    requires a.statut == Some("resolue") || a.statut == Some("en_cours")
    ensures !IsExpired(a, today) && JoursRestants(a, today).None?
  {
  }
}
