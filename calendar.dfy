// French month names and the "period" labels the models build from a month and a year.
module Calendar {
  import opened Wrappers
  import opened Text
  import opened Python

  /** The name list the report models index by month number; entry 0 is empty. */
  const MoisNoms: seq<string> := [
    "", "Janvier", "Février", "Mars", "Avril", "Mai", "Juin",
    "Juillet", "Août", "Septembre", "Octobre", "Novembre", "Décembre"
  ]

  /** The month dictionaries `{1: 'Janvier', ..., 12: 'Décembre'}` and their `.get(n)`. */
  function MonthName(n: int): (r: Option<string>)
    ensures r.Some? <==> 1 <= n <= 12
    ensures r.Some? ==> r.value == MoisNoms[n] && r.value != "" && ' ' !in r.value
  {
    if 1 <= n <= 12 then Some(MoisNoms[n]) else None
  }

  /** The month number of a name of the list, used to show the names distinct. */
  function MonthIndex(name: string): int
  {
    if name == "Janvier" then 1 else if name == "Février" then 2 else if name == "Mars" then 3
    else if name == "Avril" then 4 else if name == "Mai" then 5 else if name == "Juin" then 6
    else if name == "Juillet" then 7 else if name == "Août" then 8 else if name == "Septembre" then 9
    else if name == "Octobre" then 10 else if name == "Novembre" then 11 else if name == "Décembre" then 12
    else 0
  }

  lemma {:induction false} MonthIndexOfName(n: int)
    requires 1 <= n <= 12
    ensures MonthIndex(MoisNoms[n]) == n
  {
  }

  /** The twelve names are pairwise distinct. */
  lemma {:induction false} MonthNameInjective(a: int, b: int)
    requires MonthName(a).Some? && MonthName(a) == MonthName(b)
    ensures a == b
  {
    MonthIndexOfName(a);
    MonthIndexOfName(b);
  }

  /** Every name starts with an upper-case letter, so no name is the decimal text of a number. */
  lemma {:induction false} MonthNameNotNumber(n: int, k: int)
    requires 1 <= n <= 12
    ensures MoisNoms[n] != IntToString(k)
  {
    var m: nat := if k < 0 then -k else k;
    NatToStringShape(m);
    var s := IntToString(k);
    assert s[0] == '-' || IsDigit(s[0]);
    assert 'A' <= MoisNoms[n][0] <= 'Z';
  }

  lemma {:induction false} IntToStringInjective(a: int, b: int)
    requires IntToString(a) == IntToString(b)
    ensures a == b
  {
    ParseIntOfString(a);
    ParseIntOfString(b);
  }

  /** The `month_name` template filter: the French name for 1..12, `str(n)` for any other number. */
  function MonthNameFilter(n: int): string
  {
    MonthName(n).GetOr(IntToString(n))
  }

  /** Different month numbers are never shown with the same text. */
  lemma {:induction false} MonthNameFilterInjective(a: int, b: int)
    requires MonthNameFilter(a) == MonthNameFilter(b)
    ensures a == b
  {
    if 1 <= a <= 12 && 1 <= b <= 12 {
      MonthNameInjective(a, b);
    } else if 1 <= a <= 12 {
      MonthNameNotNumber(a, b);
    } else if 1 <= b <= 12 {
      MonthNameNotNumber(b, a);
    } else {
      IntToStringInjective(a, b);
    }
  }

  /** `CollecteDonneesMensuelles.periode_str`: the dictionary name or 'Mois', a space, the year. */
  function CollectePeriodeStr(mois: int, annee: int): string
  {
    MonthName(mois).GetOr("Mois") + " " + IntToString(annee)
  }

  /** `DonneesDistributionMensuelles.get_periode_str`: the list name for 1..12, else `str(mois)`. */
  function DonneesPeriodeStr(mois: int, annee: int): string
  {
    (if 1 <= mois <= 12 then MoisNoms[mois] else IntToString(mois)) + " " + IntToString(annee)
  }

  /**
   * `RapportDistribution.get_periode_str` and `RapportHydro.get_periode_str`: the list indexed
   * directly, so a negative month counts from the end and one past the list raises `IndexError`.
   */
  function RapportPeriodeStr(mois: int, annee: int): Result<string>
  {
    match PyIndex(MoisNoms, mois)
    case None => Err("IndexError")
    case Some(nom) => Ok(nom + " " + IntToString(annee))
  }

  lemma {:induction false} SplitPeriode(nom: string, annee: int)
    requires ' ' !in nom
    ensures Split(nom + " " + IntToString(annee), ' ') == [nom, IntToString(annee)]
  {
    var y := IntToString(annee);
    var m: nat := if annee < 0 then -annee else annee;
    NatToStringShape(m);
    if annee < 0 {
      assert forall i :: 1 <= i < |y| ==> y[i] == NatToString(m)[i - 1];
    }
    assert forall i :: 0 <= i < |y| ==> y[i] != ' ';
    SplitAfterSeparator(nom, ' ', y);
    SplitFree(y, ' ');
  }

  /** For a real month, the period label determines both the month and the year. */
  lemma {:induction false} CollectePeriodeStrInjective(m1: int, y1: int, m2: int, y2: int)
    requires 1 <= m1 <= 12 && 1 <= m2 <= 12
    requires CollectePeriodeStr(m1, y1) == CollectePeriodeStr(m2, y2)
    ensures m1 == m2 && y1 == y2
  {
    SplitPeriode(MoisNoms[m1], y1);
    SplitPeriode(MoisNoms[m2], y2);
    MonthNameInjective(m1, m2);
    IntToStringInjective(y1, y2);
  }

  /** The three label builders agree on real months; outside 1..12 each falls back differently. */
  lemma {:induction false} PeriodeStrAgree(mois: int, annee: int)
    ensures 1 <= mois <= 12 ==> RapportPeriodeStr(mois, annee) == Ok(CollectePeriodeStr(mois, annee))
    ensures 1 <= mois <= 12 ==> DonneesPeriodeStr(mois, annee) == CollectePeriodeStr(mois, annee)
    ensures DonneesPeriodeStr(mois, annee) == MonthNameFilter(mois) + " " + IntToString(annee)
    ensures !(1 <= mois <= 12) ==> CollectePeriodeStr(mois, annee) == "Mois " + IntToString(annee)
  {
  }

  /** Where direct indexing departs from the month: 0 gives an empty name, -1 the last month, 13 raises. */
  lemma {:induction false} RapportPeriodeStrEdges(annee: int)
    ensures RapportPeriodeStr(0, annee) == Ok(" " + IntToString(annee))
    ensures RapportPeriodeStr(-1, annee) == Ok("Décembre " + IntToString(annee))
    ensures RapportPeriodeStr(-13, annee) == Ok(" " + IntToString(annee))
    ensures RapportPeriodeStr(13, annee).Err? && RapportPeriodeStr(-14, annee).Err?
  {
    var y := IntToString(annee);
    assert MoisNoms[0] == "" && MoisNoms[12] == "Décembre";
    assert "" + " " + y == " " + y;
    assert "Décembre" + " " + y == "Décembre " + y;
  }

  /** The year and the month of a Python `datetime`. */
  type AnneeNum = a: int | 1 <= a <= 9999 witness 2024

  type MoisNum = m: int | 1 <= m <= 12 witness 1

  /** `d.strftime('%m/%Y')`: the month on two digits, a slash, the year on four. */
  function MoisAnnee(annee: AnneeNum, mois: MoisNum): string
  {
    ZeroPad(mois, 2) + "/" + ZeroPad(annee, 4)
  }
}
