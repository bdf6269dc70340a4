// The template filters: relative dates ("Il y a 3 jours") and line breaks as `<br>`.
// Times are whole seconds; `month_name` is `Calendar.MonthNameFilter`.
module AppFilters {
  import opened Wrappers
  import opened Text

  /** What `datetime.fromisoformat` makes of a text: the instant, and whether it carries an offset. */
  datatype ParsedDate = ParsedDate(t: int, aware: bool)

  /**
   * The filter's argument: nothing (or any other falsy value), a text with what parsing it
   * (after `'Z'` becomes `'+00:00'`) gives, or a naive datetime.
   */
  datatype DateArg = NoValue | IsoText(s: string, parsed: Option<ParsedDate>) | Moment(t: int)

  datatype Unit = Seconds | Minutes | Hours | Days | Weeks | Months | Years

  /** The bucket of a non-negative delay and the count shown with it (`int(x / k)`, i.e. the floor). */
  function Bucket(d: nat): (Unit, nat)
  {
    if d < 60 then (Seconds, 0)
    else if d < 3600 then (Minutes, d / 60)
    else if d < 86400 then (Hours, d / 3600)
    else if d / 86400 < 7 then (Days, d / 86400)
    else if d / 86400 < 30 then (Weeks, d / 86400 / 7)
    else if d / 86400 < 365 then (Months, d / 86400 / 30)
    else (Years, d / 86400 / 365)
  }

  function Rank(u: Unit): nat
  {
    match u
    case Seconds => 0 case Minutes => 1 case Hours => 2 case Days => 3
    case Weeks => 4 case Months => 5 case Years => 6
  }

  /**
   * Every count shown is at least one and stays below the next unit: 1..59 minutes,
   * 1..23 hours, 1..6 days, 1..4 weeks, 1..12 months, and at least one year.
   */
  lemma {:induction false} BucketBounds(d: nat)
    ensures Bucket(d).0 == Seconds <==> d < 60
    ensures Bucket(d).0 == Minutes ==> 1 <= Bucket(d).1 <= 59
    ensures Bucket(d).0 == Hours ==> 1 <= Bucket(d).1 <= 23
    ensures Bucket(d).0 == Days ==> 1 <= Bucket(d).1 <= 6
    ensures Bucket(d).0 == Weeks ==> 1 <= Bucket(d).1 <= 4
    ensures Bucket(d).0 == Months ==> 1 <= Bucket(d).1 <= 12
    ensures Bucket(d).0 == Years ==> 1 <= Bucket(d).1 && d >= 365 * 86400
  {
  }

  /** A longer delay never falls in a smaller unit. */
  lemma {:induction false} BucketMonotone(d1: nat, d2: nat)
    requires d1 <= d2
    ensures Rank(Bucket(d1).0) <= Rank(Bucket(d2).0)
  {
    assert d1 / 86400 <= d2 / 86400;
  }

  /** `'s' if n > 1 else ''`. */
  function Plural(n: nat): string
  {
    if n > 1 then "s" else ""
  }

  /** The word of each unit; "mois" is the one that takes no plural mark. */
  function UnitWord(u: Unit): string
  {
    match u
    case Seconds => "secondes" case Minutes => "minute" case Hours => "heure" case Days => "jour"
    case Weeks => "semaine" case Months => "mois" case Years => "an"
  }

  function Phrase(u: Unit, n: nat): string
  {
    if u == Seconds then "Il y a quelques secondes"
    else "Il y a " + NatToString(n) + " " + UnitWord(u) + (if u == Months then "" else Plural(n))
  }

  /** The phrase for an instant `t` seen at `now`; a future instant reads as now. */
  function Ago(t: int, now: int): string
  {
    if t > now then "Maintenant" else var b := Bucket(now - t); Phrase(b.0, b.1)
  }

  /**
   * `time_ago`: a falsy value is "Jamais", a text that does not parse is "Date invalide",
   * and a text with an offset cannot be compared with the naive clock, so it raises.
   */
  function TimeAgo(arg: DateArg, now: int): Result<string>
  {
    match arg
    case NoValue => Ok("Jamais")
    case Moment(t) => Ok(Ago(t, now))
    case IsoText(s, parsed) =>
      if s == "" then Ok("Jamais")
      else match parsed
        case None => Ok("Date invalide")
        case Some(p) => if p.aware then Err("TypeError") else Ok(Ago(p.t, now))
  }

  lemma {:induction false} TimeAgoSpecialCases(s: string, now: int, t: int)
    ensures TimeAgo(NoValue, now) == Ok("Jamais") && TimeAgo(IsoText("", None), now) == Ok("Jamais")
    ensures s != "" ==> TimeAgo(IsoText(s, None), now) == Ok("Date invalide")
    ensures t > now ==> TimeAgo(Moment(t), now) == Ok("Maintenant")
    ensures s != "" ==> TimeAgo(IsoText(s, Some(ParsedDate(t, true))), now).Err?
    ensures s != "" ==> TimeAgo(IsoText(s, Some(ParsedDate(t, false))), now) == TimeAgo(Moment(t), now)
  {
  }

  /**
   * Every phrase reads "Il y a ..."; it ends in 's' exactly when the count is above one,
   * except for "mois", which never takes one, and the seconds phrase.
   */
  lemma {:induction false} PhrasePlural(u: Unit, n: nat)
    ensures StartsWith(Phrase(u, n), "Il y a ")
    ensures u != Seconds && u != Months ==> (EndsWith(Phrase(u, n), "s") <==> n > 1)
  {
    var r := Phrase(u, n);
    assert r[..7] == "Il y a ";
    if u != Seconds && u != Months {
      var w := UnitWord(u);
      assert |w| > 0 && w[|w| - 1] != 's';
      var body := "Il y a " + NatToString(n) + " " + w;
      assert r == body + Plural(n);
      assert |r| > 0 && (EndsWith(r, "s") <==> r[|r| - 1] == 's');
    }
  }

  /** The relative date of a past instant is the phrase of its delay's bucket. */
  lemma {:induction false} AgoPlural(t: int, now: int)
    requires t <= now
    ensures StartsWith(Ago(t, now), "Il y a ")
    ensures var b := Bucket(now - t);
      b.0 != Seconds && b.0 != Months ==> (EndsWith(Ago(t, now), "s") <==> b.1 > 1)
  {
    var b := Bucket(now - t);
    PhrasePlural(b.0, b.1);
  }

  /** `nl2br`: a falsy text gives `""`; otherwise every `'\n'` becomes `'<br>\n'`, nothing escaped. */
  function Nl2br(text: Option<string>): string
  {
    if text.None? || text.value == "" then "" else ReplaceAll(text.value, "\n", "<br>\n")
  }

  /** A text without line breaks comes out as it is, and a line break splits the work in two. */
  lemma {:induction false} Nl2brLines(a: string, b: string)
    ensures '\n' !in a ==> Nl2br(Some(a)) == a
    ensures Nl2br(Some(a + "\n" + b)) == Nl2br(Some(a)) + "<br>\n" + Nl2br(Some(b))
  {
    if '\n' !in a {
      CharAbsent(a, '\n');
      ReplaceAllAbsent(a, "\n", "<br>\n");
    }
    ReplaceCharConcat(a, "\n" + b, '\n', "<br>\n");
    ReplaceCharConcat("\n", b, '\n', "<br>\n");
    assert a + "\n" + b == a + ("\n" + b);
    assert ReplaceAll("\n", "\n", "<br>\n") == "<br>\n" by {
      assert "\n"[..1] == "\n" && "\n"[1..] == [];
    }
    assert ReplaceAll([], "\n", "<br>\n") == [];
  }
}
