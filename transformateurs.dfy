// The repeated "transformateur" sections of the transport and distribution
// forms: a page holds the container's cloned fragments in DOM order and a
// global counter that only ever grows. Field names and ids carry an index
// token (`transformateurs[3][nom]`, `transformateurs_3_nom`) that is set on
// cloning and rewritten when the list is renumbered after a removal.
module Transformateurs {
  import opened Wrappers
  import opened Text
  import opened JsNumbers

  datatype Tag = Input | Select | Textarea

  /** A form control; `value` is the text the control holds. */
  datatype Field = Field(tag: Tag, name: string, id: string, value: string)

  /** The `.badge-performances` span appended to a section title. */
  datatype Badge = Badge(text: string, tooltip: string)

  /** The `.card-header h6` title: "Transformateur {numero} - {nom}". */
  datatype Title = Title(numero: int, nom: string, badge: Option<Badge>)

  /**
   * One section: its element id, the optional title and delete button (with the
   * index its onclick passes), the controls and `label[for]` values in DOM order,
   * and the optional `.alert-container` with the errors it lists.
   */
  datatype Fragment = Fragment(
    id: string,
    title: Option<Title>,
    onDelete: Option<int>,
    fields: seq<Field>,
    labelFors: seq<string>,
    alert: Option<seq<string>>)

  const Prefix := "transformateur-"

  /** The element id of section `k`. */
  function FragmentId(k: nat): string
  {
    Prefix + NatToString(k)
  }

  lemma {:induction false} FragmentIdInjective(a: nat, b: nat)
    requires FragmentId(a) == FragmentId(b)
    ensures a == b
  {
    assert NatToString(a) == FragmentId(a)[|Prefix|..];
    assert NatToString(b) == FragmentId(b)[|Prefix|..];
    NatToStringInjective(a, b);
  }

  // ---------------------------------------------------------------------------
  // Selectors

  /** The control matches `[name*="sub"]`, or `input[name*="sub"]` when `inputsOnly`. */
  predicate Selects(f: Field, sub: string, inputsOnly: bool)
  {
    (!inputsOnly || f.tag == Input) && Contains(f.name, sub)
  }

  /** `querySelector`: the first control at or after `from`, in DOM order, that the selector matches. */
  function FirstField(fields: seq<Field>, sub: string, inputsOnly: bool, from: nat): (r: Option<nat>)
    requires from <= |fields|
    ensures r.Some? ==> from <= r.value < |fields| && Selects(fields[r.value], sub, inputsOnly)
    ensures r.Some? ==> forall j :: from <= j < r.value ==> !Selects(fields[j], sub, inputsOnly)
    ensures r.None? ==> forall j :: from <= j < |fields| ==> !Selects(fields[j], sub, inputsOnly)
    decreases |fields| - from
  {
    if from == |fields| then None
    else if Selects(fields[from], sub, inputsOnly) then Some(from)
    else FirstField(fields, sub, inputsOnly, from + 1)
  }

  /** `querySelector(sel)?.value`: undefined when nothing matches. */
  function ValueOf(fields: seq<Field>, sub: string, inputsOnly: bool): Option<string>
  {
    match FirstField(fields, sub, inputsOnly, 0)
    case None => None
    case Some(i) => Some(fields[i].value)
  }

  /** The name shown in a renumbered title: the first input whose name contains "nom", or 'Nouveau'. */
  function NomAffiche(fields: seq<Field>): string
  {
    match ValueOf(fields, "nom", true)
    case Some(v) => if v == "" then "Nouveau" else v
    case None => "Nouveau"
  }

  // ---------------------------------------------------------------------------
  // Index tokens

  /** The regular expressions `/\[\d+\]/` and `/_\d+_/` are a delimiter, digits, a delimiter. */
  datatype Delimiters = Delimiters(open: char, close: char)

  const Brackets := Delimiters('[', ']')
  const Underscores := Delimiters('_', '_')

  /** The end (index of the closing delimiter) of a token that starts at `p`, if one does. */
  function TokenAt(s: string, d: Delimiters, p: nat): (r: Option<nat>)
    requires p < |s|
    ensures r.Some? ==> p + 1 < r.value < |s| && s[r.value] == d.close
  {
    if s[p] != d.open then None
    else
      var e := DigitRunEnd(s, p + 1);
      if e > p + 1 && e < |s| && s[e] == d.close then Some(e) else None
  }

  /** The leftmost token at or after `from`: its start and the index of its closing delimiter. */
  function FirstToken(s: string, d: Delimiters, from: nat): (r: Option<(nat, nat)>)
    requires from <= |s|
    ensures r.Some? ==> from <= r.value.0 < |s| && TokenAt(s, d, r.value.0) == Some(r.value.1)
    ensures r.Some? ==> forall q :: from <= q < r.value.0 ==> TokenAt(s, d, q).None?
    ensures r.None? ==> forall q :: from <= q < |s| ==> TokenAt(s, d, q).None?
    decreases |s| - from
  {
    if from == |s| then None
    else match TokenAt(s, d, from)
      case Some(e) => Some((from, e))
      case None => FirstToken(s, d, from + 1)
  }

  /** `s.replace(/\[\d+\]/, `[${k}]`)` and its underscore form: the first token only. */
  function ReplaceToken(s: string, d: Delimiters, k: nat): string
  {
    match FirstToken(s, d, 0)
    case None => s
    case Some((p, e)) => s[..p] + [d.open] + NatToString(k) + [d.close] + s[e + 1..]
  }

  /** The number the first token of `s` carries. */
  function TokenValue(s: string, d: Delimiters): Option<nat>
  {
    var r := FirstToken(s, d, 0);
    if r.None? then None else Some(DigitsValue(s[r.value.0 + 1..r.value.1]))
  }

  predicate NonDigitDelimiters(d: Delimiters)
  {
    !IsDigit(d.open) && !IsDigit(d.close)
  }

  /** Two strings that agree up to a non-digit at `m` have the same digit run from `k`. */
  lemma {:induction false} RunEndAgree(s: string, t: string, k: nat, m: nat)
    requires k <= m < |s| && m < |t|
    requires forall i :: k <= i <= m ==> s[i] == t[i]
    requires !IsDigit(s[m])
    ensures DigitRunEnd(s, k) == DigitRunEnd(t, k) <= m
    decreases m - k
  {
    if k < m && IsDigit(s[k]) {
      RunEndAgree(s, t, k + 1, m);
    }
  }

  /** The leftmost token is the one at `p` when nothing before it is a token. */
  lemma {:induction false} FirstTokenIs(s: string, d: Delimiters, from: nat, p: nat)
    requires from <= p < |s| && TokenAt(s, d, p).Some?
    requires forall q :: from <= q < p ==> TokenAt(s, d, q).None?
    ensures FirstToken(s, d, from) == Some((p, TokenAt(s, d, p).value))
    decreases p - from
  {
    if from < p {
      FirstTokenIs(s, d, from + 1, p);
    }
  }

  /** `s` with the token that spans `p..e` rewritten to `k`. */
  function Spliced(s: string, d: Delimiters, k: nat, p: nat, e: nat): string
    requires p < e < |s|
  {
    s[..p] + [d.open] + NatToString(k) + [d.close] + s[e + 1..]
  }

  lemma {:induction false} SplicedFacts(s: string, d: Delimiters, k: nat, p: nat, e: nat)
    requires p < e < |s|
    ensures var t := Spliced(s, d, k, p, e); var c := p + |NatToString(k)| + 1;
      c < |t| && t[p] == d.open && t[c] == d.close &&
      (forall i :: 0 <= i < p ==> t[i] == s[i]) &&
      t[p + 1..c] == NatToString(k) && t[c + 1..] == s[e + 1..]
  {
  }

  /** Changing a string after a non-digit at `p` does not change the tokens before `p`. */
  lemma {:induction false} TokenAtAgree(s: string, t: string, d: Delimiters, q: nat, p: nat)
    requires q < p < |s| && p < |t|
    requires forall i :: 0 <= i <= p ==> s[i] == t[i]
    requires !IsDigit(s[p])
    ensures TokenAt(s, d, q) == TokenAt(t, d, q)
  {
    if s[q] == d.open {
      RunEndAgree(s, t, q + 1, p);
    }
  }

  /** The rewritten token spans `p` to just after the digits of `k`. */
  lemma {:induction false} SplicedToken(s: string, d: Delimiters, k: nat, p: nat, e: nat)
    requires NonDigitDelimiters(d) && p < e < |s|
    ensures TokenAt(Spliced(s, d, k, p, e), d, p) == Some(p + |NatToString(k)| + 1)
  {
    var t := Spliced(s, d, k, p, e);
    var c := p + |NatToString(k)| + 1;
    NatToStringShape(k);
    SplicedFacts(s, d, k, p, e);
    forall i | p + 1 <= i < c
      ensures IsDigit(t[i])
    {
      assert t[i] == t[p + 1..c][i - p - 1];
    }
    DigitRunIs(t, p + 1, c);
  }

  /** Rewriting the token found at `p..e` is the splice at `p..e`. */
  lemma {:induction false} ReplaceTokenSpliced(s: string, d: Delimiters, k: nat, p: nat, e: nat)
    requires FirstToken(s, d, 0) == Some((p, e))
    ensures p < e < |s| && ReplaceToken(s, d, k) == Spliced(s, d, k, p, e)
  {
  }

  /** The spliced token holds exactly the digits of `k`. */
  lemma {:induction false} SplicedDigits(s: string, d: Delimiters, k: nat, p: nat, e: nat)
    requires p < e < |s|
    ensures var t := Spliced(s, d, k, p, e); var c := p + |NatToString(k)| + 1;
      c < |t| && t[p + 1..c] == NatToString(k)
  {
  }

  /**
   * After the first token of `s` is rewritten to `k`, the rewritten token is still
   * the first one, at the same place.
   */
  lemma {:induction false} RenumberedToken(s: string, d: Delimiters, k: nat)
    requires NonDigitDelimiters(d) && FirstToken(s, d, 0).Some?
    ensures FirstToken(ReplaceToken(s, d, k), d, 0) ==
      Some((FirstToken(s, d, 0).value.0, FirstToken(s, d, 0).value.0 + |NatToString(k)| + 1))
  {
    var pe := FirstToken(s, d, 0).value;
    var p, e := pe.0, pe.1;
    ReplaceTokenSpliced(s, d, k, p, e);
    SplicedFirst(s, d, k, p, e);
  }

  /** ... and it reads `k`. */
  lemma {:induction false} RenumberedTokenValue(s: string, d: Delimiters, k: nat)
    requires NonDigitDelimiters(d) && FirstToken(s, d, 0).Some?
    ensures TokenValue(ReplaceToken(s, d, k), d) == Some(k)
  {
    var pe := FirstToken(s, d, 0).value;
    var p, e := pe.0, pe.1;
    ReplaceTokenSpliced(s, d, k, p, e);
    SplicedValue(s, d, k, p, e);
  }

  /** The token spliced in at the leftmost token reads `k`. */
  lemma {:induction false} SplicedValue(s: string, d: Delimiters, k: nat, p: nat, e: nat)
    requires NonDigitDelimiters(d) && FirstToken(s, d, 0) == Some((p, e))
    ensures TokenValue(Spliced(s, d, k, p, e), d) == Some(k)
  {
    SplicedFirst(s, d, k, p, e);
    SplicedDigits(s, d, k, p, e);
    var c: nat := p + |NatToString(k)| + 1;
    TokenValueAt(Spliced(s, d, k, p, e), d, p, c, k);
  }

  /** The first token of `t` spans `p..c` and holds the digits of `k`: it reads `k`. */
  lemma {:induction false} TokenValueAt(t: string, d: Delimiters, p: nat, c: nat, k: nat)
    requires FirstToken(t, d, 0) == Some((p, c)) && p + 1 <= c <= |t| && t[p + 1..c] == NatToString(k)
    ensures TokenValue(t, d) == Some(k)
  {
    var digits := t[p + 1..c];
    assert digits == NatToString(k);
    NatToStringValue(k);
    assert TokenValue(t, d) == Some(DigitsValue(digits));
  }

  /** A splice at the leftmost token leaves the tokens before it absent. */
  lemma {:induction false} SplicedFirst(s: string, d: Delimiters, k: nat, p: nat, e: nat)
    requires NonDigitDelimiters(d) && FirstToken(s, d, 0) == Some((p, e))
    ensures p < e < |s|
    ensures FirstToken(Spliced(s, d, k, p, e), d, 0) == Some((p, p + |NatToString(k)| + 1))
  {
    var t := Spliced(s, d, k, p, e);
    SplicedFacts(s, d, k, p, e);
    SplicedToken(s, d, k, p, e);
    forall q | 0 <= q < p
      ensures TokenAt(t, d, q).None?
    {
      TokenAtAgree(s, t, d, q, p);
    }
    FirstTokenIs(t, d, 0, p);
  }

  /** Renumbering a name or id twice with the same index changes nothing the second time. */
  lemma {:induction false} ReplaceTokenIdempotent(s: string, d: Delimiters, k: nat)
    requires NonDigitDelimiters(d)
    ensures ReplaceToken(ReplaceToken(s, d, k), d, k) == ReplaceToken(s, d, k)
  {
    if FirstToken(s, d, 0).Some? {
      RenumberedToken(s, d, k);
      var (p, e) := FirstToken(s, d, 0).value;
      var t := ReplaceToken(s, d, k);
      var c := p + |NatToString(k)| + 1;
      assert t[..p] + [d.open] + NatToString(k) + [d.close] + t[c + 1..] == t;
    }
  }

  // ---------------------------------------------------------------------------
  // Cloning and renumbering one section

  /** How a control is renamed: on cloning (`'[0]'` and `'_0_'` literally) or on renumbering (the token). */
  datatype Renaming = OnClone(counter: nat) | OnRenumber(index: nat)

  function RenameName(r: Renaming, name: string): string
  {
    match r
    case OnClone(c) => ReplaceFirst(name, "[0]", "[" + NatToString(c) + "]")
    case OnRenumber(i) => ReplaceToken(name, Brackets, i)
  }

  function RenameId(r: Renaming, id: string): string
  {
    match r
    case OnClone(c) => ReplaceFirst(id, "_0_", "_" + NatToString(c) + "_")
    case OnRenumber(i) => ReplaceToken(id, Underscores, i)
  }

  /** A control keeps its tag and value; only a control with a name is renamed. */
  function RenamedField(r: Renaming, f: Field): Field
  {
    if f.name == "" then f else f.(name := RenameName(r, f.name), id := RenameId(r, f.id))
  }

  /** A label with a `for` attribute has it renamed like the ids. */
  function RenamedLabel(r: Renaming, l: string): string
  {
    if l == "" then l else RenameId(r, l)
  }

  /** The template cloned as section number `counter`. */
  function Cloned(t: Fragment, counter: nat): Fragment
  {
    t.(id := FragmentId(counter),
       title := if t.title.Some? then Some(Title(counter + 1, "Nouveau", None)) else None,
       onDelete := if t.onDelete.Some? then Some(counter) else None,
       fields := seq(|t.fields|, i requires 0 <= i < |t.fields| => RenamedField(OnClone(counter), t.fields[i])),
       labelFors := seq(|t.labelFors|, i requires 0 <= i < |t.labelFors| => RenamedLabel(OnClone(counter), t.labelFors[i])))
  }

  /** Section `e` after renumbering it to position `k`; rewriting the title drops its badge. */
  function Renumbered(e: Fragment, k: nat): Fragment
  {
    e.(id := FragmentId(k),
       title := if e.title.Some? then Some(Title(k + 1, NomAffiche(e.fields), None)) else None,
       onDelete := if e.onDelete.Some? then Some(k) else None,
       fields := seq(|e.fields|, i requires 0 <= i < |e.fields| => RenamedField(OnRenumber(k), e.fields[i])),
       labelFors := seq(|e.labelFors|, i requires 0 <= i < |e.labelFors| => RenamedLabel(OnRenumber(k), e.labelFors[i])))
  }

  /** Every section renumbered to its position. */
  function RenumberedAll(es: seq<Fragment>): (r: seq<Fragment>)
    ensures |r| == |es|
  {
    seq(|es|, k requires 0 <= k < |es| => Renumbered(es[k], k))
  }

  /** A renumbered section carries index `k` in its id, title, delete button and every token it has. */
  lemma {:induction false} RenumberedCarriesIndex(e: Fragment, k: nat, i: nat)
    requires i < |e.fields| && e.fields[i].name != ""
    ensures Renumbered(e, k).id == FragmentId(k)
    ensures Renumbered(e, k).onDelete.Some? ==> Renumbered(e, k).onDelete == Some(k)
    ensures Renumbered(e, k).title.Some? ==> Renumbered(e, k).title.value.numero == k + 1
    ensures TokenValue(e.fields[i].name, Brackets).Some? ==>
      TokenValue(Renumbered(e, k).fields[i].name, Brackets) == Some(k)
    ensures TokenValue(e.fields[i].id, Underscores).Some? ==>
      TokenValue(Renumbered(e, k).fields[i].id, Underscores) == Some(k)
    ensures forall j :: 0 <= j < |e.labelFors| && TokenValue(e.labelFors[j], Underscores).Some? ==>
      TokenValue(Renumbered(e, k).labelFors[j], Underscores) == Some(k)
  {
    RenumberedLabelsCarryIndex(e, k);
    RenumberedFieldCarriesIndex(e.fields[i], k);
  }

  /** A renamed control's name and id tokens read the section's new index. */
  lemma {:induction false} RenumberedFieldCarriesIndex(f: Field, k: nat)
    requires f.name != ""
    ensures TokenValue(f.name, Brackets).Some? ==> TokenValue(RenamedField(OnRenumber(k), f).name, Brackets) == Some(k)
    ensures TokenValue(f.id, Underscores).Some? ==> TokenValue(RenamedField(OnRenumber(k), f).id, Underscores) == Some(k)
  {
    if TokenValue(f.name, Brackets).Some? {
      RenumberedTokenValue(f.name, Brackets, k);
    }
    if TokenValue(f.id, Underscores).Some? {
      RenumberedTokenValue(f.id, Underscores, k);
    }
  }

  /** Renumbering an already renumbered list changes no control name, id or label. */
  lemma {:induction false} RenumberedAllStable(es: seq<Fragment>, k: nat, i: nat)
    requires k < |es| && i < |es[k].fields|
    ensures RenumberedAll(RenumberedAll(es))[k].fields[i] == RenumberedAll(es)[k].fields[i]
    ensures RenumberedAll(RenumberedAll(es))[k].id == RenumberedAll(es)[k].id
    ensures RenumberedAll(RenumberedAll(es))[k].labelFors == RenumberedAll(es)[k].labelFors
  {
    RenumberedLabelsStable(es[k], k);
    var f := es[k].fields[i];
    if f.name != "" {
      ReplaceTokenIdempotent(f.name, Brackets, k);
      ReplaceTokenIdempotent(f.id, Underscores, k);
      assert ReplaceToken(f.name, Brackets, k) != "" by {
        if FirstToken(f.name, Brackets, 0).Some? {
          RenumberedToken(f.name, Brackets, k);
        }
      }
    }
  }

  /** Each label's `for` token reads the section's new index. */
  lemma {:induction false} RenumberedLabelsCarryIndex(e: Fragment, k: nat)
    ensures forall j :: 0 <= j < |e.labelFors| && TokenValue(e.labelFors[j], Underscores).Some? ==>
      TokenValue(Renumbered(e, k).labelFors[j], Underscores) == Some(k)
  {
    forall j | 0 <= j < |e.labelFors| && TokenValue(e.labelFors[j], Underscores).Some?
      ensures TokenValue(Renumbered(e, k).labelFors[j], Underscores) == Some(k)
    {
      RenumberedTokenValue(e.labelFors[j], Underscores, k);
    }
  }

  /** Renumbering a section to the index it already has leaves its labels as they are. */
  lemma {:induction false} RenumberedLabelsStable(e: Fragment, k: nat)
    ensures Renumbered(Renumbered(e, k), k).labelFors == Renumbered(e, k).labelFors
  {
    var once := Renumbered(e, k).labelFors;
    forall j | 0 <= j < |e.labelFors|
      ensures Renumbered(Renumbered(e, k), k).labelFors[j] == once[j]
    {
      var l := e.labelFors[j];
      if l != "" {
        ReplaceTokenIdempotent(l, Underscores, k);
        assert ReplaceToken(l, Underscores, k) != "" by {
          if FirstToken(l, Underscores, 0).Some? {
            RenumberedToken(l, Underscores, k);
          }
        }
      }
    }
  }

  /** After renumbering, the ids are exactly transformateur-0 .. transformateur-(n-1). */
  lemma {:induction false} RenumberedIds(es: seq<Fragment>)
    ensures forall k :: 0 <= k < |es| ==> RenumberedAll(es)[k].id == FragmentId(k)
    ensures forall a, b :: 0 <= a < b < |es| ==> RenumberedAll(es)[a].id != RenumberedAll(es)[b].id
  {
    forall a, b | 0 <= a < b < |es|
      ensures RenumberedAll(es)[a].id != RenumberedAll(es)[b].id
    {
      if FragmentId(a) == FragmentId(b) {
        FragmentIdInjective(a, b);
      }
    }
  }

  // ---------------------------------------------------------------------------
  // Validation and performances

  const ErreurNom := "Le nom du transformateur est obligatoire"
  const ErreurPuissance := "La puissance nominale doit être supérieure à 0"
  const ErreurPrimaire := "La tension primaire doit être supérieure à 0"
  const ErreurSecondaire := "La tension secondaire doit être supérieure à 0"
  const ErreurTensions := "La tension primaire doit être supérieure à la tension secondaire"
  const ErreurImpedance := "L'impédance de court-circuit doit être entre 0 et 100%"

  /** `!nom || nom.trim() === ''`. */
  predicate NomManquant(nom: Option<string>)
  {
    nom.None? || Trim(nom.value, IsJsWhitespace) == ""
  }

  /** `parseFloat(querySelector('[name*="sub"]')?.value)`. */
  function Nombre(fields: seq<Field>, sub: string): JsNumber
  {
    ParseFloatOpt(ValueOf(fields, sub, false))
  }

  /** One check of the list: its message when the condition holds. */
  function Rule(failed: bool, message: string): (r: seq<string>)
    ensures r == [] <==> !failed
  {
    if failed then [message] else []
  }

  /** The errors of a section, in the order the checks push them. */
  function Erreurs(fields: seq<Field>): seq<string>
  {
    var p := Nombre(fields, "puissance_nominale");
    var tp := Nombre(fields, "tension_primaire");
    var ts := Nombre(fields, "tension_secondaire");
    var z := Nombre(fields, "impedance_cc");
    Rule(NomManquant(ValueOf(fields, "nom", false)), ErreurNom) +
    Rule(!Truthy(p) || LessEq(p, Finite(0.0)), ErreurPuissance) +
    Rule(!Truthy(tp) || LessEq(tp, Finite(0.0)), ErreurPrimaire) +
    Rule(!Truthy(ts) || LessEq(ts, Finite(0.0)), ErreurSecondaire) +
    Rule(Truthy(tp) && Truthy(ts) && LessEq(tp, ts), ErreurTensions) +
    Rule(Truthy(z) && (Less(z, Finite(0.0)) || Less(Finite(100.0), z)), ErreurImpedance)
  }

  /** `!x || x <= 0` fails exactly for the numbers that are not above 0. */
  lemma {:induction false} NotPositive(x: JsNumber)
    ensures (!Truthy(x) || LessEq(x, Finite(0.0))) <==> !Less(Finite(0.0), x)
  {
  }

  /** For two positive voltages, the ordering check fails exactly when the primary is not above the secondary. */
  lemma {:induction false} TensionsOrdered(tp: JsNumber, ts: JsNumber)
    requires Less(Finite(0.0), tp) && Less(Finite(0.0), ts)
    ensures (Truthy(tp) && Truthy(ts) && LessEq(tp, ts)) <==> !Less(ts, tp)
  {
  }

  /** The impedance check passes for 0, NaN and every value of [0, 100]. */
  lemma {:induction false} ImpedanceAdmise(z: JsNumber)
    ensures !(Truthy(z) && (Less(z, Finite(0.0)) || Less(Finite(100.0), z))) <==>
      (z == NaN || z == Finite(0.0) || (LessEq(Finite(0.0), z) && LessEq(z, Finite(100.0))))
  {
  }

  /**
   * A section has no error exactly when it has a non-blank name, a positive power,
   * positive voltages with the primary above the secondary, and an impedance in
   * [0, 100] unless it is 0 or not a number.
   */
  lemma {:induction false} ErreursVides(fields: seq<Field>)
    ensures Erreurs(fields) == [] <==>
      !NomManquant(ValueOf(fields, "nom", false)) &&
      Less(Finite(0.0), Nombre(fields, "puissance_nominale")) &&
      Less(Finite(0.0), Nombre(fields, "tension_primaire")) &&
      Less(Finite(0.0), Nombre(fields, "tension_secondaire")) &&
      Less(Nombre(fields, "tension_secondaire"), Nombre(fields, "tension_primaire")) &&
      (var z := Nombre(fields, "impedance_cc");
       z == NaN || z == Finite(0.0) || (LessEq(Finite(0.0), z) && LessEq(z, Finite(100.0))))
  {
    var p := Nombre(fields, "puissance_nominale");
    var tp := Nombre(fields, "tension_primaire");
    var ts := Nombre(fields, "tension_secondaire");
    NotPositive(p);
    NotPositive(tp);
    NotPositive(ts);
    if Less(Finite(0.0), tp) && Less(Finite(0.0), ts) {
      TensionsOrdered(tp, ts);
    }
    ImpedanceAdmise(Nombre(fields, "impedance_cc"));
  }

  /**
   * The name check reads the first control whose name contains "nom", which is
   * the power field when that comes first: its value then counts as the name.
   */
  lemma {:induction false} NomLuDansPuissance()
    ensures ValueOf(PowerBeforeName, "nom", false) == Some("50")
    ensures !NomManquant(ValueOf(PowerBeforeName, "nom", false))
  {
    PowerNameContainsNom();
    assert FirstField(PowerBeforeName, "nom", false, 0) == Some(0);
    TrimEmpty("50", IsJsWhitespace);
    assert !IsJsWhitespace("50"[0]);
  }

  /** A section whose power control comes before its name control. */
  const PowerBeforeName := [Field(Input, "t[0][puissance_nominale]", "t_0_p", "50"),
                            Field(Input, "t[0][nom]", "t_0_nom", "")]

  lemma {:induction false} PowerNameContainsNom()
    ensures Contains(PowerBeforeName[0].name, "nom")
  {
    assert StartsWith(PowerBeforeName[0].name[15..], "nom");
  }

  /** The efficiency shown for a power `p` and the two losses, as calculerPerformances computes it. */
  function Rendement(p: JsNumber, pertesVide: JsNumber, pertesCharge: JsNumber): JsNumber
  {
    var utile := Mul(p, Finite(1000.0));
    Mul(Div(Sub(utile, Add(pertesVide, pertesCharge)), utile), Finite(100.0))
  }

  function PertesRelatives(p: JsNumber, pertesVide: JsNumber, pertesCharge: JsNumber): JsNumber
  {
    Mul(Div(Add(pertesVide, pertesCharge), Mul(p, Finite(1000.0))), Finite(100.0))
  }

  lemma {:induction false} DivSub(a: real, b: real, u: real)
    requires u != 0.0
    ensures (a - b) / u == a / u - b / u
  {
  }

  lemma {:induction false} PerThousand(l: real, p: real)
    requires p > 0.0
    ensures l / (p * 1000.0) * 100.0 == l / (10.0 * p)
  {
    var x := l / (p * 1000.0);
    assert x * (p * 1000.0) == l;
    assert (x * 100.0) * (10.0 * p) == l;
  }

  lemma {:induction false} RendementEval(p: real, pv: real, pc: real)
    requires p > 0.0
    ensures Rendement(Finite(p), Finite(pv), Finite(pc)) ==
      Finite((p * 1000.0 - (pv + pc)) / (p * 1000.0) * 100.0)
    ensures PertesRelatives(Finite(p), Finite(pv), Finite(pc)) == Finite((pv + pc) / (p * 1000.0) * 100.0)
  {
    assert p * 1000.0 != 0.0;
  }

  /** For finite inputs the efficiency is 100 less the losses per 10 units of power. */
  lemma {:induction false} RendementFini(p: real, pv: real, pc: real)
    requires p > 0.0
    ensures Rendement(Finite(p), Finite(pv), Finite(pc)) == Finite(100.0 - (pv + pc) / (10.0 * p))
    ensures PertesRelatives(Finite(p), Finite(pv), Finite(pc)) == Finite((pv + pc) / (10.0 * p))
    ensures pv + pc > 0.0 ==> (100.0 - (pv + pc) / (10.0 * p)) < 100.0
  {
    var u := p * 1000.0;
    var l := pv + pc;
    RendementEval(p, pv, pc);
    DivSub(u, l, u);
    assert u / u == 1.0;
    PerThousand(l, p);
    assert (u - l) / u * 100.0 == 100.0 - l / u * 100.0;
  }

  /** The first control matched by `[name*="sub"]` gets `v`; no other control changes. */
  function SetValue(fields: seq<Field>, sub: string, v: string): (r: seq<Field>)
    ensures |r| == |fields|
    ensures forall i :: 0 <= i < |fields| && Some(i) != FirstField(fields, sub, false, 0) ==> r[i] == fields[i]
    ensures FirstField(fields, sub, false, 0).Some? ==>
      r[FirstField(fields, sub, false, 0).value] == fields[FirstField(fields, sub, false, 0).value].(value := v)
  {
    match FirstField(fields, sub, false, 0)
    case None => fields
    case Some(i) => fields[i := fields[i].(value := v)]
  }

  /** Distinct section ids, none of them one a counter past `c` will hand out, and at most `c + 1` sections. */
  ghost predicate FreshIds(es: seq<Fragment>, c: nat)
  {
    |es| <= c + 1 &&
    (forall a, b :: 0 <= a < b < |es| ==> es[a].id != es[b].id) &&
    (forall i, c' :: 0 <= i < |es| && c < c' ==> es[i].id != FragmentId(c'))
  }

  /** Appending the section the next counter value names keeps the ids fresh. */
  lemma {:induction false} ClonedFresh(es: seq<Fragment>, c: nat, clone: Fragment)
    requires FreshIds(es, c) && clone.id == FragmentId(c + 1)
    ensures FreshIds(es + [clone], c + 1)
  {
    var es' := es + [clone];
    forall a, b | 0 <= a < b < |es'|
      ensures es'[a].id != es'[b].id
    {
      if b == |es| {
        assert es'[a].id == es[a].id != FragmentId(c + 1);
      }
    }
    forall i, c' | 0 <= i < |es'| && c + 1 < c'
      ensures es'[i].id != FragmentId(c')
    {
      if i == |es| && FragmentId(c + 1) == FragmentId(c') {
        FragmentIdInjective(c + 1, c');
      }
    }
  }

  /** A renumbered list has fresh ids as long as it is no longer than the counter plus one. */
  lemma {:induction false} RenumberedFresh(es: seq<Fragment>, c: nat)
    requires |es| <= c + 1
    ensures FreshIds(RenumberedAll(es), c)
  {
    RenumberedIds(es);
    var r := RenumberedAll(es);
    forall i, c' | 0 <= i < |r| && c < c'
      ensures r[i].id != FragmentId(c')
    {
      if FragmentId(i) == FragmentId(c') {
        FragmentIdInjective(i, c');
      }
    }
  }

  /** Removing a section keeps the ids fresh. */
  lemma {:induction false} RemovedFresh(es: seq<Fragment>, c: nat, i: nat)
    requires FreshIds(es, c) && i < |es|
    ensures FreshIds(es[..i] + es[i + 1..], c)
  {
    var r := es[..i] + es[i + 1..];
    forall a, b | 0 <= a < b < |r|
      ensures r[a].id != r[b].id
    {
      var a' := if a < i then a else a + 1;
      var b' := if b < i then b else b + 1;
      assert r[a] == es[a'] && r[b] == es[b'];
    }
    forall j, c' | 0 <= j < |r| && c < c'
      ensures r[j].id != FragmentId(c')
    {
      assert r[j] == es[if j < i then j else j + 1];
    }
  }

  // ---------------------------------------------------------------------------
  // The page

  /**
   * A section once its performance is shown: the `rendement` control holds the efficiency
   * and the title, when there is one, carries the badge with both figures; nothing else changes.
   */
  function AvecPerformances(e: Fragment, rendement: string, relatives: string): (r: Fragment)
    ensures r.fields == SetValue(e.fields, "rendement", rendement)
    ensures r.title.Some? <==> e.title.Some?
    ensures r.title.Some? ==> r.title.value.badge == Some(Badge("η = " + rendement + "%",
      "Rendement: " + rendement + "% | Pertes: " + relatives + "%"))
    ensures r.(fields := e.fields, title := e.title) == e
  {
    e.(fields := SetValue(e.fields, "rendement", rendement),
       title := if e.title.Some? then
         Some(e.title.value.(badge := Some(Badge("η = " + rendement + "%",
           "Rendement: " + rendement + "% | Pertes: " + relatives + "%"))))
         else None)
  }

  class TransformateurPage {
    /** The global `compteurTransformateurs`. */
    var compteur: nat
    /** Whether `#transformateurs-container` exists. */
    var containerPresent: bool
    /** `#transformateur-template`, if the page has one. */
    var template: Option<Fragment>
    /** The container's `[id^="transformateur-"]` sections other than the template, in DOM order. */
    var entries: seq<Fragment>
    /** The text of `#compteur-transformateurs`, when that element exists. */
    var compteurAffiche: Option<int>
    /** Whether `#aucun-transformateur` is displayed, when that element exists. */
    var messageVide: Option<bool>
    /** The disabled state of the `.btn-supprimer-transformateur` buttons, when there are any. */
    var boutonsDesactives: Option<bool>

    ghost predicate Valid()
      reads this
    {
      containerPresent || entries == []
    }

    /** The section ids are distinct, none is one the counter will hand out, and renumbering stays below it. */
    ghost predicate IdsFresh()
      reads this
    {
      FreshIds(entries, compteur)
    }

    /** The page as loaded: the counter starts at 0 and the DOMContentLoaded handler updates the display. */
    constructor (containerPresent: bool, template: Option<Fragment>, entries: seq<Fragment>,
                 compteurAffiche: Option<int>, messageVide: Option<bool>, boutonsDesactives: Option<bool>)
      requires containerPresent || entries == []
      ensures Valid()
      ensures this.compteur == 0 && this.containerPresent == containerPresent
      ensures this.template == template && this.entries == entries
      ensures this.compteurAffiche == (if compteurAffiche.Some? then Some(|entries|) else None)
      ensures this.messageVide == (if messageVide.Some? then Some(|entries| == 0) else None)
      ensures this.boutonsDesactives == (if boutonsDesactives.Some? then Some(|entries| <= 1) else None)
    {
      this.compteur := 0;
      this.containerPresent := containerPresent;
      this.template := template;
      this.entries := entries;
      this.compteurAffiche := if compteurAffiche.Some? then Some(|entries|) else None;
      this.messageVide := if messageVide.Some? then Some(|entries| == 0) else None;
      this.boutonsDesactives := if boutonsDesactives.Some? then Some(|entries| <= 1) else None;
    }

    /** The number of sections the container shows (none without a container). */
    function NombreSections(): (n: nat)
      reads this
      requires Valid()
      ensures n == |entries|
    {
      if containerPresent then |entries| else 0
    }

    /** mettreAJourCompteurTransformateurs: count, empty message and delete buttons follow the number of sections. */
    method MettreAJourCompteur()
      requires Valid()
      modifies this`compteurAffiche, this`messageVide, this`boutonsDesactives
      ensures compteurAffiche == if old(compteurAffiche).Some? then Some(|entries|) else None
      ensures messageVide == if old(messageVide).Some? then Some(|entries| == 0) else None
      ensures boutonsDesactives == if old(boutonsDesactives).Some? then Some(|entries| <= 1) else None
    {
      var n := NombreSections();
      if compteurAffiche.Some? {
        compteurAffiche := Some(n);
      }
      if messageVide.Some? {
        messageVide := Some(n == 0);
      }
      if boutonsDesactives.Some? {
        boutonsDesactives := Some(n <= 1);
      }
    }

    /** ajouterTransformateur: the counter moves first; without container or template nothing else happens. */
    method Ajouter()
      requires Valid()
      modifies this`compteur, this`entries, this`compteurAffiche, this`messageVide, this`boutonsDesactives
      ensures Valid()
      ensures compteur == old(compteur) + 1
      ensures !containerPresent || template.None? ==>
        entries == old(entries) && compteurAffiche == old(compteurAffiche) &&
        messageVide == old(messageVide) && boutonsDesactives == old(boutonsDesactives)
      ensures containerPresent && template.Some? ==>
        entries == old(entries) + [Cloned(template.value, compteur)] &&
        compteurAffiche == (if old(compteurAffiche).Some? then Some(|entries|) else None) &&
        messageVide == (if old(messageVide).Some? then Some(false) else None) &&
        boutonsDesactives == (if old(boutonsDesactives).Some? then Some(|entries| <= 1) else None)
      ensures old(IdsFresh()) ==> IdsFresh()
    {
      compteur := compteur + 1;
      if !containerPresent || template.None? {
        return;
      }
      var t := template.value;
      var fields := RenameFields(OnClone(compteur), t.fields);
      var labels := RenameLabels(OnClone(compteur), t.labelFors);
      var clone := t.(id := FragmentId(compteur),
                      title := if t.title.Some? then Some(Title(compteur + 1, "Nouveau", None)) else None,
                      onDelete := if t.onDelete.Some? then Some(compteur) else None,
                      fields := fields,
                      labelFors := labels);
      assert clone == Cloned(t, compteur);
      ghost var before := entries;
      entries := entries + [clone];
      if FreshIds(before, compteur - 1) {
        ClonedFresh(before, compteur - 1, clone);
      }
      MettreAJourCompteur();
    }

    /** The controls of a section renamed one by one, in DOM order. */
    static method RenameFields(r: Renaming, fields: seq<Field>) returns (out: seq<Field>)
      ensures out == seq(|fields|, i requires 0 <= i < |fields| => RenamedField(r, fields[i]))
    {
      out := [];
      var i := 0;
      while i < |fields|
        invariant 0 <= i <= |fields|
        invariant |out| == i
        invariant forall j :: 0 <= j < i ==> out[j] == RenamedField(r, fields[j])
      {
        var f := fields[i];
        if f.name != "" {
          f := f.(name := RenameName(r, f.name), id := RenameId(r, f.id));
        }
        out := out + [f];
        i := i + 1;
      }
    }

    /** The `for` attributes of a section's labels renamed one by one. */
    static method RenameLabels(r: Renaming, labels: seq<string>) returns (out: seq<string>)
      ensures out == seq(|labels|, i requires 0 <= i < |labels| => RenamedLabel(r, labels[i]))
    {
      out := [];
      var i := 0;
      while i < |labels|
        invariant 0 <= i <= |labels|
        invariant |out| == i
        invariant forall j :: 0 <= j < i ==> out[j] == RenamedLabel(r, labels[j])
      {
        var l := labels[i];
        if l != "" {
          l := RenameId(r, l);
        }
        out := out + [l];
        i := i + 1;
      }
    }

    /** renumeroterTransformateurs: each section, in DOM order, is renumbered to its position. */
    method Renumeroter()
      requires Valid()
      modifies this`entries
      ensures Valid()
      ensures entries == RenumberedAll(old(entries))
      ensures old(|entries| <= compteur + 1) ==> IdsFresh()
    {
      if !containerPresent {
        return;
      }
      ghost var initial := entries;
      var k := 0;
      while k < |entries|
        invariant 0 <= k <= |entries| == |initial|
        invariant entries[..k] == RenumberedAll(initial)[..k]
        invariant entries[k..] == initial[k..]
      {
        assert entries[k] == initial[k];
        var r := RenumberOne(entries[k], k);
        assert r == RenumberedAll(initial)[k];
        assert entries[k := r][..k + 1] == entries[..k] + [r];
        entries := entries[k := r];
        k := k + 1;
      }
      assert entries == entries[..k];
      if |initial| <= compteur + 1 {
        RenumberedFresh(initial, compteur);
      }
    }

    /** One section renumbered: id, title, delete button, then its controls and labels. */
    static method RenumberOne(e: Fragment, k: nat) returns (r: Fragment)
      ensures r == Renumbered(e, k)
    {
      var fields := RenameFields(OnRenumber(k), e.fields);
      var labels := RenameLabels(OnRenumber(k), e.labelFors);
      r := e.(id := FragmentId(k),
              title := if e.title.Some? then Some(Title(k + 1, NomAffiche(e.fields), None)) else None,
              onDelete := if e.onDelete.Some? then Some(k) else None,
              fields := fields,
              labelFors := labels);
    }

    /** The position of the first section with this id, as `getElementById` finds it. */
    function Find(id: string): (r: Option<nat>)
      reads this
      ensures r.Some? ==> r.value < |entries| && entries[r.value].id == id
      ensures r.Some? ==> forall j :: 0 <= j < r.value ==> entries[j].id != id
      ensures r.None? ==> forall j :: 0 <= j < |entries| ==> entries[j].id != id
    {
      FindFrom(entries, id, 0)
    }

    static function FindFrom(es: seq<Fragment>, id: string, from: nat): (r: Option<nat>)
      requires from <= |es|
      ensures r.Some? ==> from <= r.value < |es| && es[r.value].id == id
      ensures r.Some? ==> forall j :: from <= j < r.value ==> es[j].id != id
      ensures r.None? ==> forall j :: from <= j < |es| ==> es[j].id != id
      decreases |es| - from
    {
      if from == |es| then None
      else if es[from].id == id then Some(from)
      else FindFrom(es, id, from + 1)
    }

    /**
     * supprimerTransformateur(index) once the user has answered the confirmation:
     * an unknown index or a declined removal changes nothing; otherwise the section
     * goes, the display is updated and the rest are renumbered.
     */
    method Supprimer(index: int, confirme: bool)
      requires Valid()
      modifies this`entries, this`compteurAffiche, this`messageVide, this`boutonsDesactives
      ensures Valid()
      ensures var found := old(Find(Prefix + IntToString(index)));
        if found.None? || !confirme then
          entries == old(entries) && compteurAffiche == old(compteurAffiche) &&
          messageVide == old(messageVide) && boutonsDesactives == old(boutonsDesactives)
        else
          entries == RenumberedAll(old(entries)[..found.value] + old(entries)[found.value + 1..]) &&
          compteurAffiche == (if old(compteurAffiche).Some? then Some(|entries|) else None) &&
          messageVide == (if old(messageVide).Some? then Some(|entries| == 0) else None) &&
          boutonsDesactives == (if old(boutonsDesactives).Some? then Some(|entries| <= 1) else None)
      ensures old(IdsFresh()) ==> IdsFresh()
    {
      var found := Find(Prefix + IntToString(index));
      if found.None? || !confirme {
        return;
      }
      var i := found.value;
      if IdsFresh() {
        RemovedFresh(entries, compteur, i);
      }
      entries := entries[..i] + entries[i + 1..];
      MettreAJourCompteur();
      Renumeroter();
    }

    /**
     * validerTransformateur(index): false for an unknown section; otherwise true
     * exactly when the rule list finds no error. The errors are shown in the
     * section's alert container, which a successful validation empties.
     */
    method Valider(index: int) returns (ok: bool)
      requires Valid()
      modifies this`entries
      ensures Valid()
      ensures var found := old(Find(Prefix + IntToString(index)));
        if found.None? then !ok && entries == old(entries)
        else
          var e := old(entries)[found.value];
          var errs := Erreurs(e.fields);
          ok == (errs == []) &&
          entries == old(entries)[found.value := e.(alert :=
            if errs != [] then Some(errs) else if e.alert.Some? then Some([]) else None)]
    {
      var found := Find(Prefix + IntToString(index));
      if found.None? {
        return false;
      }
      ok := AfficherErreurs(found.value, Erreurs(entries[found.value].fields));
    }

    /** The display step of validerTransformateur: the errors fill the alert container, or an old alert is emptied. */
    method AfficherErreurs(i: nat, erreurs: seq<string>) returns (ok: bool)
      requires i < |entries|
      modifies this`entries
      ensures ok == (erreurs == [])
      ensures var e := old(entries)[i];
        entries == old(entries)[i := e.(alert :=
          if erreurs != [] then Some(erreurs) else if e.alert.Some? then Some([]) else None)]
    {
      var e := entries[i];
      if |erreurs| > 0 {
        entries := entries[i := e.(alert := Some(erreurs))];
        return false;
      }
      if e.alert.Some? {
        entries := entries[i := e.(alert := Some([]))];
      }
      return true;
    }

    /**
     * calculerPerformances(index): with a positive power, the first `rendement`
     * control gets the efficiency to two decimals and the title's badge shows it;
     * otherwise nothing changes.
     */
    method CalculerPerformances(index: int)
      requires Valid()
      modifies this`entries
      ensures Valid()
      ensures var found := old(Find(Prefix + IntToString(index)));
        if found.None? then entries == old(entries)
        else
          var e := old(entries)[found.value];
          var p := OrZero(Nombre(e.fields, "puissance_nominale"));
          var pv := OrZero(Nombre(e.fields, "pertes_vide"));
          var pc := OrZero(Nombre(e.fields, "pertes_charge"));
          if !Less(Finite(0.0), p) then entries == old(entries)
          else
            entries == old(entries)[found.value :=
              AvecPerformances(e, ToFixed(Rendement(p, pv, pc), 2), ToFixed(PertesRelatives(p, pv, pc), 3))]
    {
      var found := Find(Prefix + IntToString(index));
      if found.None? {
        return;
      }
      var i := found.value;
      var e := entries[i];
      var puissance := OrZero(Nombre(e.fields, "puissance_nominale"));
      var pertesVide := OrZero(Nombre(e.fields, "pertes_vide"));
      var pertesCharge := OrZero(Nombre(e.fields, "pertes_charge"));
      if Less(Finite(0.0), puissance) {
        var rendement := ToFixed(Rendement(puissance, pertesVide, pertesCharge), 2);
        var relatives := ToFixed(PertesRelatives(puissance, pertesVide, pertesCharge), 3);
        AfficherPerformances(i, rendement, relatives);
      }
    }

    /** The display step of calculerPerformances: the `rendement` control and the title's badge. */
    method AfficherPerformances(i: nat, rendement: string, relatives: string)
      requires i < |entries|
      modifies this`entries
      ensures entries == old(entries)[i := AvecPerformances(old(entries)[i], rendement, relatives)]
    {
      var e := entries[i];
      var title := e.title;
      if title.Some? {
        title := Some(title.value.(badge := Some(Badge("η = " + rendement + "%",
          "Rendement: " + rendement + "% | Pertes: " + relatives + "%"))));
      }
      entries := entries[i := e.(fields := SetValue(e.fields, "rendement", rendement), title := title)];
    }
  }
}
