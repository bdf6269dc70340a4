// Notifications and internal messages: the records, their read and archive flags, the CSS and
// icon lookups, the template formatter and the per-type notification preferences.
// Datetimes are whole seconds.
module NotificationsModel {
  import opened Wrappers
  import opened Text

  datatype TypeNotification =
    | RappelRapport | ValidationRapport | RejetRapport | AlerteDonnees
    | MessageSysteme | MaintenancePlanifiee | IncidentTechnique | NouvelleReglementation

  /** The enum member's `.value`. */
  function TypeValue(t: TypeNotification): string
  {
    match t
    case RappelRapport => "rappel_rapport"
    case ValidationRapport => "validation_rapport"
    case RejetRapport => "rejet_rapport"
    case AlerteDonnees => "alerte_donnees"
    case MessageSysteme => "message_systeme"
    case MaintenancePlanifiee => "maintenance_planifiee"
    case IncidentTechnique => "incident_technique"
    case NouvelleReglementation => "nouvelle_reglementation"
  }

  /** `TypeNotification(value)`: the member with that value; any other text raises `ValueError`. */
  function TypeOfValue(s: string): (r: Option<TypeNotification>)
    ensures r.Some? ==> TypeValue(r.value) == s
  {
    if s == "rappel_rapport" then Some(RappelRapport)
    else if s == "validation_rapport" then Some(ValidationRapport)
    else if s == "rejet_rapport" then Some(RejetRapport)
    else if s == "alerte_donnees" then Some(AlerteDonnees)
    else if s == "message_systeme" then Some(MessageSysteme)
    else if s == "maintenance_planifiee" then Some(MaintenancePlanifiee)
    else if s == "incident_technique" then Some(IncidentTechnique)
    else if s == "nouvelle_reglementation" then Some(NouvelleReglementation)
    else None
  }

  lemma {:induction false} TypeValueRoundTrip(t: TypeNotification)
    ensures TypeOfValue(TypeValue(t)) == Some(t)
  {
  }

  /** A row of `notifications`. */
  datatype NotificationRow = NotificationRow(
    id: int, userId: int, typ: TypeNotification, titre: string, message: string,
    lue: bool, archivee: bool, urlAction: Option<string>, priorite: Option<int>,
    actif: bool, dateCreation: int, dateModification: int)

  /**
   * A notification loaded from the table; its methods set one flag each and save. The UPDATE that
   * saves a changed flag also stamps `date_modification` (the column's `onupdate`); a flag that was
   * already set leaves the row unchanged, so no UPDATE is issued.
   */
  class Notification {
    var row: NotificationRow

    constructor (row: NotificationRow)
      ensures this.row == row
    {
      this.row := row;
    }

    /** `marquer_comme_lue`: only `lue` and the modification date change, and a notification already read stays as it is. */
    method MarquerCommeLue(now: int)
      modifies this
      ensures row == MarqueeLue(old(row), now)
      ensures row.lue
    {
      if !row.lue {
        row := row.(lue := true, dateModification := now);
      }
    }

    /** `archiver`: only `archivee` and the modification date change; the read flag is kept. */
    method Archiver(now: int)
      modifies this
      ensures old(row.archivee) ==> row == old(row)
      ensures !old(row.archivee) ==> row == old(row).(archivee := true, dateModification := now)
    {
      if !row.archivee {
        row := row.(archivee := true, dateModification := now);
      }
    }
  }

  /** A notification row after `marquer_comme_lue` at `now`. */
  function MarqueeLue(r: NotificationRow, now: int): (m: NotificationRow)
    ensures m.lue
    ensures m == r <==> r.lue
    ensures m.(lue := r.lue, dateModification := r.dateModification) == r
    ensures !r.lue ==> m.dateModification == now
  {
    if r.lue then r else r.(lue := true, dateModification := now)
  }

  /** Marking read twice is marking read once. */
  lemma {:induction false} MarqueeLueIdempotent(r: NotificationRow, now: int, later: int)
    ensures MarqueeLue(MarqueeLue(r, now), later) == MarqueeLue(r, now)
  {
  }

  /** `css_class` of a notification (prefix "notification") or a message (prefix "message"). */
  function CssClass(prefix: string, priorite: Option<int>): string
  {
    if priorite == Some(3) then prefix + "-urgent"
    else if priorite == Some(2) then prefix + "-important"
    else prefix + "-normal"
  }

  /** Priority 3 is urgent, 2 important, anything else (1, another number, NULL) normal; the three differ. */
  lemma {:induction false} CssClassCases(prefix: string, priorite: Option<int>)
    ensures priorite == Some(3) <==> CssClass(prefix, priorite) == prefix + "-urgent"
    ensures priorite == Some(2) <==> CssClass(prefix, priorite) == prefix + "-important"
    ensures priorite != Some(3) && priorite != Some(2) <==> CssClass(prefix, priorite) == prefix + "-normal"
  {
    assert (prefix + "-urgent")[|prefix| + 1] == 'u';
    assert (prefix + "-important")[|prefix| + 1] == 'i';
    assert (prefix + "-normal")[|prefix| + 1] == 'n';
  }

  /** `icon_class`: the icon of the type; a missing type gets the bell. */
  function IconClass(t: Option<TypeNotification>): string
  {
    match t
    case None => "fas fa-bell"
    case Some(RappelRapport) => "fas fa-clock"
    case Some(ValidationRapport) => "fas fa-check-circle"
    case Some(RejetRapport) => "fas fa-times-circle"
    case Some(AlerteDonnees) => "fas fa-exclamation-triangle"
    case Some(MessageSysteme) => "fas fa-info-circle"
    case Some(MaintenancePlanifiee) => "fas fa-tools"
    case Some(IncidentTechnique) => "fas fa-bolt"
    case Some(NouvelleReglementation) => "fas fa-gavel"
  }

  /** Reads the type back from its icon. */
  function IconType(icon: string): Option<Option<TypeNotification>>
  {
    if icon == "fas fa-bell" then Some(None)
    else if icon == "fas fa-clock" then Some(Some(RappelRapport))
    else if icon == "fas fa-check-circle" then Some(Some(ValidationRapport))
    else if icon == "fas fa-times-circle" then Some(Some(RejetRapport))
    else if icon == "fas fa-exclamation-triangle" then Some(Some(AlerteDonnees))
    else if icon == "fas fa-info-circle" then Some(Some(MessageSysteme))
    else if icon == "fas fa-tools" then Some(Some(MaintenancePlanifiee))
    else if icon == "fas fa-bolt" then Some(Some(IncidentTechnique))
    else if icon == "fas fa-gavel" then Some(Some(NouvelleReglementation))
    else None
  }

  /** Every type has its own icon, and only a missing type shows the default bell. */
  lemma {:induction false} IconClassDistinct(t: Option<TypeNotification>, u: Option<TypeNotification>)
    ensures IconType(IconClass(t)) == Some(t)
    ensures IconClass(t) == IconClass(u) ==> t == u
    ensures IconClass(t) == "fas fa-bell" <==> t.None?
  {
    if IconClass(t) == IconClass(u) {
      assert IconType(IconClass(u)) == Some(u);
    }
  }

  /** A row of `messages_internes`. */
  datatype MessageRow = MessageRow(
    id: int, expediteurId: int, destinataireId: int, sujet: string, contenu: string,
    lu: bool, archiveExpediteur: bool, archiveDestinataire: bool,
    messageParentId: Option<int>, priorite: Option<int>, actif: bool, dateModification: int)

  /** An internal message loaded from the table; like a notification, a changed flag is saved with the stamp. */
  class MessageInterne {
    var row: MessageRow

    constructor (row: MessageRow)
      ensures this.row == row
    {
      this.row := row;
    }

    /** `marquer_comme_lu`: the save stamps the modification date unless the message was already read. */
    method MarquerCommeLu(now: int)
      modifies this
      ensures old(row.lu) ==> row == old(row)
      ensures !old(row.lu) ==> row == old(row).(lu := true, dateModification := now)
    {
      if !row.lu {
        row := row.(lu := true, dateModification := now);
      }
    }

    /** `archiver_pour_expediteur`: the recipient's archive flag is untouched. */
    method ArchiverPourExpediteur(now: int)
      modifies this
      ensures old(row.archiveExpediteur) ==> row == old(row)
      ensures !old(row.archiveExpediteur) ==> row == old(row).(archiveExpediteur := true, dateModification := now)
      ensures row.archiveDestinataire == old(row.archiveDestinataire)
    {
      if !row.archiveExpediteur {
        row := row.(archiveExpediteur := true, dateModification := now);
      }
    }

    /** `archiver_pour_destinataire`: the sender's archive flag is untouched. */
    method ArchiverPourDestinataire(now: int)
      modifies this
      ensures old(row.archiveDestinataire) ==> row == old(row)
      ensures !old(row.archiveDestinataire) ==> row == old(row).(archiveDestinataire := true, dateModification := now)
      ensures row.archiveExpediteur == old(row.archiveExpediteur)
    {
      if !row.archiveDestinataire {
        row := row.(archiveDestinataire := true, dateModification := now);
      }
    }
  }

  /** `est_reponse`. */
  predicate EstReponse(m: MessageRow)
  {
    m.messageParentId.Some?
  }

  // ---------------------------------------------------------------------------------------
  // `str.format(**variables)` for templates whose fields are bare names.

  /** The first position of `c` in `s`. */
  function CharIndex(s: string, c: char): (r: Option<nat>)
    ensures r.Some? ==> r.value < |s| && s[r.value] == c && forall k :: 0 <= k < r.value ==> s[k] != c
    ensures r.None? ==> forall k :: 0 <= k < |s| ==> s[k] != c
  {
    if s == [] then None
    else if s[0] == c then Some(0)
    else match CharIndex(s[1..], c)
      case None => None
      case Some(j) => Some(j + 1)
  }

  predicate NoBraces(s: string)
  {
    forall k :: 0 <= k < |s| ==> s[k] != '{' && s[k] != '}'
  }

  /** A field that is a keyword name: not empty, not a positional index, with no conversion, spec, attribute or index. */
  predicate PlainName(f: string)
  {
    && f != [] && !AllDigits(f)
    && forall k :: 0 <= k < |f| ==> f[k] !in {'{', '}', ':', '!', '.', '['}
  }

  /** The value of one replacement field. */
  function Field(f: string, vars: map<string, string>): (r: Result<string>)
    ensures PlainName(f) ==> (r.Ok? <==> f in vars)
    ensures PlainName(f) && f in vars ==> r.value == vars[f]
  {
    if CharIndex(f, '{').Some? then Err("ValueError")
    else if CharIndex(f, ':').Some? || CharIndex(f, '!').Some? || CharIndex(f, '.').Some? || CharIndex(f, '[').Some? then
      Err("unsupported field")
    else if f == [] || AllDigits(f) then Err("IndexError")
    else if f in vars then Ok(vars[f])
    else Err("KeyError")
  }

  function Prepend(s: string, r: Result<string>): (q: Result<string>)
    ensures q.Ok? <==> r.Ok?
  {
    if r.Ok? then Ok(s + r.value) else r
  }

  /**
   * `template.format(**vars)`: doubled braces are literal, a field is replaced by its value,
   * an unknown name raises `KeyError` and a lone or unclosed brace raises `ValueError`.
   */
  function Format(t: string, vars: map<string, string>): Result<string>
    decreases |t|
  {
    if t == [] then Ok([])
    else if t[0] == '{' then
      if |t| > 1 && t[1] == '{' then Prepend("{", Format(t[2..], vars))
      else match CharIndex(t[1..], '}')
        case None => Err("ValueError")
        case Some(j) =>
          match Field(t[1..j + 1], vars)
          case Err(e) => Err(e)
          case Ok(v) => Prepend(v, Format(t[j + 2..], vars))
    else if t[0] == '}' then
      if |t| > 1 && t[1] == '}' then Prepend("}", Format(t[2..], vars)) else Err("ValueError")
    else Prepend([t[0]], Format(t[1..], vars))
  }

  lemma {:induction false} PrependPrepend(a: string, b: string, r: Result<string>)
    ensures Prepend(a, Prepend(b, r)) == Prepend(a + b, r)
  {
    if r.Ok? {
      assert a + (b + r.value) == (a + b) + r.value;
    }
  }

  /** Text without braces is copied as it is, whatever follows it. */
  lemma {:induction false} FormatPlain(p: string, rest: string, vars: map<string, string>)
    requires NoBraces(p)
    ensures Format(p + rest, vars) == Prepend(p, Format(rest, vars))
    decreases |p|
  {
    if p == [] {
      assert p + rest == rest;
      if Format(rest, vars).Ok? {
        assert p + Format(rest, vars).value == Format(rest, vars).value;
      }
    } else {
      assert (p + rest)[0] == p[0];
      assert (p + rest)[1..] == p[1..] + rest;
      FormatPlain(p[1..], rest, vars);
      PrependPrepend([p[0]], p[1..], Format(rest, vars));
      assert [p[0]] + p[1..] == p;
    }
  }

  /** A template without fields formats to itself. */
  lemma {:induction false} FormatLiteral(p: string, vars: map<string, string>)
    requires NoBraces(p)
    ensures Format(p, vars) == Ok(p)
  {
    FormatPlain(p, [], vars);
    assert p + [] == p;
  }

  lemma {:induction false} CharIndexAfter(f: string, c: char, rest: string)
    requires forall k :: 0 <= k < |f| ==> f[k] != c
    ensures CharIndex(f + [c] + rest, c) == Some(|f|)
    decreases |f|
  {
    if f != [] {
      assert (f + [c] + rest)[1..] == f[1..] + [c] + rest;
      CharIndexAfter(f[1..], c, rest);
    }
  }

  /** A keyword field is replaced by its variable, or the whole call raises `KeyError`. */
  lemma {:induction false} FormatField(name: string, rest: string, vars: map<string, string>)
    requires PlainName(name)
    ensures Format("{" + name + "}" + rest, vars) ==
      if name in vars then Prepend(vars[name], Format(rest, vars)) else Err("KeyError")
  {
    var t := "{" + name + "}" + rest;
    assert t[0] == '{' && t[1] == name[0];
    assert t[1..] == name + "}" + rest;
    CharIndexAfter(name, '}', rest);
    assert t[1..|name| + 1] == name;
    assert t[|name| + 2..] == rest;
  }

  /** A text, one field, and a text: the usual shape of the default templates. */
  lemma {:induction false} FormatOneField(p: string, name: string, q: string, vars: map<string, string>)
    requires NoBraces(p) && NoBraces(q) && PlainName(name)
    ensures Format(p + "{" + name + "}" + q, vars) ==
      if name in vars then Ok(p + vars[name] + q) else Err("KeyError")
  {
    assert p + "{" + name + "}" + q == p + ("{" + name + "}" + q);
    FormatPlain(p, "{" + name + "}" + q, vars);
    FormatField(name, q, vars);
    FormatLiteral(q, vars);
    if name in vars {
      PrependPrepend(p, vars[name], Ok(q));
      assert p + vars[name] + q == p + (vars[name] + q);
    }
  }

  // ---------------------------------------------------------------------------------------
  // Templates.

  /** A row of `templates_notifications`. */
  datatype TemplateRow = TemplateRow(
    id: int, code: string, nom: string, titreTemplate: string, messageTemplate: string,
    typ: TypeNotification, prioriteDefaut: Option<int>, urlTemplate: Option<string>, actif: bool)

  /** The unsaved `Notification` object a template builds; the column defaults apply when it is saved. */
  datatype NotificationDraft = NotificationDraft(
    userId: int, typ: TypeNotification, titre: string, message: string,
    priorite: Option<int>, urlAction: Option<string>)

  /** A URL template that is NULL or empty gives no link. */
  predicate HasUrl(t: TemplateRow)
  {
    t.urlTemplate.Some? && t.urlTemplate.value != ""
  }

  /**
   * `generer_notification`: the title, message and URL formatted with the variables (a missing
   * `variables` is the empty map), the template's type and default priority copied.
   */
  function GenererNotification(t: TemplateRow, userId: int, variables: map<string, string>): (r: Result<NotificationDraft>)
    ensures r.Ok? <==>
      Format(t.titreTemplate, variables).Ok? && Format(t.messageTemplate, variables).Ok?
      && (HasUrl(t) ==> Format(t.urlTemplate.value, variables).Ok?)
    ensures r.Ok? ==>
      && r.value.userId == userId && r.value.typ == t.typ && r.value.priorite == t.prioriteDefaut
      && r.value.titre == Format(t.titreTemplate, variables).value
      && r.value.message == Format(t.messageTemplate, variables).value
      && (r.value.urlAction.None? <==> !HasUrl(t))
      && (HasUrl(t) ==> r.value.urlAction.value == Format(t.urlTemplate.value, variables).value)
  {
    match Format(t.titreTemplate, variables)
    case Err(e) => Err(e)
    case Ok(titre) =>
      match Format(t.messageTemplate, variables)
      case Err(e) => Err(e)
      case Ok(message) =>
        if !HasUrl(t) then Ok(NotificationDraft(userId, t.typ, titre, message, t.prioriteDefaut, None))
        else match Format(t.urlTemplate.value, variables)
          case Err(e) => Err(e)
          case Ok(url) => Ok(NotificationDraft(userId, t.typ, titre, message, t.prioriteDefaut, Some(url)))
  }

  // ---------------------------------------------------------------------------------------
  // Preferences.

  /** The per-type switches of a `preferences_notifications` row. */
  datatype Preferences = Preferences(
    rappelRapport: bool, validationRapport: bool, rejetRapport: bool, alerteDonnees: bool,
    messageSysteme: bool, maintenancePlanifiee: bool, incidentTechnique: bool, nouvelleReglementation: bool)

  /** The column defaults: every type accepted. */
  const DefaultPreferences := Preferences(true, true, true, true, true, true, true, true)

  function Flag(p: Preferences, t: TypeNotification): bool
  {
    match t
    case RappelRapport => p.rappelRapport
    case ValidationRapport => p.validationRapport
    case RejetRapport => p.rejetRapport
    case AlerteDonnees => p.alerteDonnees
    case MessageSysteme => p.messageSysteme
    case MaintenancePlanifiee => p.maintenancePlanifiee
    case IncidentTechnique => p.incidentTechnique
    case NouvelleReglementation => p.nouvelleReglementation
  }

  /** The preferences with one type's switch set. */
  function SetFlag(p: Preferences, t: TypeNotification, b: bool): Preferences
  {
    match t
    case RappelRapport => p.(rappelRapport := b)
    case ValidationRapport => p.(validationRapport := b)
    case RejetRapport => p.(rejetRapport := b)
    case AlerteDonnees => p.(alerteDonnees := b)
    case MessageSysteme => p.(messageSysteme := b)
    case MaintenancePlanifiee => p.(maintenancePlanifiee := b)
    case IncidentTechnique => p.(incidentTechnique := b)
    case NouvelleReglementation => p.(nouvelleReglementation := b)
  }

  /** The argument of `accepte_type`: a text value or a member. */
  datatype TypeArg = TypeText(s: string) | TypeMember(t: TypeNotification)

  /** `accepte_type`: a text is converted first (an unknown one raises), then that type's switch is read. */
  function AccepteType(p: Preferences, a: TypeArg): (r: Result<bool>)
    ensures a.TypeMember? ==> r == Ok(Flag(p, a.t))
  {
    match a
    case TypeMember(t) => Ok(Flag(p, t))
    case TypeText(s) =>
      match TypeOfValue(s)
      case None => Err("ValueError")
      case Some(t) => Ok(Flag(p, t))
  }

  /**
   * A member and its text are read alike; a text that names no type raises; each switch
   * governs its own type only; the defaults accept everything.
   */
  lemma {:induction false} AccepteTypeCases(p: Preferences, t: TypeNotification, u: TypeNotification, b: bool, s: string)
    ensures AccepteType(p, TypeText(TypeValue(t))) == AccepteType(p, TypeMember(t)) == Ok(Flag(p, t))
    ensures AccepteType(p, TypeText(s)).Err? <==> TypeOfValue(s).None?
    ensures AccepteType(SetFlag(p, t, b), TypeMember(u)) == if u == t then Ok(b) else AccepteType(p, TypeMember(u))
    ensures AccepteType(DefaultPreferences, TypeMember(t)) == Ok(true)
  {
    TypeValueRoundTrip(t);
  }
}
