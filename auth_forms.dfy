// The account forms' validators: unique usernames and e-mail addresses, the operator a
// role needs, and the operator choices the forms offer.
module AuthForms {
  import opened Wrappers
  import opened Text
  import opened Python
  import opened Users
  import opened Access

  const UsernameTaken: string := "Ce nom d'utilisateur est déjà utilisé."
  const EmailTaken: string := "Cette adresse email est déjà utilisée."
  const OperateurNeeded: string := "Un opérateur doit être sélectionné pour ce rôle."

  /** `User.query.filter_by(username=...).first()`. */
  function FirstWithUsername(users: seq<User>, username: string): (r: Option<User>)
    ensures r.Some? <==> exists k :: 0 <= k < |users| && users[k].username == username
    ensures r.Some? ==> r.value in users && r.value.username == username
  {
    if users == [] then None
    else if users[0].username == username then Some(users[0])
    else FirstWithUsername(users[1..], username)
  }

  /** `User.query.filter_by(email=...).first()`. */
  function FirstWithEmail(users: seq<User>, email: string): (r: Option<User>)
    ensures r.Some? <==> exists k :: 0 <= k < |users| && users[k].email == email
    ensures r.Some? ==> r.value in users && r.value.email == email
  {
    if users == [] then None
    else if users[0].email == email then Some(users[0])
    else FirstWithEmail(users[1..], email)
  }

  /** `RegistrationForm.validate_username`: the error raised, if any. */
  function ValidateUsername(users: seq<User>, username: string): (err: Option<string>)
    ensures err.Some? <==> exists k :: 0 <= k < |users| && users[k].username == username
    ensures err.Some? ==> err == Some(UsernameTaken)
  {
    if FirstWithUsername(users, username).Some? then Some(UsernameTaken) else None
  }

  /** `RegistrationForm.validate_email`. */
  function ValidateEmail(users: seq<User>, email: string): (err: Option<string>)
    ensures err.Some? <==> exists k :: 0 <= k < |users| && users[k].email == email
    ensures err.Some? ==> err == Some(EmailTaken)
  {
    if FirstWithEmail(users, email).Some? then Some(EmailTaken) else None
  }

  /** `RegistrationForm.validate_operateur_id`: operator roles need a non-null, non-zero operator. */
  function ValidateOperateurId(role: string, operateurId: Option<int>): (err: Option<string>)
    ensures err.Some? <==> role in [AdminOperateur, UtilisateurOperateur] && !TruthyInt(operateurId)
    ensures err.Some? ==> err == Some(OperateurNeeded)
  {
    if role in [AdminOperateur, UtilisateurOperateur] && (operateurId.None? || operateurId.value == 0) then
      Some(OperateurNeeded)
    else None
  }

  /** The `operateur_id` coercer `int(x) if x else None` applied to the submitted text. */
  function OperateurIdCoerce(x: string): Result<Option<int>>
  {
    if x == "" then Ok(None)
    else match ParseInt(x)
      case Some(n) => Ok(Some(n))
      case None => Err("ValueError")
  }

  /**
   * The WTForms release the forms run on. `SelectField.pre_validate` differs: release 2 compares
   * the field's data with each choice value, release 3 with each choice value passed through the
   * coercer.
   */
  datatype Wtforms = Wtforms2 | Wtforms3

  function NotAValidChoice(w: Wtforms): string
  {
    if w == Wtforms2 then "Not a valid choice" else "Not a valid choice."
  }

  function CouldNotCoerce(w: Wtforms): string
  {
    if w == Wtforms2 then "Invalid Choice: could not coerce" else "Invalid Choice: could not coerce."
  }

  /** The coercer on a choice value, an integer: `int(x) if x else None`. */
  function CoerceChoice(x: int): Option<int>
  {
    if x == 0 then None else Some(x)
  }

  /**
   * `operateur_id.data` once the post is read: `raw` is the submitted text, `None` when the field
   * is absent. Without text, or when the text does not coerce, the data keeps its default `None`.
   */
  function OperateurIdData(raw: Option<string>): Option<int>
  {
    if raw.None? then None
    else match OperateurIdCoerce(raw.value)
      case Ok(d) => d
      case Err(_) => None
  }

  /** `Optional()` finds nothing to check: no text, or text that strips to nothing. */
  predicate BlankPost(raw: Option<string>)
  {
    raw.None? || Trim(raw.value, IsPyWhitespace) == ""
  }

  /** Some choice matches the data in `SelectField.pre_validate`. */
  predicate ChoiceMatches(w: Wtforms, choices: seq<(int, string)>, data: Option<int>)
  {
    exists k :: 0 <= k < |choices| && data == (if w == Wtforms2 then Some(choices[k].0) else CoerceChoice(choices[k].0))
  }

  /**
   * The errors `operateur_id` holds after `validate()`. The coercion error comes first, then
   * `pre_validate`'s, then the validator chain `Optional()`, `validate_operateur_id` runs. On a
   * blank post `Optional()` clears every error and stops the chain, so the inline validator never
   * sees the role.
   */
  function OperateurIdErrors(w: Wtforms, role: string, raw: Option<string>, choices: seq<(int, string)>): seq<string>
  {
    if BlankPost(raw) then []
    else
      var data := OperateurIdData(raw);
      (if OperateurIdCoerce(raw.value).Err? then [CouldNotCoerce(w)] else [])
      + (if ChoiceMatches(w, choices, data) then [] else [NotAValidChoice(w)])
      + (match ValidateOperateurId(role, data) case Some(e) => [e] case None => [])
  }

  /** The registration is accepted when none of the validators modelled here leaves an error. */
  predicate RegistrationValid(users: seq<User>, username: string, email: string, role: string,
                              w: Wtforms, raw: Option<string>, choices: seq<(int, string)>)
  {
    ValidateUsername(users, username).None? && ValidateEmail(users, email).None?
    && OperateurIdErrors(w, role, raw, choices) == []
  }

  /** `register` stores `form.operateur_id.data if form.operateur_id.data != 0 else None`. */
  function RegisteredOperateur(raw: Option<string>): Option<int>
  {
    var d := OperateurIdData(raw);
    if d == Some(0) then None else d
  }

  /**
   * An accepted registration is new in both unique columns. When an operator was submitted, the
   * stored one is a listed choice, and an accepted operator-role account then passes
   * `same_operateur_required` and reaches its own operator. A blank post stores no operator.
   */
  lemma {:induction false} RegisteredAccount(users: seq<User>, u: User, w: Wtforms, raw: Option<string>, choices: seq<(int, string)>)
    requires RegistrationValid(users, u.username, u.email, u.role, w, raw, choices)
    requires u.operateurId == RegisteredOperateur(raw)
    ensures forall k :: 0 <= k < |users| ==> users[k].username != u.username && users[k].email != u.email
    ensures !BlankPost(raw) && u.role in [AdminOperateur, UtilisateurOperateur] ==> SameOperateurRequired(AUser(u)) == RunView
    ensures !BlankPost(raw) && u.role in [AdminOperateur, UtilisateurOperateur] ==>
      UserCanAccessOperateur(u, u.operateurId) && TruthyInt(u.operateurId)
    ensures !BlankPost(raw) && u.operateurId.Some? ==> exists k :: 0 <= k < |choices| && choices[k].0 == u.operateurId.value
    ensures BlankPost(raw) ==> u.operateurId.None?
  {
    if !BlankPost(raw) && u.operateurId.Some? {
      var k :| 0 <= k < |choices| && OperateurIdData(raw) == (if w == Wtforms2 then Some(choices[k].0) else CoerceChoice(choices[k].0));
      assert choices[k].0 == u.operateurId.value;
    }
  }

  /**
   * A blank operator passes whatever the role: an operator-role account is then accepted and
   * stored without an operator, and `same_operateur_required` refuses it.
   */
  lemma {:induction false} BlankOperateurAccepted(users: seq<User>, u: User, w: Wtforms, raw: Option<string>, choices: seq<(int, string)>)
    requires ValidateUsername(users, u.username).None? && ValidateEmail(users, u.email).None?
    requires BlankPost(raw) && u.operateurId == RegisteredOperateur(raw)
    ensures RegistrationValid(users, u.username, u.email, u.role, w, raw, choices)
    ensures u.operateurId.None?
    ensures u.role in [AdminOperateur, UtilisateurOperateur] ==> SameOperateurRequired(AUser(u)) == Forbidden
  {
    if raw.Some? {
      assert raw.value == "" || OperateurIdCoerce(raw.value).Err? by {
        if raw.value != "" {
          ParseIntOfBlank(raw.value);
        }
      }
    }
  }

  /** Text that strips to nothing is no integer. */
  lemma {:induction false} ParseIntOfBlank(x: string)
    requires Trim(x, IsPyWhitespace) == ""
    ensures ParseInt(x).None?
  {
  }

  /**
   * Picking "Aucun opérateur" (the text "0") of the account forms' list: under WTForms 2 it is
   * refused exactly for the operator roles, by the inline validator; under WTForms 3 the choice 0
   * coerces to `None`, which never equals the data 0, so it is "Not a valid choice." for every role.
   */
  lemma {:induction false} NoOperateurChoiceRefused(role: string, ops: seq<Operateur>)
    ensures ValidateOperateurId(role, Some(0)).Some? <==> role in [AdminOperateur, UtilisateurOperateur]
    ensures ValidateOperateurId(SuperAdmin, None).None?
    ensures OperateurIdErrors(Wtforms2, role, Some("0"), AccountOperateurChoices(ops)) != []
      <==> role in [AdminOperateur, UtilisateurOperateur]
    ensures NotAValidChoice(Wtforms3) in OperateurIdErrors(Wtforms3, role, Some("0"), AccountOperateurChoices(ops))
  {
    ZeroParses();
    ZeroNotBlank();
    var choices := AccountOperateurChoices(ops);
    assert choices[0].0 == 0;
    assert ChoiceMatches(Wtforms2, choices, Some(0));
    assert !ChoiceMatches(Wtforms3, choices, Some(0));
  }

  lemma {:induction false} ZeroNotBlank()
    ensures !BlankPost(Some("0"))
  {
    ZeroParses();
    if Trim("0", IsPyWhitespace) == "" {
      ParseIntOfBlank("0");
    }
  }

  lemma {:induction false} ZeroChoiceCoerces()
    ensures OperateurIdCoerce("0") == Ok(Some(0))
  {
    ZeroParses();
  }

  lemma {:induction false} ZeroParses()
    ensures ParseInt("0") == Some(0)
  {
    assert "0"[..0] == [];
    ParseIntDigits("0");
  }

  /** `UserEditForm` and `ProfileForm`: the username or e-mail is checked only when it changed. */
  function ValidateUsernameChange(users: seq<User>, current: User, username: string): Option<string>
  {
    if username != current.username then ValidateUsername(users, username) else None
  }

  function ValidateEmailChange(users: seq<User>, current: User, email: string): Option<string>
  {
    if email != current.email then ValidateEmail(users, email) else None
  }

  /** Keeping one's own value never fails; a changed value fails exactly when another account holds it. */
  lemma {:induction false} ChangeValidation(users: seq<User>, current: User, username: string, email: string)
    ensures ValidateUsernameChange(users, current, current.username).None?
    ensures ValidateEmailChange(users, current, current.email).None?
    ensures username != current.username ==> (ValidateUsernameChange(users, current, username).Some? <==>
      exists k :: 0 <= k < |users| && users[k].username == username && users[k] != current)
    ensures email != current.email ==> (ValidateEmailChange(users, current, email).Some? <==>
      exists k :: 0 <= k < |users| && users[k].email == email && users[k] != current)
  {
  }

  /** The operator choices of the account forms: `(0, 'Aucun opérateur')`, then the active operators. */
  function AccountOperateurChoices(ops: seq<Operateur>): (r: seq<(int, string)>)
  {
    [(0, "Aucun opérateur")] + seq(|Actives(ops)|, k requires 0 <= k < |Actives(ops)| => (Actives(ops)[k].id, Actives(ops)[k].nom))
  }

  /** The list always starts with the no-operator entry, and every later entry names an active operator. */
  lemma {:induction false} AccountOperateurChoicesShape(ops: seq<Operateur>)
    ensures var r := AccountOperateurChoices(ops);
      && |r| == |Actives(ops)| + 1
      && r[0] == (0, "Aucun opérateur")
      && (forall k :: 1 <= k < |r| ==> var o := Actives(ops)[k - 1]; o in ops && o.actif && r[k] == (o.id, o.nom))
  {
    var r := AccountOperateurChoices(ops);
    forall k | 1 <= k < |r|
      ensures var o := Actives(ops)[k - 1]; o in ops && o.actif && r[k] == (o.id, o.nom)
    {
      assert Actives(ops)[k - 1] in Actives(ops);
    }
  }
}
