// The decisions of the notification and messaging routes: marking all of a user's notifications
// read, who may open, answer or archive a message, and how a reply's recipient, subject and
// thread are derived from the message it answers.
module NotificationRoutes {
  import opened Wrappers
  import opened Text
  import opened NotificationsModel
  import opened NotificationServices
  import opened Python

  // ---------------------------------------------------------------------------------------
  // `marquer_toutes_lues`.

  /** The query of `marquer_toutes_lues`: the user's unread, active notifications. */
  predicate IsNonLue(r: NotificationRow, userId: int)
  {
    r.userId == userId && !r.lue && r.actif
  }

  /**
   * `marquer_toutes_lues`: exactly the user's unread active notifications are marked read, the
   * count is their number, each save stamps the modification date, and afterwards the user has
   * no unread active notification left.
   */
  method MarquerToutesLues(db: Store, userId: int, now: int) returns (count: nat)
    modifies db.notifications
    ensures count == |old(Selected(db.notifications, r => IsNonLue(r, userId)))|
    ensures forall k :: 0 <= k < |db.notifications| ==>
      db.notifications[k].row ==
        if IsNonLue(old(db.notifications[k].row), userId)
        then old(db.notifications[k].row).(lue := true, dateModification := now) else old(db.notifications[k].row)
    ensures forall k :: 0 <= k < |db.notifications| ==> !IsNonLue(db.notifications[k].row, userId)
  {
    var nonLues := Selected(db.notifications, r => IsNonLue(r, userId));
    MarquerToutes(nonLues, now);
    count := |nonLues|;
  }

  // ---------------------------------------------------------------------------------------
  // Rules shared by `nouveau_message`, `voir_message` and `repondre_message`.

  /** A reply's subject: `"Re: "` in front, unless the subject already starts with it. */
  function ReplySubject(sujet: string): string
  {
    if StartsWith(sujet, "Re: ") then sujet else "Re: " + sujet
  }

  /**
   * A reply's subject always starts with `"Re: "` and ends with the original subject; it is the
   * subject itself exactly when that already starts with the prefix, so answering a reply adds
   * no second prefix.
   */
  lemma {:induction false} ReplySubjectProperties(sujet: string)
    ensures StartsWith(ReplySubject(sujet), "Re: ")
    ensures EndsWith(ReplySubject(sujet), sujet)
    ensures ReplySubject(sujet) == sujet <==> StartsWith(sujet, "Re: ")
    ensures ReplySubject(ReplySubject(sujet)) == ReplySubject(sujet)
  {
    var r := ReplySubject(sujet);
    if !StartsWith(sujet, "Re: ") {
      assert r[..4] == "Re: ";
      assert r[|r| - |sujet|..] == sujet;
      assert r != sujet;
    }
  }

  /** The access check of the three message routes: only the sender or the recipient. */
  predicate IsParty(m: MessageRow, userId: int)
  {
    m.destinataireId == userId || m.expediteurId == userId
  }

  /** The recipient of a reply written by `userId`: the parent's recipient for its sender, else its sender. */
  function ReplyRecipient(m: MessageRow, userId: int): int
  {
    if m.expediteurId == userId then m.destinataireId else m.expediteurId
  }

  /**
   * A reply by one party goes to the other: the replier and the reply's recipient are the
   * parent's two parties; when the replier is the recipient, the reply goes back to the sender.
   * Answering that reply in turn goes back to the replier.
   */
  lemma {:induction false} ReplyRecipientOtherParty(m: MessageRow, userId: int)
    requires IsParty(m, userId)
    ensures multiset{userId, ReplyRecipient(m, userId)} == multiset{m.expediteurId, m.destinataireId}
    ensures m.destinataireId == userId && m.expediteurId != userId ==> ReplyRecipient(m, userId) == m.expediteurId
    ensures forall reply: MessageRow :: reply.expediteurId == userId && reply.destinataireId == ReplyRecipient(m, userId) ==>
      IsParty(reply, ReplyRecipient(m, userId)) && ReplyRecipient(reply, ReplyRecipient(m, userId)) == userId
  {
  }

  /** `message_parent_id or id`: the thread a reply attaches to (a zero parent id counts as none). */
  function ThreadRoot(m: MessageRow): int
  {
    if m.messageParentId.Some? && m.messageParentId.value != 0 then m.messageParentId.value else m.id
  }

  /**
   * A message that starts a thread is its own root, and a reply attached to a message's root has
   * that same root: every answer in a conversation hangs off the first message.
   */
  lemma {:induction false} ThreadRootStable(m: MessageRow, reply: MessageRow)
    ensures m.messageParentId.None? ==> ThreadRoot(m) == m.id
    ensures EstReponse(m) && m.messageParentId.value != 0 ==> ThreadRoot(m) == m.messageParentId.value
    ensures reply.messageParentId == Some(ThreadRoot(m)) && ThreadRoot(m) != 0 ==> ThreadRoot(reply) == ThreadRoot(m)
  {
  }

  /** `MessageInterne.query.get(id)`: the message with that id, if any. */
  function FindMessage(ms: seq<MessageInterne>, id: int): (r: Option<MessageInterne>)
    reads ms
    ensures r.Some? ==> r.value in ms && r.value.row.id == id
    ensures r.None? <==> forall k :: 0 <= k < |ms| ==> ms[k].row.id != id
  {
    if ms == [] then None
    else if ms[0].row.id == id then Some(ms[0])
    else
      var r := FindMessage(ms[1..], id);
      assert forall k :: 1 <= k < |ms| ==> ms[k] == ms[1..][k - 1];
      r
  }

  // ---------------------------------------------------------------------------------------
  // `voir_message`.

  /** The message's truthy parent id names no row, so `MessageInterne.query.get` gives `None`. */
  predicate ParentMissing(ms: seq<MessageInterne>, m: MessageRow)
    reads ms
  {
    m.messageParentId.Some? && m.messageParentId.value != 0 && FindMessage(ms, m.messageParentId.value).None?
  }

  /**
   * `voir_message`: an unknown id is 404 and a stranger gets 403, with nothing changed. A party
   * has the message marked read (and its modification date stamped, and saved) when the viewer
   * is its unread recipient. The page then shows the message and a reply form pointing at the
   * thread's root, unless the message's parent id names no row: reading that parent's `reponses`
   * raises AttributeError, after the read mark was saved. No other message changes.
   */
  method VoirMessage(db: Store, id: int, userId: int, now: int) returns (r: Http<Result<(MessageInterne, int)>>)
    modifies db.messages
    ensures var f := old(FindMessage(db.messages, id));
      && (f.None? ==> r == Abort(404))
      && (f.Some? && !IsParty(old(f.value.row), userId) ==> r == Abort(403))
      && (f.Some? && IsParty(old(f.value.row), userId) ==>
            && (old(ParentMissing(db.messages, f.value.row)) ==> r == Done(Err("AttributeError")))
            && (!old(ParentMissing(db.messages, f.value.row)) ==> r == Done(Ok((f.value, ThreadRoot(old(f.value.row))))))
            && f.value.row == if old(f.value.row).destinataireId == userId && !old(f.value.row.lu)
                              then old(f.value.row).(lu := true, dateModification := now) else old(f.value.row))
    ensures forall k :: 0 <= k < |db.messages| && (r.Abort? || db.messages[k] != old(FindMessage(db.messages, id)).value) ==>
      db.messages[k].row == old(db.messages[k].row)
  {
    var found := FindMessage(db.messages, id);
    if found.None? {
      return Abort(404);
    }
    var m := found.value;
    if !IsParty(m.row, userId) {
      return Abort(403);
    }
    var missing := ParentMissing(db.messages, m.row);
    if m.row.destinataireId == userId && !m.row.lu {
      m.MarquerCommeLu(now);
    }
    if missing {
      return Done(Err("AttributeError"));
    }
    return Done(Ok((m, ThreadRoot(m.row))));
  }

  // ---------------------------------------------------------------------------------------
  // `repondre_message`.

  /** The row of the reply `userId` writes to `parent`. */
  function ReplyRow(id: int, parent: MessageRow, userId: int, contenu: string, now: int): (r: MessageRow)
    requires IsParty(parent, userId)
    ensures r.id == id && r.expediteurId == userId && r.contenu == contenu
    ensures multiset{r.expediteurId, r.destinataireId} == multiset{parent.expediteurId, parent.destinataireId}
    ensures StartsWith(r.sujet, "Re: ") && EndsWith(r.sujet, parent.sujet)
    ensures r.messageParentId == Some(ThreadRoot(parent)) && r.priorite == Some(parent.priorite.GetOr(1))
    ensures !r.lu && !r.archiveExpediteur && !r.archiveDestinataire && r.actif
  {
    ReplyRecipientOtherParty(parent, userId);
    ReplySubjectProperties(parent.sujet);
    NewMessage(id, userId, ReplyRecipient(parent, userId), ReplySubject(parent.sujet), contenu,
               parent.priorite.GetOr(1), Some(ThreadRoot(parent)), now)
  }

  /**
   * `repondre_message`: 404 for an unknown id and 403 for a stranger, with nothing saved. A party
   * whose form does not validate saves nothing; otherwise the reply is appended.
   */
  method RepondreMessage(db: Store, id: int, userId: int, contenu: string, valid: bool, now: int)
    returns (r: Http<Option<MessageInterne>>)
    modifies db`messages, db`nextMessageId
    ensures var f := old(FindMessage(db.messages, id));
      && (f.None? ==> r == Abort(404))
      && (f.Some? && !IsParty(old(f.value.row), userId) ==> r == Abort(403))
      && (f.Some? && IsParty(old(f.value.row), userId) && !valid ==> r == Done(None))
      && (f.Some? && IsParty(old(f.value.row), userId) && valid ==>
            && r.Done? && r.value.Some? && fresh(r.value.value)
            && r.value.value.row == ReplyRow(old(db.nextMessageId), old(f.value.row), userId, contenu, now)
            && db.messages == old(db.messages) + [r.value.value]
            && db.nextMessageId == old(db.nextMessageId) + 1)
    ensures !(r.Done? && r.value.Some?) ==> db.messages == old(db.messages) && db.nextMessageId == old(db.nextMessageId)
  {
    var found := FindMessage(db.messages, id);
    if found.None? {
      return Abort(404);
    }
    var parent := found.value.row;
    if !IsParty(parent, userId) {
      return Abort(403);
    }
    if !valid {
      return Done(None);
    }
    var reply := new MessageInterne(ReplyRow(db.nextMessageId, parent, userId, contenu, now));
    db.messages := db.messages + [reply];
    db.nextMessageId := db.nextMessageId + 1;
    return Done(Some(reply));
  }

  // ---------------------------------------------------------------------------------------
  // `archiver_message`.

  /**
   * `archiver_message`: the recipient's archive flag when the user is the recipient (checked
   * first), else the sender's flag when the user is the sender, else 403; 404 for an unknown id.
   * Only that one flag of that one message changes, with its modification date when the flag was not yet set.
   */
  method ArchiverMessage(db: Store, id: int, userId: int, now: int) returns (r: Http<()>)
    modifies db.messages
    ensures var f := old(FindMessage(db.messages, id));
      && (f.None? ==> r == Abort(404))
      && (f.Some? ==>
            var m := old(f.value.row);
            if m.destinataireId == userId then
              r == Done(()) && f.value.row == (if m.archiveDestinataire then m else m.(archiveDestinataire := true, dateModification := now))
            else if m.expediteurId == userId then
              r == Done(()) && f.value.row == (if m.archiveExpediteur then m else m.(archiveExpediteur := true, dateModification := now))
            else r == Abort(403) && f.value.row == m)
    ensures r.Done? <==> old(FindMessage(db.messages, id)).Some? && IsParty(old(FindMessage(db.messages, id)).value.row, userId)
    ensures forall k :: 0 <= k < |db.messages| && Some(db.messages[k]) != old(FindMessage(db.messages, id)) ==>
      db.messages[k].row == old(db.messages[k].row)
  {
    var found := FindMessage(db.messages, id);
    if found.None? {
      return Abort(404);
    }
    var m := found.value;
    if m.row.destinataireId == userId {
      m.ArchiverPourDestinataire(now);
    } else if m.row.expediteurId == userId {
      m.ArchiverPourExpediteur(now);
    } else {
      return Abort(403);
    }
    return Done(());
  }

  // ---------------------------------------------------------------------------------------
  // `nouveau_message`.

  /** The data of `MessageInterneForm`, each field absent until posted or filled in. */
  datatype MessageForm = MessageForm(destinataireId: Option<int>, sujet: Option<string>, contenu: Option<string>,
                                     priorite: Option<int>, messageParentId: ParentField)

  /**
   * The data of the `HiddenField` `message_parent_id`: the `reponse_a` argument the view writes
   * into it, or else the posted text (`None` when the field is not posted).
   */
  datatype ParentField = ParentArg(id: int) | ParentPosted(text: Option<string>)

  /**
   * The integer SQLite's INTEGER affinity makes of a text: the number whose decimal text it is.
   * Any other text SQLite keeps as text, which a row here cannot hold.
   */
  function SqliteInteger(t: string): Option<int>
  {
    match ParseInt(t)
    case Some(n) => if IntToString(n) == t then Some(n) else None
    case None => None
  }

  /** The parent `nouveau_message` saves: `form.message_parent_id.data if ... else None`. */
  function StoredParent(p: ParentField): Option<int>
  {
    match p
    case ParentArg(i) => if i != 0 then Some(i) else None
    case ParentPosted(t) => if t.None? || t.value == "" then None else SqliteInteger(t.value)
  }

  /**
   * Only a missing or empty posted parent is stored as none: a posted "0" is truthy text and is
   * stored as 0, which then reads back as no parent, and any integer's decimal text is stored
   * as that integer.
   */
  lemma {:induction false} StoredParentMeaning(n: int, i: int)
    ensures StoredParent(ParentPosted(None)) == None && StoredParent(ParentPosted(Some(""))) == None
    ensures StoredParent(ParentPosted(Some(IntToString(n)))) == Some(n)
    ensures StoredParent(ParentPosted(Some("0"))) == Some(0)
    ensures StoredParent(ParentArg(i)) == (if i != 0 then Some(i) else None)
  {
    ParseIntOfString(n);
    ParseIntOfString(0);
    IntToStringHead(n);
    assert IntToString(0) == "0";
  }

  /** The recipient choices: every active user but the writer. */
  function RecipientChoices(users: seq<UserRow>, userId: int): seq<int>
  {
    IdsWhere(users, (u: UserRow) => u.user.id != userId && u.actif)
  }

  /** `DataRequired` on text: present and not only white space. */
  predicate TextRequired(s: Option<string>)
  {
    s.Some? && Trim(s.value, IsPyWhitespace) != ""
  }

  /**
   * `validate_on_submit`: a POST whose recipient is a non-zero choice, whose subject is required
   * and at most 300 characters, whose content is required and whose priority is one of 1, 2, 3.
   */
  predicate Validates(users: seq<UserRow>, userId: int, isPost: bool, f: MessageForm)
  {
    && isPost
    && f.destinataireId.Some? && f.destinataireId.value != 0 && f.destinataireId.value in RecipientChoices(users, userId)
    && TextRequired(f.sujet) && |f.sujet.value| <= 300
    && TextRequired(f.contenu)
    && f.priorite.Some? && f.priorite.value in [1, 2, 3]
  }

  /**
   * The form after the query string is applied: a truthy `destinataire_id` fills the recipient;
   * a truthy `reponse_a` names a parent that must exist (404) and be the writer's (403), and then
   * fixes recipient, subject and parent, over whatever was posted.
   */
  function Prefill(ms: seq<MessageInterne>, userId: int, posted: MessageForm, destinataireArg: Option<int>,
                   reponseA: Option<int>): (r: Http<MessageForm>)
    reads ms
    ensures r.Abort? <==>
      && reponseA.Some? && reponseA.value != 0
      && (FindMessage(ms, reponseA.value).None? || !IsParty(FindMessage(ms, reponseA.value).value.row, userId))
    ensures r.Done? && (reponseA.None? || reponseA.value == 0) ==>
      r.value == if destinataireArg.Some? && destinataireArg.value != 0 then posted.(destinataireId := destinataireArg) else posted
    ensures r.Done? && reponseA.Some? && reponseA.value != 0 ==>
      var p := FindMessage(ms, reponseA.value).value.row;
      && r.value.destinataireId.Some?
      && multiset{userId, r.value.destinataireId.value} == multiset{p.expediteurId, p.destinataireId}
      && r.value.sujet.Some? && StartsWith(r.value.sujet.value, "Re: ") && EndsWith(r.value.sujet.value, p.sujet)
      && r.value.messageParentId == ParentArg(reponseA.value)
      && r.value.contenu == posted.contenu && r.value.priorite == posted.priorite
  {
    var f := if destinataireArg.Some? && destinataireArg.value != 0 then posted.(destinataireId := destinataireArg) else posted;
    if reponseA.Some? && reponseA.value != 0 then
      match FindMessage(ms, reponseA.value)
      case None => Abort(404)
      case Some(parent) =>
        if !IsParty(parent.row, userId) then Abort(403)
        else
          ReplyRecipientOtherParty(parent.row, userId);
          ReplySubjectProperties(parent.row.sujet);
          Done(f.(destinataireId := Some(ReplyRecipient(parent.row, userId)), sujet := Some(ReplySubject(parent.row.sujet)),
                  messageParentId := ParentArg(reponseA.value)))
    else Done(f)
  }

  /**
   * `nouveau_message`: the prefilled form is shown again (GET or a form that does not validate)
   * or saved as a new message from the writer, with the parent `StoredParent` gives.
   */
  method NouveauMessage(db: Store, userId: int, posted: MessageForm, isPost: bool, destinataireArg: Option<int>,
                        reponseA: Option<int>, now: int) returns (r: Http<Option<MessageInterne>>)
    modifies db`messages, db`nextMessageId
    ensures var p := old(Prefill(db.messages, userId, posted, destinataireArg, reponseA));
      && (p.Abort? ==> r == Abort(p.status))
      && (p.Done? && !Validates(db.users, userId, isPost, p.value) ==> r == Done(None))
      && (p.Done? && Validates(db.users, userId, isPost, p.value) ==>
            var f := p.value;
            && r.Done? && r.value.Some? && fresh(r.value.value)
            && r.value.value.row == NewMessage(old(db.nextMessageId), userId, f.destinataireId.value, f.sujet.value,
                                               f.contenu.value, f.priorite.value, StoredParent(f.messageParentId), now)
            && db.messages == old(db.messages) + [r.value.value]
            && db.nextMessageId == old(db.nextMessageId) + 1)
    ensures !(r.Done? && r.value.Some?) ==> db.messages == old(db.messages) && db.nextMessageId == old(db.nextMessageId)
  {
    var p := Prefill(db.messages, userId, posted, destinataireArg, reponseA);
    if p.Abort? {
      return Abort(p.status);
    }
    var f := p.value;
    if !Validates(db.users, userId, isPost, f) {
      return Done(None);
    }
    var parent := StoredParent(f.messageParentId);
    var m := InsertMessage(db, userId, f.destinataireId.value, f.sujet.value, f.contenu.value, f.priorite.value, parent, now);
    return Done(Some(m));
  }
}
