// The notification, messaging and template services, over the tables they read and write.
// `datetime.now()` is the parameter `now`, in seconds; `timedelta(days=jours)` is `jours * Day`.
module NotificationServices {
  import opened Wrappers
  import opened Text
  import opened Users
  import opened NotificationsModel
  import opened NotificationTemplates
  import Collections

  const Day := 86400

  /** A `users` row as the queries see it: the account and the `actif` column every model has. */
  datatype UserRow = UserRow(user: User, actif: bool)

  /** A value handed to a parameter whose type Python does not check; lookups compare it with a text column. */
  datatype Arg = AInt(i: int) | AText(s: string)

  /**
   * The text SQLite compares with a column of TEXT affinity such as `templates_notifications.code`:
   * an integer operand takes the column's affinity and is compared as its decimal text.
   */
  function ArgText(a: Arg): string
  {
    match a
    case AText(s) => s
    case AInt(i) => IntToString(i)
  }

  /** The tables the services use. */
  class Store {
    var notifications: seq<Notification>
    var messages: seq<MessageInterne>
    var templates: seq<TemplateRow>
    /** `preferences_notifications` rows as (user id, switches), in table order; no operation here writes them. */
    const preferences: seq<(int, Preferences)>
    /** The `users` table, which no operation here writes either. */
    const users: seq<UserRow>
    var nextNotificationId: int
    var nextMessageId: int
    var nextTemplateId: int

    constructor (templates: seq<TemplateRow>, preferences: seq<(int, Preferences)>, users: seq<UserRow>)
      ensures this.templates == templates && this.preferences == preferences && this.users == users
      ensures notifications == [] && messages == []
      ensures nextNotificationId == 1 && nextMessageId == 1 && nextTemplateId == |templates| + 1
    {
      this.templates := templates;
      this.preferences := preferences;
      this.users := users;
      notifications := [];
      messages := [];
      nextNotificationId := 1;
      nextMessageId := 1;
      nextTemplateId := |templates| + 1;
    }
  }

  // ---------------------------------------------------------------------------------------
  // Lookups.

  /** `PreferenceNotification.query.filter_by(user_id=...).first()`. */
  function PreferencesOf(prefs: seq<(int, Preferences)>, userId: int): (r: Option<Preferences>)
    ensures r.None? <==> forall k :: 0 <= k < |prefs| ==> prefs[k].0 != userId
    ensures r.Some? ==> exists k :: 0 <= k < |prefs| && prefs[k] == (userId, r.value)
  {
    if prefs == [] then None
    else if prefs[0].0 == userId then Some(prefs[0].1)
    else
      var r := PreferencesOf(prefs[1..], userId);
      assert r.Some? ==> exists k :: 0 <= k < |prefs[1..]| && prefs[1..][k] == (userId, r.value);
      assert r.None? ==> forall k :: 1 <= k < |prefs| ==> prefs[1..][k - 1] != (userId, prefs[k].1);
      r
  }

  /** The preference check of `creer_notification`: a user without preferences accepts every type. */
  predicate Accepts(prefs: seq<(int, Preferences)>, userId: int, t: TypeNotification)
  {
    match PreferencesOf(prefs, userId)
    case None => true
    case Some(p) => AccepteType(p, TypeMember(t)) == Ok(true)
  }

  /** The ids among `ids`, in order, whose owners accept the type. */
  function AcceptedIds(prefs: seq<(int, Preferences)>, ids: seq<int>, t: TypeNotification): seq<int>
    decreases |ids|
  {
    if ids == [] then []
    else
      AcceptedIds(prefs, ids[..|ids| - 1], t) + (if Accepts(prefs, ids[|ids| - 1], t) then [ids[|ids| - 1]] else [])
  }

  /** One more id, from the prefix of length `p` to that of length `n == p + 1`. */
  lemma {:induction false} AcceptedIdsNext(prefs: seq<(int, Preferences)>, ids: seq<int>, p: nat, n: nat, t: TypeNotification)
    requires n == p + 1 <= |ids|
    ensures AcceptedIds(prefs, ids[..n], t) == AcceptedIds(prefs, ids[..p], t) + (if Accepts(prefs, ids[p], t) then [ids[p]] else [])
  {
    assert ids[..n][..p] == ids[..p];
  }

  /** The accepted ids are exactly the listed ids whose owners accept. */
  lemma {:induction false} AcceptedIdsMembers(prefs: seq<(int, Preferences)>, ids: seq<int>, t: TypeNotification)
    ensures forall u :: u in AcceptedIds(prefs, ids, t) <==> u in ids && Accepts(prefs, u, t)
    ensures |AcceptedIds(prefs, ids, t)| <= |ids|
    decreases |ids|
  {
    if ids != [] {
      var init := ids[..|ids| - 1];
      AcceptedIdsMembers(prefs, init, t);
      assert ids == init + [ids[|ids| - 1]];
    }
  }

  /** Filtering distributes over concatenation: the order of the ids is kept. */
  lemma {:induction false} AcceptedIdsConcat(prefs: seq<(int, Preferences)>, ids: seq<int>, more: seq<int>, t: TypeNotification)
    ensures AcceptedIds(prefs, ids + more, t) == AcceptedIds(prefs, ids, t) + AcceptedIds(prefs, more, t)
    decreases |more|
  {
    if more != [] {
      var init := more[..|more| - 1];
      assert (ids + more)[..|ids + more| - 1] == ids + init;
      assert (ids + more)[|ids + more| - 1] == more[|more| - 1];
      AcceptedIdsConcat(prefs, ids, init, t);
    } else {
      assert ids + more == ids;
    }
  }

  /** The ids of the user rows that pass the filter, in table order. */
  function IdsWhere(users: seq<UserRow>, keep: UserRow -> bool): (r: seq<int>)
    ensures |r| <= |users|
    ensures forall id :: id in r <==> exists k :: 0 <= k < |users| && keep(users[k]) && users[k].user.id == id
  {
    if users == [] then []
    else
      var rest := IdsWhere(users[1..], keep);
      assert forall k :: 1 <= k < |users| ==> users[k] == users[1..][k - 1];
      (if keep(users[0]) then [users[0].user.id] else []) + rest
  }

  /** The user a foreign key points at, active or not. */
  function FindUser(users: seq<UserRow>, id: int): (r: Option<User>)
    ensures r.Some? ==> r.value.id == id && exists k :: 0 <= k < |users| && users[k].user == r.value
    ensures r.None? <==> forall k :: 0 <= k < |users| ==> users[k].user.id != id
  {
    if users == [] then None
    else if users[0].user.id == id then Some(users[0].user)
    else
      var r := FindUser(users[1..], id);
      assert forall k :: 1 <= k < |users| ==> users[k] == users[1..][k - 1];
      r
  }

  /** `query.get` finds the first row with the id. */
  lemma {:induction false} FindUserFirst(users: seq<UserRow>, id: int, k: int)
    requires 0 <= k < |users| && users[k].user.id == id
    requires forall j :: 0 <= j < k ==> users[j].user.id != id
    ensures FindUser(users, id) == Some(users[k].user)
  {
    if k > 0 {
      assert users[1..][k - 1] == users[k];
      FindUserFirst(users[1..], id, k - 1);
    }
  }

  // ---------------------------------------------------------------------------------------
  // NotificationService.

  /**
   * The row a new `Notification(...)` gets once saved: unread, not archived, active, stamped
   * `now`; a `None` priority is left out of the INSERT, so the column default 1 applies.
   */
  function NewRow(id: int, userId: int, t: TypeNotification, titre: string, message: string,
                  priorite: Option<int>, url: Option<string>, now: int): (r: NotificationRow)
    ensures !r.lue && !r.archivee && r.actif && r.priorite.Some?
    ensures r.priorite == (if priorite.Some? then priorite else Some(1))
  {
    NotificationRow(id, userId, t, titre, message, false, false, url, Some(priorite.GetOr(1)), true, now, now)
  }

  /** `Notification(...).save()`. */
  method InsertNotification(db: Store, userId: int, t: TypeNotification, titre: string, message: string,
                            priorite: Option<int>, url: Option<string>, now: int) returns (n: Notification)
    modifies db`notifications, db`nextNotificationId
    ensures fresh(n) && n.row == NewRow(old(db.nextNotificationId), userId, t, titre, message, priorite, url, now)
    ensures db.notifications == old(db.notifications) + [n]
    ensures db.nextNotificationId == old(db.nextNotificationId) + 1
  {
    n := new Notification(NewRow(db.nextNotificationId, userId, t, titre, message, priorite, url, now));
    db.notifications := db.notifications + [n];
    db.nextNotificationId := db.nextNotificationId + 1;
  }

  /** `creer_notification`: nothing is created, and `None` returned, when the user's preferences refuse the type. */
  method CreerNotification(db: Store, userId: int, t: TypeNotification, titre: string, message: string,
                           priorite: int, url: Option<string>, now: int) returns (r: Option<Notification>)
    modifies db`notifications, db`nextNotificationId
    ensures r.Some? <==> Accepts(db.preferences, userId, t)
    ensures r.None? ==> db.notifications == old(db.notifications) && db.nextNotificationId == old(db.nextNotificationId)
    ensures r.Some? ==>
      && fresh(r.value)
      && r.value.row == NewRow(old(db.nextNotificationId), userId, t, titre, message, Some(priorite), url, now)
      && db.notifications == old(db.notifications) + [r.value]
      && db.nextNotificationId == old(db.nextNotificationId) + 1
  {
    if !Accepts(db.preferences, userId, t) {
      return None;
    }
    var n := InsertNotification(db, userId, t, titre, message, Some(priorite), url, now);
    return Some(n);
  }

  /**
   * `notifier_plusieurs_utilisateurs`: one notification per accepting user, in the order of the
   * ids, with consecutive ids; only the created ones are returned.
   */
  method NotifierPlusieursUtilisateurs(db: Store, userIds: seq<int>, t: TypeNotification, titre: string,
                                       message: string, priorite: int, url: Option<string>, now: int)
    returns (created: seq<Notification>)
    modifies db`notifications, db`nextNotificationId
    ensures var ids := AcceptedIds(db.preferences, userIds, t);
      && |created| == |ids|
      && db.notifications == old(db.notifications) + created
      && db.nextNotificationId == old(db.nextNotificationId) + |ids|
      && forall k :: 0 <= k < |created| ==>
           fresh(created[k]) &&
           created[k].row == NewRow(old(db.nextNotificationId) + k, ids[k], t, titre, message, Some(priorite), url, now)
  {
    label start:
    created := [];
    ghost var n0, id0, prefs := db.notifications, db.nextNotificationId, db.preferences;
    var i := 0;
    while i < |userIds|
      invariant 0 <= i <= |userIds|
      invariant db.notifications == n0 + created && db.nextNotificationId == id0 + |created|
      invariant forall k :: 0 <= k < |created| ==> fresh(created[k])
      invariant Notified(created, AcceptedIds(prefs, userIds[..i], t), id0, t, titre, message, priorite, url, now)
    {
      var c := NotifierUn(db, created, AcceptedIds(prefs, userIds[..i], t), userIds[i], id0, t, titre, message,
                          priorite, url, now, prefs);
      AcceptedIdsNext(prefs, userIds, i, i + 1, t);
      FreshNotificationsAppend@start(created, c);
      Collections.ConcatAssoc(n0, created, c);
      created := created + c;
      i := i + 1;
    }
    assert userIds[..i] == userIds;
  }

  /** One iteration of `notifier_plusieurs_utilisateurs`: user `u` is notified when it accepts the type. */
  method NotifierUn(db: Store, created: seq<Notification>, ghost ids: seq<int>, u: int, ghost first: int,
                    t: TypeNotification, titre: string, message: string, priorite: int, url: Option<string>, now: int,
                    ghost prefs: seq<(int, Preferences)>)
    returns (c: seq<Notification>)
    requires prefs == db.preferences && db.nextNotificationId == first + |created|
    requires Notified(created, ids, first, t, titre, message, priorite, url, now)
    modifies db`notifications, db`nextNotificationId
    ensures db.notifications == old(db.notifications) + c && db.nextNotificationId == first + |created| + |c|
    ensures forall k :: 0 <= k < |c| ==> fresh(c[k])
    ensures Notified(created + c, ids + (if Accepts(prefs, u, t) then [u] else []), first, t, titre, message, priorite,
                     url, now)
  {
    var n := CreerNotification(db, u, t, titre, message, priorite, url, now);
    if n.Some? {
      NotifiedSnoc(created, n.value, ids, u, first, t, titre, message, priorite, url, now);
      c := [n.value];
    } else {
      assert ids + [] == ids && created + [] == created;
      c := [];
    }
  }

  /** The notifications `ns` hold the rows of notifications `first`, `first + 1`, ... to the users `ids`. */
  ghost predicate Notified(ns: seq<Notification>, ids: seq<int>, first: int, t: TypeNotification, titre: string,
                           message: string, priorite: int, url: Option<string>, now: int)
    reads ns
  {
    |ns| == |ids| &&
    forall k :: 0 <= k < |ns| ==> ns[k].row == NewRow(first + k, ids[k], t, titre, message, Some(priorite), url, now)
  }

  /** One more notification, with the next id, to the next user. */
  lemma {:induction false} NotifiedSnoc(ns: seq<Notification>, n: Notification, ids: seq<int>, u: int, first: int, t: TypeNotification,
                     titre: string, message: string, priorite: int, url: Option<string>, now: int)
    requires Notified(ns, ids, first, t, titre, message, priorite, url, now)
    requires n.row == NewRow(first + |ns|, u, t, titre, message, Some(priorite), url, now)
    ensures Notified(ns + [n], ids + [u], first, t, titre, message, priorite, url, now)
  {
    assert forall k :: 0 <= k < |ns| ==> (ns + [n])[k] == ns[k] && (ids + [u])[k] == ids[k];
  }

  /** Fresh notifications appended to fresh notifications leave them all fresh. */
  twostate lemma {:induction false} FreshNotificationsAppend(new ns: seq<Notification>, new c: seq<Notification>)
    requires forall k :: 0 <= k < |ns| ==> fresh(ns[k])
    requires forall k :: 0 <= k < |c| ==> fresh(c[k])
    ensures forall k :: 0 <= k < |ns + c| ==> fresh((ns + c)[k])
  {
  }

  /** `notifier_role`: every active user with that role, in table order. */
  method NotifierRole(db: Store, role: string, t: TypeNotification, titre: string, message: string,
                      priorite: int, url: Option<string>, now: int) returns (created: seq<Notification>)
    modifies db`notifications, db`nextNotificationId
    ensures var ids := AcceptedIds(db.preferences, IdsWhere(db.users, (u: UserRow) => u.user.role == role && u.actif), t);
      && |created| == |ids|
      && db.notifications == old(db.notifications) + created
      && forall k :: 0 <= k < |created| ==>
           fresh(created[k]) &&
           created[k].row == NewRow(old(db.nextNotificationId) + k, ids[k], t, titre, message, Some(priorite), url, now)
  {
    var userIds := IdsWhere(db.users, (u: UserRow) => u.user.role == role && u.actif);
    created := NotifierPlusieursUtilisateurs(db, userIds, t, titre, message, priorite, url, now);
  }

  /** `notifier_operateur`: every active user attached to that operator, in table order. */
  method NotifierOperateur(db: Store, operateurId: int, t: TypeNotification, titre: string, message: string,
                           priorite: int, url: Option<string>, now: int) returns (created: seq<Notification>)
    modifies db`notifications, db`nextNotificationId
    ensures var ids := AcceptedIds(db.preferences, IdsWhere(db.users, (u: UserRow) => u.user.operateurId == Some(operateurId) && u.actif), t);
      && |created| == |ids|
      && db.notifications == old(db.notifications) + created
      && forall k :: 0 <= k < |created| ==>
           fresh(created[k]) &&
           created[k].row == NewRow(old(db.nextNotificationId) + k, ids[k], t, titre, message, Some(priorite), url, now)
  {
    var userIds := IdsWhere(db.users, (u: UserRow) => u.user.operateurId == Some(operateurId) && u.actif);
    created := NotifierPlusieursUtilisateurs(db, userIds, t, titre, message, priorite, url, now);
  }

  /** The notifications whose rows pass the filter, in table order. */
  function Selected(ns: seq<Notification>, keep: NotificationRow -> bool): (r: seq<Notification>)
    reads ns
    ensures |r| <= |ns|
    ensures forall k :: 0 <= k < |r| ==> r[k] in ns && keep(r[k].row)
    ensures forall k :: 0 <= k < |ns| && keep(ns[k].row) ==> ns[k] in r
  {
    if ns == [] then []
    else
      var rest := Selected(ns[1..], keep);
      assert forall k :: 1 <= k < |ns| ==> ns[k] == ns[1..][k - 1];
      (if keep(ns[0].row) then [ns[0]] else []) + rest
  }

  /** The filter of `marquer_anciennes_comme_lues`. */
  predicate IsAncienne(r: NotificationRow, userId: int, limite: int)
  {
    r.userId == userId && !r.lue && r.dateCreation < limite && r.actif
  }

  /** The loop of `marquer_anciennes_comme_lues` and `marquer_toutes_lues`: every listed notification becomes read. */
  method MarquerToutes(ns: seq<Notification>, now: int)
    modifies ns
    ensures forall n :: n in ns ==> n.row == MarqueeLue(old(n.row), now)
  {
    var i := 0;
    while i < |ns|
      invariant 0 <= i <= |ns|
      invariant forall n :: n in ns ==> n.row == if n in ns[..i] then MarqueeLue(old(n.row), now) else old(n.row)
    {
      assert forall n :: n in ns[..i + 1] <==> n in ns[..i] || n == ns[i];
      ns[i].MarquerCommeLue(now);
      i := i + 1;
    }
    assert ns[..i] == ns;
  }

  /**
   * `marquer_anciennes_comme_lues`: exactly the user's unread, active notifications created before
   * the limit become read, with their modification date stamped `now`, and their number is
   * returned; every other notification is untouched.
   */
  method MarquerAnciennesCommeLues(db: Store, userId: int, jours: int, now: int) returns (count: nat)
    modifies db.notifications
    ensures count == |old(Selected(db.notifications, r => IsAncienne(r, userId, now - jours * Day)))|
    ensures forall k :: 0 <= k < |db.notifications| ==>
      db.notifications[k].row ==
        if IsAncienne(old(db.notifications[k].row), userId, now - jours * Day)
        then old(db.notifications[k].row).(lue := true, dateModification := now) else old(db.notifications[k].row)
  {
    var limite := now - jours * Day;
    var anciennes := Selected(db.notifications, r => IsAncienne(r, userId, limite));
    MarquerToutes(anciennes, now);
    count := |anciennes|;
  }

  /** `s` without any occurrence of `d`. */
  function Without<T(==)>(s: seq<T>, d: T): seq<T>
  {
    if s == [] then [] else (if s[0] == d then [] else [s[0]]) + Without(s[1..], d)
  }

  /** `s` without any element of `ds`. */
  function Outside<T(==)>(s: seq<T>, ds: seq<T>): seq<T>
  {
    if s == [] then [] else (if s[0] in ds then [] else [s[0]]) + Outside(s[1..], ds)
  }

  lemma {:induction false} OutsideStep<T>(s: seq<T>, ds: seq<T>, d: T)
    ensures Outside(s, ds + [d]) == Without(Outside(s, ds), d)
  {
    if s != [] {
      var rest := Outside(s[1..], ds);
      OutsideStep(s[1..], ds, d);
      assert s[0] in ds + [d] <==> s[0] in ds || s[0] == d;
      if s[0] !in ds {
        assert ([s[0]] + rest)[0] == s[0] && ([s[0]] + rest)[1..] == rest;
      } else {
        assert [] + rest == rest;
      }
    }
  }

  /** Removing the selected rows keeps exactly the others, in order. */
  lemma {:induction false} OutsideSelected(ns: seq<Notification>, ds: seq<Notification>, keep: NotificationRow -> bool)
    requires forall k :: 0 <= k < |ns| ==> (ns[k] in ds <==> !keep(ns[k].row))
    ensures Outside(ns, ds) == Selected(ns, keep)
  {
    if ns != [] {
      assert forall k :: 1 <= k < |ns| ==> ns[1..][k - 1] == ns[k];
      OutsideSelected(ns[1..], ds, keep);
    }
  }

  /** The filter of `nettoyer_notifications_archivees`. */
  predicate IsPurgeable(r: NotificationRow, limite: int)
  {
    r.archivee && r.dateModification < limite
  }

  /** The deletion loop: each listed object leaves the table. */
  method DeleteNotifications(db: Store, doomed: seq<Notification>)
    modifies db`notifications
    ensures db.notifications == Outside(old(db.notifications), doomed)
  {
    var i := 0;
    OutsideNone(db.notifications, []);
    while i < |doomed|
      invariant 0 <= i <= |doomed|
      invariant db.notifications == Outside(old(db.notifications), doomed[..i])
    {
      OutsideStep(old(db.notifications), doomed[..i], doomed[i]);
      assert doomed[..i + 1] == doomed[..i] + [doomed[i]];
      db.notifications := Without(db.notifications, doomed[i]);
      i := i + 1;
    }
    assert doomed[..i] == doomed;
  }

  lemma {:induction false} OutsideNone<T>(s: seq<T>, ds: seq<T>)
    requires ds == []
    ensures Outside(s, ds) == s
  {
    if s != [] {
      OutsideNone(s[1..], ds);
    }
  }

  /**
   * `nettoyer_notifications_archivees`: exactly the archived notifications last modified before the
   * limit are deleted, the others stay in order, and the number deleted is returned.
   */
  method NettoyerNotificationsArchivees(db: Store, jours: int, now: int) returns (count: nat)
    modifies db`notifications
    ensures count == |old(Selected(db.notifications, r => IsPurgeable(r, now - jours * Day)))|
    ensures db.notifications == old(Selected(db.notifications, r => !IsPurgeable(r, now - jours * Day)))
  {
    var limite := now - jours * Day;
    var doomed := Selected(db.notifications, r => IsPurgeable(r, limite));
    OutsideSelected(db.notifications, doomed, r => !IsPurgeable(r, limite));
    DeleteNotifications(db, doomed);
    count := |doomed|;
  }

  // ---------------------------------------------------------------------------------------
  // MessageService.

  /** The row a new `MessageInterne(...)` gets once saved. */
  function NewMessage(id: int, expediteurId: int, destinataireId: int, sujet: string, contenu: string,
                      priorite: int, parent: Option<int>, now: int): (r: MessageRow)
    ensures !r.lu && !r.archiveExpediteur && !r.archiveDestinataire && r.actif
  {
    MessageRow(id, expediteurId, destinataireId, sujet, contenu, false, false, false, parent, Some(priorite), true, now)
  }

  /** `expediteur.prenom or expediteur.username`: an empty first name counts as missing. */
  function SenderName(u: User): (r: string)
    ensures r == u.username <==> u.prenom.None? || u.prenom.value == "" || u.prenom.value == u.username
    ensures u.prenom.Some? && u.prenom.value != "" ==> r == u.prenom.value
  {
    if u.prenom.Some? && u.prenom.value != "" then u.prenom.value else u.username
  }

  /** The notification that tells the recipient about message `messageId`. */
  function MessageNotification(id: int, destinataireId: int, sujet: string, nom: string, priorite: int,
                               messageId: int, now: int): (r: NotificationRow)
    ensures r.id == id && r.userId == destinataireId && r.typ == MessageSysteme && r.priorite == Some(priorite)
    ensures r.urlAction == Some("/notifications/messages/" + IntToString(messageId))
  {
    NewRow(id, destinataireId, MessageSysteme, "Nouveau message: " + sujet, "Vous avez reçu un nouveau message de " + nom,
           Some(priorite), Some("/notifications/messages/" + IntToString(messageId)), now)
  }

  /** The announcement's title is the subject behind a fixed prefix. */
  lemma {:induction false} MessageNotificationTitle(id: int, destinataireId: int, sujet: string, nom: string, priorite: int,
                                 messageId: int, now: int)
    ensures var t := MessageNotification(id, destinataireId, sujet, nom, priorite, messageId, now).titre;
      StartsWith(t, "Nouveau message: ") && EndsWith(t, sujet) && |t| == |"Nouveau message: "| + |sujet|
  {
    var t := "Nouveau message: " + sujet;
    assert t[..|"Nouveau message: "|] == "Nouveau message: ";
    assert t[|t| - |sujet|..] == sujet;
  }

  /** `MessageInterne(...).save()`. */
  method InsertMessage(db: Store, expediteurId: int, destinataireId: int, sujet: string, contenu: string,
                       priorite: int, parent: Option<int>, now: int) returns (m: MessageInterne)
    modifies db`messages, db`nextMessageId
    ensures fresh(m) && m.row == NewMessage(old(db.nextMessageId), expediteurId, destinataireId, sujet, contenu, priorite, parent, now)
    ensures db.messages == old(db.messages) + [m]
    ensures db.nextMessageId == old(db.nextMessageId) + 1
  {
    m := new MessageInterne(NewMessage(db.nextMessageId, expediteurId, destinataireId, sujet, contenu, priorite, parent, now));
    db.messages := db.messages + [m];
    db.nextMessageId := db.nextMessageId + 1;
  }

  /**
   * `envoyer_message`: the message is saved first; then the recipient is notified, subject to
   * their preferences, under the sender's first name or user name. A sender id that names no
   * user raises `AttributeError` after the message has been saved.
   */
  method EnvoyerMessage(db: Store, expediteurId: int, destinataireId: int, sujet: string, contenu: string,
                        priorite: int, parent: Option<int>, now: int) returns (r: Result<MessageInterne>, ghost created: seq<Notification>)
    modifies db`messages, db`nextMessageId, db`notifications, db`nextNotificationId
    ensures |db.messages| == |old(db.messages)| + 1 && db.messages[..|old(db.messages)|] == old(db.messages)
    ensures var m := db.messages[|old(db.messages)|];
      fresh(m) && m.row == NewMessage(old(db.nextMessageId), expediteurId, destinataireId, sujet, contenu, priorite, parent, now)
    ensures db.nextMessageId == old(db.nextMessageId) + 1
    ensures r.Ok? <==> FindUser(db.users, expediteurId).Some?
    ensures r.Ok? ==> r.value == db.messages[|old(db.messages)|]
    ensures r.Err? ==> r.error == "AttributeError" && created == []
    ensures db.notifications == old(db.notifications) + created
    ensures db.nextNotificationId == old(db.nextNotificationId) + |created|
    ensures forall j :: 0 <= j < |created| ==> fresh(created[j])
    ensures r.Ok? ==>
      RowsAre(created, Announcement(db.preferences, destinataireId, old(db.nextNotificationId), sujet,
                                    SenderName(FindUser(db.users, expediteurId).value), priorite, old(db.nextMessageId), now))
  {
    var m := InsertMessage(db, expediteurId, destinataireId, sujet, contenu, priorite, parent, now);
    var sender := FindUser(db.users, expediteurId);
    if sender.None? {
      return Err("AttributeError"), [];
    }
    var n := CreerNotification(db, destinataireId, MessageSysteme, "Nouveau message: " + sujet,
                               "Vous avez reçu un nouveau message de " + SenderName(sender.value),
                               priorite, Some("/notifications/messages/" + IntToString(m.row.id)), now);
    created := if n.Some? then [n.value] else [];
    return Ok(m), created;
  }

  /** The notification sending message `messageId` to `dest` adds: one row, or none when the recipient refuses. */
  function Announcement(prefs: seq<(int, Preferences)>, dest: int, id: int, sujet: string, nom: string, priorite: int,
                        messageId: int, now: int): (r: seq<NotificationRow>)
    ensures |r| <= 1
    ensures r != [] <==> Accepts(prefs, dest, MessageSysteme)
    ensures r != [] ==> r[0].userId == dest && r[0].id == id && r[0].typ == MessageSysteme
  {
    if Accepts(prefs, dest, MessageSysteme) then [MessageNotification(id, dest, sujet, nom, priorite, messageId, now)] else []
  }

  /** The notifications the first `n` messages of a broadcast to `dests`, numbered from `firstMessage`, create. */
  function Broadcast(prefs: seq<(int, Preferences)>, dests: seq<int>, n: nat, firstNotification: int, firstMessage: int,
                     sujet: string, nom: string, priorite: int, now: int): seq<NotificationRow>
    requires n <= |dests|
  {
    if n == 0 then []
    else
      var before := Broadcast(prefs, dests, n - 1, firstNotification, firstMessage, sujet, nom, priorite, now);
      before + Announcement(prefs, dests[n - 1], firstNotification + |before|, sujet, nom, priorite, firstMessage + (n - 1), now)
  }

  /** Row `j` of `b` notifies `ids[j]` of a message under id `first + j`, for every `j`. */
  predicate Matches(b: seq<NotificationRow>, ids: seq<int>, first: int)
  {
    |b| == |ids| && forall j :: 0 <= j < |b| ==> b[j].userId == ids[j] && b[j].id == first + j && b[j].typ == MessageSysteme
  }

  /** A broadcast notifies exactly the accepting recipients, in order, with consecutive ids. */
  lemma {:induction false} BroadcastRecipients(prefs: seq<(int, Preferences)>, dests: seq<int>, n: nat, firstNotification: int,
                            firstMessage: int, sujet: string, nom: string, priorite: int, now: int)
    requires n <= |dests|
    ensures var b := Broadcast(prefs, dests, n, firstNotification, firstMessage, sujet, nom, priorite, now);
      var ids := AcceptedIds(prefs, dests[..n], MessageSysteme);
      && |b| == |ids|
      && forall j :: 0 <= j < |b| ==> b[j].userId == ids[j] && b[j].id == firstNotification + j && b[j].typ == MessageSysteme
  {
    BroadcastMatches(prefs, dests, n, firstNotification, firstMessage, sujet, nom, priorite, now);
  }

  lemma {:induction false} BroadcastMatches(prefs: seq<(int, Preferences)>, dests: seq<int>, n: nat, firstNotification: int,
                                            firstMessage: int, sujet: string, nom: string, priorite: int, now: int)
    requires n <= |dests|
    ensures Matches(Broadcast(prefs, dests, n, firstNotification, firstMessage, sujet, nom, priorite, now),
                    AcceptedIds(prefs, dests[..n], MessageSysteme), firstNotification)
  {
    if n != 0 {
      var p := n - 1;
      var before := Broadcast(prefs, dests, p, firstNotification, firstMessage, sujet, nom, priorite, now);
      var idsBefore := AcceptedIds(prefs, dests[..p], MessageSysteme);
      BroadcastMatches(prefs, dests, p, firstNotification, firstMessage, sujet, nom, priorite, now);
      BroadcastNext(prefs, dests, p, firstNotification, firstMessage, sujet, nom, priorite, now);
      AcceptedIdsNext(prefs, dests, p, n, MessageSysteme);
      var extra := Announcement(prefs, dests[p], firstNotification + |before|, sujet, nom, priorite, firstMessage + p, now);
      var idsExtra: seq<int> := if Accepts(prefs, dests[p], MessageSysteme) then [dests[p]] else [];
      RecipientsAppend(before, extra, idsBefore, idsExtra, firstNotification);
      assert p + 1 == n;
    } else {
      assert dests[..n] == [];
    }
  }

  /** The pointwise correspondence of a broadcast with its recipients survives appending one announcement. */
  lemma {:induction false} RecipientsAppend(b: seq<NotificationRow>, extra: seq<NotificationRow>, ids: seq<int>, idsExtra: seq<int>, first: int)
    requires Matches(b, ids, first) && |extra| == |idsExtra| <= 1
    requires extra != [] ==> extra[0].userId == idsExtra[0] && extra[0].id == first + |b| && extra[0].typ == MessageSysteme
    ensures Matches(b + extra, ids + idsExtra, first)
  {
    forall j | 0 <= j < |b + extra|
      ensures (b + extra)[j].userId == (ids + idsExtra)[j] && (b + extra)[j].id == first + j && (b + extra)[j].typ == MessageSysteme
    {
      if j < |b| {
        assert (b + extra)[j] == b[j] && (ids + idsExtra)[j] == ids[j];
      }
    }
  }

  /** One more message of a broadcast, from `p` to `p + 1`, appends that recipient's announcement. */
  lemma {:induction false} BroadcastNext(prefs: seq<(int, Preferences)>, dests: seq<int>, p: nat, firstNotification: int,
                      firstMessage: int, sujet: string, nom: string, priorite: int, now: int)
    requires p < |dests|
    ensures var before := Broadcast(prefs, dests, p, firstNotification, firstMessage, sujet, nom, priorite, now);
      Broadcast(prefs, dests, p + 1, firstNotification, firstMessage, sujet, nom, priorite, now) ==
      before + Announcement(prefs, dests[p], firstNotification + |before|, sujet, nom, priorite, firstMessage + p, now)
  {
    var n := p + 1;
    assert n - 1 == p && n != 0;
  }

  /** The notifications `ns` hold the rows `b`, in order. */
  ghost predicate RowsAre(ns: seq<Notification>, b: seq<NotificationRow>)
    reads ns
  {
    |ns| == |b| && forall j :: 0 <= j < |ns| ==> ns[j].row == b[j]
  }

  /** The table holds `n0` followed by notifications with the rows `b`. */
  ghost predicate Announced(ns: seq<Notification>, n0: seq<Notification>, b: seq<NotificationRow>)
    reads ns
  {
    |ns| == |n0| + |b| && ns[..|n0|] == n0 && RowsAre(ns[|n0|..], b)
  }

  /** Rows held by two runs of notifications concatenate. */
  lemma {:induction false} RowsAreAppend(ns: seq<Notification>, more: seq<Notification>, b: seq<NotificationRow>, extra: seq<NotificationRow>)
    requires RowsAre(ns, b) && RowsAre(more, extra)
    ensures RowsAre(ns + more, b + extra)
  {
    forall j | 0 <= j < |ns + more| ensures (ns + more)[j].row == (b + extra)[j] {
      if j < |ns| {
        assert (ns + more)[j] == ns[j];
      } else {
        assert (ns + more)[j] == more[j - |ns|];
      }
    }
  }

  /** A table that grew by the notifications `created`, holding `b`, announces `b`. */
  lemma {:induction false} AnnouncedOf(ns: seq<Notification>, n0: seq<Notification>, created: seq<Notification>, b: seq<NotificationRow>)
    requires ns == n0 + created && RowsAre(created, b)
    ensures Announced(ns, n0, b)
  {
    assert ns[..|n0|] == n0 && ns[|n0|..] == created;
  }

  /** The messages `ms` carry the rows of messages `first`, `first + 1`, ... to the first `|ms|` of `dests`. */
  ghost predicate MessagesAre(ms: seq<MessageInterne>, first: int, expediteurId: int, dests: seq<int>, sujet: string,
                              contenu: string, priorite: int, now: int)
    reads ms
  {
    |ms| <= |dests| &&
    forall k :: 0 <= k < |ms| ==> ms[k].row == NewMessage(first + k, expediteurId, dests[k], sujet, contenu, priorite, None, now)
  }

  /** One more message, with the next id, to the next recipient. */
  lemma {:induction false} MessagesAreStep(ms: seq<MessageInterne>, m: MessageInterne, first: int, expediteurId: int, dests: seq<int>,
                        sujet: string, contenu: string, priorite: int, now: int)
    requires MessagesAre(ms, first, expediteurId, dests, sujet, contenu, priorite, now) && |ms| < |dests|
    requires m.row == NewMessage(first + |ms|, expediteurId, dests[|ms|], sujet, contenu, priorite, None, now)
    ensures MessagesAre(ms + [m], first, expediteurId, dests, sujet, contenu, priorite, now)
  {
    assert forall k :: 0 <= k < |ms| ==> (ms + [m])[k] == ms[k];
  }

  /** The sender exists, and `nom` is the name the announcements give it. */
  predicate ExpediteurNomme(users: seq<UserRow>, expediteurId: int, nom: string)
  {
    FindUser(users, expediteurId).Some? && nom == SenderName(FindUser(users, expediteurId).value)
  }

  /** One iteration of `diffuser_message` once the sender is known. */
  method DiffuserUn(db: Store, expediteurId: int, nom: string, dest: int, sujet: string, contenu: string,
                    priorite: int, now: int, ghost idN: int, ghost idM: int, ghost held: seq<Notification>,
                    ghost b: seq<NotificationRow>, ghost sent: seq<MessageInterne>, ghost dests: seq<int>,
                    ghost prefs: seq<(int, Preferences)>, ghost firstMessage: int, ghost extra: seq<NotificationRow>)
    returns (m: MessageInterne, ghost created: seq<Notification>)
    requires ExpediteurNomme(db.users, expediteurId, nom)
    requires db.nextNotificationId == idN && db.nextMessageId == idM && db.preferences == prefs
    requires Held(held, b, sent, firstMessage, expediteurId, dests, sujet, contenu, priorite, now)
    requires extra == Announcement(prefs, dest, idN, sujet, nom, priorite, idM, now)
    modifies db`messages, db`nextMessageId, db`notifications, db`nextNotificationId
    ensures Held(held, b, sent, firstMessage, expediteurId, dests, sujet, contenu, priorite, now)
    ensures fresh(m) && m.row == NewMessage(idM, expediteurId, dest, sujet, contenu, priorite, None, now)
    ensures db.messages == old(db.messages) + [m] && db.nextMessageId == idM + 1
    ensures db.notifications == old(db.notifications) + created && db.nextNotificationId == idN + |created|
    ensures forall j :: 0 <= j < |created| ==> fresh(created[j])
    ensures RowsAre(created, extra)
  {
    var res;
    res, created := EnvoyerMessage(db, expediteurId, dest, sujet, contenu, priorite, None, now);
    m := res.value;
    assert db.messages == old(db.messages) + [m];
  }

  /**
   * `diffuser_message`: one message per recipient, in order, with consecutive ids, each announced
   * to its recipient as `envoyer_message` does. With an unknown sender the first message is saved
   * and the error propagates.
   */
  method DiffuserMessage(db: Store, expediteurId: int, dests: seq<int>, sujet: string, contenu: string,
                         priorite: int, now: int) returns (r: Result<seq<MessageInterne>>)
    modifies db`messages, db`nextMessageId, db`notifications, db`nextNotificationId
    ensures r.Err? <==> FindUser(db.users, expediteurId).None? && dests != []
    ensures r.Err? ==>
      && r.error == "AttributeError"
      && |db.messages| == |old(db.messages)| + 1
      && db.messages[|old(db.messages)|].row == NewMessage(old(db.nextMessageId), expediteurId, dests[0], sujet, contenu, priorite, None, now)
      && db.notifications == old(db.notifications)
    ensures r.Ok? ==>
      && db.messages == old(db.messages) + r.value
      && |r.value| == |dests|
      && db.nextMessageId == old(db.nextMessageId) + |dests|
      && (forall k :: 0 <= k < |r.value| ==> fresh(r.value[k]))
      && MessagesAre(r.value, old(db.nextMessageId), expediteurId, dests, sujet, contenu, priorite, now)
    ensures r.Ok? && dests != [] ==>
      Announced(db.notifications, old(db.notifications),
                Broadcast(db.preferences, dests, |dests|, old(db.nextNotificationId), old(db.nextMessageId), sujet,
                          SenderName(FindUser(db.users, expediteurId).value), priorite, now))
  {
    var sender := FindUser(db.users, expediteurId);
    if sender.None? {
      if dests == [] {
        return Ok([]);
      }
      var res, _ := EnvoyerMessage(db, expediteurId, dests[0], sujet, contenu, priorite, None, now);
      return Err(res.error);
    }
    var nom := SenderName(sender.value);
    ghost var n0 := db.notifications;
    var sent, created := DiffuserTous(db, expediteurId, nom, dests, sujet, contenu, priorite, now);
    AnnouncedOf(db.notifications, n0, created, Broadcast(db.preferences, dests, |dests|, old(db.nextNotificationId),
                old(db.nextMessageId), sujet, nom, priorite, now));
    return Ok(sent);
  }

  /** The loop of `diffuser_message` once the sender is known: every message sent, every announcement made. */
  method DiffuserTous(db: Store, expediteurId: int, nom: string, dests: seq<int>, sujet: string, contenu: string,
                      priorite: int, now: int) returns (sent: seq<MessageInterne>, ghost created: seq<Notification>)
    requires ExpediteurNomme(db.users, expediteurId, nom)
    modifies db`messages, db`nextMessageId, db`notifications, db`nextNotificationId
    ensures db.messages == old(db.messages) + sent && |sent| == |dests| && db.nextMessageId == old(db.nextMessageId) + |dests|
    ensures forall k :: 0 <= k < |sent| ==> fresh(sent[k])
    ensures db.notifications == old(db.notifications) + created
    ensures Progress(db, created, sent, old(db.nextNotificationId), old(db.nextMessageId), expediteurId, nom, dests,
                     sujet, contenu, priorite, now)
  {
    label start:
    sent := [];
    created := [];
    ghost var m0, n0, idN, idM := db.messages, db.notifications, db.nextNotificationId, db.nextMessageId;
    while |sent| < |dests|
      invariant |sent| <= |dests|
      invariant db.messages == m0 + sent && db.nextMessageId == idM + |sent|
      invariant forall k :: 0 <= k < |sent| ==> fresh(sent[k])
      invariant db.notifications == n0 + created
      invariant Progress(db, created, sent, idN, idM, expediteurId, nom, dests, sujet, contenu, priorite, now)
      decreases |dests| - |sent|
    {
      var m, c := DiffuserPas(db, created, sent, idN, idM, expediteurId, nom, dests, sujet, contenu, priorite, now);
      FreshSnoc@start(sent, m);
      Collections.ConcatAssoc(m0, sent, [m]);
      Collections.ConcatAssoc(n0, created, c);
      sent := sent + [m];
      created := created + c;
    }
  }

  /** A fresh message appended to fresh messages leaves them all fresh. */
  twostate lemma {:induction false} FreshSnoc(new ms: seq<MessageInterne>, new m: MessageInterne)
    requires forall k :: 0 <= k < |ms| ==> fresh(ms[k])
    requires fresh(m)
    ensures forall k :: 0 <= k < |ms + [m]| ==> fresh((ms + [m])[k])
  {
  }

  /** The state after the first `|sent|` messages of a broadcast to `dests`, which created the notifications `created`. */
  ghost predicate Progress(db: Store, created: seq<Notification>, sent: seq<MessageInterne>, firstNotification: int,
                           firstMessage: int, expediteurId: int, nom: string, dests: seq<int>, sujet: string,
                           contenu: string, priorite: int, now: int)
    reads db, sent, created
  {
    && MessagesAre(sent, firstMessage, expediteurId, dests, sujet, contenu, priorite, now)
    && var b := Broadcast(db.preferences, dests, |sent|, firstNotification, firstMessage, sujet, nom, priorite, now);
    && RowsAre(created, b)
    && db.nextNotificationId == firstNotification + |b|
  }

  /** The rows the notifications and the messages created so far hold. */
  ghost predicate Held(created: seq<Notification>, b: seq<NotificationRow>, sent: seq<MessageInterne>, firstMessage: int,
                       expediteurId: int, dests: seq<int>, sujet: string, contenu: string, priorite: int, now: int)
    reads created, sent
  {
    RowsAre(created, b) && MessagesAre(sent, firstMessage, expediteurId, dests, sujet, contenu, priorite, now)
  }

  /** One iteration of the broadcast loop: message `|sent|` goes to `dests[|sent|]`. */
  method DiffuserPas(db: Store, ghost created: seq<Notification>, sent: seq<MessageInterne>, ghost firstNotification: int,
                     ghost firstMessage: int, expediteurId: int, nom: string, dests: seq<int>,
                     sujet: string, contenu: string, priorite: int, now: int) returns (m: MessageInterne, ghost c: seq<Notification>)
    requires ExpediteurNomme(db.users, expediteurId, nom)
    requires |sent| < |dests| && db.nextMessageId == firstMessage + |sent|
    requires Progress(db, created, sent, firstNotification, firstMessage, expediteurId, nom, dests, sujet, contenu, priorite, now)
    modifies db`messages, db`nextMessageId, db`notifications, db`nextNotificationId
    ensures fresh(m) && db.messages == old(db.messages) + [m] && db.nextMessageId == old(db.nextMessageId) + 1
    ensures db.notifications == old(db.notifications) + c
    ensures Progress(db, created + c, sent + [m], firstNotification, firstMessage, expediteurId, nom, dests,
                     sujet, contenu, priorite, now)
  {
    ghost var prefs := db.preferences;
    ghost var b := Broadcast(prefs, dests, |sent|, firstNotification, firstMessage, sujet, nom, priorite, now);
    ghost var extra := Announcement(prefs, dests[|sent|], firstNotification + |b|, sujet, nom, priorite, firstMessage + |sent|, now);
    m, c := DiffuserUn(db, expediteurId, nom, dests[|sent|], sujet, contenu, priorite, now, firstNotification + |b|,
                       firstMessage + |sent|, created, b, sent, dests, prefs, firstMessage, extra);
    PasStep(db, created, c, sent, m, prefs, b, extra, firstNotification, firstMessage, expediteurId, nom, dests, sujet, contenu,
            priorite, now);
  }

  /** What one broadcast step leaves behind gives the next `Progress`. */
  lemma {:induction false} PasStep(db: Store, created: seq<Notification>, c: seq<Notification>, sent: seq<MessageInterne>, m: MessageInterne,
                prefs: seq<(int, Preferences)>, b: seq<NotificationRow>, extra: seq<NotificationRow>, firstNotification: int,
                firstMessage: int, expediteurId: int, nom: string, dests: seq<int>, sujet: string, contenu: string,
                priorite: int, now: int)
    requires |sent| < |dests| && prefs == db.preferences
    requires b == Broadcast(prefs, dests, |sent|, firstNotification, firstMessage, sujet, nom, priorite, now)
    requires Held(created, b, sent, firstMessage, expediteurId, dests, sujet, contenu, priorite, now)
    requires m.row == NewMessage(firstMessage + |sent|, expediteurId, dests[|sent|], sujet, contenu, priorite, None, now)
    requires db.nextNotificationId == firstNotification + |b| + |c|
    requires extra == Announcement(prefs, dests[|sent|], firstNotification + |b|, sujet, nom, priorite, firstMessage + |sent|, now)
    requires RowsAre(c, extra)
    ensures Progress(db, created + c, sent + [m], firstNotification, firstMessage, expediteurId, nom, dests,
                     sujet, contenu, priorite, now)
  {
    NotificationsStep(created, c, b, extra, prefs, dests, |sent|, firstNotification, firstMessage, sujet, nom,
                      priorite, now);
    MessagesAreStep(sent, m, firstMessage, expediteurId, dests, sujet, contenu, priorite, now);
    ghost var b1 := Broadcast(prefs, dests, |sent| + 1, firstNotification, firstMessage, sujet, nom, priorite, now);
    ProgressStep(db, created + c, sent, m, b1, firstNotification, firstMessage, expediteurId, nom, dests, sujet, contenu,
                 priorite, now);
  }

  /** The notification half of one broadcast step: the created notifications hold the broadcast of `n + 1` messages. */
  lemma {:induction false} NotificationsStep(created: seq<Notification>, c: seq<Notification>, b: seq<NotificationRow>,
                          extra: seq<NotificationRow>, prefs: seq<(int, Preferences)>, dests: seq<int>, n: nat,
                          firstNotification: int, firstMessage: int, sujet: string, nom: string, priorite: int, now: int)
    requires n < |dests|
    requires b == Broadcast(prefs, dests, n, firstNotification, firstMessage, sujet, nom, priorite, now)
    requires extra == Announcement(prefs, dests[n], firstNotification + |b|, sujet, nom, priorite, firstMessage + n, now)
    requires RowsAre(created, b) && RowsAre(c, extra)
    ensures RowsAre(created + c, Broadcast(prefs, dests, n + 1, firstNotification, firstMessage, sujet, nom, priorite, now))
    ensures |Broadcast(prefs, dests, n + 1, firstNotification, firstMessage, sujet, nom, priorite, now)| == |b| + |extra|
  {
    RowsAreAppend(created, c, b, extra);
    BroadcastNext(prefs, dests, n, firstNotification, firstMessage, sujet, nom, priorite, now);
  }

  /** Both halves of one broadcast step together give the next `Progress`. */
  lemma {:induction false} ProgressStep(db: Store, created: seq<Notification>, sent: seq<MessageInterne>, m: MessageInterne,
                     b1: seq<NotificationRow>, firstNotification: int, firstMessage: int, expediteurId: int, nom: string, dests: seq<int>,
                     sujet: string, contenu: string, priorite: int, now: int)
    requires |sent| < |dests|
    requires MessagesAre(sent + [m], firstMessage, expediteurId, dests, sujet, contenu, priorite, now)
    requires b1 == Broadcast(db.preferences, dests, |sent| + 1, firstNotification, firstMessage, sujet, nom, priorite, now)
    requires RowsAre(created, b1) && db.nextNotificationId == firstNotification + |b1|
    ensures Progress(db, created, sent + [m], firstNotification, firstMessage, expediteurId, nom, dests, sujet, contenu,
                     priorite, now)
  {
    assert |sent + [m]| == |sent| + 1;
  }

  /** The messages whose rows pass the filter, in table order. */
  function SelectedMessages(ms: seq<MessageInterne>, keep: MessageRow -> bool): (r: seq<MessageInterne>)
    reads ms
    ensures |r| <= |ms|
    ensures forall k :: 0 <= k < |r| ==> r[k] in ms && keep(r[k].row)
    ensures forall k :: 0 <= k < |ms| && keep(ms[k].row) ==> ms[k] in r
  {
    if ms == [] then []
    else
      var rest := SelectedMessages(ms[1..], keep);
      assert forall k :: 1 <= k < |ms| ==> ms[k] == ms[1..][k - 1];
      (if keep(ms[0].row) then [ms[0]] else []) + rest
  }

  lemma {:induction false} OutsideSelectedMessages(ms: seq<MessageInterne>, ds: seq<MessageInterne>, keep: MessageRow -> bool)
    requires forall k :: 0 <= k < |ms| ==> (ms[k] in ds <==> !keep(ms[k].row))
    ensures Outside(ms, ds) == SelectedMessages(ms, keep)
  {
    if ms != [] {
      assert forall k :: 1 <= k < |ms| ==> ms[1..][k - 1] == ms[k];
      OutsideSelectedMessages(ms[1..], ds, keep);
    }
  }

  /** The filter of `nettoyer_messages_archives`: archived by either party, last modified before the limit. */
  predicate IsMessagePurgeable(r: MessageRow, limite: int)
  {
    (r.archiveExpediteur || r.archiveDestinataire) && r.dateModification < limite
  }

  method DeleteMessages(db: Store, doomed: seq<MessageInterne>)
    modifies db`messages
    ensures db.messages == Outside(old(db.messages), doomed)
  {
    var i := 0;
    OutsideNone(db.messages, []);
    while i < |doomed|
      invariant 0 <= i <= |doomed|
      invariant db.messages == Outside(old(db.messages), doomed[..i])
    {
      OutsideStep(old(db.messages), doomed[..i], doomed[i]);
      assert doomed[..i + 1] == doomed[..i] + [doomed[i]];
      db.messages := Without(db.messages, doomed[i]);
      i := i + 1;
    }
    assert doomed[..i] == doomed;
  }

  /** The ids of the listed messages. */
  function IdsOf(ms: seq<MessageInterne>): set<int>
    reads ms
  {
    set m | m in ms :: m.row.id
  }

  /**
   * A message once the messages with the given ids are deleted: the parent relationship has no
   * delete cascade, so a reply to a deleted message has its `message_parent_id` cleared, and that
   * UPDATE stamps its modification date.
   */
  function Detachee(r: MessageRow, supprimes: set<int>, now: int): (d: MessageRow)
    ensures d.messageParentId.Some? ==> d.messageParentId.value !in supprimes
    ensures d == r <==> r.messageParentId.None? || r.messageParentId.value !in supprimes
    ensures d != r ==> d == r.(messageParentId := None, dateModification := now)
  {
    if r.messageParentId.Some? && r.messageParentId.value in supprimes
    then r.(messageParentId := None, dateModification := now) else r
  }

  /** The nullifying UPDATEs of the deletions, message by message. */
  method DetacherReponses(ms: seq<MessageInterne>, supprimes: set<int>, now: int)
    modifies ms
    ensures forall m :: m in ms ==> m.row == Detachee(old(m.row), supprimes, now)
  {
    var i := 0;
    while i < |ms|
      invariant 0 <= i <= |ms|
      invariant forall m :: m in ms ==> m.row == if m in ms[..i] then Detachee(old(m.row), supprimes, now) else old(m.row)
    {
      assert forall m :: m in ms[..i + 1] <==> m in ms[..i] || m == ms[i];
      ms[i].row := Detachee(ms[i].row, supprimes, now);
      i := i + 1;
    }
    assert ms[..i] == ms;
  }

  /**
   * `nettoyer_messages_archives`: exactly the purgeable messages are deleted and counted; the
   * survivors keep their order, and those that replied to a deleted message lose that parent.
   */
  method NettoyerMessagesArchives(db: Store, jours: int, now: int) returns (count: nat)
    modifies db`messages, db.messages
    ensures count == |old(SelectedMessages(db.messages, r => IsMessagePurgeable(r, now - jours * Day)))|
    ensures db.messages == old(SelectedMessages(db.messages, r => !IsMessagePurgeable(r, now - jours * Day)))
    ensures forall m :: m in db.messages ==>
      m.row == Detachee(old(m.row), old(IdsOf(SelectedMessages(db.messages, r => IsMessagePurgeable(r, now - jours * Day)))), now)
  {
    var doomed := SelectedMessages(db.messages, r => IsMessagePurgeable(r, now - jours * Day));
    var kept := SelectedMessages(db.messages, r => !IsMessagePurgeable(r, now - jours * Day));
    OutsideSelectedMessages(db.messages, doomed, r => !IsMessagePurgeable(r, now - jours * Day));
    var supprimes := IdsOf(doomed);
    assert supprimes == old(IdsOf(SelectedMessages(db.messages, r => IsMessagePurgeable(r, now - jours * Day))));
    DetacherReponses(kept, supprimes, now);
    DeleteMessages(db, doomed);
    assert db.messages == kept;
    count := |doomed|;
  }

  // ---------------------------------------------------------------------------------------
  // TemplateService.

  /** `creer_templates_defaut`: each default template whose code is not yet in the table is saved. */
  method CreerTemplatesDefaut(db: Store)
    modifies db`templates, db`nextTemplateId
    ensures (db.templates, db.nextTemplateId) == Installed(old(db.templates), old(db.nextTemplateId), DefaultTemplates)
  {
    var i := 0;
    while i < |DefaultTemplates|
      invariant 0 <= i <= |DefaultTemplates|
      invariant (db.templates, db.nextTemplateId) == Installed(old(db.templates), old(db.nextTemplateId), DefaultTemplates[..i])
    {
      assert DefaultTemplates[..i + 1][..i] == DefaultTemplates[..i];
      var spec := DefaultTemplates[i];
      if !HasCode(db.templates, spec.code) {
        db.templates := db.templates + [RowOf(spec, db.nextTemplateId)];
        db.nextTemplateId := db.nextTemplateId + 1;
      }
      i := i + 1;
    }
    assert DefaultTemplates[..i] == DefaultTemplates;
  }

  /** `TemplateNotification.query.filter_by(code=..., actif=True).first()`. */
  function FindActiveTemplate(ts: seq<TemplateRow>, code: Arg): (r: Option<TemplateRow>)
    ensures r.Some? ==> r.value in ts && r.value.code == ArgText(code) && r.value.actif
    ensures r.None? <==> forall k :: 0 <= k < |ts| ==> !(ts[k].code == ArgText(code) && ts[k].actif)
  {
    if ts == [] then None
    else if ts[0].code == ArgText(code) && ts[0].actif then Some(ts[0])
    else
      var r := FindActiveTemplate(ts[1..], code);
      assert forall k :: 1 <= k < |ts| ==> ts[k] == ts[1..][k - 1];
      r
  }

  /** What `creer_notification_template` produces: nothing without an active template, else the generated draft or its error. */
  function TemplateOutcome(ts: seq<TemplateRow>, userId: int, code: string, variables: map<string, string>)
    : Result<Option<NotificationDraft>>
  {
    match FindActiveTemplate(ts, AText(code))
    case None => Ok(None)
    case Some(t) =>
      match GenererNotification(t, userId, variables)
      case Err(e) => Err(e)
      case Ok(d) => Ok(Some(d))
  }

  /**
   * `creer_notification_template`: the first active template with the code is formatted and the
   * notification saved, without consulting preferences; a missing or inactive template gives
   * `None`, a formatting error propagates and saves nothing.
   */
  method CreerNotificationTemplate(db: Store, userId: int, code: string, variables: map<string, string>, now: int)
    returns (r: Result<Option<Notification>>)
    modifies db`notifications, db`nextNotificationId
    ensures var o := TemplateOutcome(db.templates, userId, code, variables);
      && (r.Err? <==> o.Err?)
      && (r == Ok(None) <==> o == Ok(None))
      && (!(o.Ok? && o.value.Some?) ==> db.notifications == old(db.notifications) && db.nextNotificationId == old(db.nextNotificationId))
      && (o.Ok? && o.value.Some? ==>
            var d := o.value.value;
            && r.Ok? && r.value.Some? && fresh(r.value.value)
            && r.value.value.row == NewRow(old(db.nextNotificationId), d.userId, d.typ, d.titre, d.message, d.priorite, d.urlAction, now)
            && db.notifications == old(db.notifications) + [r.value.value]
            && db.nextNotificationId == old(db.nextNotificationId) + 1)
  {
    var template := FindActiveTemplate(db.templates, AText(code));
    if template.None? {
      return Ok(None);
    }
    var draft := GenererNotification(template.value, userId, variables);
    if draft.Err? {
      return Err(draft.error);
    }
    var d := draft.value;
    var n := InsertNotification(db, d.userId, d.typ, d.titre, d.message, d.priorite, d.urlAction, now);
    return Ok(Some(n));
  }

  /**
   * The notification `utiliser_template` as written builds: its owner is the template code the
   * caller meant, which lands in `user_id`, and the other fields come from the template.
   */
  datatype MisfiledNotification = MisfiledNotification(
    owner: string, typ: TypeNotification, titre: string, message: string,
    priorite: Option<int>, urlAction: Option<string>)

  /**
   * `utiliser_template` as written: its `code` lands in the `user_id` parameter and its `user_id`
   * in `code_template`. The lookup then compares the user id with the text codes, so it finds an
   * active template only when that template's code is the user id's decimal text; that template
   * is formatted and its notification is made out to the code text instead of the user.
   */
  method UtiliserTemplateAsWritten(db: Store, code: string, userId: int, variables: map<string, string>, now: int)
    returns (r: Result<Option<MisfiledNotification>>)
    ensures var t := FindActiveTemplate(db.templates, AInt(userId));
      && (t.None? ==> r == Ok(None))
      && (t.Some? ==> (r.Err? <==> GenererNotification(t.value, userId, variables).Err?))
      && (t.Some? && r.Ok? ==>
            var d := GenererNotification(t.value, userId, variables).value;
            r.value == Some(MisfiledNotification(code, d.typ, d.titre, d.message, d.priorite, d.urlAction)))
  {
    var template := FindActiveTemplate(db.templates, AInt(userId));
    if template.None? {
      return Ok(None);
    }
    var draft := GenererNotification(template.value, userId, variables);
    if draft.Err? {
      return Err(draft.error);
    }
    var d := draft.value;
    return Ok(Some(MisfiledNotification(code, d.typ, d.titre, d.message, d.priorite, d.urlAction)));
  }

  /**
   * With the arguments swapped, a template is found for a user exactly when an active template's
   * code is the user id's decimal text; a code that starts with a letter, as every default code
   * does, never matches, while an active template is still found by its own code.
   */
  lemma {:induction false} ArgumentSwap(ts: seq<TemplateRow>, userId: int, k: nat)
    requires k < |ts| && ts[k].actif
    ensures FindActiveTemplate(ts, AInt(userId)).Some?
      <==> exists j :: 0 <= j < |ts| && ts[j].actif && ts[j].code == IntToString(userId)
    ensures (forall j :: 0 <= j < |ts| && ts[j].actif ==> ts[j].code != [] && 'a' <= ts[j].code[0] <= 'z')
      ==> FindActiveTemplate(ts, AInt(userId)).None?
    ensures ts[k].code == IntToString(userId) ==> FindActiveTemplate(ts, AInt(userId)).Some?
    ensures FindActiveTemplate(ts, AText(ts[k].code)).Some?
    ensures FindActiveTemplate(ts, AText(ts[k].code)).value.code == ts[k].code
  {
    var m: nat := if userId < 0 then -userId else userId;
    NatToStringShape(m);
    var s := IntToString(userId);
    assert s[0] == '-' || IsDigit(s[0]);
  }

  /** A template whose code is "5", active, is found for user 5 as written and its notification goes to the code text. */
  lemma {:induction false} NumericCodeFound(t: TemplateRow)
    requires t.code == "5" && t.actif
    ensures FindActiveTemplate([t], AInt(5)) == Some(t)
  {
    assert IntToString(5) == "5";
  }

  /** `utiliser_template` with the arguments in the order `creer_notification_template` declares them. */
  method UtiliserTemplate(db: Store, code: string, userId: int, variables: map<string, string>, now: int)
    returns (r: Result<Option<Notification>>)
    modifies db`notifications, db`nextNotificationId
    ensures var o := TemplateOutcome(db.templates, userId, code, variables);
      && (r.Err? <==> o.Err?)
      && (r == Ok(None) <==> o == Ok(None))
      && (o.Ok? && o.value.Some? ==>
            var d := o.value.value;
            r.Ok? && r.value.Some? && fresh(r.value.value)
            && r.value.value.row == NewRow(old(db.nextNotificationId), d.userId, d.typ, d.titre, d.message, d.priorite, d.urlAction, now))
  {
    r := CreerNotificationTemplate(db, userId, code, variables, now);
  }

  // ---------------------------------------------------------------------------------------
  // The shortcuts. Each one, when the active template for its code is the default one, creates
  // the notification with every field filled.

  /** `notifier_rappel_rapport`. */
  method NotifierRappelRapport(db: Store, userId: int, typeRapport: string, operateur: string, mois: string,
                               dateLimite: string, now: int) returns (r: Result<Option<Notification>>)
    modifies db`notifications, db`nextNotificationId
    ensures var t := FindActiveTemplate(db.templates, AText(RappelRapportTemplate.code));
      t.Some? && t.value == RowOf(RappelRapportTemplate, t.value.id) ==>
        && r.Ok? && r.value.Some? && fresh(r.value.value)
        && r.value.value.row == NewRow(old(db.nextNotificationId), userId, RappelRapport,
             "Rappel: Rapport " + typeRapport + " pour " + mois,
             "Votre rapport " + typeRapport + " pour " + operateur + " du mois de " + mois
               + " doit être soumis avant le " + dateLimite + ".",
             Some(2), Some("/rapports/nouveau?type=" + typeRapport), now)
    ensures FindActiveTemplate(db.templates, AText(RappelRapportTemplate.code)).None? ==>
      r == Ok(None) && db.notifications == old(db.notifications)
  {
    var t := FindActiveTemplate(db.templates, AText(RappelRapportTemplate.code));
    if t.Some? {
      RappelRapportFills(typeRapport, operateur, mois, dateLimite, userId, t.value.id);
    }
    r := CreerNotificationTemplate(db, userId, RappelRapportTemplate.code,
                                   RappelRapportVariables(typeRapport, operateur, mois, dateLimite), now);
  }

  /** `notifier_validation_rapport`. */
  method NotifierValidationRapport(db: Store, userId: int, typeRapport: string, periode: string, validateur: string,
                                   rapportId: int, now: int) returns (r: Result<Option<Notification>>)
    modifies db`notifications, db`nextNotificationId
    ensures var t := FindActiveTemplate(db.templates, AText(ValidationRapportTemplate.code));
      t.Some? && t.value == RowOf(ValidationRapportTemplate, t.value.id) ==>
        && r.Ok? && r.value.Some? && fresh(r.value.value)
        && r.value.value.row == NewRow(old(db.nextNotificationId), userId, ValidationRapport,
             "Rapport validé: " + typeRapport,
             "Votre rapport " + typeRapport + " du " + periode + " a été validé par " + validateur + ".",
             Some(1), Some("/rapports/" + IntToString(rapportId)), now)
    ensures FindActiveTemplate(db.templates, AText(ValidationRapportTemplate.code)).None? ==>
      r == Ok(None) && db.notifications == old(db.notifications)
  {
    var t := FindActiveTemplate(db.templates, AText(ValidationRapportTemplate.code));
    if t.Some? {
      ValidationRapportFills(typeRapport, periode, validateur, rapportId, userId, t.value.id);
    }
    r := CreerNotificationTemplate(db, userId, ValidationRapportTemplate.code,
                                   ValidationRapportVariables(typeRapport, periode, validateur, rapportId), now);
  }

  /** `notifier_rejet_rapport`. */
  method NotifierRejetRapport(db: Store, userId: int, typeRapport: string, periode: string, motif: string,
                              rapportId: int, now: int) returns (r: Result<Option<Notification>>)
    modifies db`notifications, db`nextNotificationId
    ensures var t := FindActiveTemplate(db.templates, AText(RejetRapportTemplate.code));
      t.Some? && t.value == RowOf(RejetRapportTemplate, t.value.id) ==>
        && r.Ok? && r.value.Some? && fresh(r.value.value)
        && r.value.value.row == NewRow(old(db.nextNotificationId), userId, RejetRapport,
             "Rapport rejeté: " + typeRapport,
             "Votre rapport " + typeRapport + " du " + periode + " a été rejeté. Motif: " + motif,
             Some(3), Some("/rapports/" + IntToString(rapportId) + "/modifier"), now)
    ensures FindActiveTemplate(db.templates, AText(RejetRapportTemplate.code)).None? ==>
      r == Ok(None) && db.notifications == old(db.notifications)
  {
    var t := FindActiveTemplate(db.templates, AText(RejetRapportTemplate.code));
    if t.Some? {
      RejetRapportFills(typeRapport, periode, motif, rapportId, userId, t.value.id);
    }
    r := CreerNotificationTemplate(db, userId, RejetRapportTemplate.code,
                                   RejetRapportVariables(typeRapport, periode, motif, rapportId), now);
  }

  /** `notifier_alerte_donnees`. */
  method NotifierAlerteDonnees(db: Store, userId: int, typeDonnee: string, details: string, rapportId: int, now: int)
    returns (r: Result<Option<Notification>>)
    modifies db`notifications, db`nextNotificationId
    ensures var t := FindActiveTemplate(db.templates, AText(AlerteDonneesTemplate.code));
      t.Some? && t.value == RowOf(AlerteDonneesTemplate, t.value.id) ==>
        && r.Ok? && r.value.Some? && fresh(r.value.value)
        && r.value.value.row == NewRow(old(db.nextNotificationId), userId, AlerteDonnees,
             "Alerte: Données anormales détectées", AlerteIntro + typeDonnee + ": " + details,
             Some(2), Some("/rapports/" + IntToString(rapportId) + "#donnees"), now)
    ensures FindActiveTemplate(db.templates, AText(AlerteDonneesTemplate.code)).None? ==>
      r == Ok(None) && db.notifications == old(db.notifications)
  {
    var t := FindActiveTemplate(db.templates, AText(AlerteDonneesTemplate.code));
    if t.Some? {
      AlerteDonneesFills(typeDonnee, details, rapportId, userId, t.value.id);
    }
    r := CreerNotificationTemplate(db, userId, AlerteDonneesTemplate.code,
                                   AlerteDonneesVariables(typeDonnee, details, rapportId), now);
  }
}
