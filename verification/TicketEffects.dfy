/** What holds of the ticket database between any two handlers, and what each handler means for its caller. */
module TicketEffects {
  import opened Text
  import opened Classifier
  import opened Rows
  import opened TicketModel
  import opened TicketFiling
  import opened TicketInvariants
  import opened TicketFiles
  import opened TicketNames
  import opened TicketRecords
  import TicketChoice

  // Links are coherent, files are counted, and manual names are in place.
  ghost predicate Sound(db: Db) { Coherent(db) && FilesExact(db) && ManualNamesHold(db) }

  lemma EmptySound()
    ensures Sound(EMPTY_DB)
  {
  }

  lemma SoundStep(cfg: Config, db: Db, s: Step)
    requires Sound(db)
    ensures Sound(Apply(cfg, db, s))
  {
    hide Apply, Coherent, FilesExact, ManualNamesHold, NamesKept;
    StepCoherent(cfg, db, s);
    StepFiles(cfg, db, s);
    if IsDelivery(s) {
      DeliveryNames(cfg, db, s);
    } else {
      StaffNames(cfg, db, s);
    }
  }

  // A message filed under a name that the sender may carry.
  lemma SoundDelivery(cfg: Config, db: Db, s: Step, name: string)
    requires IsDelivery(s) && Sound(db) && ManualNameOf(db, s.m.phone, Some(name))
    ensures var db' := Deliver(cfg, db, s, name).0; Sound(db') && NamesKept(db, db')
  {
    hide Coherent, FilesExact, ManualNamesHold, TextIngest, PhotoIngest, NamesKept, ManualNameOf;
    DeliverNames(cfg, db, s, name);
    if s.TextArrives? {
      TextCoherent(cfg, db, s.m, name);
      TextFiles(cfg, db, s.m, name);
    } else {
      PhotoCoherent(cfg, db, s.m, name);
      PhotoFiles(cfg, db, s.m, name);
    }
  }

  // ---- Filing ----

  // One row of the message was added for issue `i`, on a ticket of its own group, and nothing else changed.
  ghost predicate FiledOne(db: Db, after: Db, m: Message, name: string, i: nat, link: Link) {
    && Grows(db, after, m, name) && Coherent(after) && GoodLink(after, m.group, link) && Recorded(after, m.id, i)
    && |after.incidents| + |after.followUps| == |db.incidents| + |db.followUps| + 1
  }

  ghost predicate OpenInGroup(db: Db, open: seq<OpenTicket>, group: string) {
    forall t | t in open :: InGroup(db, t.id, group)
  }

  lemma FilingOne(cfg: Config, m: Message, name: string, issue: Issue, i: nat, db: Db, open: seq<OpenTicket>)
    requires Coherent(db) && OpenInGroup(db, open, m.group)
    ensures var f := FileIssue(cfg, m, name, issue, i, db, open);
            FiledOne(db, f.db, m, name, i, f.link) && OpenInGroup(f.db, f.open, m.group)
  {
    hide RouteIssue, Coherent, GoodLink, InGroup;
    var p := Progress(db, open, [], 0, 0, 0, false);
    var routing := RouteIssue(cfg, issue, m.text, open, AnswerFor(m, i));
    NextIsNew(db);
    var f := FileIssue(cfg, m, name, issue, i, db, open);
    if routing.ticket.Some? {
      RoutedToOpen(cfg, issue, m.text, open, AnswerFor(m, i));
      AddFollowUpGrows(db, m, name, routing.ticket.value, issue, i, p);
      assert f.db.followUps[db.nextFollowUp].messageId == Some(m.id);
    } else {
      AddIncidentGrows(cfg, db, m, name, issue, routing.plate, i, p);
      assert f.db.incidents[db.nextIncident].messageId == Some(m.id);
      NewInGroup(f.db, m.group, db.nextIncident);
    }
  }

  lemma NextIsNew(db: Db)
    requires Coherent(db)
    ensures db.nextIncident !in db.incidents && db.nextFollowUp !in db.followUps
  {
  }

  lemma NewInGroup(db: Db, group: string, ticket: int)
    requires GoodLink(db, group, Link(ticket, None))
    ensures InGroup(db, ticket, group)
  {
  }

  // ---- Targets ----

  // Every chosen link stands; the rule is named exactly when there is one; and a caption's first ticket is that of its
  // strongest issue.
  ghost predicate WellChosen(db: Db, m: Message, filed: seq<Target>, c: Choice) {
    && (forall l | l in c.links :: ValidLink(db, l.incident, l.followUp) && (Isolated(db) ==> GoodLink(db, m.group, l)))
    && (c.how.Some? <==> c.links != [])
    && (c.how == Some(ByCaption) <==> filed != [] && c.how != Some(ByQuote))
    && (c.how == Some(ByCaption) ==> |c.links| == |filed| && c.links[0] == Strongest(filed).link)
  }

  lemma ChoosingTargets(cfg: Config, db: Db, m: Message, filed: seq<Target>)
    requires Coherent(db) && forall t | t in filed :: GoodLink(db, m.group, t.link)
    ensures WellChosen(db, m, filed, ChooseTargets(cfg, db, m, filed))
  {
    ChosenTargetsGood(cfg, db, m, filed);
    CaptionHasTarget(cfg, db, m, filed);
    TicketChoice.TargetsByConfidence(filed);
    hide QuotedTarget, PlateTarget, ProximityTarget, SortTargets, Strongest, GoodLink, ValidLink, Isolated, Coherent;
  }

  // ---- Staff actions on photos ----

  ghost predicate OthersSame(db: Db, after: Db, id: int) {
    forall i | i in db.media && i != id :: i in after.media && after.media[i] == db.media[i]
  }

  // The photo went where it was sent, or, refused, stayed as it was.
  ghost predicate Sent(db: Db, after: Db, id: int, target: Option<int>) {
    && OthersSame(db, after, id) && after.incidents == db.incidents && after.followUps == db.followUps
    && (id in db.media && target.None? ==>
          id in after.media && after.media[id] == db.media[id].(incident := None, followUp := None, how := None))
    && (target.Some? ==>
          if id in db.media && target.value in db.incidents && !HasPhoto(db, target.value, db.media[id].file, id)
          then id in after.media && after.media[id].incident == target && after.media[id].followUp.None?
               && after.media[id].how == Some(ByHand) && after.media[id].group.Some?
               && !HasPhoto(after, target.value, after.media[id].file, id)
          else after == db)
  }

  lemma Sending(db: Db, id: int, target: Option<int>)
    ensures Sent(db, TicketModel.AssignMedia(db, id, target), id, target)
  {
  }

  // The photo is gone, and its file with it exactly when no row is left that has it.
  ghost predicate Dismissed(db: Db, after: Db, id: int) {
    && id !in after.media && OthersSame(db, after, id) && after.media.Keys == db.media.Keys - {id}
    && (id in db.media ==>
          (db.media[id].file in after.files <==> exists i | i in after.media :: after.media[i].file == db.media[id].file)
          && forall f | f != db.media[id].file :: f in after.files <==> f in db.files)
  }

  lemma Dismissing(db: Db, id: int)
    requires FilesExact(db)
    ensures Dismissed(db, TicketModel.DeleteMedia(db, id), id)
  {
    DismissFiles(db, id);
    if id in db.media {
      assert db.media[id].file in db.files;
    }
  }

  // The ticket has one photo more, with a stored file, and every other row is as it was.
  ghost predicate Uploaded(db: Db, after: Db, incident: int, file: string) {
    if incident !in db.incidents then after == db
    else
      && db.nextMedia !in db.media && after.media.Keys == db.media.Keys + {db.nextMedia}
      && OthersSame(db, after, db.nextMedia)
      && after.media[db.nextMedia].incident == Some(incident) && after.media[db.nextMedia].file == file
      && after.media[db.nextMedia].group == Some(db.incidents[incident].group) && after.media[db.nextMedia].messageId.None?
      && after.files == db.files + {file} && after.incidents == db.incidents
  }

  lemma Uploading(db: Db, incident: int, file: string, now: int)
    requires Coherent(db)
    ensures Uploaded(db, UploadMedia(db, incident, file, now), incident, file)
  {
    assert forall i | i in db.media :: i < db.nextMedia;
  }

  // ---- Staff actions on tickets ----

  // The reply is a follow-up of the ticket that a quote of its message will find, or it was recorded before.
  ghost predicate Answered(db: Db, after: Db, incident: int, mid: Option<string>, text: string) {
    && after == db.(followUps := after.followUps, nextFollowUp := after.nextFollowUp)
    && (forall u | u in db.followUps :: u in after.followUps && after.followUps[u] == db.followUps[u])
    && (incident in db.incidents && mid.Some? ==> InFollowUps(after, mid.value, 0))
    && (incident in db.incidents && (mid.None? || !InFollowUps(db, mid.value, 0)) ==>
          after.followUps.Keys == db.followUps.Keys + {db.nextFollowUp}
          && after.followUps[db.nextFollowUp].incident == incident && after.followUps[db.nextFollowUp].body == text
          && after.followUps[db.nextFollowUp].phone.None?)
  }

  lemma Answering(db: Db, incident: int, mid: Option<string>, actor: string, text: string, now: int)
    requires Coherent(db)
    ensures Answered(db, StaffReply(db, incident, mid, actor, text, now), incident, mid, text)
  {
    var after := StaffReply(db, incident, mid, actor, text, now);
    assert forall u | u in db.followUps :: u < db.nextFollowUp;
    if incident in db.incidents && (mid.None? || !InFollowUps(db, mid.value, 0)) {
      assert after.followUps[db.nextFollowUp].messageId == mid;
    }
  }

  // Refused unless the mode has the status. A ticket is offered for follow-ups exactly when its status is neither
  // resolved nor ignored, so that in lead mode every ticket is.
  ghost predicate StatusGiven(cfg: Config, db: Db, after: Db, incident: int, status: string) {
    if status !in cfg.statuses || incident !in db.incidents then after == db
    else
      && after == db.(incidents := after.incidents) && after.incidents.Keys == db.incidents.Keys
      && (forall i | i in db.incidents && i != incident :: after.incidents[i] == db.incidents[i])
      && after.incidents[incident] == db.incidents[incident].(status := status)
      && (TicketChoice.OpenIn(after, incident, db.incidents[incident].group)
          <==> status != "resolved" && status != "ignored")
  }

  lemma GivingStatus(cfg: Config, db: Db, incident: int, status: string)
    ensures StatusGiven(cfg, db, SetStatus(cfg, db, incident, status), incident, status)
  {
  }

  // Refused for an unknown category. The ticket has the category and the plate given, or those it had, and
  // nothing else changes.
  ghost predicate FieldsEdited(cfg: Config, db: Db, after: Db, incident: int, category: Option<string>,
                               plate: Option<Option<string>>) {
    if incident !in db.incidents || (category.Some? && category.value !in cfg.categories) then after == db
    else
      && after == db.(incidents := after.incidents) && after.incidents.Keys == db.incidents.Keys
      && (forall i | i in db.incidents && i != incident :: after.incidents[i] == db.incidents[i])
      && var t := after.incidents[incident];
         && (category.Some? ==> t.category == category.value) && (plate.Some? ==> t.plate == plate.value)
         && (category.None? ==> t.category == db.incidents[incident].category)
         && (plate.None? ==> t.plate == db.incidents[incident].plate)
         && t == db.incidents[incident].(category := t.category, plate := t.plate)
  }

  lemma EditingFields(cfg: Config, db: Db, incident: int, category: Option<string>, plate: Option<Option<string>>)
    ensures FieldsEdited(cfg, db, EditFields(cfg, db, incident, category, plate), incident, category, plate)
  {
  }

  // ---- Names ----

  ghost predicate HasManual(db: Db, phone: string) { phone in db.contacts && db.contacts[phone].manual }

  // No row of the phone is nameless.
  ghost predicate AllNamed(db: Db, phone: string) {
    && (forall i | i in db.incidents && db.incidents[i].phone == Some(phone) :: !Nameless(db.incidents[i].name))
    && (forall u | u in db.followUps && db.followUps[u].phone == Some(phone) :: !Nameless(db.followUps[u].name))
  }

  // A name learned for the first time is the contact's, and none of its rows is left nameless. No manual contact, and
  // no name other than Unknown, changes.
  ghost predicate NameLearned(db: Db, after: Db, phone: Option<string>, given: Option<string>) {
    && Renamed(db, after) && NamesKept(db, after)
    && (forall p | HasManual(db, p) :: HasManual(after, p) && after.contacts[p] == db.contacts[p])
    && (forall p | HasManual(after, p) :: HasManual(db, p))
    && (phone.Some? && CleanName(given).Some? && CleanName(given) != Some(UNKNOWN) && !HasManual(db, phone.value) ==>
          phone.value in after.contacts && Some(after.contacts[phone.value].name) == CleanName(given))
    && (after != db ==> phone.Some? && AllNamed(after, phone.value))
  }

  lemma RewrittenNamed(db: Db, phone: string, name: string)
    requires name != UNKNOWN
    ensures AllNamed(TicketModel.RewriteRows(db, phone, name, true), phone)
    ensures TicketModel.RewriteRows(db, phone, name, true).contacts == db.contacts
  {
  }

  lemma LearningName(db: Db, phone: Option<string>, given: Option<string>)
    requires ManualNamesHold(db)
    ensures NameLearned(db, TicketModel.Learn(db, phone, given), phone, given)
  {
    hide CleanName, ManualNamesHold, TicketModel.RewriteRows, AllNamed, Renamed, NamesKept;
    LearnRenames(db, phone, given);
    LearnKeepsNames(db, phone, given);
    var name := CleanName(given);
    if phone.Some? && name.Some? && name.value != UNKNOWN {
      RewrittenNamed(db.(contacts := db.contacts[phone.value := Contact(name.value, false)]), phone.value, name.value);
    }
  }

  // A name makes the contact manual and is the name of all rows of the phone; no name leaves no manual contact and all
  // rows as they are.
  ghost predicate NameSet(db: Db, after: Db, phone: string, given: Option<string>) {
    && Renamed(db, after)
    && (CleanName(given).Some? ==>
          && HasManual(after, phone) && Some(after.contacts[phone].name) == CleanName(given)
          && (forall i | i in after.incidents && after.incidents[i].phone == Some(phone) ::
                after.incidents[i].name == CleanName(given))
          && (forall u | u in after.followUps && after.followUps[u].phone == Some(phone) ::
                after.followUps[u].name == CleanName(given)))
    && (CleanName(given).None? ==>
          !HasManual(after, phone) && after.incidents == db.incidents && after.followUps == db.followUps)
    && (forall p | p != phone :: HasManual(after, p) <==> HasManual(db, p))
  }

  lemma SettingName(db: Db, phone: string, given: Option<string>)
    ensures NameSet(db, TicketModel.SetManualName(db, phone, given), phone, given)
  {
    hide CleanName;
    ManualNameRenames(db, phone, given);
  }

  // ---- Follow-ups on the move ----

  ghost predicate PromotedOrRefused(cfg: Config, db: Db, after: Db, id: int) {
    (after == db <==> id !in db.followUps
                      || (db.followUps[id].messageId.Some? && InIncidents(db, db.followUps[id].messageId.value, 0)))
    && (after != db ==>
          && id !in after.followUps && db.nextIncident in after.incidents
          && (forall i | Under(db, i, id) :: i in after.media && after.media[i].incident == Some(db.nextIncident))
          && (forall i | i in after.media :: after.media[i].followUp != Some(id)))
  }

  lemma Promoting(cfg: Config, db: Db, id: int)
    requires Coherent(db)
    ensures PromotedOrRefused(cfg, db, Promote(cfg, db, id), id)
  {
    hide InIncidents;
    PromoteCoherent(cfg, db, id);
    if id in db.followUps && !(db.followUps[id].messageId.Some? && InIncidents(db, db.followUps[id].messageId.value, 0)) {
      assert id !in Promote(cfg, db, id).followUps;
    }
  }

  ghost predicate MovedTo(db: Db, after: Db, id: int, target: int) {
    if id !in db.followUps || target !in db.incidents then after == db
    else
      && id in after.followUps && after.followUps[id].incident == target && after.followUps[id].relinked
      && after.media.Keys == db.media.Keys
      && (forall i | Under(db, i, id) :: Under(after, i, id) && after.media[i].incident == Some(target))
      && (forall i | i in db.media && !Under(db, i, id) :: after.media[i] == db.media[i])
  }

  lemma Relinking(db: Db, id: int, target: int)
    ensures MovedTo(db, Relink(db, id, target), id, target)
  {
  }
}
