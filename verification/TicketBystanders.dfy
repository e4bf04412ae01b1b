/** What the rest of the traffic leaves alone: another sender's deliveries, contact syncs, replies, uploads
    and status changes, seen from one sender whose text and photos are on their way. */
module TicketBystanders {
  import opened Text
  import opened Classifier
  import opened Rows
  import opened TicketModel
  import opened TicketFiling
  import opened TicketInvariants
  import opened TicketGroups

  // ---- Steps that do not concern the sender of `text` ----

  ghost predicate Among(ids: set<string>, mid: Option<string>) { mid.Some? && mid.value in ids }

  // `ids` are the sender's messages. Another sender's message has another id, and in the sender's group it quotes
  // none of them.
  ghost predicate ByAnother(text: Message, ids: set<string>, m: Message) {
    m.id !in ids && (m.group != text.group || (m.phone != text.phone && !Among(ids, m.quoted)))
  }

  ghost predicate Elsewhere(text: Message, ids: set<string>, s: Step) {
    match s
    case TextArrives(m) => ByAnother(text, ids, m)
    case PhotoArrives(m) => ByAnother(text, ids, m)
    case Upload(_, _, _) => true
    case ReplyTo(_, mid, _, _, _) => !Among(ids, mid)
    case ChangeStatus(_, _) => true
    case EditTicket(_, _, _) => true
    case WhatsAppName(_, _) => true
    case ManualName(_, _) => true
    case _ => false
  }

  ghost predicate OfSender(text: Message, p: Media) { p.group == Some(text.group) && p.phone == text.phone }

  // The rows that carry one of `ids` are the sender's.
  ghost predicate SendersOwn(db: Db, text: Message, ids: set<string>) {
    forall i | i in db.media && db.media[i].messageId.Some? ::
      OfSender(text, db.media[i]) <==> db.media[i].messageId.value in ids
  }

  // ---- The sender's records stay ----

  ghost predicate TicketsStay(db: Db, db': Db, text: Message, ids: set<string>) {
    && (forall i | i in db.incidents ::
          && i in db'.incidents
          && var t := db'.incidents[i];
             t == db.incidents[i].(name := t.name, status := t.status, category := t.category, plate := t.plate))
    && (forall i | i in db'.incidents && i !in db.incidents ::
          && !(db'.incidents[i].group == text.group && db'.incidents[i].phone == text.phone)
          && !Among(ids, db'.incidents[i].messageId))
  }

  ghost predicate FollowUpsStay(db: Db, db': Db, text: Message, ids: set<string>) {
    && (forall u | u in db.followUps ::
          u in db'.followUps && db'.followUps[u] == db.followUps[u].(name := db'.followUps[u].name))
    && (forall u | u in db'.followUps && u !in db.followUps ::
          && !(InGroup(db', db'.followUps[u].incident, text.group) && db'.followUps[u].phone == text.phone)
          && !Among(ids, db'.followUps[u].messageId))
  }

  // Rows keep message, group and phone; the sender's keep everything, and none is added.
  ghost predicate PhotosStay(db: Db, db': Db, text: Message, ids: set<string>) {
    && (forall i | i in db.media ::
          && i in db'.media
          && db'.media[i].messageId == db.media[i].messageId
          && db'.media[i].group == db.media[i].group && db'.media[i].phone == db.media[i].phone
          && (OfSender(text, db.media[i]) ==> db'.media[i] == db.media[i]))
    && (forall i | i in db'.media && i !in db.media ::
          !OfSender(text, db'.media[i]) && !Among(ids, db'.media[i].messageId))
  }

  ghost predicate Beside(db: Db, db': Db, text: Message, ids: set<string>) {
    TicketsStay(db, db', text, ids) && FollowUpsStay(db, db', text, ids) && PhotosStay(db, db', text, ids)
  }

  lemma BesideTransitive(db0: Db, db1: Db, db2: Db, text: Message, ids: set<string>)
    requires Coherent(db1) && Beside(db0, db1, text, ids) && Beside(db1, db2, text, ids)
    ensures Beside(db0, db2, text, ids)
  {
    assert FollowUpsStay(db0, db2, text, ids) by {
      forall u | u in db2.followUps && u !in db0.followUps
        ensures !(InGroup(db2, db2.followUps[u].incident, text.group) && db2.followUps[u].phone == text.phone)
        ensures !Among(ids, db2.followUps[u].messageId)
      {
        if u in db1.followUps {
          assert InGroup(db2, db1.followUps[u].incident, text.group)
                 <==> InGroup(db1, db1.followUps[u].incident, text.group);
        }
      }
    }
  }

  lemma RenamedBeside(db: Db, db': Db, text: Message, ids: set<string>)
    requires Renamed(db, db')
    ensures Beside(db, db', text, ids)
  {
  }

  lemma BesideKeepsOwn(db: Db, db': Db, text: Message, ids: set<string>)
    requires SendersOwn(db, text, ids) && Beside(db, db', text, ids) && text.phone.Some?
    ensures SendersOwn(db', text, ids)
  {
  }

  lemma BesideUnrecorded(db: Db, db': Db, text: Message, ids: set<string>, k: nat)
    requires Beside(db, db', text, ids) && text.id in ids && !Recorded(db, text.id, k)
    ensures !Recorded(db', text.id, k)
  {
  }

  // ---- Each such step ----

  lemma GrownBeside(db: Db, db': Db, m: Message, name: string, text: Message, ids: set<string>)
    requires Grows(db, db', m, name) && ByAnother(text, ids, m)
    ensures Beside(db, db', text, ids)
  {
  }

  lemma SweepBeside(cfg: Config, db: Db, m: Message, link: Link, quoted: Option<string>, text: Message, ids: set<string>)
    requires SendersOwn(db, text, ids) && ByAnother(text, ids, m) && (quoted.Some? ==> quoted == m.quoted)
    ensures Beside(db, Sweep(cfg, db, m, link, quoted), text, ids)
  {
    var db' := Sweep(cfg, db, m, link, quoted);
    forall i | i in db.media
      ensures OfSender(text, db.media[i]) ==> db'.media[i] == db.media[i]
    {
    }
  }

  lemma AttachBeside(db: Db, m: Message, choice: Choice, text: Message, ids: set<string>)
    requires Coherent(db) && SendersOwn(db, text, ids) && ByAnother(text, ids, m)
    ensures Beside(db, AttachPhoto(db, m, choice).db, text, ids)
  {
    hide AttachPhoto, Query;
    var existing := Query(RowsOf(db, m.id), m.order.media);
    var stored := StoredFile(db, m, existing);
    AttachPhotoStep(db, m, choice);
    if stored.Some? {
      AttachedBeside(db, SaveFile(db, m, existing), AttachPhoto(db, m, choice).db, m, stored.value, choice, text, ids);
    }
  }

  lemma AttachedBeside(db: Db, saved: Db, db': Db, m: Message, file: string, choice: Choice, text: Message, ids: set<string>)
    requires saved == db.(files := saved.files) && Attached(saved, db', m, file, choice)
    requires SendersOwn(db, text, ids) && ByAnother(text, ids, m)
    ensures Beside(db, db', text, ids)
  {
    forall i | i in db'.media
      ensures i in db.media ==> && db'.media[i].messageId == db.media[i].messageId
                                && db'.media[i].group == db.media[i].group && db'.media[i].phone == db.media[i].phone
                                && (OfSender(text, db.media[i]) ==> db'.media[i] == db.media[i])
      ensures i !in db.media ==> !OfSender(text, db'.media[i]) && db'.media[i].messageId == Some(m.id)
    {
      if Claimed(saved, m, choice, i, db'.media[i]) {
      } else if Added(saved, m, file, choice, i, db'.media[i]) {
      } else {
        assert Untouched(saved, i, db'.media[i]);
      }
    }
  }

  lemma TextBeside(cfg: Config, db: Db, m: Message, name: string, text: Message, ids: set<string>)
    requires Coherent(db) && SendersOwn(db, text, ids) && ByAnother(text, ids, m) && text.phone.Some?
    ensures Beside(db, TextIngest(cfg, db, m, name).0, text, ids)
  {
    hide FileIssues, IssuesOf, Sweep, PlateTarget, Strongest, Coherent, SendersOwn, Beside, Grows;
    var issues := IssuesOf(cfg, m);
    var p := FileIssues(cfg, db, m, name, issues, m.failAt, |issues|);
    FileIssuesWell(cfg, db, m, name, issues, m.failAt, |issues|);
    GrownBeside(db, p.db, m, name, text, ids);
    BesideKeepsOwn(db, p.db, text, ids);
    if p.filed != [] {
      SweepBeside(cfg, p.db, m, Strongest(p.filed).link, m.quoted, text, ids);
      BesideTransitive(db, p.db, Sweep(cfg, p.db, m, Strongest(p.filed).link, m.quoted), text, ids);
    }
    var plate := PlateTarget(cfg, db, m.group, m.text, m.order);
    if plate.Some? {
      SweepBeside(cfg, db, m, Link(plate.value, None), m.quoted, text, ids);
    }
    BesideItself(db, text, ids);
  }

  lemma BesideItself(db: Db, text: Message, ids: set<string>)
    ensures Beside(db, db, text, ids)
  {
  }

  lemma PhotoBeside(cfg: Config, db: Db, m: Message, name: string, text: Message, ids: set<string>)
    requires Coherent(db) && SendersOwn(db, text, ids) && ByAnother(text, ids, m) && text.phone.Some?
    ensures Beside(db, PhotoIngest(cfg, db, m, name).0, text, ids)
  {
    hide FileIssues, IssuesOf, Sweep, AttachPhoto, ChooseTargets, SendersOwn, Beside, Grows, ByAnother, Coherent, Isolated;
    var issues := if m.text != "" then IssuesOf(cfg, m) else [];
    var p := FileIssues(cfg, db, m, name, issues, None, |issues|);
    FileIssuesWell(cfg, db, m, name, issues, None, |issues|);
    GrownBeside(db, p.db, m, name, text, ids);
    BesideKeepsOwn(db, p.db, text, ids);
    var choice := ChooseTargets(cfg, p.db, m, p.filed);
    CaptionHasTarget(cfg, p.db, m, p.filed);
    AttachBeside(p.db, m, choice, text, ids);
    var a := AttachPhoto(p.db, m, choice);
    BesideTransitive(db, p.db, a.db, text, ids);
    if choice.how == Some(ByCaption) {
      ChosenTargetsGood(cfg, p.db, m, p.filed);
      AttachPhotoCoherent(p.db, m, choice);
      BesideKeepsOwn(p.db, a.db, text, ids);
      SweepBeside(cfg, a.db, m, choice.links[0], None, text, ids);
      BesideTransitive(db, a.db, Sweep(cfg, a.db, m, choice.links[0], None), text, ids);
    }
  }

  lemma UploadBeside(db: Db, incident: int, file: string, now: int, text: Message, ids: set<string>)
    requires Coherent(db) && text.phone.Some?
    ensures Beside(db, UploadMedia(db, incident, file, now), text, ids)
  {
    BelowNext(db);
    hide Coherent;
  }

  lemma ReplyBeside(db: Db, incident: int, mid: Option<string>, actor: string, body: string, now: int, text: Message,
                    ids: set<string>)
    requires Coherent(db) && text.phone.Some? && !Among(ids, mid)
    ensures Beside(db, StaffReply(db, incident, mid, actor, body, now), text, ids)
  {
    BelowNext(db);
    hide Coherent, InFollowUps;
  }

  lemma StatusBeside(cfg: Config, db: Db, incident: int, status: string, text: Message, ids: set<string>)
    ensures Beside(db, SetStatus(cfg, db, incident, status), text, ids)
  {
  }

  lemma EditBeside(cfg: Config, db: Db, incident: int, category: Option<string>, plate: Option<Option<string>>,
                   text: Message, ids: set<string>)
    ensures Beside(db, EditFields(cfg, db, incident, category, plate), text, ids)
  {
  }

  lemma BelowNext(db: Db)
    requires Coherent(db)
    ensures forall i | i in db.media :: i < db.nextMedia
    ensures forall u | u in db.followUps :: u < db.nextFollowUp
  {
  }

  lemma StaffBeside(cfg: Config, db: Db, s: Step, text: Message, ids: set<string>)
    requires Coherent(db) && text.phone.Some? && Elsewhere(text, ids, s)
    requires s.Upload? || s.ReplyTo? || s.ChangeStatus? || s.EditTicket?
    ensures Beside(db, Apply(cfg, db, s), text, ids)
  {
    hide Coherent, Beside, UploadMedia, StaffReply, SetStatus, EditFields;
    if s.Upload? {
      UploadBeside(db, s.incident, s.file, s.now, text, ids);
    } else if s.ReplyTo? {
      ReplyBeside(db, s.incident, s.mid, s.actor, s.body, s.now, text, ids);
    } else if s.ChangeStatus? {
      StatusBeside(cfg, db, s.incident, s.status, text, ids);
    } else {
      EditBeside(cfg, db, s.incident, s.category, s.plate, text, ids);
    }
  }

  /** None of these steps touches the sender's records or adds one. */
  lemma StepBeside(cfg: Config, db: Db, s: Step, text: Message, ids: set<string>)
    requires Coherent(db) && SendersOwn(db, text, ids) && text.phone.Some? && Elsewhere(text, ids, s)
    ensures Beside(db, Apply(cfg, db, s), text, ids)
  {
    if IsDelivery(s) {
      var m, name := s.m, ResolveReporterName(db, s.m.phone, s.m.notifyName);
      var learned := Learn(db, m.phone, m.notifyName);
      LearnRenames(db, m.phone, m.notifyName);
      RenamedCoherent(db, learned);
      RenamedBeside(db, learned, text, ids);
      hide TextIngest, PhotoIngest, Learn, Coherent, SendersOwn, Beside, ResolveReporterName, ByAnother;
      BesideKeepsOwn(db, learned, text, ids);
      if s.TextArrives? {
        TextBeside(cfg, learned, m, name, text, ids);
      } else {
        PhotoBeside(cfg, learned, m, name, text, ids);
      }
      BesideTransitive(db, learned, Apply(cfg, db, s), text, ids);
    } else if s.WhatsAppName? {
      LearnRenames(db, s.phone, s.name);
      RenamedBeside(db, Apply(cfg, db, s), text, ids);
    } else if s.ManualName? {
      ManualNameRenames(db, s.who, s.name);
      RenamedBeside(db, Apply(cfg, db, s), text, ids);
    } else {
      StaffBeside(cfg, db, s, text, ids);
    }
  }

  // ---- Tickets do not depend on photos and names ----

  // The same tickets and follow-ups but for the names on them; photos, files and contacts may differ.
  ghost predicate SameTickets(db: Db, db': Db) {
    && db'.nextIncident == db.nextIncident && db'.nextFollowUp == db.nextFollowUp
    && db'.incidents.Keys == db.incidents.Keys && db'.followUps.Keys == db.followUps.Keys
    && (forall i | i in db.incidents :: db'.incidents[i] == db.incidents[i].(name := db'.incidents[i].name))
    && (forall u | u in db.followUps :: db'.followUps[u] == db.followUps[u].(name := db'.followUps[u].name))
  }

  ghost predicate OnlyPhotos(db: Db, db': Db) {
    db' == db.(media := db'.media, files := db'.files, nextMedia := db'.nextMedia)
  }

  lemma SameTicketsOpen(cfg: Config, db: Db, db': Db, group: string, order: RowOrder)
    requires SameTickets(db, db')
    ensures GetOpenTickets(cfg, db', group, order) == GetOpenTickets(cfg, db, group, order)
  {
    hide Query;
    forall i
      ensures i in NewestOpen(db', group) <==> i in NewestOpen(db, group)
      ensures i in NewestOpen(db, group) ==> NewestOpen(db', group)[i] == NewestOpen(db, group)[i]
    {
    }
    assert NewestOpen(db', group) == NewestOpen(db, group);
  }

  lemma SameTicketsRecorded(db: Db, db': Db, mid: string, k: nat)
    requires SameTickets(db, db')
    ensures InIncidents(db', mid, k) <==> InIncidents(db, mid, k)
    ensures InFollowUps(db', mid, k) <==> InFollowUps(db, mid, k)
  {
  }

  ghost predicate SameProgress(p: Progress, q: Progress) { SameTickets(p.db, q.db) && q == p.(db := q.db) }

  lemma AddFollowUpSame(db: Db, db': Db, m: Message, name: string, name': string, ticket: int, issue: Issue, i: nat)
    requires SameTickets(db, db')
    ensures SameTickets(AddFollowUp(db, m, name, ticket, issue, i), AddFollowUp(db', m, name', ticket, issue, i))
  {
  }

  lemma AddIncidentSame(cfg: Config, db: Db, db': Db, m: Message, name: string, name': string, issue: Issue,
                        plate: Option<string>, i: nat)
    requires SameTickets(db, db')
    ensures SameTickets(AddIncident(cfg, db, m, name, issue, plate, i), AddIncident(cfg, db', m, name', issue, plate, i))
  {
  }

  lemma FileIssueSame(cfg: Config, m: Message, name: string, name': string, issue: Issue, i: nat, db: Db, db': Db,
                      open: seq<OpenTicket>)
    requires SameTickets(db, db')
    ensures var f, f' := FileIssue(cfg, m, name, issue, i, db, open), FileIssue(cfg, m, name', issue, i, db', open);
            SameTickets(f.db, f'.db) && f' == f.(db := f'.db)
  {
    hide RouteIssue, AnswerFor, AddFollowUp, AddIncident;
    var routing := RouteIssue(cfg, issue, m.text, open, AnswerFor(m, i));
    if routing.ticket.Some? {
      AddFollowUpSame(db, db', m, name, name', routing.ticket.value, issue, i);
    } else {
      AddIncidentSame(cfg, db, db', m, name, name', issue, routing.plate, i);
    }
  }

  lemma FileNextSame(cfg: Config, m: Message, name: string, name': string, issues: seq<Issue>, failAt: Option<nat>, i: nat,
                     p: Progress, q: Progress)
    requires i < |issues| && SameProgress(p, q)
    ensures SameProgress(FileNext(cfg, m, name, issues, failAt, i, p), FileNext(cfg, m, name', issues, failAt, i, q))
  {
    SameTicketsRecorded(p.db, q.db, m.id, i);
    FileIssueSame(cfg, m, name, name', issues[i], i, p.db, q.db, p.open);
    hide FileIssue, InIncidents, InFollowUps, SameTickets;
  }

  lemma {:induction false} FileIssuesSame(cfg: Config, db: Db, db': Db, m: Message, name: string, name': string,
                                          issues: seq<Issue>, failAt: Option<nat>, n: nat)
    requires n <= |issues| && SameTickets(db, db')
    ensures SameProgress(FileIssues(cfg, db, m, name, issues, failAt, n), FileIssues(cfg, db', m, name', issues, failAt, n))
  {
    hide FileNext, SameTickets, GetOpenTickets;
    if n == 0 {
      SameTicketsOpen(cfg, db, db', m.group, m.order);
    } else {
      FileIssuesSame(cfg, db, db', m, name, name', issues, failAt, n - 1);
      FileNextSame(cfg, m, name, name', issues, failAt, n - 1, FileIssues(cfg, db, m, name, issues, failAt, n - 1),
                   FileIssues(cfg, db', m, name', issues, failAt, n - 1));
    }
  }

  // After a text the tickets are those its issues leave.
  lemma TextTickets(cfg: Config, db: Db, m: Message, name: string)
    ensures var issues := IssuesOf(cfg, m);
            OnlyPhotos(if AnySurvivor(cfg, issues) then FileIssues(cfg, db, m, name, issues, m.failAt, |issues|).db else db,
                       TextIngest(cfg, db, m, name).0)
  {
    hide FileIssues, IssuesOf, Sweep, PlateTarget, Strongest;
    var issues := IssuesOf(cfg, m);
    var p := FileIssues(cfg, db, m, name, issues, m.failAt, |issues|);
    if p.filed != [] {
      SweepFrame(cfg, p.db, m, Strongest(p.filed).link, m.quoted);
    }
    var plate := PlateTarget(cfg, db, m.group, m.text, m.order);
    if plate.Some? {
      SweepFrame(cfg, db, m, Link(plate.value, None), m.quoted);
    }
  }

  lemma PhotoTickets(cfg: Config, db: Db, m: Message, name: string)
    requires Coherent(db)
    ensures var issues := if m.text != "" then IssuesOf(cfg, m) else [];
            OnlyPhotos(FileIssues(cfg, db, m, name, issues, None, |issues|).db, PhotoIngest(cfg, db, m, name).0)
  {
    hide FileIssues, IssuesOf, Sweep, AttachPhoto, ChooseTargets, Query;
    var issues := if m.text != "" then IssuesOf(cfg, m) else [];
    var p := FileIssues(cfg, db, m, name, issues, None, |issues|);
    FileIssuesWell(cfg, db, m, name, issues, None, |issues|);
    var choice := ChooseTargets(cfg, p.db, m, p.filed);
    CaptionHasTarget(cfg, p.db, m, p.filed);
    AttachPhotoStep(p.db, m, choice);
    var a := AttachPhoto(p.db, m, choice);
    if choice.how == Some(ByCaption) {
      SweepFrame(cfg, a.db, m, choice.links[0], None);
    }
  }

  lemma OnlyPhotosSame(p: Db, q: Db, db: Db, db': Db)
    requires SameTickets(p, q) && OnlyPhotos(p, db) && OnlyPhotos(q, db')
    ensures SameTickets(db, db')
  {
  }

  lemma DeliverySame(cfg: Config, db: Db, db': Db, s: Step)
    requires Coherent(db) && Coherent(db') && SameTickets(db, db') && IsDelivery(s)
    ensures SameTickets(Apply(cfg, db, s), Apply(cfg, db', s))
  {
    var m := s.m;
    var name, name' := ResolveReporterName(db, m.phone, m.notifyName), ResolveReporterName(db', m.phone, m.notifyName);
    var learned, learned' := Learn(db, m.phone, m.notifyName), Learn(db', m.phone, m.notifyName);
    LearnRenames(db, m.phone, m.notifyName);
    LearnRenames(db', m.phone, m.notifyName);
    RenamedCoherent(db, learned);
    RenamedCoherent(db', learned');
    RenamedSame(db, learned, db', learned');
    hide TextIngest, PhotoIngest, Learn, Coherent, SameTickets, ResolveReporterName, FileIssues, IssuesOf, OnlyPhotos,
         Renamed;
    var issues := if s.PhotoArrives? && m.text == "" then [] else IssuesOf(cfg, m);
    var failAt := if s.TextArrives? then m.failAt else None;
    FileIssuesSame(cfg, learned, learned', m, name, name', issues, failAt, |issues|);
    var p := FileIssues(cfg, learned, m, name, issues, failAt, |issues|);
    var p' := FileIssues(cfg, learned', m, name', issues, failAt, |issues|);
    if s.PhotoArrives? {
      PhotoTickets(cfg, learned, m, name);
      PhotoTickets(cfg, learned', m, name');
      OnlyPhotosSame(p.db, p'.db, Apply(cfg, db, s), Apply(cfg, db', s));
    } else {
      TextTickets(cfg, learned, m, name);
      TextTickets(cfg, learned', m, name');
      if AnySurvivor(cfg, issues) {
        OnlyPhotosSame(p.db, p'.db, Apply(cfg, db, s), Apply(cfg, db', s));
      } else {
        OnlyPhotosSame(learned, learned', Apply(cfg, db, s), Apply(cfg, db', s));
      }
    }
  }

  lemma RenamedSame(db: Db, learned: Db, db': Db, learned': Db)
    requires SameTickets(db, db') && Renamed(db, learned) && Renamed(db', learned')
    ensures SameTickets(learned, learned')
  {
  }

  lemma ReplySame(db: Db, db': Db, incident: int, mid: Option<string>, actor: string, body: string, now: int)
    requires SameTickets(db, db')
    ensures SameTickets(StaffReply(db, incident, mid, actor, body, now), StaffReply(db', incident, mid, actor, body, now))
  {
    if mid.Some? {
      SameTicketsRecorded(db, db', mid.value, 0);
    }
    hide InFollowUps;
  }

  lemma StaffSame(cfg: Config, db: Db, db': Db, s: Step)
    requires SameTickets(db, db') && (s.Upload? || s.ReplyTo? || s.ChangeStatus? || s.EditTicket?)
    ensures SameTickets(Apply(cfg, db, s), Apply(cfg, db', s))
  {
    hide StaffReply;
    if s.ReplyTo? {
      ReplySame(db, db', s.incident, s.mid, s.actor, s.body, s.now);
    }
  }

  /** Which tickets a step leaves does not depend on the photos and the names in the tables before it. */
  lemma StepSame(cfg: Config, db: Db, db': Db, s: Step, text: Message, ids: set<string>)
    requires Coherent(db) && Coherent(db') && SameTickets(db, db') && Elsewhere(text, ids, s)
    ensures SameTickets(Apply(cfg, db, s), Apply(cfg, db', s))
  {
    if IsDelivery(s) {
      DeliverySame(cfg, db, db', s);
    } else if s.WhatsAppName? {
      LearnRenames(db, s.phone, s.name);
      LearnRenames(db', s.phone, s.name);
      RenamedSame(db, Apply(cfg, db, s), db', Apply(cfg, db', s));
    } else if s.ManualName? {
      ManualNameRenames(db, s.who, s.name);
      ManualNameRenames(db', s.who, s.name);
      RenamedSame(db, Apply(cfg, db, s), db', Apply(cfg, db', s));
    } else {
      StaffSame(cfg, db, db', s);
    }
  }
}
