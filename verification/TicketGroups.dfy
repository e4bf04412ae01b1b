/** Messages of one group never reach the tickets of another. */
module TicketGroups {
  import opened Text
  import Classifier
  import opened Rows
  import opened TicketModel
  import opened TicketFiling
  import opened TicketInvariants
  import opened TicketPhotos
  import opened TicketRecords

  // Everything `db'` adds or links stands on a ticket of `group`.
  ghost predicate OnlyInto(db: Db, db': Db, group: string) {
    && (forall u | u in db'.followUps && u !in db.followUps :: InGroup(db', db'.followUps[u].incident, group))
    && (forall i | i in db'.media ::
          Untouched(db, i, db'.media[i])
          || (db'.media[i].incident.Some? ==> InGroup(db', db'.media[i].incident.value, group)))
  }

  // A row of the same message id waits in another group.
  ghost predicate WaitsElsewhere(db: Db, m: Message) {
    exists i | i in db.media ::
      db.media[i].messageId == Some(m.id) && db.media[i].incident.None? && db.media[i].group != Some(m.group)
  }

  lemma SweepIsolated(cfg: Config, db: Db, m: Message, link: Link, quoted: Option<string>)
    requires InGroup(db, link.incident, m.group)
    ensures Isolated(Sweep(cfg, db, m, link, quoted)) <==> Isolated(db)
    ensures OnlyInto(db, Sweep(cfg, db, m, link, quoted), m.group)
  {
    var db' := Sweep(cfg, db, m, link, quoted);
    forall i | i in db.media
      ensures db'.media[i].group == db.media[i].group
      ensures db'.media[i] == db.media[i]
              || (db.media[i].incident.None? && db.media[i].group == Some(m.group)
                  && db'.media[i].incident == Some(link.incident))
    {
    }
  }

  lemma AttachIsolated(db: Db, m: Message, choice: Choice)
    requires Coherent(db) && Isolated(db) && OneHolder(db)
    requires forall l | l in choice.links :: GoodLink(db, m.group, l)
    ensures var db' := AttachPhoto(db, m, choice).db;
            Isolated(db') <==> !(choice.links != [] && WaitsElsewhere(db, m))
  {
    hide AttachPhoto, OneHolder, Query, Isolated, WaitsElsewhere, Attached;
    var existing := Query(RowsOf(db, m.id), m.order.media);
    var stored := StoredFile(db, m, existing);
    AttachPhotoStep(db, m, choice);
    if choice.links != [] && WaitsElsewhere(db, m) {
      ForeignRowLinked(db, m, choice);
    } else if stored.Some? {
      var saved := SaveFile(db, m, existing);
      SameRowsIsolated(db, saved, m);
      AttachedInto(saved, AttachPhoto(db, m, choice).db, m, stored.value, choice);
    }
  }

  lemma SameRowsIsolated(db: Db, db': Db, m: Message)
    requires Isolated(db) && db' == db.(files := db'.files)
    ensures Isolated(db') && (WaitsElsewhere(db', m) <==> WaitsElsewhere(db, m))
  {
  }

  // Filing a photo on tickets of its group links the row that waits elsewhere.
  lemma ForeignRowLinked(db: Db, m: Message, choice: Choice)
    requires Coherent(db) && OneHolder(db) && choice.links != [] && WaitsElsewhere(db, m)
    requires forall l | l in choice.links :: GoodLink(db, m.group, l)
    ensures !Isolated(AttachPhoto(db, m, choice).db)
  {
    hide AttachPhoto, OneHolder, Query, Holding;
    var i :| i in db.media && db.media[i].messageId == Some(m.id) && db.media[i].incident.None?
             && db.media[i].group != Some(m.group);
    var existing := Query(RowsOf(db, m.id), m.order.media);
    var stored := StoredFile(db, m, existing);
    var saved := SaveFile(db, m, existing);
    assert i in RowsOf(db, m.id) && i in existing;
    AttachPhotoStep(db, m, choice);
    AttachPhotoHolds(db, m, choice);
    var a := AttachPhoto(db, m, choice);
    NothingWaits(m, stored.value, a, choice.links[0].incident);
    LinkedFromElsewhere(saved, a.db, m, stored.value, choice, i);
  }

  lemma LinkedFromElsewhere(db: Db, db': Db, m: Message, file: string, choice: Choice, i: int)
    requires Attached(db, db', m, file, choice) && forall l | l in choice.links :: GoodLink(db, m.group, l)
    requires i in db.media && db.media[i].messageId == Some(m.id) && db.media[i].incident.None?
    requires db.media[i].group != Some(m.group) && db'.media[i].messageId == Some(m.id) && db'.media[i].incident.Some?
    ensures !Isolated(db')
  {
    assert Claimed(db, m, choice, i, db'.media[i]);
    var l :| l in choice.links && db'.media[i] == Relinked(db.media[i], l, choice.how);
    assert GoodLink(db, m.group, l);
  }

  lemma AttachedInto(db: Db, db': Db, m: Message, file: string, choice: Choice)
    requires Attached(db, db', m, file, choice)
    requires forall l | l in choice.links :: GoodLink(db, m.group, l)
    ensures OnlyInto(db, db', m.group)
    ensures forall i | i in db'.media && i !in db.media :: db'.media[i].group == Some(m.group)
    ensures Isolated(db) && !(choice.links != [] && WaitsElsewhere(db, m)) ==> Isolated(db')
  {
    forall i | i in db'.media
      ensures || Untouched(db, i, db'.media[i])
              || (db'.media[i].incident.Some? ==> InGroup(db', db'.media[i].incident.value, m.group))
      ensures i !in db.media ==> db'.media[i].group == Some(m.group)
      ensures i in db.media && !Untouched(db, i, db'.media[i])
              ==> choice.links != [] && db'.media[i].group == db.media[i].group
                  && (!WaitsElsewhere(db, m) ==> db.media[i].group == Some(m.group))
    {
      if Claimed(db, m, choice, i, db'.media[i]) {
        var l :| l in choice.links && db'.media[i] == Relinked(db.media[i], l, choice.how);
        assert GoodLink(db, m.group, l);
      } else if Added(db, m, file, choice, i, db'.media[i]) {
        if choice.links != [] {
          var l :| l in choice.links && db'.media[i] == PhotoRow(m, file, Some(l), choice.how);
          assert GoodLink(db, m.group, l);
        }
      }
    }
  }

  lemma OnlyIntoTransitive(db0: Db, db1: Db, db2: Db, group: string)
    requires OnlyInto(db0, db1, group) && OnlyInto(db1, db2, group)
    requires forall i | i in db1.incidents :: i in db2.incidents && db2.incidents[i].group == db1.incidents[i].group
    requires forall u | u in db1.followUps :: u in db2.followUps && db2.followUps[u].incident == db1.followUps[u].incident
    ensures OnlyInto(db0, db2, group)
  {
    forall i | i in db2.media
      ensures Untouched(db0, i, db2.media[i])
              || (db2.media[i].incident.Some? ==> InGroup(db2, db2.media[i].incident.value, group))
    {
      if Untouched(db1, i, db2.media[i]) {
        assert i in db1.media;
      }
    }
  }

  lemma GrownOnlyInto(db: Db, db': Db, m: Message, name: string)
    requires Grows(db, db', m, name)
    ensures OnlyInto(db, db', m.group)
    ensures Isolated(db) ==> Isolated(db')
    ensures WaitsElsewhere(db', m) <==> WaitsElsewhere(db, m)
  {
  }

  lemma TextInto(cfg: Config, db: Db, m: Message, name: string)
    requires Coherent(db) && Isolated(db)
    ensures var db' := TextIngest(cfg, db, m, name).0; OnlyInto(db, db', m.group) && Isolated(db')
  {
    hide FileIssues, IssuesOf, Sweep, OnlyInto, Isolated;
    var issues := IssuesOf(cfg, m);
    var p := FileIssues(cfg, db, m, name, issues, m.failAt, |issues|);
    FileIssuesWell(cfg, db, m, name, issues, m.failAt, |issues|);
    GrownOnlyInto(db, p.db, m, name);
    if p.filed != [] {
      var link := Strongest(p.filed).link;
      assert GoodLink(p.db, m.group, link);
      SweepIsolated(cfg, p.db, m, link, m.quoted);
      SweepFrame(cfg, p.db, m, link, m.quoted);
      OnlyIntoTransitive(db, p.db, Sweep(cfg, p.db, m, link, m.quoted), m.group);
    }
    var plate := PlateTarget(cfg, db, m.group, m.text, m.order);
    PlateTargetGood(cfg, db, m.group, m.text, m.order);
    if plate.Some? {
      SweepIsolated(cfg, db, m, Link(plate.value, None), m.quoted);
    }
    NothingAdded(db, m.group);
  }

  lemma NothingAdded(db: Db, group: string)
    ensures OnlyInto(db, db, group)
  {
  }

  lemma SweepFrame(cfg: Config, db: Db, m: Message, link: Link, quoted: Option<string>)
    ensures var db' := Sweep(cfg, db, m, link, quoted);
            db' == db.(media := db'.media) && db'.media.Keys == db.media.Keys
  {
  }

  // ---- Which photos find a ticket ----

  ghost function CaptionIssues(cfg: Config, m: Message): seq<Classifier.Issue> {
    if m.text != "" then IssuesOf(cfg, m) else []
  }

  ghost predicate BringsNewIssue(cfg: Config, db: Db, m: Message) {
    !AllRecorded(cfg, db, m.id, CaptionIssues(cfg, m))
  }

  // The caption has an issue with no record yet; or it has none to record, and the quoted message, the one plate
  // in the caption or a near message leads to a ticket.
  ghost predicate FindsTarget(cfg: Config, db: Db, m: Message) {
    BringsNewIssue(cfg, db, m)
    || (!AnySurvivor(cfg, CaptionIssues(cfg, m))
        && (QuotedTarget(db, m.group, m.quoted, m.order).Some?
            || (m.text != "" && PlateTarget(cfg, db, m.group, m.text, m.order).Some?)
            || ProximityTarget(cfg, db, m).Some?))
  }

  /** A delivered photo is linked exactly when it finds a ticket, which the tables before the delivery decide. */
  lemma LinkedIfTarget(cfg: Config, db: Db, m: Message, name: string)
    ensures PhotoIngest(cfg, db, m, name).1.Linked? <==> FindsTarget(cfg, db, m)
  {
    hide FileIssues, IssuesOf, Sweep, AttachPhoto, QuotedTarget, PlateTarget, ProximityTarget, SortTargets, Recorded, Start;
    var issues := CaptionIssues(cfg, m);
    var p := FileIssues(cfg, db, m, name, issues, None, |issues|);
    FiledCounted(cfg, db, m, name, issues, None, |issues|);
    if BringsNewIssue(cfg, db, m) {
      var k :| 0 <= k < |issues| && Survives(cfg, issues[k]) && !Recorded(db, m.id, k);
      NewIsFiled(cfg, db, m, name, issues, k, |issues|);
    } else {
      RecordedIsSkipped(cfg, db, m, name, issues, None, |issues|);
      StartsEmpty(cfg, db, m);
    }
  }

  lemma StartsEmpty(cfg: Config, db: Db, m: Message)
    ensures var p := Start(cfg, db, m); p.db == db && p.filed == [] && p.created == 0 && p.updated == 0
  {
  }

  /** A photo's delivery links into the message's own group, and it keeps the database isolated exactly when it
      finds no ticket or no row waits in another group under the same message id. */
  lemma PhotoInto(cfg: Config, db: Db, m: Message, name: string)
    requires Coherent(db) && Isolated(db) && OneHolder(db)
    ensures var db' := PhotoIngest(cfg, db, m, name).0;
            && OnlyInto(db, db', m.group)
            && (Isolated(db') <==> !(FindsTarget(cfg, db, m) && WaitsElsewhere(db, m)))
  {
    hide FileIssues, IssuesOf, Sweep, AttachPhoto, ChooseTargets, OnlyInto, Isolated, OneHolder, WaitsElsewhere, FindsTarget;
    LinkedIfTarget(cfg, db, m, name);
    var issues := if m.text != "" then IssuesOf(cfg, m) else [];
    var p := FileIssues(cfg, db, m, name, issues, None, |issues|);
    FileIssuesWell(cfg, db, m, name, issues, None, |issues|);
    GrownOnlyInto(db, p.db, m, name);
    SameMediaOneHolder(db, p.db);
    var choice := ChooseTargets(cfg, p.db, m, p.filed);
    ChosenTargetsGood(cfg, p.db, m, p.filed);
    CaptionHasTarget(cfg, p.db, m, p.filed);
    AttachIsolated(p.db, m, choice);
    AttachPhotoInto(p.db, m, choice);
    var a := AttachPhoto(p.db, m, choice);
    OnlyIntoTransitive(db, p.db, a.db, m.group);
    if choice.how == Some(ByCaption) {
      assert choice.links[0] in choice.links;
      SweepIsolated(cfg, a.db, m, choice.links[0], None);
      SweepFrame(cfg, a.db, m, choice.links[0], None);
      OnlyIntoTransitive(db, a.db, Sweep(cfg, a.db, m, choice.links[0], None), m.group);
    }
  }

  lemma AttachPhotoInto(db: Db, m: Message, choice: Choice)
    requires Coherent(db) && forall l | l in choice.links :: GoodLink(db, m.group, l)
    ensures var db' := AttachPhoto(db, m, choice).db;
            && OnlyInto(db, db', m.group)
            && db'.incidents == db.incidents && db'.followUps == db.followUps
  {
    hide AttachPhoto, Query;
    var existing := Query(RowsOf(db, m.id), m.order.media);
    var stored := StoredFile(db, m, existing);
    AttachPhotoStep(db, m, choice);
    if stored.Some? {
      AttachedInto(SaveFile(db, m, existing), AttachPhoto(db, m, choice).db, m, stored.value, choice);
    }
  }

  // ---- Runs ----

  // A WhatsApp message belongs to one group.
  ghost predicate OwnId(owner: map<string, string>, m: Message) { m.id in owner && owner[m.id] == m.group }

  ghost predicate OwnRows(owner: map<string, string>, db: Db) {
    forall i | i in db.media && db.media[i].messageId.Some? ::
      db.media[i].messageId.value in owner && db.media[i].group == Some(owner[db.media[i].messageId.value])
  }

  // Rows keep their message and group; a new row carries those of `m`.
  ghost predicate RowsKeepOwner(db: Db, db': Db, m: Message) {
    forall i | i in db'.media ::
      if i in db.media then db'.media[i].messageId == db.media[i].messageId && db'.media[i].group == db.media[i].group
      else db'.media[i].messageId == Some(m.id) && db'.media[i].group == Some(m.group)
  }

  lemma AttachKeepsOwner(db: Db, m: Message, choice: Choice)
    requires Coherent(db)
    ensures RowsKeepOwner(db, AttachPhoto(db, m, choice).db, m)
  {
    hide AttachPhoto, Query;
    var existing := Query(RowsOf(db, m.id), m.order.media);
    var stored := StoredFile(db, m, existing);
    var saved := SaveFile(db, m, existing);
    var db' := AttachPhoto(db, m, choice).db;
    AttachPhotoStep(db, m, choice);
    if stored.Some? {
      forall i | i in db'.media
        ensures if i in db.media then db'.media[i].messageId == db.media[i].messageId && db'.media[i].group == db.media[i].group
                else db'.media[i].messageId == Some(m.id) && db'.media[i].group == Some(m.group)
      {
        if Claimed(saved, m, choice, i, db'.media[i]) {
        } else if Added(saved, m, stored.value, choice, i, db'.media[i]) {
        } else {
          assert Untouched(saved, i, db'.media[i]);
        }
      }
    }
  }

  lemma SweepKeepsOwner(cfg: Config, db: Db, m: Message, link: Link, quoted: Option<string>)
    ensures RowsKeepOwner(db, Sweep(cfg, db, m, link, quoted), m)
  {
  }

  lemma KeepsOwnerTransitive(db0: Db, db1: Db, db2: Db, m: Message)
    requires RowsKeepOwner(db0, db1, m) && RowsKeepOwner(db1, db2, m) && db0.media.Keys <= db1.media.Keys
    ensures RowsKeepOwner(db0, db2, m)
  {
  }

  lemma SameMediaKeepsOwner(db: Db, db': Db, m: Message)
    requires db'.media == db.media
    ensures RowsKeepOwner(db, db', m)
  {
  }

  lemma TextKeepsOwner(cfg: Config, db: Db, m: Message, name: string)
    requires Coherent(db)
    ensures RowsKeepOwner(db, TextIngest(cfg, db, m, name).0, m)
  {
    hide FileIssues, IssuesOf, Sweep, PlateTarget, Strongest, Coherent, FiledWell, RowsKeepOwner;
    var issues := IssuesOf(cfg, m);
    var p := FileIssues(cfg, db, m, name, issues, m.failAt, |issues|);
    FiledSameMedia(cfg, db, m, name, issues, m.failAt);
    SameMediaKeepsOwner(db, db, m);
    SameMediaKeepsOwner(db, p.db, m);
    if p.filed != [] {
      SweepKeepsOwner(cfg, p.db, m, Strongest(p.filed).link, m.quoted);
      KeepsOwnerTransitive(db, p.db, Sweep(cfg, p.db, m, Strongest(p.filed).link, m.quoted), m);
    }
    var plate := PlateTarget(cfg, db, m.group, m.text, m.order);
    if plate.Some? {
      SweepKeepsOwner(cfg, db, m, Link(plate.value, None), m.quoted);
    }
  }

  lemma FiledSameMedia(cfg: Config, db: Db, m: Message, name: string, issues: seq<Classifier.Issue>, failAt: Option<nat>)
    requires Coherent(db)
    ensures var p := FileIssues(cfg, db, m, name, issues, failAt, |issues|);
            SameMedia(db, p.db) && Coherent(p.db)
  {
    FileIssuesWell(cfg, db, m, name, issues, failAt, |issues|);
  }

  lemma PhotoKeepsOwner(cfg: Config, db: Db, m: Message, name: string)
    requires Coherent(db)
    ensures RowsKeepOwner(db, PhotoIngest(cfg, db, m, name).0, m)
  {
    hide FileIssues, IssuesOf, Sweep, AttachPhoto, ChooseTargets, Coherent, FiledWell, RowsKeepOwner;
    var issues := if m.text != "" then IssuesOf(cfg, m) else [];
    var p := FileIssues(cfg, db, m, name, issues, None, |issues|);
    FiledSameMedia(cfg, db, m, name, issues, None);
    SameMediaKeepsOwner(db, p.db, m);
    var choice := ChooseTargets(cfg, p.db, m, p.filed);
    CaptionHasTarget(cfg, p.db, m, p.filed);
    AttachKeepsOwner(p.db, m, choice);
    AttachKeepsRows(p.db, m, choice);
    var a := AttachPhoto(p.db, m, choice);
    KeepsOwnerTransitive(db, p.db, a.db, m);
    if choice.how == Some(ByCaption) {
      SweepKeepsOwner(cfg, a.db, m, choice.links[0], None);
      KeepsOwnerTransitive(db, a.db, Sweep(cfg, a.db, m, choice.links[0], None), m);
    }
  }

  lemma AttachKeepsRows(db: Db, m: Message, choice: Choice)
    requires Coherent(db)
    ensures db.media.Keys <= AttachPhoto(db, m, choice).db.media.Keys
  {
    hide AttachPhoto, Query;
    AttachPhotoStep(db, m, choice);
  }

  ghost predicate OwnDelivery(owner: map<string, string>, s: Step) { IsDelivery(s) && OwnId(owner, s.m) }

  ghost predicate GroupsApart(owner: map<string, string>, db: Db) {
    Coherent(db) && Isolated(db) && OneHolder(db) && OwnRows(owner, db)
  }

  lemma StepKeepsApart(cfg: Config, owner: map<string, string>, db: Db, s: Step)
    requires GroupsApart(owner, db) && OwnDelivery(owner, s)
    ensures var db' := Apply(cfg, db, s); GroupsApart(owner, db') && OnlyInto(db, db', s.m.group)
  {
    var m, name := s.m, ResolveReporterName(db, s.m.phone, s.m.notifyName);
    var learned := Learn(db, m.phone, m.notifyName);
    LearnRenames(db, m.phone, m.notifyName);
    RenamedCoherent(db, learned);
    RenamedApart(db, learned, m.group);
    SameMediaOneHolder(db, learned);
    StepCoherent(cfg, db, s);
    TextKeepsOwner(cfg, learned, m, name);
    PhotoKeepsOwner(cfg, learned, m, name);
    var db' := Apply(cfg, db, s);
    NoForeignRow(owner, learned, m);
    hide TextIngest, PhotoIngest, Learn, OnlyInto, Isolated, OneHolder, WaitsElsewhere, ResolveReporterName;
    if s.TextArrives? {
      TextInto(cfg, learned, m, name);
      TextOneHolder(cfg, learned, m, name);
      RenamedInto(db, learned, db', m.group);
    } else {
      PhotoInto(cfg, learned, m, name);
      PhotoOneHolder(cfg, learned, m, name);
      RenamedInto(db, learned, db', m.group);
    }
  }

  lemma NoForeignRow(owner: map<string, string>, db: Db, m: Message)
    requires OwnRows(owner, db) && OwnId(owner, m)
    ensures !WaitsElsewhere(db, m)
  {
  }

  lemma RenamedApart(db: Db, db': Db, group: string)
    requires Renamed(db, db')
    ensures Isolated(db) ==> Isolated(db')
  {
  }

  lemma RenamedInto(db: Db, learned: Db, db': Db, group: string)
    requires Renamed(db, learned) && OnlyInto(learned, db', group)
    ensures OnlyInto(db, db', group)
  {
    assert forall i | i in db'.media :: Untouched(learned, i, db'.media[i]) ==> Untouched(db, i, db'.media[i]);
  }

  // ---- Staff actions ----

  // Staff move a photo, or a follow-up with a photo of it, onto a ticket of another group than the photo's.
  ghost predicate MovesAcross(db: Db, s: Step) {
    match s
    case Assign(id, target) =>
      && id in db.media && target.Some? && target.value in db.incidents
      && !HasPhoto(db, target.value, db.media[id].file, id)
      && db.media[id].group.Some? && db.media[id].group.value != db.incidents[target.value].group
    case RelinkFollowUp(id, incident) =>
      && id in db.followUps && incident in db.incidents
      && exists i :: Under(db, i, id) && db.media[i].group != Some(db.incidents[incident].group)
    case _ => false
  }

  lemma AssignIsolated(db: Db, id: int, target: Option<int>)
    requires Isolated(db)
    ensures Isolated(AssignMedia(db, id, target)) <==> !MovesAcross(db, Assign(id, target))
  {
    hide HasPhoto;
    var db' := AssignMedia(db, id, target);
    if MovesAcross(db, Assign(id, target)) {
      assert db'.media[id].incident == target && db'.media[id].group == db.media[id].group;
    } else {
      forall i | i in db'.media && db'.media[i].incident.Some?
        ensures db'.media[i].group.Some? && InGroup(db', db'.media[i].incident.value, db'.media[i].group.value)
      {
        assert i in db.media;
      }
    }
  }

  lemma RelinkIsolated(db: Db, id: int, target: int)
    requires Isolated(db)
    ensures Isolated(Relink(db, id, target)) <==> !MovesAcross(db, RelinkFollowUp(id, target))
  {
    var db' := Relink(db, id, target);
    if MovesAcross(db, RelinkFollowUp(id, target)) {
      var i :| Under(db, i, id) && db.media[i].group != Some(db.incidents[target].group);
      assert db'.media[i].incident == Some(target) && db'.media[i].group == db.media[i].group;
    } else if id in db.followUps && target in db.incidents {
      forall i | i in db'.media && db'.media[i].incident.Some?
        ensures db'.media[i].group.Some? && InGroup(db', db'.media[i].incident.value, db'.media[i].group.value)
      {
        assert i in db.media && (db.media[i].followUp == Some(id) ==> Under(db, i, id));
      }
    }
  }

  lemma PromoteIsolated(cfg: Config, db: Db, id: int)
    requires Coherent(db) && Isolated(db)
    ensures Isolated(Promote(cfg, db, id))
  {
    hide InIncidents;
    var db' := Promote(cfg, db, id);
    if db' != db {
      forall i | i in db'.media && db'.media[i].incident.Some?
        ensures db'.media[i].group.Some? && InGroup(db', db'.media[i].incident.value, db'.media[i].group.value)
      {
        assert i in db.media && CoherentRow(db, db.media[i]);
      }
    }
  }

  lemma PhotoStepIsolated(cfg: Config, db: Db, s: Step)
    requires Coherent(db) && Isolated(db) && (s.Dismiss? || s.Upload?)
    ensures Isolated(Apply(cfg, db, s))
  {
    SameGroupsIsolated(db, Apply(cfg, db, s));
    hide Coherent, Isolated;
  }

  lemma TicketStepIsolated(cfg: Config, db: Db, s: Step)
    requires Isolated(db) && (s.ReplyTo? || s.ChangeStatus? || s.EditTicket?)
    ensures Isolated(Apply(cfg, db, s))
  {
    hide InFollowUps;
    SameGroupsIsolated(db, Apply(cfg, db, s));
    hide Isolated;
  }

  lemma OtherIsolated(cfg: Config, db: Db, s: Step)
    requires Coherent(db) && Isolated(db)
    requires !IsDelivery(s) && !s.Assign? && !s.PromoteFollowUp? && !s.RelinkFollowUp?
    ensures Isolated(Apply(cfg, db, s))
  {
    hide Learn, SetManualName, Coherent, Isolated, DeleteMedia, UploadMedia, StaffReply, SetStatus, EditFields;
    var after := Apply(cfg, db, s);
    match s
    case WhatsAppName(phone, name) =>
      LearnRenames(db, phone, name);
      RenamedApart(db, after, "");
    case ManualName(phone, name) =>
      ManualNameRenames(db, phone, name);
      RenamedApart(db, after, "");
    case Dismiss(id) => PhotoStepIsolated(cfg, db, s);
    case Upload(incident, file, now) => PhotoStepIsolated(cfg, db, s);
    case _ => TicketStepIsolated(cfg, db, s);
  }

  // Tickets keep their group; a photo is one that was there or a new one in its ticket's group.
  lemma SameGroupsIsolated(db: Db, db': Db)
    requires Isolated(db)
    requires db'.incidents.Keys == db.incidents.Keys
    requires forall i | i in db.incidents :: db'.incidents[i].group == db.incidents[i].group
    requires forall i | i in db'.media ::
               (i in db.media && db'.media[i] == db.media[i])
               || (db'.media[i].incident.Some? && db'.media[i].incident.value in db.incidents
                   && db'.media[i].group == Some(db.incidents[db'.media[i].incident.value].group))
    ensures Isolated(db')
  {
  }

  lemma StaffKeepsOwner(cfg: Config, owner: map<string, string>, db: Db, s: Step)
    requires OwnRows(owner, db) && !IsDelivery(s)
    ensures OwnRows(owner, Apply(cfg, db, s))
  {
    hide InIncidents, InFollowUps, HasPhoto, CleanName;
  }

  lemma StaffIsolated(cfg: Config, db: Db, s: Step)
    requires Coherent(db) && Isolated(db) && !IsDelivery(s)
    ensures Isolated(Apply(cfg, db, s)) <==> !MovesAcross(db, s)
  {
    hide Coherent, Isolated, AssignMedia, Promote, Relink, HasPhoto, Under;
    match s
    case Assign(id, target) => AssignIsolated(db, id, target);
    case PromoteFollowUp(id) => PromoteIsolated(cfg, db, id);
    case RelinkFollowUp(id, target) => RelinkIsolated(db, id, target);
    case _ => OtherIsolated(cfg, db, s);
  }

  // Deliveries under ids of their own group.
  ghost predicate OwnStep(owner: map<string, string>, s: Step) { IsDelivery(s) ==> OwnId(owner, s.m) }

  /** Every step keeps the groups apart, except exactly when staff move a photo onto a ticket of another group, or make
      a photo hold a ticket twice. */
  lemma StepApart(cfg: Config, owner: map<string, string>, db: Db, s: Step)
    requires GroupsApart(owner, db) && OwnStep(owner, s)
    ensures GroupsApart(owner, Apply(cfg, db, s)) <==> !MovesAcross(db, s) && !Doubles(db, s)
  {
    hide Coherent, Isolated, OneHolder, OwnRows, Apply;
    if IsDelivery(s) {
      StepKeepsApart(cfg, owner, db, s);
      NotByStaff(db, s);
    } else {
      hide MovesAcross, Doubles;
      StepCoherent(cfg, db, s);
      StepOneHolder(cfg, db, s);
      StaffIsolated(cfg, db, s);
      StaffKeepsOwner(cfg, owner, db, s);
    }
  }

  lemma NotByStaff(db: Db, s: Step)
    requires IsDelivery(s)
    ensures !MovesAcross(db, s) && !Doubles(db, s)
  {
  }

  // ---- Whole runs ----

  // Delivery `k` of the run stays in its own group.
  ghost predicate StepInto(cfg: Config, db: Db, steps: seq<Step>, k: nat)
    requires k < |steps|
  {
    IsDelivery(steps[k]) ==>
      var before := Run(cfg, db, steps[..k]);
      OnlyInto(before, Apply(cfg, before, steps[k]), steps[k].m.group)
  }

  // Staff mix the groups at step `k` of the run.
  ghost predicate MixesAt(cfg: Config, db: Db, steps: seq<Step>, k: nat)
    requires k < |steps|
  {
    var before := Run(cfg, db, steps[..k]);
    MovesAcross(before, steps[k]) || Doubles(before, steps[k])
  }

  /** Over any run of deliveries and staff actions in which a message id always comes from one group and staff do not
      mix the groups, whatever the language model answers: each delivery creates follow-ups and links photos only on
      tickets of its own group, and no photo of one group ends on another group's ticket. */
  lemma {:induction false} GroupsStayApart(cfg: Config, owner: map<string, string>, db: Db, steps: seq<Step>)
    requires GroupsApart(owner, db) && forall k | 0 <= k < |steps| :: OwnStep(owner, steps[k])
    requires forall k | 0 <= k < |steps| :: !MixesAt(cfg, db, steps, k)
    ensures GroupsApart(owner, Run(cfg, db, steps))
    ensures forall k | 0 <= k < |steps| :: StepInto(cfg, db, steps, k)
  {
    hide GroupsApart, Apply, OnlyInto, StepInto, MixesAt, OwnStep;
    if steps != [] {
      var n := |steps| - 1;
      forall k | 0 <= k < n
        ensures !MixesAt(cfg, db, steps[..n], k)
      {
        MixesPrefix(cfg, db, steps, n, k);
      }
      GroupsStayApart(cfg, owner, db, steps[..n]);
      LastApart(cfg, owner, db, steps);
      forall k | 0 <= k < n
        ensures StepInto(cfg, db, steps, k)
      {
        StepIntoPrefix(cfg, db, steps, n, k);
      }
    }
  }

  lemma MixesPrefix(cfg: Config, db: Db, steps: seq<Step>, n: nat, k: nat)
    requires k < n <= |steps| && !MixesAt(cfg, db, steps, k)
    ensures !MixesAt(cfg, db, steps[..n], k)
  {
    hide MovesAcross, Doubles, Run;
    assert steps[..n][..k] == steps[..k];
  }

  lemma LastApart(cfg: Config, owner: map<string, string>, db: Db, steps: seq<Step>)
    requires steps != [] && OwnStep(owner, steps[|steps| - 1]) && !MixesAt(cfg, db, steps, |steps| - 1)
    requires GroupsApart(owner, Run(cfg, db, steps[..|steps| - 1]))
    ensures GroupsApart(owner, Run(cfg, db, steps)) && StepInto(cfg, db, steps, |steps| - 1)
  {
    hide GroupsApart, Apply, OnlyInto, MovesAcross, Doubles, OwnId;
    var before, s := Run(cfg, db, steps[..|steps| - 1]), steps[|steps| - 1];
    StepApart(cfg, owner, before, s);
    if IsDelivery(s) {
      StepKeepsApart(cfg, owner, before, s);
    }
  }

  lemma StepIntoPrefix(cfg: Config, db: Db, steps: seq<Step>, n: nat, k: nat)
    requires k < n <= |steps| && StepInto(cfg, db, steps[..n], k)
    ensures StepInto(cfg, db, steps, k)
  {
    hide OnlyInto, Apply, Run;
    assert steps[..n][..k] == steps[..k];
  }
}
