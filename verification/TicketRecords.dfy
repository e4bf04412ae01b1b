/** Every issue of a message is recorded exactly once, as a ticket or as a follow-up. */
module TicketRecords {
  import opened Text
  import opened Classifier
  import opened Rows
  import opened TicketModel
  import opened TicketFiling
  import opened TicketInvariants

  ghost predicate SameIssue(m1: Option<string>, i1: nat, m2: Option<string>, i2: nat) {
    m1.Some? && m1 == m2 && i1 == i2
  }

  // No issue of a message has two rows, in one table or across both.
  ghost predicate OneRecord(db: Db) {
    && (forall i, j | i in db.incidents && j in db.incidents && i != j ::
          !SameIssue(db.incidents[i].messageId, db.incidents[i].issueIndex,
                     db.incidents[j].messageId, db.incidents[j].issueIndex))
    && (forall u, v | u in db.followUps && v in db.followUps && u != v ::
          !SameIssue(db.followUps[u].messageId, db.followUps[u].issueIndex,
                     db.followUps[v].messageId, db.followUps[v].issueIndex))
    && (forall i, u | i in db.incidents && u in db.followUps ::
          !SameIssue(db.incidents[i].messageId, db.incidents[i].issueIndex,
                     db.followUps[u].messageId, db.followUps[u].issueIndex))
  }

  // Every row of `db` is still there, for the same issue of the same message.
  ghost predicate KeepsRecords(db: Db, db': Db) {
    && (forall i | i in db.incidents ::
          && i in db'.incidents && db'.incidents[i].messageId == db.incidents[i].messageId
          && db'.incidents[i].issueIndex == db.incidents[i].issueIndex)
    && (forall u | u in db.followUps ::
          && u in db'.followUps && db'.followUps[u].messageId == db.followUps[u].messageId
          && db'.followUps[u].issueIndex == db.followUps[u].issueIndex)
  }

  lemma StaysRecorded(db: Db, db': Db, mid: string, i: nat)
    requires KeepsRecords(db, db') && Recorded(db, mid, i)
    ensures Recorded(db', mid, i)
  {
    if InIncidents(db, mid, i) {
      var t :| t in db.incidents && db.incidents[t].messageId == Some(mid) && db.incidents[t].issueIndex == i;
      assert db'.incidents[t].messageId == Some(mid);
    } else {
      var u :| u in db.followUps && db.followUps[u].messageId == Some(mid) && db.followUps[u].issueIndex == i;
      assert db'.followUps[u].messageId == Some(mid);
    }
  }

  lemma KeepsTransitive(db0: Db, db1: Db, db2: Db)
    requires KeepsRecords(db0, db1) && KeepsRecords(db1, db2)
    ensures KeepsRecords(db0, db2)
  {
  }

  // ---- One message ----

  lemma AddFollowUpRecords(db: Db, m: Message, name: string, ticket: int, issue: Issue, i: nat)
    requires OneRecord(db) && Coherent(db) && !Recorded(db, m.id, i)
    ensures var db' := AddFollowUp(db, m, name, ticket, issue, i);
            OneRecord(db') && KeepsRecords(db, db') && Recorded(db', m.id, i)
  {
    var db' := AddFollowUp(db, m, name, ticket, issue, i);
    assert db'.followUps[db.nextFollowUp].messageId == Some(m.id);
  }

  lemma AddIncidentRecords(cfg: Config, db: Db, m: Message, name: string, issue: Issue, plate: Option<string>, i: nat)
    requires OneRecord(db) && Coherent(db) && !Recorded(db, m.id, i)
    ensures var db' := AddIncident(cfg, db, m, name, issue, plate, i);
            OneRecord(db') && KeepsRecords(db, db') && Recorded(db', m.id, i)
  {
    var db' := AddIncident(cfg, db, m, name, issue, plate, i);
    assert db'.incidents[db.nextIncident].messageId == Some(m.id);
  }

  lemma FileNextRecords(cfg: Config, m: Message, name: string, issues: seq<Issue>, failAt: Option<nat>, i: nat, p: Progress)
    requires i < |issues| && OneRecord(p.db) && Coherent(p.db)
    ensures var q := FileNext(cfg, m, name, issues, failAt, i, p);
            && OneRecord(q.db) && KeepsRecords(p.db, q.db)
            && (!q.failed && Survives(cfg, issues[i]) ==> Recorded(q.db, m.id, i))
            && (p.failed ==> q.failed)
  {
    hide OneRecord, Coherent, Recorded, AddFollowUp, AddIncident;
    var routing := RouteIssue(cfg, issues[i], m.text, p.open, AnswerFor(m, i));
    if !p.failed && Survives(cfg, issues[i]) && !Recorded(p.db, m.id, i) && failAt != Some(i) {
      if routing.ticket.Some? {
        AddFollowUpRecords(p.db, m, name, routing.ticket.value, issues[i], i);
      } else {
        AddIncidentRecords(cfg, p.db, m, name, issues[i], routing.plate, i);
      }
    }
  }

  // A run over the first `n` issues records each survivor among them once, unless it fails.
  lemma {:induction false} FileIssuesRecords(cfg: Config, db: Db, m: Message, name: string, issues: seq<Issue>,
                                             failAt: Option<nat>, n: nat)
    requires n <= |issues| && OneRecord(db) && Coherent(db)
    ensures var p := FileIssues(cfg, db, m, name, issues, failAt, n);
            && OneRecord(p.db) && KeepsRecords(db, p.db)
            && (!p.failed ==> forall i | 0 <= i < n && Survives(cfg, issues[i]) :: Recorded(p.db, m.id, i))
  {
    hide OneRecord, Coherent, Recorded, FileNext, KeepsRecords, FiledWell;
    if n == 0 {
      KeepsItself(db);
    } else {
      FileIssuesRecords(cfg, db, m, name, issues, failAt, n - 1);
      FileIssuesWell(cfg, db, m, name, issues, failAt, n - 1);
      var p := FileIssues(cfg, db, m, name, issues, failAt, n - 1);
      FiledCoherent(db, m, name, p);
      FileNextRecords(cfg, m, name, issues, failAt, n - 1, p);
      var q := FileNext(cfg, m, name, issues, failAt, n - 1, p);
      KeepsTransitive(db, p.db, q.db);
      if !q.failed {
        forall i | 0 <= i < n - 1 && Survives(cfg, issues[i])
          ensures Recorded(q.db, m.id, i)
        {
          StaysRecorded(p.db, q.db, m.id, i);
        }
      }
    }
  }

  lemma KeepsItself(db: Db)
    ensures KeepsRecords(db, db)
  {
  }

  lemma FiledCoherent(db: Db, m: Message, name: string, p: Progress)
    requires FiledWell(db, m, name, p)
    ensures Coherent(p.db)
  {
  }

  // Every surviving issue of the message has a record.
  ghost predicate AllRecorded(cfg: Config, db: Db, mid: string, issues: seq<Issue>) {
    forall i | 0 <= i < |issues| && Survives(cfg, issues[i]) :: Recorded(db, mid, i)
  }

  // What was recorded is recorded still.
  ghost predicate RecordsStay(db: Db, db': Db) {
    forall mid, i | Recorded(db, mid, i) :: Recorded(db', mid, i)
  }

  lemma KeptRecordsStay(db: Db, db': Db)
    requires KeepsRecords(db, db')
    ensures RecordsStay(db, db')
  {
    hide Recorded;
    forall mid, i | Recorded(db, mid, i)
      ensures Recorded(db', mid, i)
    {
      StaysRecorded(db, db', mid, i);
    }
  }

  // When all survivors are recorded, a run changes nothing and skips each of them.
  lemma {:induction false} RecordedIsSkipped(cfg: Config, db: Db, m: Message, name: string, issues: seq<Issue>,
                                             failAt: Option<nat>, n: nat)
    requires n <= |issues| && AllRecorded(cfg, db, m.id, issues)
    ensures var p := FileIssues(cfg, db, m, name, issues, failAt, n);
            && p == Start(cfg, db, m).(skipped := p.skipped)
            && (p.skipped > 0 <==> exists i | 0 <= i < n :: Survives(cfg, issues[i]))
  {
    hide Recorded;
    if n > 0 {
      RecordedIsSkipped(cfg, db, m, name, issues, failAt, n - 1);
    }
  }

  // Recording issue `i` records no other issue.
  lemma OnlyThisRecorded(cfg: Config, m: Message, name: string, issues: seq<Issue>, failAt: Option<nat>, i: nat, p: Progress,
                         j: nat)
    requires i < |issues| && j != i && Recorded(FileNext(cfg, m, name, issues, failAt, i, p).db, m.id, j)
    ensures Recorded(p.db, m.id, j)
  {
    hide RouteIssue;
    var db := FileNext(cfg, m, name, issues, failAt, i, p).db;
    if InIncidents(db, m.id, j) {
      var t :| t in db.incidents && db.incidents[t].messageId == Some(m.id) && db.incidents[t].issueIndex == j;
      assert t in p.db.incidents && p.db.incidents[t] == db.incidents[t];
    } else {
      var u :| u in db.followUps && db.followUps[u].messageId == Some(m.id) && db.followUps[u].issueIndex == j;
      assert u in p.db.followUps && p.db.followUps[u] == db.followUps[u];
    }
  }

  // The issues ahead of a run are recorded only if they were before it.
  lemma {:induction false} AheadUnchanged(cfg: Config, db: Db, m: Message, name: string, issues: seq<Issue>,
                                          failAt: Option<nat>, n: nat, j: nat)
    requires n <= j < |issues| && Recorded(FileIssues(cfg, db, m, name, issues, failAt, n).db, m.id, j)
    ensures Recorded(db, m.id, j)
  {
    hide Recorded, FileNext;
    if n > 0 {
      OnlyThisRecorded(cfg, m, name, issues, failAt, n - 1, FileIssues(cfg, db, m, name, issues, failAt, n - 1), j);
      AheadUnchanged(cfg, db, m, name, issues, failAt, n - 1, j);
    }
  }

  lemma {:induction false} FiledCounted(cfg: Config, db: Db, m: Message, name: string, issues: seq<Issue>,
                                        failAt: Option<nat>, n: nat)
    requires n <= |issues|
    ensures var p := FileIssues(cfg, db, m, name, issues, failAt, n); |p.filed| == p.created + p.updated
  {
    hide Recorded, FileIssue;
    if n > 0 {
      FiledCounted(cfg, db, m, name, issues, failAt, n - 1);
    }
  }

  // A run that no commit stops files each survivor that has no record yet.
  lemma {:induction false} NewIsFiled(cfg: Config, db: Db, m: Message, name: string, issues: seq<Issue>, k: nat, n: nat)
    requires k < n <= |issues| && Survives(cfg, issues[k]) && !Recorded(db, m.id, k)
    ensures FileIssues(cfg, db, m, name, issues, None, n).filed != []
  {
    hide Recorded, FileIssue;
    NeverFails(cfg, db, m, name, issues, n - 1);
    if n == k + 1 {
      if Recorded(FileIssues(cfg, db, m, name, issues, None, k).db, m.id, k) {
        AheadUnchanged(cfg, db, m, name, issues, None, k, k);
      }
    } else {
      NewIsFiled(cfg, db, m, name, issues, k, n - 1);
    }
  }

  ghost function IngestedIssues(cfg: Config, s: Step): seq<Issue>
    requires IsDelivery(s)
  {
    if s.PhotoArrives? && s.m.text == "" then [] else IssuesOf(cfg, s.m)
  }

  // What a delivery does after the sender's name was learned.
  ghost function Deliver(cfg: Config, db: Db, s: Step, name: string): (Db, Reply)
    requires IsDelivery(s)
  {
    if s.TextArrives? then TextIngest(cfg, db, s.m, name) else PhotoIngest(cfg, db, s.m, name)
  }

  ghost function LearnedDb(db: Db, s: Step): Db
    requires IsDelivery(s)
  {
    Learn(db, s.m.phone, s.m.notifyName)
  }

  ghost function DeliveryReply(cfg: Config, db: Db, s: Step): Reply
    requires IsDelivery(s)
  {
    Deliver(cfg, LearnedDb(db, s), s, ResolveReporterName(db, s.m.phone, s.m.notifyName)).1
  }

  lemma SweepRecords(cfg: Config, db: Db, m: Message, link: Link, quoted: Option<string>)
    ensures var db' := Sweep(cfg, db, m, link, quoted);
            db'.incidents == db.incidents && db'.followUps == db.followUps
  {
  }

  lemma AttachRecords(db: Db, m: Message, choice: Choice)
    requires Coherent(db)
    ensures var db' := AttachPhoto(db, m, choice).db;
            db'.incidents == db.incidents && db'.followUps == db.followUps
  {
    hide AttachPhoto, Query;
    AttachPhotoStep(db, m, choice);
  }

  // A delivery's rows are those that its run over the issues leaves.
  lemma DeliverTables(cfg: Config, db: Db, s: Step, name: string)
    requires IsDelivery(s) && Coherent(db)
    ensures var issues := IngestedIssues(cfg, s);
            var failAt := if s.TextArrives? then s.m.failAt else None;
            var p := FileIssues(cfg, db, s.m, name, issues, failAt, |issues|);
            var (db', reply) := Deliver(cfg, db, s, name);
            && (AnySurvivor(cfg, issues) || s.PhotoArrives? ==>
                  db'.incidents == p.db.incidents && db'.followUps == p.db.followUps)
            && (!AnySurvivor(cfg, issues) && s.TextArrives? ==>
                  db'.incidents == db.incidents && db'.followUps == db.followUps)
            && (AnySurvivor(cfg, issues) && s.TextArrives? ==> (p.failed <==> reply == Failed))
  {
    hide FileIssues, IssuesOf, Sweep, AttachPhoto, ChooseTargets, Coherent, FiledWell, PlateTarget, Strongest;
    var m := s.m;
    var issues := IngestedIssues(cfg, s);
    if s.TextArrives? {
      var p := FileIssues(cfg, db, m, name, issues, m.failAt, |issues|);
      if p.filed != [] {
        SweepRecords(cfg, p.db, m, Strongest(p.filed).link, m.quoted);
      }
      var plate := PlateTarget(cfg, db, m.group, m.text, m.order);
      if plate.Some? {
        SweepRecords(cfg, db, m, Link(plate.value, None), m.quoted);
      }
    } else {
      var p := FileIssues(cfg, db, m, name, issues, None, |issues|);
      FileIssuesWell(cfg, db, m, name, issues, None, |issues|);
      FiledCoherent(db, m, name, p);
      var choice := ChooseTargets(cfg, p.db, m, p.filed);
      CaptionHasTarget(cfg, p.db, m, p.filed);
      AttachRecords(p.db, m, choice);
      if choice.how == Some(ByCaption) {
        SweepRecords(cfg, AttachPhoto(p.db, m, choice).db, m, choice.links[0], None);
      }
    }
  }

  lemma SameTables(db: Db, db': Db)
    requires db'.incidents == db.incidents && db'.followUps == db.followUps
    ensures OneRecord(db) <==> OneRecord(db')
    ensures KeepsRecords(db, db')
    ensures forall mid, i :: Recorded(db, mid, i) <==> Recorded(db', mid, i)
  {
  }

  lemma RenamedRecords(db: Db, db': Db)
    requires Renamed(db, db')
    ensures OneRecord(db) <==> OneRecord(db')
    ensures KeepsRecords(db, db') && KeepsRecords(db', db)
  {
  }

  lemma DeliverRecords(cfg: Config, db: Db, s: Step, name: string)
    requires IsDelivery(s) && Coherent(db) && OneRecord(db)
    ensures var (db', reply) := Deliver(cfg, db, s, name);
            && OneRecord(db') && KeepsRecords(db, db')
            && (reply != Failed ==> AllRecorded(cfg, db', s.m.id, IngestedIssues(cfg, s)))
  {
    var issues := IngestedIssues(cfg, s);
    var failAt := if s.TextArrives? then s.m.failAt else None;
    var p := FileIssues(cfg, db, s.m, name, issues, failAt, |issues|);
    hide OneRecord, KeepsRecords, Coherent, Recorded, FileIssues, Deliver;
    DeliverTables(cfg, db, s, name);
    FileIssuesRecords(cfg, db, s.m, name, issues, failAt, |issues|);
    var db' := Deliver(cfg, db, s, name).0;
    KeepsItself(db);
    if AnySurvivor(cfg, issues) || s.PhotoArrives? {
      SameTables(p.db, db');
      KeepsTransitive(db, p.db, db');
      if s.PhotoArrives? {
        NeverFails(cfg, db, s.m, name, issues, |issues|);
      }
    } else {
      SameTables(db, db');
    }
  }

  lemma {:induction false} NeverFails(cfg: Config, db: Db, m: Message, name: string, issues: seq<Issue>, n: nat)
    requires n <= |issues|
    ensures !FileIssues(cfg, db, m, name, issues, None, n).failed
  {
    if n > 0 {
      NeverFails(cfg, db, m, name, issues, n - 1);
    }
  }

  lemma StepRecords(cfg: Config, db: Db, s: Step)
    requires IsDelivery(s) && Coherent(db) && OneRecord(db)
    ensures var db' := Apply(cfg, db, s);
            && OneRecord(db') && KeepsRecords(db, db')
            && (DeliveryReply(cfg, db, s) != Failed ==> AllRecorded(cfg, db', s.m.id, IngestedIssues(cfg, s)))
  {
    var learned := LearnedDb(db, s);
    LearnRenames(db, s.m.phone, s.m.notifyName);
    RenamedCoherent(db, learned);
    RenamedRecords(db, learned);
    hide OneRecord, KeepsRecords, Coherent, TextIngest, PhotoIngest, Learn, ResolveReporterName, AllRecorded;
    var name := ResolveReporterName(db, s.m.phone, s.m.notifyName);
    DeliverRecords(cfg, learned, s, name);
    KeepsTransitive(db, learned, Deliver(cfg, learned, s, name).0);
  }

  // ---- Staff actions ----

  // Staff make a ticket of a follow-up that records another issue than the first of its message.
  ghost predicate ForgetsIssue(db: Db, s: Step) {
    && s.PromoteFollowUp? && s.followUp in db.followUps
    && var u := db.followUps[s.followUp];
       u.messageId.Some? && u.issueIndex != 0 && !InIncidents(db, u.messageId.value, 0)
  }

  // That promotion while another follow-up records the first issue, or a reply under the id of a ticket's message.
  ghost predicate RecordsTwice(db: Db, s: Step) {
    || (ForgetsIssue(db, s) && InFollowUps(db, db.followUps[s.followUp].messageId.value, 0))
    || (s.ReplyTo? && s.incident in db.incidents && s.mid.Some?
        && InIncidents(db, s.mid.value, 0) && !InFollowUps(db, s.mid.value, 0))
  }

  lemma ReplyRecords(db: Db, incident: int, mid: Option<string>, actor: string, text: string, now: int)
    requires Coherent(db) && OneRecord(db)
    ensures var db' := StaffReply(db, incident, mid, actor, text, now);
            && KeepsRecords(db, db')
            && (OneRecord(db') <==> !(incident in db.incidents && mid.Some? && InIncidents(db, mid.value, 0)
                                      && !InFollowUps(db, mid.value, 0)))
  {
    var db' := StaffReply(db, incident, mid, actor, text, now);
    if incident in db.incidents && mid.Some? && InIncidents(db, mid.value, 0) && !InFollowUps(db, mid.value, 0) {
      var i :| i in db.incidents && db.incidents[i].messageId == mid && db.incidents[i].issueIndex == 0;
      assert SameIssue(db'.incidents[i].messageId, 0, db'.followUps[db.nextFollowUp].messageId, 0);
    }
  }

  // A promoted follow-up's record is now that of its message's first issue.
  lemma PromotedTables(cfg: Config, db: Db, id: int)
    requires Promote(cfg, db, id) != db
    ensures id in db.followUps
    ensures var db', u := Promote(cfg, db, id), db.followUps[id];
            && db'.followUps == db.followUps - {id}
            && db'.incidents == db.incidents[db.nextIncident := db'.incidents[db.nextIncident]]
            && db'.incidents[db.nextIncident].messageId == u.messageId && db'.incidents[db.nextIncident].issueIndex == 0
            && !(u.messageId.Some? && InIncidents(db, u.messageId.value, 0))
  {
    hide RefileMedia, InIncidents;
  }

  lemma RefusedPromotion(cfg: Config, db: Db, id: int)
    requires Promote(cfg, db, id) == db
    ensures !ForgetsIssue(db, PromoteFollowUp(id))
  {
    hide RefileMedia, InIncidents;
    if id in db.followUps {
      assert id !in (db.followUps - {id});
    }
  }

  lemma PromoteOneRecord(cfg: Config, db: Db, id: int)
    requires Coherent(db) && OneRecord(db)
    ensures OneRecord(Promote(cfg, db, id)) <==> !RecordsTwice(db, PromoteFollowUp(id))
  {
    var db' := Promote(cfg, db, id);
    hide Promote;
    if db' == db {
      RefusedPromotion(cfg, db, id);
    } else {
      PromotedTables(cfg, db, id);
      var u := db.followUps[id];
      assert db.nextIncident !in db.incidents;
      if RecordsTwice(db, PromoteFollowUp(id)) {
        var v :| v in db.followUps && db.followUps[v].messageId == u.messageId && db.followUps[v].issueIndex == 0;
        assert v in db'.followUps && SameIssue(db'.incidents[db.nextIncident].messageId, 0, db'.followUps[v].messageId, 0);
      } else if u.messageId.Some? {
        forall v | v in db'.followUps
          ensures !SameIssue(u.messageId, 0, db'.followUps[v].messageId, db'.followUps[v].issueIndex)
        {
          assert v in db.followUps && v != id;
        }
      }
    }
  }

  lemma PromoteRecordsStay(cfg: Config, db: Db, id: int)
    requires Coherent(db) && OneRecord(db)
    ensures RecordsStay(db, Promote(cfg, db, id)) <==> !ForgetsIssue(db, PromoteFollowUp(id))
  {
    var db' := Promote(cfg, db, id);
    hide Promote;
    if db' == db {
      RefusedPromotion(cfg, db, id);
    } else {
      PromotedTables(cfg, db, id);
      var u := db.followUps[id];
      assert db.nextIncident !in db.incidents;
      if ForgetsIssue(db, PromoteFollowUp(id)) {
        assert Recorded(db, u.messageId.value, u.issueIndex);
        assert !Recorded(db', u.messageId.value, u.issueIndex);
      } else {
        forall mid, i | Recorded(db, mid, i)
          ensures Recorded(db', mid, i)
        {
          StillThere(db, db', id, mid, i);
        }
      }
    }
  }

  lemma StillThere(db: Db, db': Db, id: int, mid: string, i: nat)
    requires id in db.followUps && db'.followUps == db.followUps - {id} && Recorded(db, mid, i)
    requires db.nextIncident !in db.incidents && db.nextIncident in db'.incidents
    requires db'.incidents == db.incidents[db.nextIncident := db'.incidents[db.nextIncident]]
    requires db'.incidents[db.nextIncident].messageId == db.followUps[id].messageId
    requires db'.incidents[db.nextIncident].issueIndex == 0
    requires db.followUps[id].messageId.Some? ==> db.followUps[id].issueIndex == 0
    ensures Recorded(db', mid, i)
  {
    if InIncidents(db, mid, i) {
      var t :| t in db.incidents && db.incidents[t].messageId == Some(mid) && db.incidents[t].issueIndex == i;
      assert t in db'.incidents && db'.incidents[t] == db.incidents[t];
    } else {
      var u :| u in db.followUps && db.followUps[u].messageId == Some(mid) && db.followUps[u].issueIndex == i;
      assert u != id ==> u in db'.followUps;
    }
  }

  // The rows of tickets and follow-ups keep their message and issue.
  ghost predicate SameRecords(db: Db, db': Db) {
    && KeepsRecords(db, db') && db'.incidents.Keys == db.incidents.Keys && db'.followUps.Keys == db.followUps.Keys
  }

  lemma PhotoStepRecords(cfg: Config, db: Db, s: Step)
    requires s.Assign? || s.Dismiss? || s.Upload?
    ensures SameRecords(db, Apply(cfg, db, s))
  {
    hide HasPhoto;
  }

  lemma TicketStepRecords(cfg: Config, db: Db, s: Step)
    requires s.RelinkFollowUp? || s.ChangeStatus? || s.EditTicket?
    ensures SameRecords(db, Apply(cfg, db, s))
  {
    hide RefileMedia;
  }

  lemma RenamingRecords(cfg: Config, db: Db, s: Step)
    requires s.WhatsAppName? || s.ManualName?
    ensures SameRecords(db, Apply(cfg, db, s))
  {
    hide Learn, SetManualName;
    if s.WhatsAppName? {
      LearnRenames(db, s.phone, s.name);
    } else {
      ManualNameRenames(db, s.who, s.name);
    }
  }

  // Steps that neither file messages nor reply nor promote.
  lemma OtherRecords(cfg: Config, db: Db, s: Step)
    requires OneRecord(db) && !IsDelivery(s) && !s.ReplyTo? && !s.PromoteFollowUp?
    ensures OneRecord(Apply(cfg, db, s)) && KeepsRecords(db, Apply(cfg, db, s))
  {
    hide Apply, OneRecord, KeepsRecords;
    if s.Assign? || s.Dismiss? || s.Upload? {
      PhotoStepRecords(cfg, db, s);
    } else if s.WhatsAppName? || s.ManualName? {
      RenamingRecords(cfg, db, s);
    } else {
      TicketStepRecords(cfg, db, s);
    }
    SameNumbers(db, Apply(cfg, db, s));
  }

  lemma SameNumbers(db: Db, db': Db)
    requires OneRecord(db) && SameRecords(db, db')
    ensures OneRecord(db')
  {
  }

  /** Every step keeps each issue recorded at most once, and every record, except exactly: promoting a follow-up of
      another issue than the first of its message forgets that issue, and makes a second record of the first if there
      is one; and a reply under the id of a ticket's own message is a second record of it. */
  lemma StepRecordsExactly(cfg: Config, db: Db, s: Step)
    requires Coherent(db) && OneRecord(db)
    ensures OneRecord(Apply(cfg, db, s)) <==> !RecordsTwice(db, s)
    ensures RecordsStay(db, Apply(cfg, db, s)) <==> !ForgetsIssue(db, s)
  {
    hide Coherent, OneRecord, KeepsRecords, RecordsStay, InIncidents, InFollowUps, StaffReply, Promote;
    if IsDelivery(s) {
      StepRecords(cfg, db, s);
      KeptRecordsStay(db, Apply(cfg, db, s));
    } else if s.ReplyTo? {
      ReplyRecords(db, s.incident, s.mid, s.actor, s.body, s.now);
      KeptRecordsStay(db, Apply(cfg, db, s));
    } else if s.PromoteFollowUp? {
      PromoteOneRecord(cfg, db, s.followUp);
      PromoteRecordsStay(cfg, db, s.followUp);
    } else {
      OtherRecords(cfg, db, s);
      KeptRecordsStay(db, Apply(cfg, db, s));
    }
  }

  // ---- Runs ----

  // If delivery `k` of the run did not fail, every surviving issue of it is recorded in `now`.
  ghost predicate RecordedBy(cfg: Config, db: Db, steps: seq<Step>, k: nat, now: Db)
    requires k < |steps| && IsDelivery(steps[k])
  {
    DeliveryReply(cfg, Run(cfg, db, steps[..k]), steps[k]) != Failed ==>
      AllRecorded(cfg, now, steps[k].m.id, IngestedIssues(cfg, steps[k]))
  }

  lemma StillRecorded(cfg: Config, db: Db, steps: seq<Step>, k: nat, n: nat, mid: Db, after: Db)
    requires k < n <= |steps| && IsDelivery(steps[k]) && RecordedBy(cfg, db, steps[..n], k, mid) && RecordsStay(mid, after)
    ensures RecordedBy(cfg, db, steps, k, after)
  {
    hide DeliveryReply, IngestedIssues, Recorded, Run;
    assert steps[..n][..k] == steps[..k];
  }

  // Step `k` of the run forgets an issue or records one twice.
  ghost predicate MisrecordsAt(cfg: Config, db: Db, steps: seq<Step>, k: nat)
    requires k < |steps|
  {
    var before := Run(cfg, db, steps[..k]);
    ForgetsIssue(before, steps[k]) || RecordsTwice(before, steps[k])
  }

  /** Over any run of deliveries and staff actions without those two cases no issue is recorded twice, and once a
      delivery has gone through without a failed commit, every surviving issue of it is recorded for good. Deliveries
      that stop half way leave a prefix of their issues, which a later delivery completes. */
  lemma {:induction false} RecordedExactlyOnce(cfg: Config, db: Db, steps: seq<Step>)
    requires Coherent(db) && OneRecord(db) && forall k | 0 <= k < |steps| :: !MisrecordsAt(cfg, db, steps, k)
    ensures OneRecord(Run(cfg, db, steps)) && Coherent(Run(cfg, db, steps))
    ensures forall k | 0 <= k < |steps| && IsDelivery(steps[k]) :: RecordedBy(cfg, db, steps, k, Run(cfg, db, steps))
  {
    hide OneRecord, Coherent, Apply, RecordedBy, RecordsStay, MisrecordsAt, IsDelivery;
    LinksStayCoherent(cfg, db, steps);
    if steps != [] {
      var n := |steps| - 1;
      var before := steps[..n];
      forall k | 0 <= k < n
        ensures !MisrecordsAt(cfg, db, before, k)
      {
        MisrecordsPrefix(cfg, db, steps, n, k);
      }
      RecordedExactlyOnce(cfg, db, before);
      LinksStayCoherent(cfg, db, before);
      var mid := Run(cfg, db, before);
      NextRecords(cfg, db, steps);
      forall k | 0 <= k < |steps| && IsDelivery(steps[k])
        ensures RecordedBy(cfg, db, steps, k, Run(cfg, db, steps))
      {
        if k < n {
          StillRecorded(cfg, db, steps, k, n, mid, Run(cfg, db, steps));
        } else {
          LastRecorded(cfg, db, steps);
        }
      }
    }
  }

  lemma MisrecordsPrefix(cfg: Config, db: Db, steps: seq<Step>, n: nat, k: nat)
    requires k < n <= |steps| && !MisrecordsAt(cfg, db, steps, k)
    ensures !MisrecordsAt(cfg, db, steps[..n], k)
  {
    hide ForgetsIssue, RecordsTwice, Run;
    assert steps[..n][..k] == steps[..k];
  }

  lemma NextRecords(cfg: Config, db: Db, steps: seq<Step>)
    requires steps != [] && !MisrecordsAt(cfg, db, steps, |steps| - 1)
    requires var mid := Run(cfg, db, steps[..|steps| - 1]); Coherent(mid) && OneRecord(mid)
    ensures OneRecord(Run(cfg, db, steps)) && RecordsStay(Run(cfg, db, steps[..|steps| - 1]), Run(cfg, db, steps))
  {
    hide OneRecord, Coherent, Apply, RecordsStay, ForgetsIssue, RecordsTwice;
    StepRecordsExactly(cfg, Run(cfg, db, steps[..|steps| - 1]), steps[|steps| - 1]);
  }

  lemma LastRecorded(cfg: Config, db: Db, steps: seq<Step>)
    requires steps != []
    requires var n := |steps| - 1; var mid := Run(cfg, db, steps[..n]);
             IsDelivery(steps[n]) && Coherent(mid) && OneRecord(mid)
    ensures RecordedBy(cfg, db, steps, |steps| - 1, Run(cfg, db, steps))
  {
    hide OneRecord, Coherent, Apply, DeliveryReply, AllRecorded, IngestedIssues, KeepsRecords;
    StepRecords(cfg, Run(cfg, db, steps[..|steps| - 1]), steps[|steps| - 1]);
  }

  /** A message delivered again with the same classification, when all its surviving issues are
      recorded, adds no ticket and no follow-up; if it has survivors, it changes nothing at all. */
  lemma RedeliveryAddsNothing(cfg: Config, db: Db, s: Step, name: string)
    requires IsDelivery(s) && Coherent(db) && AllRecorded(cfg, db, s.m.id, IngestedIssues(cfg, s))
    ensures var (db', reply) := Deliver(cfg, db, s, name);
            && db'.incidents == db.incidents && db'.followUps == db.followUps
            && (AnySurvivor(cfg, IngestedIssues(cfg, s)) ==> db' == db && reply == Duplicate)
  {
    var issues := IngestedIssues(cfg, s);
    DeliverTables(cfg, db, s, name);
    RecordedIsSkipped(cfg, db, s.m, name, issues, s.m.failAt, |issues|);
    RecordedIsSkipped(cfg, db, s.m, name, issues, None, |issues|);
    hide FileIssues, IssuesOf, Sweep, AttachPhoto, ChooseTargets, Coherent, PlateTarget, Strongest, AllRecorded;
  }

  /** When the commit of issue `k` fails, the issues before it are recorded and the run stops. */
  lemma {:induction false} FailedRunLeavesPrefix(cfg: Config, db: Db, m: Message, name: string, issues: seq<Issue>,
                                                 k: nat, n: nat)
    requires k < n <= |issues| && OneRecord(db) && Coherent(db)
    requires Survives(cfg, issues[k]) && !Recorded(FileIssues(cfg, db, m, name, issues, Some(k), k).db, m.id, k)
    ensures var p := FileIssues(cfg, db, m, name, issues, Some(k), n);
            && p.failed && p.db == FileIssues(cfg, db, m, name, issues, Some(k), k).db
            && (forall i | 0 <= i < k && Survives(cfg, issues[i]) :: Recorded(p.db, m.id, i))
  {
    hide OneRecord, Coherent, Recorded, KeepsRecords;
    if n == k + 1 {
      FailsOnlyThere(cfg, db, m, name, issues, k, k);
      FileIssuesRecords(cfg, db, m, name, issues, Some(k), k);
    } else {
      FailedRunLeavesPrefix(cfg, db, m, name, issues, k, n - 1);
    }
  }

  lemma {:induction false} FailsOnlyThere(cfg: Config, db: Db, m: Message, name: string, issues: seq<Issue>, k: nat, n: nat)
    requires n <= k && n <= |issues|
    ensures !FileIssues(cfg, db, m, name, issues, Some(k), n).failed
  {
    if n > 0 {
      FailsOnlyThere(cfg, db, m, name, issues, k, n - 1);
    }
  }
}
