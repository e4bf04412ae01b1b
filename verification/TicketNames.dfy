/** Display names: an administrator's name for a phone wins over WhatsApp's. */
module TicketNames {
  import opened Text
  import opened Classifier
  import opened Rows
  import opened TicketModel
  import opened TicketFiling
  import opened TicketInvariants
  import opened TicketRecords

  ghost predicate ManualNameOf(db: Db, phone: Option<string>, name: Option<string>) {
    (phone.Some? && phone.value in db.contacts && db.contacts[phone.value].manual)
      ==> name == Some(db.contacts[phone.value].name)
  }

  // Every row of a phone with a manual contact carries the contact's name.
  ghost predicate ManualNamesHold(db: Db) {
    && (forall i | i in db.incidents :: ManualNameOf(db, db.incidents[i].phone, db.incidents[i].name))
    && (forall u | u in db.followUps :: ManualNameOf(db, db.followUps[u].phone, db.followUps[u].name))
  }

  // The rows that had a name still have it.
  ghost predicate NamesKept(db: Db, db': Db) {
    && (forall i | i in db.incidents && !Nameless(db.incidents[i].name) ::
          i in db'.incidents && db'.incidents[i].name == db.incidents[i].name)
    && (forall u | u in db.followUps && !Nameless(db.followUps[u].name) ::
          u in db'.followUps && db'.followUps[u].name == db.followUps[u].name)
  }

  lemma LearnKeepsNames(db: Db, phone: Option<string>, given: Option<string>)
    requires ManualNamesHold(db)
    ensures var db' := Learn(db, phone, given);
            && ManualNamesHold(db') && NamesKept(db, db')
            && ((phone.Some? && phone.value in db'.contacts && db'.contacts[phone.value].manual)
                  ==> phone.value in db.contacts && db.contacts[phone.value] == db'.contacts[phone.value])
  {
  }

  lemma ManualNameHolds(db: Db, phone: string, given: Option<string>)
    requires ManualNamesHold(db)
    ensures ManualNamesHold(SetManualName(db, phone, given))
  {
  }

  lemma GrownNames(db: Db, db': Db, m: Message, name: string)
    requires Grows(db, db', m, name) && ManualNamesHold(db) && ManualNameOf(db, m.phone, Some(name))
    ensures ManualNamesHold(db') && NamesKept(db, db')
  {
  }

  lemma SameTablesNames(db: Db, db1: Db, db2: Db)
    requires db2.incidents == db1.incidents && db2.followUps == db1.followUps && db2.contacts == db1.contacts
    ensures ManualNamesHold(db1) ==> ManualNamesHold(db2)
    ensures NamesKept(db, db1) ==> NamesKept(db, db2)
  {
  }

  lemma DeliverKeepsContacts(cfg: Config, db: Db, s: Step, name: string)
    requires IsDelivery(s) && Coherent(db)
    ensures Deliver(cfg, db, s, name).0.contacts == db.contacts
  {
    hide FileIssues, IssuesOf, AttachPhoto, ChooseTargets, Coherent, FiledWell, PlateTarget, Strongest, Query;
    var issues := IngestedIssues(cfg, s);
    FiledContacts(cfg, db, s.m, name, issues, s.m.failAt);
    FiledContacts(cfg, db, s.m, name, issues, None);
    var p := FileIssues(cfg, db, s.m, name, issues, None, |issues|);
    AttachContacts(p.db, s.m, ChooseTargets(cfg, p.db, s.m, p.filed));
  }

  lemma FiledContacts(cfg: Config, db: Db, m: Message, name: string, issues: seq<Issue>, failAt: Option<nat>)
    requires Coherent(db)
    ensures var p := FileIssues(cfg, db, m, name, issues, failAt, |issues|);
            p.db.contacts == db.contacts && Coherent(p.db)
  {
    FileIssuesWell(cfg, db, m, name, issues, failAt, |issues|);
  }

  lemma AttachContacts(db: Db, m: Message, choice: Choice)
    requires Coherent(db)
    ensures AttachPhoto(db, m, choice).db.contacts == db.contacts
  {
    hide AttachPhoto, Query;
    AttachPhotoStep(db, m, choice);
  }

  lemma DeliverNames(cfg: Config, db: Db, s: Step, name: string)
    requires IsDelivery(s) && Coherent(db) && ManualNamesHold(db) && ManualNameOf(db, s.m.phone, Some(name))
    ensures var db' := Deliver(cfg, db, s, name).0; ManualNamesHold(db') && NamesKept(db, db')
  {
    hide FileIssues, Deliver, Coherent, ManualNamesHold, NamesKept, Grows;
    var issues := IngestedIssues(cfg, s);
    var failAt := if s.TextArrives? then s.m.failAt else None;
    var p := FileIssues(cfg, db, s.m, name, issues, failAt, |issues|);
    FileIssuesWell(cfg, db, s.m, name, issues, failAt, |issues|);
    GrownNames(db, p.db, s.m, name);
    NamesKeptItself(db);
    DeliverTables(cfg, db, s, name);
    DeliverKeepsContacts(cfg, db, s, name);
    FiledContacts(cfg, db, s.m, name, issues, failAt);
    if AnySurvivor(cfg, issues) || s.PhotoArrives? {
      SameTablesNames(db, p.db, Deliver(cfg, db, s, name).0);
    } else {
      SameTablesNames(db, db, Deliver(cfg, db, s, name).0);
    }
  }

  lemma NamesKeptItself(db: Db)
    ensures NamesKept(db, db)
  {
  }

  lemma NamesKeptTransitive(db0: Db, db1: Db, db2: Db)
    requires NamesKept(db0, db1) && NamesKept(db1, db2)
    ensures NamesKept(db0, db2)
  {
  }

  lemma DeliveryNames(cfg: Config, db: Db, s: Step)
    requires IsDelivery(s) && Coherent(db) && ManualNamesHold(db)
    ensures ManualNamesHold(Apply(cfg, db, s)) && NamesKept(db, Apply(cfg, db, s))
  {
    var learned := LearnedDb(db, s);
    var name := ResolveReporterName(db, s.m.phone, s.m.notifyName);
    LearnRenames(db, s.m.phone, s.m.notifyName);
    RenamedCoherent(db, learned);
    LearnKeepsNames(db, s.m.phone, s.m.notifyName);
    assert ManualNameOf(learned, s.m.phone, Some(name));
    hide Coherent, TextIngest, PhotoIngest, Learn, ResolveReporterName, ManualNamesHold, NamesKept;
    DeliverNames(cfg, learned, s, name);
    NamesKeptTransitive(db, learned, Deliver(cfg, learned, s, name).0);
  }

  lemma StaffNames(cfg: Config, db: Db, s: Step)
    requires ManualNamesHold(db) && !IsDelivery(s)
    ensures ManualNamesHold(Apply(cfg, db, s))
  {
    match s
    case WhatsAppName(phone, name) => LearnKeepsNames(db, phone, name);
    case ManualName(phone, name) => ManualNameHolds(db, phone, name);
    case _ =>
  }

  /** Whenever a phone has a manual contact, every ticket and follow-up of that phone carries its
      name: over any run of deliveries, staff actions, contact syncs and renamings. */
  lemma {:induction false} ManualNamesWin(cfg: Config, db: Db, steps: seq<Step>)
    requires Coherent(db) && ManualNamesHold(db)
    ensures ManualNamesHold(Run(cfg, db, steps))
  {
    if steps != [] {
      hide Coherent, ManualNamesHold, Apply;
      var before, s := steps[..|steps| - 1], steps[|steps| - 1];
      ManualNamesWin(cfg, db, before);
      LinksStayCoherent(cfg, db, before);
      if IsDelivery(s) {
        DeliveryNames(cfg, Run(cfg, db, before), s);
      } else {
        StaffNames(cfg, Run(cfg, db, before), s);
      }
    }
  }

  ghost predicate OnlyLearns(s: Step) { IsDelivery(s) || s.WhatsAppName? }

  /** Names learned from WhatsApp, by deliveries and contact syncs, never replace a name other
      than "Unknown". */
  lemma {:induction false} LearningOnlyFillsUnknown(cfg: Config, db: Db, steps: seq<Step>)
    requires Coherent(db) && ManualNamesHold(db) && forall k | 0 <= k < |steps| :: OnlyLearns(steps[k])
    ensures NamesKept(db, Run(cfg, db, steps))
  {
    hide Coherent, ManualNamesHold, Apply, NamesKept;
    if steps == [] {
      NamesKeptItself(db);
    } else {
      var before, s := steps[..|steps| - 1], steps[|steps| - 1];
      LearningOnlyFillsUnknown(cfg, db, before);
      LinksStayCoherent(cfg, db, before);
      ManualNamesWin(cfg, db, before);
      var mid := Run(cfg, db, before);
      assert OnlyLearns(s);
      LearnStep(cfg, mid, s);
      NamesKeptTransitive(db, mid, Apply(cfg, mid, s));
    }
  }

  lemma LearnStep(cfg: Config, db: Db, s: Step)
    requires OnlyLearns(s) && Coherent(db) && ManualNamesHold(db)
    ensures NamesKept(db, Apply(cfg, db, s))
  {
    hide Coherent, ManualNamesHold, NamesKept, Learn, TextIngest, PhotoIngest;
    if IsDelivery(s) {
      DeliveryNames(cfg, db, s);
    } else {
      LearnKeepsNames(db, s.phone, s.name);
    }
  }
}
