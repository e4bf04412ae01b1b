/** The rows of one photo: which tickets hold it, which file it has, and which group it is in. */
module TicketPhotos {
  import opened Text
  import opened Rows
  import opened TicketModel
  import opened TicketFiling
  import opened TicketInvariants

  // ---- One photo, several rows ----

  // Two rows of one message are on different tickets and share its file; so a row that no
  // ticket holds is the only one.
  ghost predicate OneHolder(db: Db) {
    forall i, j | i in db.media && j in db.media && i != j && db.media[i].messageId.Some?
                  && db.media[i].messageId == db.media[j].messageId ::
      && db.media[i].incident.Some? && db.media[j].incident.Some?
      && db.media[i].incident != db.media[j].incident
      && db.media[i].file == db.media[j].file
  }

  // While a photo is filed: `have` are the tickets that hold it, and a waiting row is the only
  // row and the one spare.
  ghost predicate Holding(m: Message, file: string, a: Attaching) {
    && OneHolder(a.db)
    && (forall i | i in a.db.media && a.db.media[i].messageId == Some(m.id) ::
          && i < a.db.nextMedia
          && a.db.media[i].file == file
          && (if a.db.media[i].incident.Some? then a.db.media[i].incident.value in a.have else a.spare == [i]))
    && (forall k | 0 <= k < |a.spare| ::
          && a.spare[k] in a.db.media && a.db.media[a.spare[k]].incident.None?
          && a.db.media[a.spare[k]].messageId == Some(m.id))
    && (a.have != {} ==> HasLinkedRow(a.db, m))
    && (forall i | i in a.db.media :: i < a.db.nextMedia)
  }

  ghost predicate HasLinkedRow(db: Db, m: Message) {
    exists i | i in db.media :: db.media[i].messageId == Some(m.id) && db.media[i].incident.Some?
  }

  lemma AttachNextHolds(m: Message, file: string, choice: Choice, link: Link, a: Attaching)
    requires Holding(m, file, a)
    ensures var b := AttachNext(m, file, choice, link, a);
            Holding(m, file, b) && link.incident in b.have && a.have <= b.have
  {
    var b := AttachNext(m, file, choice, link, a);
    if link.incident !in a.have {
      if a.spare != [] {
        var id := a.spare[|a.spare| - 1];
        assert forall i | i in a.db.media && a.db.media[i].messageId == Some(m.id) :: i == id;
        assert b.db.media[id].incident == Some(link.incident);
        assert a.spare == [id] && b.spare == [];
        assert !HasLinkedRow(a.db, m);
      } else {
        var id := a.db.nextMedia;
        assert b.db.media[id].incident == Some(link.incident);
      }
    }
  }

  lemma {:induction false} AttachAllHolds(m: Message, file: string, choice: Choice, n: nat, start: Attaching)
    requires n <= |choice.links| && Holding(m, file, start)
    ensures var b := AttachAll(m, file, choice, n, start);
            Holding(m, file, b) && forall k | 0 <= k < n :: choice.links[k].incident in b.have
  {
    if n > 0 {
      AttachAllHolds(m, file, choice, n - 1, start);
      hide Holding, AttachNext;
      AttachNextHolds(m, file, choice, choice.links[n - 1], AttachAll(m, file, choice, n - 1, start));
    }
  }

  // A waiting row of a photo is its only row, so it is the only spare.
  lemma WaitingIsOnlyRow(db: Db, saved: Db, m: Message, i: int)
    requires OneHolder(db) && i in RowsOf(db, m.id) && db.media[i].incident.None? && saved.media == db.media
    ensures var existing := Query(RowsOf(db, m.id), m.order.media);
            existing == [i] && Unassigned(saved, existing) == [i]
  {
    var existing := Query(RowsOf(db, m.id), m.order.media);
    assert RowsOf(db, m.id).Keys == {i};
    QueryLength(RowsOf(db, m.id), m.order.media);
    assert existing[0] == i && existing[1..] == [];
  }

  lemma StartRows(db: Db, m: Message, saved: Db)
    requires OneHolder(db) && saved == db.(files := saved.files)
    ensures var existing := Query(RowsOf(db, m.id), m.order.media);
            var start := StartAttaching(saved, existing);
            && (forall i | i in db.media && db.media[i].messageId == Some(m.id) ::
                  && existing != [] && db.media[i].file == db.media[existing[0]].file
                  && (if db.media[i].incident.Some? then db.media[i].incident.value in start.have
                      else start.spare == [i]))
            && (start.have != {} ==> HasLinkedRow(saved, m))
  {
    var existing := Query(RowsOf(db, m.id), m.order.media);
    var start := StartAttaching(saved, existing);
    hide Query;
    forall i | i in db.media && db.media[i].messageId == Some(m.id)
      ensures existing != [] && db.media[i].file == db.media[existing[0]].file
      ensures if db.media[i].incident.Some? then db.media[i].incident.value in start.have else start.spare == [i]
    {
      assert i in RowsOf(db, m.id) && i in existing;
      assert existing[0] in RowsOf(db, m.id);
      if db.media[i].incident.None? {
        WaitingIsOnlyRow(db, saved, m, i);
      }
    }
    forall t | t in start.have
      ensures HasLinkedRow(saved, m)
    {
      var i :| i in existing && db.media[i].incident == Some(t);
      assert i in RowsOf(db, m.id);
    }
  }

  lemma StartHolds(db: Db, m: Message)
    requires OneHolder(db) && forall i | i in db.media :: i < db.nextMedia
    requires StoredFile(db, m, Query(RowsOf(db, m.id), m.order.media)).Some?
    ensures var existing := Query(RowsOf(db, m.id), m.order.media);
            Holding(m, StoredFile(db, m, existing).value, StartAttaching(SaveFile(db, m, existing), existing))
  {
    hide OneHolder, Query, RowsOf, SaveFile, StartAttaching, StoredFile, Unassigned;
    StartFacts(db, m);
    var existing := Query(RowsOf(db, m.id), m.order.media);
    var saved := SaveFile(db, m, existing);
    StartWaits(db, m, saved);
    StartRows(db, m, saved);
    SameMediaOneHolder(db, saved);
  }

  lemma StartFacts(db: Db, m: Message)
    ensures var existing := Query(RowsOf(db, m.id), m.order.media);
            && (forall k | 0 <= k < |existing| :: existing[k] in db.media)
            && var saved := SaveFile(db, m, existing);
               saved == db.(files := saved.files)
               && StartAttaching(saved, existing).db == saved
               && (existing != [] ==> StoredFile(db, m, existing) == Some(db.media[existing[0]].file))
  {
  }

  lemma SameMediaOneHolder(db: Db, db': Db)
    requires OneHolder(db) && db'.media == db.media
    ensures OneHolder(db')
  {
  }

  // After filing, the photo's rows are one waiting row or rows on distinct tickets; if it had
  // a target, none is left waiting.
  lemma AttachPhotoHolds(db: Db, m: Message, choice: Choice)
    requires OneHolder(db) && forall i | i in db.media :: i < db.nextMedia
    ensures var existing := Query(RowsOf(db, m.id), m.order.media);
            var stored := StoredFile(db, m, existing);
            var a := AttachPhoto(db, m, choice);
            && OneHolder(a.db)
            && (stored.Some? && choice.links != [] ==> Holding(m, stored.value, a) && choice.links[0].incident in a.have)
  {
    var existing := Query(RowsOf(db, m.id), m.order.media);
    var stored := StoredFile(db, m, existing);
    if stored.Some? {
      StartHolds(db, m);
      var start := StartAttaching(SaveFile(db, m, existing), existing);
      if choice.links == [] && existing == [] {
        assert forall i | i in db.media :: i !in RowsOf(db, m.id);
      } else {
        AttachAllHolds(m, stored.value, choice, |choice.links|, start);
      }
    }
  }

  // Ticket `t` has a row of the photo.
  ghost predicate HeldBy(db: Db, mid: string, t: int) {
    exists i | i in db.media :: db.media[i].messageId == Some(mid) && db.media[i].incident == Some(t)
  }

  ghost predicate AllHeld(m: Message, a: Attaching) { forall t | t in a.have :: HeldBy(a.db, m.id, t) }

  lemma AttachNextHeld(m: Message, file: string, choice: Choice, link: Link, a: Attaching)
    requires Holding(m, file, a) && AllHeld(m, a)
    ensures AllHeld(m, AttachNext(m, file, choice, link, a))
  {
    var b := AttachNext(m, file, choice, link, a);
    if link.incident !in a.have {
      var id := if a.spare != [] then a.spare[|a.spare| - 1] else a.db.nextMedia;
      assert id in b.db.media && b.db.media[id].incident == Some(link.incident);
      forall t | t in b.have
        ensures HeldBy(b.db, m.id, t)
      {
        if t != link.incident {
          var i :| i in a.db.media && a.db.media[i].messageId == Some(m.id) && a.db.media[i].incident == Some(t);
          assert b.db.media[i] == a.db.media[i];
        }
      }
    }
  }

  lemma {:induction false} AttachAllHeld(m: Message, file: string, choice: Choice, n: nat, start: Attaching)
    requires n <= |choice.links| && Holding(m, file, start) && AllHeld(m, start)
    ensures AllHeld(m, AttachAll(m, file, choice, n, start))
  {
    hide Holding, AttachNext, AllHeld;
    if n > 0 {
      AttachAllHeld(m, file, choice, n - 1, start);
      AttachAllHolds(m, file, choice, n - 1, start);
      AttachNextHeld(m, file, choice, choice.links[n - 1], AttachAll(m, file, choice, n - 1, start));
    }
  }

  lemma StartHeld(db: Db, m: Message, saved: Db)
    requires saved == db.(files := saved.files)
    ensures var existing := Query(RowsOf(db, m.id), m.order.media); AllHeld(m, StartAttaching(saved, existing))
  {
    hide Query;
    var existing := Query(RowsOf(db, m.id), m.order.media);
    assert forall i | i in existing :: i in RowsOf(db, m.id);
  }

  /** Once its file is stored, a delivered photo is never lost: every chosen ticket holds it, and without a
      target it has a row of its own. */
  lemma EveryTargetHolds(db: Db, m: Message, choice: Choice)
    requires OneHolder(db) && forall i | i in db.media :: i < db.nextMedia
    requires StoredFile(db, m, Query(RowsOf(db, m.id), m.order.media)).Some?
    ensures var after := AttachPhoto(db, m, choice).db;
            && (forall l | l in choice.links :: HeldBy(after, m.id, l.incident))
            && (exists i | i in after.media :: after.media[i].messageId == Some(m.id))
  {
    hide OneHolder, Query, RowsOf, SaveFile, StartAttaching, StoredFile, Holding, AllHeld;
    StartFacts(db, m);
    var existing := Query(RowsOf(db, m.id), m.order.media);
    var file := StoredFile(db, m, existing).value;
    var start := StartAttaching(SaveFile(db, m, existing), existing);
    if choice.links == [] {
      KeptAlone(db, m, choice);
    } else {
      StartHolds(db, m);
      StartHeld(db, m, SaveFile(db, m, existing));
      AttachAllHolds(m, file, choice, |choice.links|, start);
      AttachAllHeld(m, file, choice, |choice.links|, start);
      TargetsHeld(m, choice, AttachAll(m, file, choice, |choice.links|, start));
    }
  }

  lemma TargetsHeld(m: Message, choice: Choice, a: Attaching)
    requires AllHeld(m, a) && choice.links != [] && forall k | 0 <= k < |choice.links| :: choice.links[k].incident in a.have
    ensures forall l | l in choice.links :: HeldBy(a.db, m.id, l.incident)
    ensures exists i | i in a.db.media :: a.db.media[i].messageId == Some(m.id)
  {
    assert HeldBy(a.db, m.id, choice.links[0].incident);
  }

  lemma KeptAlone(db: Db, m: Message, choice: Choice)
    requires choice.links == [] && StoredFile(db, m, Query(RowsOf(db, m.id), m.order.media)).Some?
    ensures var after := AttachPhoto(db, m, choice).db;
            exists i | i in after.media :: after.media[i].messageId == Some(m.id)
  {
    hide Query;
    var existing := Query(RowsOf(db, m.id), m.order.media);
    var after := AttachPhoto(db, m, choice).db;
    if existing == [] {
      assert after.media[db.nextMedia].messageId == Some(m.id);
    } else {
      assert existing[0] in RowsOf(db, m.id);
      assert after.media == db.media;
    }
  }

  lemma NothingWaits(m: Message, file: string, a: Attaching, t: int)
    requires Holding(m, file, a) && t in a.have
    ensures forall i | i in a.db.media && a.db.media[i].messageId == Some(m.id) :: a.db.media[i].incident.Some?
    ensures exists i | i in a.db.media :: a.db.media[i].messageId == Some(m.id) && a.db.media[i].file == file
  {
    var j :| j in a.db.media && a.db.media[j].messageId == Some(m.id) && a.db.media[j].incident.Some?;
    assert a.db.media[j].file == file;
  }

  lemma SweepOneHolder(cfg: Config, db: Db, m: Message, link: Link, quoted: Option<string>)
    requires OneHolder(db)
    ensures OneHolder(Sweep(cfg, db, m, link, quoted))
  {
    var db' := Sweep(cfg, db, m, link, quoted);
    assert forall i | i in db.media ::
        db'.media[i].messageId == db.media[i].messageId && db'.media[i].file == db.media[i].file
        && (db.media[i].incident.Some? ==> db'.media[i] == db.media[i]);
  }

  lemma TextOneHolder(cfg: Config, db: Db, m: Message, name: string)
    requires Coherent(db) && OneHolder(db)
    ensures OneHolder(TextIngest(cfg, db, m, name).0)
  {
    var issues := IssuesOf(cfg, m);
    var p := FileIssues(cfg, db, m, name, issues, m.failAt, |issues|);
    FileIssuesWell(cfg, db, m, name, issues, m.failAt, |issues|);
    SameMediaOneHolder(db, p.db);
    hide FileIssues, IssuesOf, Sweep, OneHolder, FiledWell;
    if p.filed != [] {
      SweepOneHolder(cfg, p.db, m, Strongest(p.filed).link, m.quoted);
    }
    var plate := PlateTarget(cfg, db, m.group, m.text, m.order);
    if plate.Some? {
      SweepOneHolder(cfg, db, m, Link(plate.value, None), m.quoted);
    }
  }

  lemma PhotoOneHolder(cfg: Config, db: Db, m: Message, name: string)
    requires Coherent(db) && OneHolder(db)
    ensures OneHolder(PhotoIngest(cfg, db, m, name).0)
  {
    var issues := if m.text != "" then IssuesOf(cfg, m) else [];
    var p := FileIssues(cfg, db, m, name, issues, None, |issues|);
    FileIssuesWell(cfg, db, m, name, issues, None, |issues|);
    SameMediaOneHolder(db, p.db);
    var choice := ChooseTargets(cfg, p.db, m, p.filed);
    AttachPhotoHolds(p.db, m, choice);
    CaptionHasTarget(cfg, p.db, m, p.filed);
    hide FileIssues, IssuesOf, Sweep, AttachPhoto, ChooseTargets, OneHolder, FiledWell;
    if choice.how == Some(ByCaption) {
      SweepOneHolder(cfg, AttachPhoto(p.db, m, choice).db, m, choice.links[0], None);
    }
  }

  // ---- Staff actions ----

  ghost predicate OfOneMessage(db: Db, i: int, j: int) {
    i in db.media && j in db.media && i != j && db.media[i].messageId.Some? && db.media[i].messageId == db.media[j].messageId
  }

  // Staff send back to the unassigned list a row of a photo that has other rows.
  ghost predicate SendsBackOneOf(db: Db, id: int) { exists j :: OfOneMessage(db, id, j) }

  // Staff move a follow-up, and a photo with it, to a ticket that holds the photo already.
  ghost predicate MovesOnto(db: Db, id: int, target: int) {
    && id in db.followUps && target in db.incidents
    && exists i, j :: OfOneMessage(db, i, j) && db.media[i].followUp == Some(id)
                      && db.media[j].followUp != Some(id) && db.media[j].incident == Some(target)
  }

  // The two staff actions that can put a photo on a ticket twice.
  ghost predicate Doubles(db: Db, s: Step) {
    match s
    case Assign(id, target) => target.None? && SendsBackOneOf(db, id)
    case RelinkFollowUp(id, incident) => MovesOnto(db, id, incident)
    case _ => false
  }

  lemma AssignOneHolder(db: Db, id: int, target: Option<int>)
    requires OneHolder(db)
    ensures OneHolder(AssignMedia(db, id, target)) <==> !(target.None? && SendsBackOneOf(db, id))
  {
    var db' := AssignMedia(db, id, target);
    if target.None? && SendsBackOneOf(db, id) {
      var j :| OfOneMessage(db, id, j);
      assert db'.media[id].messageId == db'.media[j].messageId && db'.media[id].incident.None?;
    } else if id in db.media && db' != db {
      forall i, j | OfOneMessage(db', i, j)
        ensures db'.media[i].incident.Some? && db'.media[j].incident.Some? && db'.media[i].incident != db'.media[j].incident
        ensures db'.media[i].file == db'.media[j].file
      {
        assert OfOneMessage(db, i, j) && OfOneMessage(db, j, i);
      }
    }
  }

  // The rows under a follow-up move; each photo has at most one of them.
  lemma RefileOneHolder(db: Db, db': Db, id: int, target: int, keep: bool)
    requires Coherent(db) && OneHolder(db) && id in db.followUps && db'.media == RefileMedia(db, id, target, keep)
    ensures OneHolder(db')
            <==> !exists i, j :: OfOneMessage(db, i, j) && db.media[i].followUp == Some(id)
                                 && db.media[j].followUp != Some(id) && db.media[j].incident == Some(target)
  {
    forall i, j | OfOneMessage(db, i, j) && db.media[i].followUp == Some(id)
      ensures db.media[j].followUp != Some(id)
    {
      assert CoherentRow(db, db.media[i]) && CoherentRow(db, db.media[j]);
    }
    if i, j :| OfOneMessage(db, i, j) && db.media[i].followUp == Some(id)
               && db.media[j].followUp != Some(id) && db.media[j].incident == Some(target) {
      assert OfOneMessage(db', i, j) && db'.media[i].incident == db'.media[j].incident;
    } else {
      forall i, j | OfOneMessage(db', i, j)
        ensures db'.media[i].incident.Some? && db'.media[j].incident.Some? && db'.media[i].incident != db'.media[j].incident
        ensures db'.media[i].file == db'.media[j].file
      {
        assert OfOneMessage(db, i, j) && OfOneMessage(db, j, i);
        assert db.media[i].incident.Some? && db.media[j].incident.Some? && db.media[i].incident != db.media[j].incident;
        if db.media[i].followUp == Some(id) {
          assert db.media[j].followUp != Some(id);
        } else if db.media[j].followUp == Some(id) {
          assert db.media[i].followUp != Some(id);
        }
      }
    }
  }

  lemma PromoteOneHolder(cfg: Config, db: Db, id: int)
    requires Coherent(db) && OneHolder(db)
    ensures OneHolder(Promote(cfg, db, id))
  {
    if Promote(cfg, db, id) != db {
      RefileOneHolder(db, Promote(cfg, db, id), id, db.nextIncident, false);
      assert forall j | j in db.media && db.media[j].incident.Some? :: CoherentRow(db, db.media[j]);
    }
  }

  lemma RelinkOneHolder(db: Db, id: int, target: int)
    requires Coherent(db) && OneHolder(db)
    ensures OneHolder(Relink(db, id, target)) <==> !MovesOnto(db, id, target)
  {
    if id in db.followUps && target in db.incidents {
      RefileOneHolder(db, Relink(db, id, target), id, target, true);
    }
  }

  lemma OtherOneHolder(cfg: Config, db: Db, s: Step)
    requires Coherent(db) && OneHolder(db)
    requires !IsDelivery(s) && !s.Assign? && !s.PromoteFollowUp? && !s.RelinkFollowUp?
    ensures OneHolder(Apply(cfg, db, s))
  {
    hide CleanName;
  }

  lemma DeliveryOneHolder(cfg: Config, db: Db, s: Step)
    requires Coherent(db) && OneHolder(db) && IsDelivery(s)
    ensures OneHolder(Apply(cfg, db, s))
  {
    var learned := Learn(db, s.m.phone, s.m.notifyName);
    LearnRenames(db, s.m.phone, s.m.notifyName);
    RenamedCoherent(db, learned);
    SameMediaOneHolder(db, learned);
    hide Coherent, OneHolder, TextIngest, PhotoIngest, Learn;
    if s.TextArrives? {
      TextOneHolder(cfg, learned, s.m, ResolveReporterName(db, s.m.phone, s.m.notifyName));
    } else {
      PhotoOneHolder(cfg, learned, s.m, ResolveReporterName(db, s.m.phone, s.m.notifyName));
    }
  }

  /** Every step keeps the rows of each photo a single unassigned row or rows on distinct tickets with one file,
      except exactly a row sent back to unassigned while the photo has others, and a follow-up moved with a
      photo to a ticket that has the photo. */
  lemma StepOneHolder(cfg: Config, db: Db, s: Step)
    requires Coherent(db) && OneHolder(db)
    ensures OneHolder(Apply(cfg, db, s)) <==> !Doubles(db, s)
  {
    hide Coherent, OneHolder, AssignMedia, Promote, Relink;
    match s
    case TextArrives(m) => DeliveryOneHolder(cfg, db, s);
    case PhotoArrives(m) => DeliveryOneHolder(cfg, db, s);
    case Assign(id, target) => AssignOneHolder(db, id, target);
    case PromoteFollowUp(id) => PromoteOneHolder(cfg, db, id);
    case RelinkFollowUp(id, target) => RelinkOneHolder(db, id, target);
    case _ => OtherOneHolder(cfg, db, s);
  }

  ghost predicate DoublesAt(cfg: Config, db: Db, steps: seq<Step>, k: nat)
    requires k < |steps|
  {
    Doubles(Run(cfg, db, steps[..k]), steps[k])
  }

  /** Over any run of deliveries and staff actions without those two cases, whatever the classifier says, the rows
      of one photo are a single unassigned row or rows on pairwise distinct tickets, all with one stored file. */
  lemma {:induction false} PhotoRowsStayDistinct(cfg: Config, db: Db, steps: seq<Step>)
    requires Coherent(db) && OneHolder(db) && forall k | 0 <= k < |steps| :: !DoublesAt(cfg, db, steps, k)
    ensures OneHolder(Run(cfg, db, steps))
  {
    hide Coherent, OneHolder, Apply, Doubles;
    if steps != [] {
      var n := |steps| - 1;
      var before := steps[..n];
      forall k | 0 <= k < n
        ensures !DoublesAt(cfg, db, before, k)
      {
        assert before[..k] == steps[..k];
        assert !DoublesAt(cfg, db, steps, k);
      }
      PhotoRowsStayDistinct(cfg, db, before);
      LinksStayCoherent(cfg, db, before);
      assert !DoublesAt(cfg, db, steps, n);
      StepOneHolder(cfg, Run(cfg, db, before), steps[n]);
    }
  }
}
