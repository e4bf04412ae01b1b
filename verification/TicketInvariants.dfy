/** Invariants of the ticket database over runs of deliveries and staff actions. */
module TicketInvariants {
  import opened Text
  import opened Rows
  import opened TicketModel
  import opened TicketFiling

  // ---- What every step keeps: coherent links ----

  // Only sender names and contacts differ.
  ghost predicate Renamed(db: Db, db': Db) {
    && db' == db.(incidents := db'.incidents, followUps := db'.followUps, contacts := db'.contacts)
    && db'.incidents.Keys == db.incidents.Keys && db'.followUps.Keys == db.followUps.Keys
    && (forall i | i in db.incidents :: db'.incidents[i] == db.incidents[i].(name := db'.incidents[i].name))
    && (forall u | u in db.followUps :: db'.followUps[u] == db.followUps[u].(name := db'.followUps[u].name))
  }

  lemma LearnRenames(db: Db, phone: Option<string>, given: Option<string>)
    ensures Renamed(db, Learn(db, phone, given))
  {
  }

  lemma ManualNameRenames(db: Db, phone: string, given: Option<string>)
    ensures Renamed(db, SetManualName(db, phone, given))
  {
  }

  lemma RenamedCoherent(db: Db, db': Db)
    requires Renamed(db, db') && Coherent(db)
    ensures Coherent(db')
  {
  }

  lemma SweepCoherent(cfg: Config, db: Db, m: Message, link: Link, quoted: Option<string>)
    requires Coherent(db) && ValidLink(db, link.incident, link.followUp)
    ensures Coherent(Sweep(cfg, db, m, link, quoted))
  {
  }

  lemma AttachedCoherent(db: Db, db': Db, m: Message, file: string, choice: Choice)
    requires Coherent(db) && Attached(db, db', m, file, choice)
    requires forall l | l in choice.links :: ValidLink(db, l.incident, l.followUp)
    ensures Coherent(db')
  {
    forall i | i in db'.media
      ensures i < db'.nextMedia && CoherentRow(db', db'.media[i])
    {
      if Claimed(db, m, choice, i, db'.media[i]) {
        var l :| l in choice.links && db'.media[i] == Relinked(db.media[i], l, choice.how);
        assert ValidLink(db', l.incident, l.followUp);
      } else if Added(db, m, file, choice, i, db'.media[i]) {
        if choice.links != [] {
          var l :| l in choice.links && db'.media[i] == PhotoRow(m, file, Some(l), choice.how);
          assert ValidLink(db', l.incident, l.followUp);
        }
      } else {
        assert CoherentRow(db, db.media[i]);
      }
    }
  }

  lemma AttachPhotoCoherent(db: Db, m: Message, choice: Choice)
    requires Coherent(db) && forall l | l in choice.links :: ValidLink(db, l.incident, l.followUp)
    ensures Coherent(AttachPhoto(db, m, choice).db)
    ensures forall l | l in choice.links :: ValidLink(AttachPhoto(db, m, choice).db, l.incident, l.followUp)
  {
    AttachPhotoStep(db, m, choice);
    var existing := Query(RowsOf(db, m.id), m.order.media);
    var stored := StoredFile(db, m, existing);
    var saved := SaveFile(db, m, existing);
    hide AttachPhoto;
    if stored.Some? {
      assert Coherent(saved);
      AttachedCoherent(saved, AttachPhoto(db, m, choice).db, m, stored.value, choice);
    }
  }

  lemma TextCoherent(cfg: Config, db: Db, m: Message, name: string)
    requires Coherent(db)
    ensures Coherent(TextIngest(cfg, db, m, name).0)
  {
    var issues := IssuesOf(cfg, m);
    var p := FileIssues(cfg, db, m, name, issues, m.failAt, |issues|);
    FileIssuesWell(cfg, db, m, name, issues, m.failAt, |issues|);
    hide FileIssues, IssuesOf, Sweep;
    if p.filed != [] {
      var t := Strongest(p.filed);
      assert t in p.filed;
      SweepCoherent(cfg, p.db, m, t.link, m.quoted);
    }
    var plate := PlateTarget(cfg, db, m.group, m.text, m.order);
    PlateTargetGood(cfg, db, m.group, m.text, m.order);
    if plate.Some? {
      SweepCoherent(cfg, db, m, Link(plate.value, None), m.quoted);
    }
  }

  lemma PhotoCoherent(cfg: Config, db: Db, m: Message, name: string)
    requires Coherent(db)
    ensures Coherent(PhotoIngest(cfg, db, m, name).0)
  {
    var issues := if m.text != "" then IssuesOf(cfg, m) else [];
    var p := FileIssues(cfg, db, m, name, issues, None, |issues|);
    FileIssuesWell(cfg, db, m, name, issues, None, |issues|);
    hide FileIssues, IssuesOf, Sweep, AttachPhoto, ChooseTargets;
    var choice := ChooseTargets(cfg, p.db, m, p.filed);
    ChosenTargetsGood(cfg, p.db, m, p.filed);
    AttachPhotoCoherent(p.db, m, choice);
    CaptionHasTarget(cfg, p.db, m, p.filed);
    if choice.how == Some(ByCaption) {
      var a := AttachPhoto(p.db, m, choice);
      assert choice.links[0] in choice.links;
      SweepCoherent(cfg, a.db, m, choice.links[0], None);
    }
  }

  lemma CaptionHasTarget(cfg: Config, db: Db, m: Message, filed: seq<Target>)
    ensures var c := ChooseTargets(cfg, db, m, filed); c.how.Some? <==> c.links != []
  {
  }

  lemma MediaStaffCoherent(cfg: Config, db: Db, s: Step)
    requires Coherent(db) && (s.Assign? || s.Dismiss? || s.Upload?)
    ensures Coherent(Apply(cfg, db, s))
  {
  }

  lemma TicketStaffCoherent(cfg: Config, db: Db, s: Step)
    requires Coherent(db) && (s.ReplyTo? || s.ChangeStatus? || s.EditTicket?)
    ensures Coherent(Apply(cfg, db, s))
  {
    hide InFollowUps;
  }

  lemma StaffCoherent(cfg: Config, db: Db, s: Step)
    requires Coherent(db) && !IsDelivery(s)
    ensures Coherent(Apply(cfg, db, s))
  {
    hide Coherent, AssignMedia, DeleteMedia, UploadMedia, Promote, Relink, StaffReply, SetStatus, EditFields, Learn,
         SetManualName;
    match s
    case PromoteFollowUp(id) => PromoteCoherent(cfg, db, id);
    case RelinkFollowUp(id, target) => RelinkCoherent(db, id, target);
    case ReplyTo(incident, mid, actor, body, now) => TicketStaffCoherent(cfg, db, s);
    case ChangeStatus(incident, status) => TicketStaffCoherent(cfg, db, s);
    case EditTicket(incident, category, plate) => TicketStaffCoherent(cfg, db, s);
    case WhatsAppName(phone, name) =>
      LearnRenames(db, phone, name);
      RenamedCoherent(db, Learn(db, phone, name));
    case ManualName(phone, name) =>
      ManualNameRenames(db, phone, name);
      RenamedCoherent(db, SetManualName(db, phone, name));
    case _ => MediaStaffCoherent(cfg, db, s);
  }

  // The photo rows filed under a follow-up.
  ghost predicate Under(db: Db, i: int, followUp: int) { i in db.media && db.media[i].followUp == Some(followUp) }

  /** Promoting a follow-up makes it a ticket with its sender, text and message, in the group of the ticket it was on.
      Its photos, and no others, go along to the new ticket, under no follow-up, and no link to the follow-up is left. */
  lemma PromoteCoherent(cfg: Config, db: Db, id: int)
    requires Coherent(db)
    ensures var after, ticket := Promote(cfg, db, id), db.nextIncident;
            && Coherent(after)
            && (after != db ==>
                  && id in db.followUps && id !in after.followUps
                  && ticket !in db.incidents && InGroup(after, ticket, db.incidents[db.followUps[id].incident].group)
                  && after.incidents[ticket].phone == db.followUps[id].phone
                  && after.incidents[ticket].messageId == db.followUps[id].messageId
                  && after.media.Keys == db.media.Keys
                  && forall i | i in db.media ::
                       && after.media[i].followUp != Some(id)
                       && (Under(db, i, id) <==> after.media[i].incident == Some(ticket))
                       && (Under(db, i, id) ==> after.media[i] == db.media[i].(incident := Some(ticket), followUp := None))
                       && (!Under(db, i, id) ==> after.media[i] == db.media[i]))
  {
    var after := Promote(cfg, db, id);
    if after != db {
      forall i | i in after.media
        ensures CoherentRow(after, after.media[i])
        ensures db.media[i].incident != Some(db.nextIncident)
      {
        assert CoherentRow(db, db.media[i]);
      }
    }
  }

  /** Moving a follow-up takes its photos, and no others, along to the other ticket, still under the follow-up. */
  lemma RelinkCoherent(db: Db, id: int, target: int)
    requires Coherent(db)
    ensures var after := Relink(db, id, target);
            && Coherent(after)
            && (after != db ==>
                  && id in after.followUps && after.followUps[id].incident == target
                  && after.media.Keys == db.media.Keys
                  && forall i | i in db.media ::
                       && (Under(after, i, id) <==> Under(db, i, id))
                       && (Under(db, i, id) ==> after.media[i] == db.media[i].(incident := Some(target)))
                       && (!Under(db, i, id) ==> after.media[i] == db.media[i]))
  {
    var after := Relink(db, id, target);
    if after != db {
      forall i | i in after.media
        ensures CoherentRow(after, after.media[i])
      {
        assert CoherentRow(db, db.media[i]);
      }
    }
  }

  lemma StepCoherent(cfg: Config, db: Db, s: Step)
    requires Coherent(db)
    ensures Coherent(Apply(cfg, db, s))
  {
    if IsDelivery(s) {
      var learned := Learn(db, s.m.phone, s.m.notifyName);
      LearnRenames(db, s.m.phone, s.m.notifyName);
      RenamedCoherent(db, learned);
      hide TextIngest, PhotoIngest, Learn;
      if s.TextArrives? {
        TextCoherent(cfg, learned, s.m, ResolveReporterName(db, s.m.phone, s.m.notifyName));
      } else {
        PhotoCoherent(cfg, learned, s.m, ResolveReporterName(db, s.m.phone, s.m.notifyName));
      }
    } else {
      StaffCoherent(cfg, db, s);
    }
  }

  /** Deliveries and staff actions, in any order and number, keep every link coherent. */
  lemma {:induction false} LinksStayCoherent(cfg: Config, db: Db, steps: seq<Step>)
    requires Coherent(db)
    ensures Coherent(Run(cfg, db, steps))
  {
    if steps != [] {
      LinksStayCoherent(cfg, db, steps[..|steps| - 1]);
      hide Coherent, Apply;
      StepCoherent(cfg, Run(cfg, db, steps[..|steps| - 1]), steps[|steps| - 1]);
    }
  }
}
