/** What one message can do to the tables, whatever the language model answers: the facts that
    the invariants of the ticket database rest on. */
module TicketFiling {
  import opened Text
  import opened Classifier
  import opened Rows
  import opened TicketModel

  // ---- Coherence ----

  // The ticket and follow-up of a link exist and belong together.
  ghost predicate ValidLink(db: Db, incident: int, followUp: Option<int>) {
    && incident in db.incidents
    && (followUp.Some? ==> followUp.value in db.followUps && db.followUps[followUp.value].incident == incident)
  }

  // An assigned photo is on a ticket, and on the ticket of its follow-up if it has one; an
  // unassigned photo has neither follow-up nor link method.
  ghost predicate CoherentRow(db: Db, p: Media) {
    if p.incident.Some? then ValidLink(db, p.incident.value, p.followUp) else p.followUp.None? && p.how.None?
  }

  ghost predicate Coherent(db: Db) {
    && (forall i | i in db.incidents :: i < db.nextIncident)
    && (forall u | u in db.followUps :: u < db.nextFollowUp && db.followUps[u].incident in db.incidents)
    && (forall i | i in db.media :: i < db.nextMedia && CoherentRow(db, db.media[i]))
  }

  // ---- Filing issues ----

  ghost predicate SameMedia(db: Db, db': Db) {
    db'.media == db.media && db'.files == db.files && db'.contacts == db.contacts && db'.nextMedia == db.nextMedia
  }

  // The tables only grow, by rows of message `m` in its own group.
  ghost predicate Grows(db: Db, db': Db, m: Message, name: string) {
    && SameMedia(db, db')
    && db.nextIncident <= db'.nextIncident && db.nextFollowUp <= db'.nextFollowUp
    && (forall i | i in db.incidents :: i in db'.incidents && db'.incidents[i] == db.incidents[i])
    && (forall u | u in db.followUps :: u in db'.followUps && db'.followUps[u] == db.followUps[u])
    && (forall i | i in db'.incidents && i !in db.incidents ::
          && db.nextIncident <= i
          && var t := db'.incidents[i];
             t.group == m.group && t.phone == m.phone && t.name == Some(name) && t.at == m.at && t.messageId == Some(m.id))
    && (forall u | u in db'.followUps && u !in db.followUps ::
          && db.nextFollowUp <= u
          && var f := db'.followUps[u];
             InGroup(db', f.incident, m.group) && f.phone == m.phone && f.name == Some(name) && f.at == m.at
             && f.messageId == Some(m.id))
  }

  ghost predicate GoodLink(db: Db, group: string, link: Link) {
    InGroup(db, link.incident, group) && ValidLink(db, link.incident, link.followUp)
  }

  ghost predicate FiledWell(db: Db, m: Message, name: string, p: Progress) {
    && Grows(db, p.db, m, name)
    && Coherent(p.db)
    && (forall t | t in p.open :: InGroup(p.db, t.id, m.group))
    && (forall t | t in p.filed :: GoodLink(p.db, m.group, t.link))
  }

  lemma FirstOnPlateIsOpen(open: seq<OpenTicket>, plate: string, category: string)
    ensures var r := FirstOnPlate(open, plate, category);
            r.Some? ==> exists t | t in open :: t.id == r.value && t.plate == Some(plate) && t.category == category
  {
    if open != [] && !(open[0].plate == Some(plate) && open[0].category == category) {
      FirstOnPlateIsOpen(open[1..], plate, category);
    } else if open != [] {
      assert open[0] in open;
    }
  }

  // Whatever the language model answers, an issue is routed to one of the open tickets shown.
  lemma RoutedToOpen(cfg: Config, issue: Issue, text: string, open: seq<OpenTicket>, answer: RouterAnswer)
    ensures var r := RouteIssue(cfg, issue, text, open, answer).ticket;
            r.Some? ==> exists t | t in open :: t.id == r.value
  {
    var r := RouteIssue(cfg, issue, text, open, answer);
    if cfg.fleet && r.plate.Some? {
      FirstOnPlateIsOpen(open, r.plate.value, issue.category);
    }
  }

  lemma AddFollowUpCoherent(db: Db, m: Message, name: string, ticket: int, issue: Issue, i: nat)
    requires Coherent(db) && InGroup(db, ticket, m.group)
    ensures Coherent(AddFollowUp(db, m, name, ticket, issue, i))
    ensures GoodLink(AddFollowUp(db, m, name, ticket, issue, i), m.group, Link(ticket, Some(db.nextFollowUp)))
    ensures forall u | u in db.followUps :: AddFollowUp(db, m, name, ticket, issue, i).followUps[u] == db.followUps[u]
  {
  }

  lemma AddFollowUpGrows(db0: Db, m: Message, name: string, ticket: int, issue: Issue, i: nat, p: Progress)
    requires FiledWell(db0, m, name, p) && InGroup(p.db, ticket, m.group)
    ensures var db := AddFollowUp(p.db, m, name, ticket, issue, i);
            && FiledWell(db0, m, name, p.(db := db))
            && GoodLink(db, m.group, Link(ticket, Some(p.db.nextFollowUp)))
  {
    hide Coherent;
    AddFollowUpCoherent(p.db, m, name, ticket, issue, i);
    assert forall u | u in p.db.followUps :: u < p.db.nextFollowUp by { Numbered(p.db); }
  }

  lemma Numbered(db: Db)
    requires Coherent(db)
    ensures (forall t | t in db.incidents :: t < db.nextIncident) && (forall u | u in db.followUps :: u < db.nextFollowUp)
  {
  }

  lemma AddIncidentCoherent(cfg: Config, db: Db, m: Message, name: string, issue: Issue, plate: Option<string>, i: nat)
    requires Coherent(db)
    ensures Coherent(AddIncident(cfg, db, m, name, issue, plate, i))
    ensures GoodLink(AddIncident(cfg, db, m, name, issue, plate, i), m.group, Link(db.nextIncident, None))
    ensures forall t | t in db.incidents :: AddIncident(cfg, db, m, name, issue, plate, i).incidents[t] == db.incidents[t]
  {
  }

  lemma AddIncidentGrows(cfg: Config, db0: Db, m: Message, name: string, issue: Issue, plate: Option<string>, i: nat,
                         p: Progress)
    requires FiledWell(db0, m, name, p)
    ensures var db := AddIncident(cfg, p.db, m, name, issue, plate, i);
            && FiledWell(db0, m, name, p.(db := db))
            && GoodLink(db, m.group, Link(p.db.nextIncident, None))
  {
    hide Coherent;
    AddIncidentCoherent(cfg, p.db, m, name, issue, plate, i);
    Numbered(p.db);
  }

  lemma FileNextWell(cfg: Config, db0: Db, m: Message, name: string, issues: seq<Issue>, failAt: Option<nat>, i: nat,
                     p: Progress)
    requires i < |issues| && FiledWell(db0, m, name, p)
    ensures FiledWell(db0, m, name, FileNext(cfg, m, name, issues, failAt, i, p))
  {
    var q := FileNext(cfg, m, name, issues, failAt, i, p);
    var routing := RouteIssue(cfg, issues[i], m.text, p.open, AnswerFor(m, i));
    if q.filed != p.filed {
      if routing.ticket.Some? {
        RoutedToOpen(cfg, issues[i], m.text, p.open, AnswerFor(m, i));
        AddFollowUpGrows(db0, m, name, routing.ticket.value, issues[i], i, p);
      } else {
        AddIncidentGrows(cfg, db0, m, name, issues[i], routing.plate, i, p);
      }
    }
  }

  lemma StartWell(cfg: Config, db: Db, m: Message, name: string)
    requires Coherent(db)
    ensures FiledWell(db, m, name, Start(cfg, db, m))
  {
  }

  lemma {:induction false} FileIssuesWell(cfg: Config, db: Db, m: Message, name: string, issues: seq<Issue>,
                                          failAt: Option<nat>, n: nat)
    requires n <= |issues| && Coherent(db)
    ensures FiledWell(db, m, name, FileIssues(cfg, db, m, name, issues, failAt, n))
  {
    if n == 0 {
      StartWell(cfg, db, m, name);
    } else {
      var p := FileIssues(cfg, db, m, name, issues, failAt, n - 1);
      FileIssuesWell(cfg, db, m, name, issues, failAt, n - 1);
      hide FiledWell, FileNext;
      assert FileIssues(cfg, db, m, name, issues, failAt, n) == FileNext(cfg, m, name, issues, failAt, n - 1, p);
      FileNextWell(cfg, db, m, name, issues, failAt, n - 1, p);
    }
  }

  // ---- Choosing where a photo goes ----

  // No linked photo of a group is on another group's ticket.
  ghost predicate Isolated(db: Db) {
    forall i | i in db.media && db.media[i].incident.Some? ::
      db.media[i].group.Some? && InGroup(db, db.media[i].incident.value, db.media[i].group.value)
  }

  lemma QuotedTargetGood(db: Db, group: string, quoted: Option<string>, order: RowOrder)
    requires Coherent(db)
    ensures var r := QuotedTarget(db, group, quoted, order);
            r.Some? ==> ValidLink(db, r.value.incident, r.value.followUp)
                        && (Isolated(db) ==> GoodLink(db, group, r.value))
  {
    if quoted.Some? {
      var incidents := QuotedIncidents(db, group, quoted.value);
      var followUps := QuotedFollowUps(db, group, quoted.value);
      var media := QuotedMedia(db, group, quoted.value);
      if incidents.Keys != {} {
        assert First(incidents, order.incidents) in incidents;
      } else if followUps.Keys != {} {
        assert First(followUps, order.followUps) in followUps;
      } else if media.Keys != {} {
        assert First(media, order.media) in media;
      }
    }
  }

  lemma PlateTargetGood(cfg: Config, db: Db, group: string, text: string, order: RowOrder)
    ensures var r := PlateTarget(cfg, db, group, text, order);
            r.Some? ==> InGroup(db, r.value, group)
  {
  }

  // A candidate is one of the sender's own recent records.
  lemma CandidateSource(cfg: Config, db: Db, m: Message, c: Candidate)
    requires c in Candidates(cfg, db, m)
    ensures var t, u := c.link.incident, c.link.followUp;
            || (u.None? && t in NearIncidents(cfg, db, m) && c.at == db.incidents[t].at)
            || (u.Some? && u.value in NearFollowUps(cfg, db, m)
                && c.at == db.followUps[u.value].at && t == db.followUps[u.value].incident)
            || (exists i | i in NearMedia(cfg, db, m) ::
                  c.at == db.media[i].at && db.media[i].incident == Some(t) && db.media[i].followUp == u)
  {
    var ts := Query(NearIncidents(cfg, db, m), m.order.incidents);
    var us := Query(NearFollowUps(cfg, db, m), m.order.followUps);
    var ps := Query(NearMedia(cfg, db, m), m.order.media);
    assert forall k | 0 <= k < |ts| :: ts[k] in NearIncidents(cfg, db, m);
    assert forall k | 0 <= k < |us| :: us[k] in NearFollowUps(cfg, db, m);
    assert forall k | 0 <= k < |ps| :: ps[k] in NearMedia(cfg, db, m);
    assert Candidates(cfg, db, m) == IncidentCandidates(db, ts) + FollowUpCandidates(db, us) + MediaCandidates(db, ps);
    hide *;
    if c in MediaCandidates(db, ps) {
      var k :| 0 <= k < |ps| && MediaCandidates(db, ps)[k] == c;
      assert ps[k] in NearMedia(cfg, db, m);
    }
  }

  lemma ProximityTargetGood(cfg: Config, db: Db, m: Message)
    requires Coherent(db)
    ensures var r := ProximityTarget(cfg, db, m);
            r.Some? ==> ValidLink(db, r.value.incident, r.value.followUp)
                        && (Isolated(db) ==> GoodLink(db, m.group, r.value))
  {
    if m.phone.Some? && Candidates(cfg, db, m) != [] {
      CandidateSource(cfg, db, m, Nearest(Candidates(cfg, db, m), m.at));
    }
  }

  lemma ChosenTargetsGood(cfg: Config, db: Db, m: Message, filed: seq<Target>)
    requires Coherent(db) && forall t | t in filed :: GoodLink(db, m.group, t.link)
    ensures forall l | l in ChooseTargets(cfg, db, m, filed).links ::
              ValidLink(db, l.incident, l.followUp) && (Isolated(db) ==> GoodLink(db, m.group, l))
  {
    QuotedTargetGood(db, m.group, m.quoted, m.order);
    PlateTargetGood(cfg, db, m.group, m.text, m.order);
    ProximityTargetGood(cfg, db, m);
    var sorted := SortTargets(filed);
    assert forall k | 0 <= k < |sorted| :: sorted[k] in filed;
  }

  // ---- Attaching a photo ----

  ghost function Relinked(p: Media, link: Link, how: Option<LinkMethod>): Media {
    p.(incident := Some(link.incident), followUp := link.followUp, how := how)
  }

  // The three ways a row can stand in the media table after message `m` was filed on `choice`.
  ghost predicate Untouched(db: Db, i: int, row: Media) { i in db.media && row == db.media[i] }

  ghost predicate Claimed(db: Db, m: Message, choice: Choice, i: int, row: Media) {
    && i in db.media && db.media[i].messageId == Some(m.id) && db.media[i].incident.None?
    && exists l | l in choice.links :: row == Relinked(db.media[i], l, choice.how)
  }

  ghost predicate Added(db: Db, m: Message, file: string, choice: Choice, i: int, row: Media) {
    && i !in db.media
    && ((exists l | l in choice.links :: row == PhotoRow(m, file, Some(l), choice.how))
        || (choice.links == [] && row == PhotoRow(m, file, None, None)))
  }

  ghost predicate Attached(db: Db, db': Db, m: Message, file: string, choice: Choice) {
    && db' == db.(media := db'.media, nextMedia := db'.nextMedia) && db.nextMedia <= db'.nextMedia
    && db.media.Keys <= db'.media.Keys
    && (forall i | i in db'.media ::
          && i < db'.nextMedia
          && (|| Untouched(db, i, db'.media[i])
              || Claimed(db, m, choice, i, db'.media[i])
              || Added(db, m, file, choice, i, db'.media[i])))
  }

  ghost predicate Distinct(ids: seq<int>) { forall a, b | 0 <= a < b < |ids| :: ids[a] != ids[b] }

  // The spare rows are still waiting, each listed once.
  ghost predicate SpareWaits(db: Db, m: Message, a: Attaching) {
    && Distinct(a.spare)
    && (forall k | 0 <= k < |a.spare| ::
          && a.spare[k] in db.media && Untouched(db, a.spare[k], db.media[a.spare[k]])
          && db.media[a.spare[k]].messageId == Some(m.id) && db.media[a.spare[k]].incident.None?
          && a.spare[k] in a.db.media && a.db.media[a.spare[k]] == db.media[a.spare[k]])
  }

  lemma AttachNextStep(db: Db, m: Message, file: string, choice: Choice, link: Link, a: Attaching)
    requires Attached(db, a.db, m, file, choice) && SpareWaits(db, m, a) && link in choice.links
    requires forall i | i in db.media :: i < db.nextMedia
    ensures var b := AttachNext(m, file, choice, link, a);
            Attached(db, b.db, m, file, choice) && SpareWaits(db, m, b)
  {
    var b := AttachNext(m, file, choice, link, a);
    if link.incident !in a.have {
      if a.spare != [] {
        var id := a.spare[|a.spare| - 1];
        assert b.db.media[id] == Relinked(db.media[id], link, choice.how);
      } else {
        assert a.db.nextMedia !in db.media;
        assert b.db.media[a.db.nextMedia] == PhotoRow(m, file, Some(link), choice.how);
      }
    }
  }

  lemma {:induction false} AttachAllStep(db: Db, m: Message, file: string, choice: Choice, n: nat, start: Attaching)
    requires n <= |choice.links|
    requires Attached(db, start.db, m, file, choice) && SpareWaits(db, m, start)
    requires forall i | i in db.media :: i < db.nextMedia
    ensures var b := AttachAll(m, file, choice, n, start);
            Attached(db, b.db, m, file, choice) && SpareWaits(db, m, b)
  {
    if n > 0 {
      AttachAllStep(db, m, file, choice, n - 1, start);
      AttachNextStep(db, m, file, choice, choice.links[n - 1], AttachAll(m, file, choice, n - 1, start));
    }
  }

  lemma {:induction false} UnassignedDistinct(db: Db, rows: seq<int>)
    requires forall k | 0 <= k < |rows| :: rows[k] in db.media
    requires Distinct(rows)
    ensures Distinct(Unassigned(db, rows))
  {
    if rows != [] {
      UnassignedDistinct(db, rows[1..]);
      assert rows[0] !in rows[1..];
    }
  }

  lemma StartWaits(db: Db, m: Message, saved: Db)
    requires saved == db.(files := saved.files)
    ensures SpareWaits(saved, m, StartAttaching(saved, Query(RowsOf(db, m.id), m.order.media)))
  {
    var existing := Query(RowsOf(db, m.id), m.order.media);
    UnassignedDistinct(saved, existing);
    var a := StartAttaching(saved, existing);
    forall k | 0 <= k < |a.spare|
      ensures a.spare[k] in RowsOf(db, m.id) && saved.media[a.spare[k]].incident.None?
    {
      assert a.spare[k] in Unassigned(saved, existing);
    }
  }

  // Filing a photo adds rows of its message and claims waiting ones; nothing else changes.
  lemma AttachPhotoStep(db: Db, m: Message, choice: Choice)
    requires forall i | i in db.media :: i < db.nextMedia
    ensures var existing := Query(RowsOf(db, m.id), m.order.media);
            var stored := StoredFile(db, m, existing);
            var db' := AttachPhoto(db, m, choice).db;
            if stored.None? then db' == db else Attached(SaveFile(db, m, existing), db', m, stored.value, choice)
  {
    var existing := Query(RowsOf(db, m.id), m.order.media);
    var stored := StoredFile(db, m, existing);
    var saved := SaveFile(db, m, existing);
    StartWaits(db, m, saved);
    if stored.Some? {
      var start := StartAttaching(saved, existing);
      if !(choice.links == [] && existing == []) {
        AttachAllStep(saved, m, stored.value, choice, |choice.links|, start);
      }
    }
  }
}
