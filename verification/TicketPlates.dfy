/** In fleet mode a message only reaches vehicles whose plate it spells out. */
module TicketPlates {
  import opened Text
  import opened VehiclePlate
  import opened Classifier
  import opened Rows
  import opened TicketModel
  import opened TicketFiling
  import opened TicketInvariants
  import opened TicketRecords

  // The snippet is a scrubbed one, so the plate it resolves to was written by the sender.
  ghost predicate PlateWritten(snippet: string, text: string) {
    forall p | ResolvePlateForIssue(snippet, text) == Some(p) :: p in ExtractPlates(text)
  }

  lemma KeptIssue(raw: seq<RawItem>, text: string, categories: set<string>, fleet: bool, i: nat)
    requires i < |Classify(raw, text, categories, fleet)|
    ensures exists j | 0 <= j < |raw| :: Classify(raw, text, categories, fleet)[i] == CleanItem(raw[j], text, categories, fleet)
  {
    var clean := CleanItems(raw, text, categories, fleet);
    assert Classify(raw, text, categories, fleet)[i] in clean;
  }

  lemma IssuePlateWritten(cfg: Config, m: Message, i: nat)
    requires cfg.fleet && !cfg.lead && i < |IssuesOf(cfg, m)|
    ensures PlateWritten(IssuesOf(cfg, m)[i].snippet, m.text)
  {
    KeptIssue(m.raw, m.text, cfg.categories, true, i);
    var j :| 0 <= j < |m.raw| && IssuesOf(cfg, m)[i] == CleanItem(m.raw[j], m.text, cfg.categories, true);
    OnlyWrittenPlates(if m.raw[j].snippet.Some? then m.raw[j].snippet.value else m.text, m.text);
  }

  // A new ticket carries no plate or one in `text`, and a new follow-up is on a ticket whose
  // plate is in `text`.
  ghost predicate OnPlatesOf(db: Db, db': Db, text: string) {
    && (forall i | i in db'.incidents && i !in db.incidents && db'.incidents[i].plate.Some? ::
          db'.incidents[i].plate.value in ExtractPlates(text))
    && (forall u | u in db'.followUps && u !in db.followUps ::
          var t := db'.followUps[u].incident;
          t in db'.incidents && db'.incidents[t].plate.Some? && db'.incidents[t].plate.value in ExtractPlates(text))
  }

  // The open tickets shown agree with the table.
  ghost predicate OpenAgrees(db: Db, open: seq<OpenTicket>) {
    forall t | t in open :: t.id in db.incidents && db.incidents[t.id].plate == t.plate
  }

  lemma OpenTicketsAgree(cfg: Config, db: Db, group: string, order: RowOrder)
    ensures OpenAgrees(db, GetOpenTickets(cfg, db, group, order))
  {
    var ids := Take(Query(NewestOpen(db, group), order.incidents), cfg.openLimit);
    assert forall k | 0 <= k < |ids| :: ids[k] in NewestOpen(db, group);
    var open := Describe(db, ids);
    assert forall k | 0 <= k < |open| :: open[k].plate == db.incidents[ids[k]].plate;
  }

  lemma FileNextOnPlates(cfg: Config, db0: Db, m: Message, name: string, failAt: Option<nat>, i: nat, p: Progress)
    requires cfg.fleet && !cfg.lead && i < |IssuesOf(cfg, m)|
    requires FiledWell(db0, m, name, p) && OnPlatesOf(db0, p.db, m.text) && OpenAgrees(p.db, p.open)
    ensures var q := FileNext(cfg, m, name, IssuesOf(cfg, m), failAt, i, p);
            OnPlatesOf(db0, q.db, m.text) && OpenAgrees(q.db, q.open)
  {
    hide IssuesOf, ResolvePlateForIssue, ExtractPlates, Recorded, OnPlatesOf, OpenAgrees, AddFollowUp, AddIncident;
    var issue := IssuesOf(cfg, m)[i];
    IssuePlateWritten(cfg, m, i);
    FiledCoherent(db0, m, name, p);
    var routing := RouteIssue(cfg, issue, m.text, p.open, AnswerFor(m, i));
    if routing.ticket.Some? {
      FirstOnPlateIsOpen(p.open, routing.plate.value, issue.category);
      FollowUpOnPlate(db0, p.db, m, name, routing.ticket.value, issue, i, p.open, routing.plate.value);
    } else {
      TicketOnPlate(cfg, db0, p.db, m, name, issue, routing.plate, i, p.open);
    }
  }

  lemma FollowUpOnPlate(db0: Db, db: Db, m: Message, name: string, ticket: int, issue: Issue, i: nat,
                        open: seq<OpenTicket>, plate: string)
    requires OnPlatesOf(db0, db, m.text) && OpenAgrees(db, open) && plate in ExtractPlates(m.text)
    requires exists t | t in open :: t.id == ticket && t.plate == Some(plate)
    ensures var db' := AddFollowUp(db, m, name, ticket, issue, i);
            OnPlatesOf(db0, db', m.text) && OpenAgrees(db', open)
  {
    hide ExtractPlates;
  }

  lemma TicketOnPlate(cfg: Config, db0: Db, db: Db, m: Message, name: string, issue: Issue, plate: Option<string>, i: nat,
                      open: seq<OpenTicket>)
    requires OnPlatesOf(db0, db, m.text) && OpenAgrees(db, open) && Coherent(db)
    requires plate.Some? ==> plate.value in ExtractPlates(m.text)
    ensures var db' := AddIncident(cfg, db, m, name, issue, plate, i);
            && OnPlatesOf(db0, db', m.text)
            && OpenAgrees(db', open + [OpenTicket(db.nextIncident, issue.category, plate)])
  {
    hide ExtractPlates;
  }

  lemma {:induction false} FileIssuesOnPlates(cfg: Config, db: Db, m: Message, name: string, failAt: Option<nat>, n: nat)
    requires cfg.fleet && !cfg.lead && Coherent(db) && n <= |IssuesOf(cfg, m)|
    ensures var p := FileIssues(cfg, db, m, name, IssuesOf(cfg, m), failAt, n);
            OnPlatesOf(db, p.db, m.text) && OpenAgrees(p.db, p.open)
  {
    hide IssuesOf, FileNext, OnPlatesOf, OpenAgrees, FiledWell, Coherent;
    if n == 0 {
      OpenTicketsAgree(cfg, db, m.group, m.order);
      NothingNew(db, m.text);
    } else {
      FileIssuesOnPlates(cfg, db, m, name, failAt, n - 1);
      FileIssuesWell(cfg, db, m, name, IssuesOf(cfg, m), failAt, n - 1);
      FileNextOnPlates(cfg, db, m, name, failAt, n - 1, FileIssues(cfg, db, m, name, IssuesOf(cfg, m), failAt, n - 1));
    }
  }

  lemma NothingNew(db: Db, text: string)
    ensures OnPlatesOf(db, db, text)
  {
  }

  lemma SameTablesPlates(db: Db, db1: Db, db2: Db, text: string)
    requires db2.incidents == db1.incidents && db2.followUps == db1.followUps && OnPlatesOf(db, db1, text)
    ensures OnPlatesOf(db, db2, text)
  {
  }

  /** In fleet mode, whatever the language model answers, the plate a new ticket is filed under
      is one the sender wrote, and a new follow-up joins a ticket of a plate the sender wrote. */
  lemma FleetPlatesAreWritten(cfg: Config, db: Db, s: Step, name: string)
    requires cfg.fleet && !cfg.lead && IsDelivery(s) && Coherent(db)
    ensures OnPlatesOf(db, Deliver(cfg, db, s, name).0, s.m.text)
  {
    hide IssuesOf, FileIssues, OnPlatesOf, Deliver, Coherent;
    var issues := IngestedIssues(cfg, s);
    var failAt := if s.TextArrives? then s.m.failAt else None;
    var p := FileIssues(cfg, db, s.m, name, issues, failAt, |issues|);
    var db' := Deliver(cfg, db, s, name).0;
    DeliverTables(cfg, db, s, name);
    NothingNew(db, s.m.text);
    if issues == [] {
      FileNothing(cfg, db, s.m, name, failAt);
      SameTablesPlates(db, db, db', s.m.text);
    } else {
      FileIssuesOnPlates(cfg, db, s.m, name, failAt, |issues|);
      if AnySurvivor(cfg, issues) || s.PhotoArrives? {
        SameTablesPlates(db, p.db, db', s.m.text);
      } else {
        SameTablesPlates(db, db, db', s.m.text);
      }
    }
  }

  lemma FileNothing(cfg: Config, db: Db, m: Message, name: string, failAt: Option<nat>)
    ensures FileIssues(cfg, db, m, name, [], failAt, 0).db == db
  {
  }
}
