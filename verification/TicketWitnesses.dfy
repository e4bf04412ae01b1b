/** Runs from the empty database in which a promise about tickets fails (backend/main.py:1161-1167, 1790-1836,
    1936-1998, 2189-2250). */
module TicketWitnesses {
  import opened Text
  import opened Classifier
  import opened Rows
  import opened TicketModel
  import opened TicketFiling
  import opened TicketInvariants
  import opened TicketPhotos
  import opened TicketRecords
  import opened TicketGroups
  import TicketOrder
  import TicketStore

  const CFG := Config(false, false, 0.5, 600, {})
  const NO_ORDER := RowOrder(map[], map[], map[])

  // A text with one issue.
  function Report(id: string, group: string): Message {
    Message(id, group, None, None, 0, "x", None, [RawItem("other", 1.0, Some("x"))], map[], None, None, NO_ORDER)
  }

  // A text of which only the second issue counts; the router takes it for an update of ticket 1.
  function Remark(id: string, group: string): Message {
    Message(id, group, None, None, 0, "x", None, [RawItem("other", 0.0, Some("x")), RawItem("other", 1.0, Some("x"))],
            map[1 := SaysUpdate(1)], None, None, NO_ORDER)
  }

  function Photo(id: string, group: string, quoted: Option<string>): Message {
    Message(id, group, None, None, 0, "", quoted, [], map[], Some("f"), None, NO_ORDER)
  }

  function TicketOf(id: string, group: string): Incident {
    Incident(group, None, Some(UNKNOWN), "x", "other", None, "review", 0, Some(id), 0)
  }

  // ---- Filing ----

  lemma NoName(db: Db)
    ensures Learn(db, None, None) == db && ResolveReporterName(db, None, None) == UNKNOWN
  {
  }

  lemma NothingSwept(cfg: Config, db: Db, m: Message, link: Link)
    requires m.phone.None?
    ensures Sweep(cfg, db, m, link, None) == db
  {
    forall i | i in db.media
      ensures i !in Swept(cfg, db, m, None)
    {
    }
    TicketStore.SweepRowByRow(cfg, db, m, link, None);
    hide Sweep;
    assert Sweep(cfg, db, m, link, None).media == db.media;
  }

  lemma ReportIssue(id: string, group: string)
    ensures IssuesOf(CFG, Report(id, group)) == [Issue("other", 1.0, "x")]
  {
  }

  lemma RemarkIssues(id: string, group: string)
    ensures IssuesOf(CFG, Remark(id, group)) == [Issue("other", 0.0, "x"), Issue("other", 1.0, "x")]
  {
  }

  lemma Reported(db: Db, id: string, group: string)
    requires !Recorded(db, id, 0)
    ensures Apply(CFG, db, TextArrives(Report(id, group)))
         == db.(incidents := db.incidents[db.nextIncident := TicketOf(id, group)], nextIncident := db.nextIncident + 1)
  {
    hide IssuesOf, GetOpenTickets, Recorded, TextIngest, Learn, ResolveReporterName, Sweep;
    var m := Report(id, group);
    NoName(db);
    ReportIssue(id, group);
    TicketOrder.TextFiled(CFG, db, m, UNKNOWN, 0);
    var f := FileIssue(CFG, m, UNKNOWN, IssuesOf(CFG, m)[0], 0, db, GetOpenTickets(CFG, db, group, NO_ORDER));
    NothingSwept(CFG, f.db, m, f.link);
  }

  lemma Remarked(db: Db, id: string, group: string)
    requires !Recorded(db, id, 1)
    requires exists t | t in GetOpenTickets(CFG, db, group, NO_ORDER) :: t.id == 1
    ensures Apply(CFG, db, TextArrives(Remark(id, group)))
         == db.(followUps := db.followUps[db.nextFollowUp :=
                  FollowUp(1, None, Some(UNKNOWN), "x", 0, Some(id), 1, true, false)],
                nextFollowUp := db.nextFollowUp + 1)
  {
    hide IssuesOf, GetOpenTickets, Recorded, TextIngest, Learn, ResolveReporterName, Sweep;
    var m := Remark(id, group);
    NoName(db);
    RemarkIssues(id, group);
    TicketOrder.TextFiled(CFG, db, m, UNKNOWN, 1);
    var f := FileIssue(CFG, m, UNKNOWN, IssuesOf(CFG, m)[1], 1, db, GetOpenTickets(CFG, db, group, NO_ORDER));
    NothingSwept(CFG, f.db, m, f.link);
  }

  // A photo without a number follows only its quote.
  lemma Received(db: Db, id: string, group: string, quoted: Option<string>)
    ensures var link := QuotedTarget(db, group, quoted, NO_ORDER);
            Apply(CFG, db, PhotoArrives(Photo(id, group, quoted)))
            == AttachPhoto(db, Photo(id, group, quoted),
                           if link.Some? then Choice([link.value], Some(ByQuote)) else Choice([], None)).db
  {
    hide AttachPhoto, Learn, ResolveReporterName, QuotedTarget;
    var m := Photo(id, group, quoted);
    NoName(db);
    assert FileIssues(CFG, db, m, UNKNOWN, [], None, 0) == Start(CFG, db, m);
  }

  // The photo's first row, or one more on a ticket that has none of its rows.
  lemma RowAdded(db: Db, m: Message, link: Option<Link>)
    requires m.file.Some? && forall i | i in db.media && db.media[i].messageId == Some(m.id) ::
               link.Some? && db.media[i].file == m.file.value
               && db.media[i].incident.Some? && db.media[i].incident.value != link.value.incident
    ensures var choice := if link.Some? then Choice([link.value], Some(ByQuote)) else Choice([], None);
            AttachPhoto(db, m, choice).db
            == NewMedia(db.(files := if RowsOf(db, m.id).Keys == {} then db.files + {m.file.value} else db.files),
                        PhotoRow(m, m.file.value, link, choice.how))
  {
    var existing := Query(RowsOf(db, m.id), m.order.media);
    hide Query;
    assert forall i | i in existing :: i in RowsOf(db, m.id);
    if RowsOf(db, m.id).Keys != {} {
      var i := SomeKey(RowsOf(db, m.id));
      assert i in existing;
    }
    if link.Some? {
      var choice := Choice([link.value], Some(ByQuote));
      var start := StartAttaching(SaveFile(db, m, existing), existing);
      if start.spare != [] {
        var i := SomeElement(start.spare);
        assert false;
      }
      assert AttachAll(m, m.file.value, choice, 0, start) == start;
    }
  }

  lemma SomeElement(ids: seq<int>) returns (i: int)
    requires ids != []
    ensures i in ids
  {
    i := ids[0];
  }

  lemma RunOn(cfg: Config, db: Db, steps: seq<Step>, s: Step)
    ensures Run(cfg, db, steps + [s]) == Apply(cfg, Run(cfg, db, steps), s)
  {
    assert (steps + [s])[..|steps|] == steps;
  }

  lemma StartOfRun(cfg: Config, db: Db)
    ensures Run(cfg, db, []) == db
  {
  }

  // ---- A photo on another group's ticket ----

  const TICKET_A := Db(map[1 := TicketOf("T", "A")], map[], map[], {}, map[], 2, 1, 1)
  const WAITING_B := TICKET_A.(media := map[1 := Media(None, None, "f", 0, Some("B"), None, Some("P"), None)], files := {"f"},
                               nextMedia := 2)

  lemma TicketInA()
    ensures Apply(CFG, EMPTY_DB, TextArrives(Report("T", "A"))) == TICKET_A
  {
    hide Apply;
    Reported(EMPTY_DB, "T", "A");
    assert map[][1 := TicketOf("T", "A")] == map[1 := TicketOf("T", "A")];
  }

  lemma PhotoInB()
    ensures Apply(CFG, TICKET_A, PhotoArrives(Photo("P", "B", None))) == WAITING_B
  {
    hide Apply, AttachPhoto;
    Received(TICKET_A, "P", "B", None);
    NoKeys(RowsOf(TICKET_A, "P"));
    RowAdded(TICKET_A, Photo("P", "B", None), None);
  }

  /** A ticket in group "A", a photo that waits in group "B", and the same photo's id again from group "A", quoting the
      ticket: the row of group "B" lands on the ticket of group "A". */
  lemma ReusedIdBreaksIsolation()
    ensures var steps := [TextArrives(Report("T", "A")), PhotoArrives(Photo("P", "B", None))];
            var db := Run(CFG, EMPTY_DB, steps);
            && Coherent(db) && Isolated(db) && OneHolder(db)
            && !Isolated(Apply(CFG, db, PhotoArrives(Photo("P", "A", Some("T")))))
  {
    hide Apply, Run;
    var first, second := TextArrives(Report("T", "A")), PhotoArrives(Photo("P", "B", None));
    TicketInA();
    PhotoInB();
    StartOfRun(CFG, EMPTY_DB);
    RunOn(CFG, EMPTY_DB, [], first);
    RunOn(CFG, EMPTY_DB, [first], second);
    assert [] + [first] == [first] && [first] + [second] == [first, second];
    CrossesGroups();
  }

  lemma CrossesGroups()
    ensures Coherent(WAITING_B) && Isolated(WAITING_B) && OneHolder(WAITING_B)
    ensures !Isolated(Apply(CFG, WAITING_B, PhotoArrives(Photo("P", "A", Some("T")))))
  {
    var again := Photo("P", "A", Some("T"));
    hide PhotoIngest;
    assert WAITING_B.media[1].messageId == Some(again.id);
    assert WaitsElsewhere(WAITING_B, again);
    assert 1 in QuotedIncidents(WAITING_B, "A", "T");
    NoName(WAITING_B);
    PhotoInto(CFG, WAITING_B, again, UNKNOWN);
  }

  // ---- A photo twice on one ticket, an issue twice or not at all ----

  const REPLY := ReplyTo(1, Some("R"), "staff", "x", 0)
  const REPLIED := FollowUp(1, None, Some("staff"), "x", 0, Some("R"), 0, false, false)

  const TWO_TICKETS := Db(map[1 := TicketOf("T", "A"), 2 := TicketOf("U", "A")], map[], map[], {}, map[], 3, 1, 1)
  const WITH_REPLY := TWO_TICKETS.(followUps := map[1 := REPLIED], nextFollowUp := 2)

  function RowOn(ticket: int, followUp: Option<int>): Media {
    Media(Some(ticket), followUp, "f", 0, Some("A"), None, Some("P"), Some(ByQuote))
  }

  const ON_REPLY := WITH_REPLY.(media := map[1 := RowOn(1, Some(1))], files := {"f"}, nextMedia := 2)
  const ON_BOTH := WITH_REPLY.(media := map[1 := RowOn(1, Some(1)), 2 := RowOn(2, None)], files := {"f"}, nextMedia := 3)

  lemma SecondTicket()
    ensures Apply(CFG, TICKET_A, TextArrives(Report("U", "A"))) == TWO_TICKETS
  {
    hide Apply;
    assert forall i | i in TICKET_A.incidents :: TICKET_A.incidents[i].messageId != Some("U");
    Reported(TICKET_A, "U", "A");
  }

  lemma Replying()
    ensures Apply(CFG, TWO_TICKETS, REPLY) == WITH_REPLY
  {
    assert map[][1 := REPLIED] == map[1 := REPLIED];
  }

  lemma QuotesReply()
    ensures QuotedTarget(WITH_REPLY, "A", Some("R"), NO_ORDER) == Some(Link(1, Some(1)))
  {
    hide First;
    NoKeys(QuotedIncidents(WITH_REPLY, "A", "R"));
    assert 1 in QuotedFollowUps(WITH_REPLY, "A", "R");
    assert IsFirst(QuotedFollowUps(WITH_REPLY, "A", "R"), NO_ORDER.followUps,
                   First(QuotedFollowUps(WITH_REPLY, "A", "R"), NO_ORDER.followUps));
  }

  lemma QuotesSecond()
    ensures QuotedTarget(ON_REPLY, "A", Some("U"), NO_ORDER) == Some(Link(2, None))
  {
    hide First;
    assert 2 in QuotedIncidents(ON_REPLY, "A", "U");
    assert IsFirst(QuotedIncidents(ON_REPLY, "A", "U"), NO_ORDER.incidents,
                   First(QuotedIncidents(ON_REPLY, "A", "U"), NO_ORDER.incidents));
  }

  lemma PhotoOnReply()
    ensures Apply(CFG, WITH_REPLY, PhotoArrives(Photo("P", "A", Some("R")))) == ON_REPLY
  {
    hide Apply, AttachPhoto, QuotedTarget;
    QuotesReply();
    Received(WITH_REPLY, "P", "A", Some("R"));
    NoKeys(RowsOf(WITH_REPLY, "P"));
    RowAdded(WITH_REPLY, Photo("P", "A", Some("R")), Some(Link(1, Some(1))));
    assert map[][1 := RowOn(1, Some(1))] == map[1 := RowOn(1, Some(1))];
  }

  lemma PhotoOnBoth()
    ensures Apply(CFG, ON_REPLY, PhotoArrives(Photo("P", "A", Some("U")))) == ON_BOTH
  {
    hide Apply, AttachPhoto, QuotedTarget;
    QuotesSecond();
    Received(ON_REPLY, "P", "A", Some("U"));
    assert 1 in RowsOf(ON_REPLY, "P");
    RowAdded(ON_REPLY, Photo("P", "A", Some("U")), Some(Link(2, None)));
    assert ON_REPLY.media[2 := RowOn(2, None)] == ON_BOTH.media;
  }

  lemma TwoTicketsRun()
    ensures Run(CFG, EMPTY_DB, [TextArrives(Report("T", "A")), TextArrives(Report("U", "A"))]) == TWO_TICKETS
  {
    hide Apply, Run;
    var first, second := TextArrives(Report("T", "A")), TextArrives(Report("U", "A"));
    TicketInA();
    SecondTicket();
    StartOfRun(CFG, EMPTY_DB);
    RunOn(CFG, EMPTY_DB, [], first);
    RunOn(CFG, EMPTY_DB, [first], second);
    assert [] + [first] == [first] && [first] + [second] == [first, second];
  }

  lemma OnBothRun()
    ensures Run(CFG, EMPTY_DB, [TextArrives(Report("T", "A")), TextArrives(Report("U", "A"))] + [REPLY]
                               + [PhotoArrives(Photo("P", "A", Some("R")))] + [PhotoArrives(Photo("P", "A", Some("U")))])
         == ON_BOTH
  {
    hide Apply, Run;
    var reports := [TextArrives(Report("T", "A")), TextArrives(Report("U", "A"))];
    TwoTicketsRun();
    Replying();
    PhotoOnReply();
    PhotoOnBoth();
    RunOn(CFG, EMPTY_DB, reports, REPLY);
    RunOn(CFG, EMPTY_DB, reports + [REPLY], PhotoArrives(Photo("P", "A", Some("R"))));
    RunOn(CFG, EMPTY_DB, reports + [REPLY] + [PhotoArrives(Photo("P", "A", Some("R")))],
          PhotoArrives(Photo("P", "A", Some("U"))));
  }

  /** Two tickets, a reply to the first, and a photo that quotes the reply and then, delivered again, the second ticket,
      so that it is on both. Staff moving the reply to the second ticket put the photo there twice; sending one of its
      rows back leaves a row waiting beside a linked one. */
  lemma StaffDoublePhoto()
    ensures var steps := [TextArrives(Report("T", "A")), TextArrives(Report("U", "A"))] + [REPLY]
                         + [PhotoArrives(Photo("P", "A", Some("R")))] + [PhotoArrives(Photo("P", "A", Some("U")))];
            var db := Run(CFG, EMPTY_DB, steps);
            && Coherent(db) && OneHolder(db)
            && !OneHolder(Apply(CFG, db, RelinkFollowUp(1, 2)))
            && !OneHolder(Apply(CFG, db, Assign(1, None)))
  {
    hide Apply, Run;
    OnBothRun();
    assert OfOneMessage(ON_BOTH, 1, 2);
    assert Coherent(ON_BOTH) && OneHolder(ON_BOTH);
    hide Coherent, OneHolder;
    StepOneHolder(CFG, ON_BOTH, RelinkFollowUp(1, 2));
    StepOneHolder(CFG, ON_BOTH, Assign(1, None));
  }

  // ---- Records ----

  const REMARKED := TICKET_A.(followUps := map[1 := FollowUp(1, None, Some(UNKNOWN), "x", 0, Some("V"), 1, true, false)],
                              nextFollowUp := 2)

  lemma OnlyOpenTicket()
    ensures exists t | t in GetOpenTickets(CFG, TICKET_A, "A", NO_ORDER) :: t.id == 1
  {
    hide Query;
    var newest := NewestOpen(TICKET_A, "A");
    assert newest.Keys == {1};
    var ids := Query(newest, NO_ORDER.incidents);
    QueryLength(newest, NO_ORDER.incidents);
    assert |newest| == |newest.Keys| == 1;
    assert ids[0] in newest;
    assert GetOpenTickets(CFG, TICKET_A, "A", NO_ORDER)[0].id == 1;
  }

  lemma RemarkRun()
    ensures Run(CFG, EMPTY_DB, [TextArrives(Report("T", "A")), TextArrives(Remark("V", "A"))]) == REMARKED
  {
    hide Apply, Run, GetOpenTickets;
    var first, second := TextArrives(Report("T", "A")), TextArrives(Remark("V", "A"));
    TicketInA();
    OnlyOpenTicket();
    assert forall i | i in TICKET_A.incidents :: TICKET_A.incidents[i].messageId != Some("V");
    Remarked(TICKET_A, "V", "A");
    assert map[][1 := REMARKED.followUps[1]] == REMARKED.followUps;
    StartOfRun(CFG, EMPTY_DB);
    RunOn(CFG, EMPTY_DB, [], first);
    RunOn(CFG, EMPTY_DB, [first], second);
    assert [] + [first] == [first] && [first] + [second] == [first, second];
  }

  /** A ticket and a text whose second issue is an update of it. Staff making a ticket of that update record it as the
      first issue of its message, so that the second one is not recorded any more. */
  lemma PromotionForgetsIssue()
    ensures var db := Run(CFG, EMPTY_DB, [TextArrives(Report("T", "A")), TextArrives(Remark("V", "A"))]);
            && OneRecord(db) && Recorded(db, "V", 1) && !Recorded(Apply(CFG, db, PromoteFollowUp(1)), "V", 1)
  {
    hide Run;
    RemarkRun();
    assert REMARKED.followUps[1].messageId == Some("V");
    assert InFollowUps(REMARKED, "V", 1);
    assert !InIncidents(REMARKED, "V", 0);
  }

  /** A reply that is given the WhatsApp id of a ticket's own message is a second record of that message. */
  lemma ReplyRecordsTwice()
    ensures var db := Run(CFG, EMPTY_DB, [TextArrives(Report("T", "A")), TextArrives(Report("U", "A"))]);
            && OneRecord(db) && !OneRecord(Apply(CFG, db, ReplyTo(1, Some("T"), "staff", "x", 0)))
  {
    hide Run, Apply;
    TwoTicketsRun();
    assert OneRecord(TWO_TICKETS) && Coherent(TWO_TICKETS);
    assert TWO_TICKETS.incidents[1].messageId == Some("T");
    assert RecordsTwice(TWO_TICKETS, ReplyTo(1, Some("T"), "staff", "x", 0));
    hide OneRecord;
    StepRecordsExactly(CFG, TWO_TICKETS, ReplyTo(1, Some("T"), "staff", "x", 0));
  }
}
