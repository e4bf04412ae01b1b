/** A text and the sender's photos around it end up together in whatever order they arrive, and whatever the
    other senders do in between. */
module TicketOrder {
  import opened Text
  import opened Classifier
  import opened Rows
  import opened TicketModel
  import opened TicketFiling
  import opened TicketInvariants
  import opened TicketBystanders

  // ---- The situation ----

  // Exactly the issue `k` of the text survives, and its commit goes through.
  ghost predicate SingleIssue(cfg: Config, text: Message, k: nat) {
    var issues := IssuesOf(cfg, text);
    && k < |issues| && Survives(cfg, issues[k])
    && (forall i | 0 <= i < |issues| && i != k :: !Survives(cfg, issues[i]))
    && text.failAt != Some(k)
  }

  // A photo without caption or quote, sent by the text's sender within the window of the text.
  ghost predicate PlainPhoto(cfg: Config, text: Message, q: Message) {
    && q.group == text.group && q.phone == text.phone && q.phone.Some?
    && q.text == "" && q.quoted.None? && q.file.Some?
    && InWindow(cfg, text.at, q.at)
  }

  // The messages `ids` are the sender's; the text is one and the photos are others.
  ghost predicate Album(cfg: Config, text: Message, photos: seq<Message>, ids: set<string>) {
    && text.id in ids && text.phone.Some?
    && forall k | 0 <= k < |photos| :: PlainPhoto(cfg, text, photos[k]) && photos[k].id in ids
  }

  // A row of the sender that waits near the text.
  ghost predicate Waits(cfg: Config, text: Message, p: Media) {
    OfSender(text, p) && p.incident.None? && InWindow(cfg, text.at, p.at)
  }

  // A photo of the sender that a photo at time `at` could follow.
  ghost predicate Leads(cfg: Config, text: Message, p: Media, at: int) {
    OfSender(text, p) && p.incident.Some? && p.messageId.Some? && InWindow(cfg, at, p.at)
  }

  // The sender has no ticket, follow-up or linked photo near the photo; its own rows, if any, wait.
  ghost predicate NothingNear(cfg: Config, db: Db, text: Message, q: Message) {
    && NearIncidents(cfg, db, q).Keys == {} && NearFollowUps(cfg, db, q).Keys == {}
    && (forall i | i in db.media :: !Leads(cfg, text, db.media[i], q.at))
    && (forall i | i in db.media && db.media[i].messageId == Some(q.id) :: Waits(cfg, text, db.media[i]))
  }

  // Before the text: its issue is not recorded, and there is nothing near that its photos could follow.
  ghost predicate Expected(cfg: Config, db: Db, text: Message, photos: seq<Message>, ids: set<string>, k: nat) {
    && Coherent(db) && SendersOwn(db, text, ids) && !Recorded(db, text.id, k)
    && forall j | 0 <= j < |photos| :: NothingNear(cfg, db, text, photos[j])
  }

  // The ticket and follow-up that the text creates, as the router decides on these tables.
  ghost function TextLink(cfg: Config, db: Db, text: Message, k: nat): Link
    requires k < |IssuesOf(cfg, text)|
  {
    var open := GetOpenTickets(cfg, db, text.group, text.order);
    var ticket := RouteIssue(cfg, IssuesOf(cfg, text)[k], text.text, open, AnswerFor(text, k)).ticket;
    if ticket.Some? then Link(ticket.value, Some(db.nextFollowUp)) else Link(db.nextIncident, None)
  }

  ghost predicate HasRow(db: Db, id: string) { RowsOf(db, id).Keys != {} }

  lemma RowStays(db: Db, db': Db, id: string)
    requires HasRow(db, id)
    requires forall i | i in db.media :: i in db'.media && db'.media[i].messageId == db.media[i].messageId
    ensures HasRow(db', id)
  {
    var i := SomeKey(RowsOf(db, id));
    assert i in RowsOf(db', id);
  }

  // ---- Photos are filed by proximity or wait ----

  lemma PlainChoice(cfg: Config, db: Db, text: Message, q: Message, name: string)
    requires PlainPhoto(cfg, text, q)
    ensures var near := ProximityTarget(cfg, db, q);
            PhotoIngest(cfg, db, q, name).0 ==
              AttachPhoto(db, q, if near.Some? then Choice([near.value], Some(ByProximity)) else Choice([], None)).db
  {
    hide AttachPhoto, ProximityTarget;
    assert FileIssues(cfg, db, q, name, [], None, 0) == Start(cfg, db, q);
  }

  lemma SameTablesNear(cfg: Config, db: Db, db': Db, q: Message)
    requires db'.incidents == db.incidents && db'.followUps == db.followUps
    ensures NearIncidents(cfg, db', q) == NearIncidents(cfg, db, q)
    ensures NearFollowUps(cfg, db', q) == NearFollowUps(cfg, db, q)
  {
    assert forall i :: InGroup(db', i, q.group) <==> InGroup(db, i, q.group);
  }

  lemma NoTarget(cfg: Config, db: Db, text: Message, q: Message)
    requires PlainPhoto(cfg, text, q) && NothingNear(cfg, db, text, q)
    ensures ProximityTarget(cfg, db, q) == None
  {
    hide Query;
    forall i
      ensures i !in NearMedia(cfg, db, q)
    {
      if i in db.media {
        assert !Leads(cfg, text, db.media[i], q.at);
      }
    }
    if Candidates(cfg, db, q) != [] {
      CandidateSource(cfg, db, q, Candidates(cfg, db, q)[0]);
    }
  }

  lemma KeepUnassigned(db: Db, q: Message)
    requires q.file.Some? && forall i | i in db.media :: i < db.nextMedia
    ensures var db' := AttachPhoto(db, q, Choice([], None)).db;
            if HasRow(db, q.id) then db' == db
            else db' == NewMedia(db.(files := db.files + {q.file.value}), PhotoRow(q, q.file.value, None, None))
    ensures HasRow(AttachPhoto(db, q, Choice([], None)).db, q.id)
  {
    var existing := Query(RowsOf(db, q.id), q.order.media);
    var db' := AttachPhoto(db, q, Choice([], None)).db;
    if HasRow(db, q.id) {
      hide Query;
      var i := SomeKey(RowsOf(db, q.id));
      assert i in existing;
      assert AttachAll(q, StoredFile(db, q, existing).value, Choice([], None), 0, StartAttaching(db, existing)).db == db;
    } else {
      assert existing == [];
      hide Query;
      assert db.nextMedia in RowsOf(db', q.id);
    }
  }

  lemma PhotoWaits(cfg: Config, db: Db, text: Message, photos: seq<Message>, ids: set<string>, k: nat, j: nat, name: string)
    requires Album(cfg, text, photos, ids) && j < |photos| && Expected(cfg, db, text, photos, ids, k)
    ensures var db' := PhotoIngest(cfg, db, photos[j], name).0;
            && Expected(cfg, db', text, photos, ids, k) && HasRow(db', photos[j].id)
            && db'.incidents == db.incidents && db'.followUps == db.followUps
            && db'.nextIncident == db.nextIncident && db'.nextFollowUp == db.nextFollowUp
            && forall i | i in db.media :: i in db'.media && db'.media[i].messageId == db.media[i].messageId
  {
    hide AttachPhoto, ProximityTarget, PhotoIngest, RowsOf, Coherent, Expected;
    var q := photos[j];
    ExpectedParts(cfg, db, text, photos, ids, k, j);
    NoTarget(cfg, db, text, q);
    PlainChoice(cfg, db, text, q, name);
    PhotoCoherent(cfg, db, q, name);
    BelowNext(db);
    KeepUnassigned(db, q);
    var db' := PhotoIngest(cfg, db, q, name).0;
    if !HasRow(db, q.id) {
      WaitingRowAdded(cfg, db, db', text, photos, ids, k, q);
    }
  }

  lemma ExpectedParts(cfg: Config, db: Db, text: Message, photos: seq<Message>, ids: set<string>, k: nat, j: nat)
    requires j < |photos| && Expected(cfg, db, text, photos, ids, k)
    ensures Coherent(db) && NothingNear(cfg, db, text, photos[j])
  {
  }

  lemma WaitingRowAdded(cfg: Config, db: Db, db': Db, text: Message, photos: seq<Message>, ids: set<string>, k: nat,
                        q: Message)
    requires Album(cfg, text, photos, ids) && Expected(cfg, db, text, photos, ids, k) && q in photos && q.file.Some?
    requires db' == NewMedia(db.(files := db.files + {q.file.value}), PhotoRow(q, q.file.value, None, None))
    requires Coherent(db')
    ensures Expected(cfg, db', text, photos, ids, k)
  {
    hide Coherent, NearIncidents, NearFollowUps;
    assert Waits(cfg, text, db'.media[db.nextMedia]);
    forall j | 0 <= j < |photos|
      ensures NothingNear(cfg, db', text, photos[j])
    {
      SameTablesNear(cfg, db, db', photos[j]);
    }
  }

  // ---- The text is filed where the router sends it ----

  lemma {:induction false} OnlySurvivorFiled(cfg: Config, db: Db, text: Message, name: string, k: nat, n: nat)
    requires SingleIssue(cfg, text, k) && !Recorded(db, text.id, k) && n <= |IssuesOf(cfg, text)|
    ensures var issues := IssuesOf(cfg, text);
            var p := FileIssues(cfg, db, text, name, issues, text.failAt, n);
            var f := FileIssue(cfg, text, name, issues[k], k, db, GetOpenTickets(cfg, db, text.group, text.order));
            if n <= k then p == Start(cfg, db, text)
            else p.db == f.db && p.filed == [Target(issues[k].confidence, f.link)] && !p.failed && p.skipped == 0
  {
    hide IssuesOf, GetOpenTickets, FileIssue, Recorded;
    if n > 0 {
      OnlySurvivorFiled(cfg, db, text, name, k, n - 1);
    }
  }

  lemma TextFiled(cfg: Config, db: Db, text: Message, name: string, k: nat)
    requires SingleIssue(cfg, text, k) && !Recorded(db, text.id, k)
    ensures var issues := IssuesOf(cfg, text);
            var f := FileIssue(cfg, text, name, issues[k], k, db, GetOpenTickets(cfg, db, text.group, text.order));
            && TextIngest(cfg, db, text, name).0 == Sweep(cfg, f.db, text, f.link, text.quoted)
            && f.link == TextLink(cfg, db, text, k)
  {
    hide IssuesOf, GetOpenTickets, Recorded, FileIssues, Sweep, PlateTarget, RouteIssue, AnswerFor;
    OnlySurvivorFiled(cfg, db, text, name, k, |IssuesOf(cfg, text)|);
  }

  lemma SameTextLink(cfg: Config, db: Db, db': Db, text: Message, k: nat)
    requires SameTickets(db, db') && k < |IssuesOf(cfg, text)|
    ensures TextLink(cfg, db', text, k) == TextLink(cfg, db, text, k)
  {
    hide IssuesOf, RouteIssue, GetOpenTickets, AnswerFor;
    SameTicketsOpen(cfg, db, db', text.group, text.order);
  }

  // ---- After the text ----

  // Whatever the sender recorded near the photo `q` is the text's own record, and it is there.
  ghost predicate OnlyTextNear(cfg: Config, db: Db, q: Message, link: Link) {
    && (forall i | i in NearIncidents(cfg, db, q) :: link == Link(i, None))
    && (forall u | u in NearFollowUps(cfg, db, q) :: link == Link(db.followUps[u].incident, Some(u)))
    && (if link.followUp.None? then link.incident in NearIncidents(cfg, db, q)
        else link.followUp.value in NearFollowUps(cfg, db, q))
  }

  ghost predicate LinkedTo(p: Media, link: Link) { p.incident == Some(link.incident) && p.followUp == link.followUp }

  // The sender's linked photos near `q` are on the text's link.
  ghost predicate MediaFollow(cfg: Config, db: Db, text: Message, q: Message, link: Link) {
    forall i | i in db.media && Leads(cfg, text, db.media[i], q.at) :: LinkedTo(db.media[i], link)
  }

  ghost predicate RowsFollow(db: Db, id: string, link: Link) {
    forall i | i in db.media && db.media[i].messageId == Some(id) :: LinkedTo(db.media[i], link)
  }

  // The record of the text's issue `k`.
  ghost predicate IsRecord(db: Db, text: Message, k: nat, link: Link) {
    if link.followUp.None? then
      var t := link.incident;
      t in db.incidents && db.incidents[t].messageId == Some(text.id) && db.incidents[t].issueIndex == k
    else
      var u := link.followUp.value;
      && u in db.followUps && db.followUps[u].messageId == Some(text.id) && db.followUps[u].issueIndex == k
      && db.followUps[u].incident == link.incident
  }

  // After the text: all that is near a photo leads to the text's record.
  ghost predicate Settled(cfg: Config, db: Db, text: Message, photos: seq<Message>, ids: set<string>, k: nat, link: Link) {
    && Coherent(db) && SendersOwn(db, text, ids) && IsRecord(db, text, k, link)
    && (forall j | 0 <= j < |photos| ::
          && OnlyTextNear(cfg, db, photos[j], link)
          && MediaFollow(cfg, db, text, photos[j], link)
          && RowsFollow(db, photos[j].id, link))
  }

  lemma NearestIsText(cfg: Config, db: Db, text: Message, q: Message, link: Link)
    requires PlainPhoto(cfg, text, q) && OnlyTextNear(cfg, db, q, link) && MediaFollow(cfg, db, text, q, link)
    ensures ProximityTarget(cfg, db, q) == Some(link)
  {
    hide Query;
    CandidateOf(cfg, db, q, link);
    var c := Nearest(Candidates(cfg, db, q), q.at);
    CandidateSource(cfg, db, q, c);
    assert forall i | i in NearMedia(cfg, db, q) :: Leads(cfg, text, db.media[i], q.at);
  }

  lemma CandidateOf(cfg: Config, db: Db, q: Message, link: Link)
    requires OnlyTextNear(cfg, db, q, link)
    ensures Candidates(cfg, db, q) != []
  {
    if link.followUp.None? {
      assert link.incident in Query(NearIncidents(cfg, db, q), q.order.incidents);
    } else {
      assert link.followUp.value in Query(NearFollowUps(cfg, db, q), q.order.followUps);
    }
  }

  // The text's record is near every photo of the album, and nothing else of the sender is.
  lemma TextIsNear(cfg: Config, db: Db, filed: Db, text: Message, name: string, k: nat, q: Message)
    requires Coherent(db) && k < |IssuesOf(cfg, text)| && PlainPhoto(cfg, text, q) && NothingNear(cfg, db, text, q)
    requires filed == FileIssue(cfg, text, name, IssuesOf(cfg, text)[k], k, db,
                                GetOpenTickets(cfg, db, text.group, text.order)).db
    ensures OnlyTextNear(cfg, filed, q, TextLink(cfg, db, text, k))
  {
    hide IssuesOf, RouteIssue, GetOpenTickets, AnswerFor;
    var issue, open := IssuesOf(cfg, text)[k], GetOpenTickets(cfg, db, text.group, text.order);
    var routing := RouteIssue(cfg, issue, text.text, open, AnswerFor(text, k));
    if routing.ticket.Some? {
      RoutedToOpen(cfg, issue, text.text, open, AnswerFor(text, k));
      FollowUpIsNear(cfg, db, text, name, k, issue, routing.ticket.value, q);
    } else {
      TicketIsNear(cfg, db, text, name, k, issue, routing.plate, q);
    }
  }

  lemma FollowUpIsNear(cfg: Config, db: Db, text: Message, name: string, k: nat, issue: Issue, ticket: int, q: Message)
    requires Coherent(db) && InGroup(db, ticket, text.group) && PlainPhoto(cfg, text, q) && NothingNear(cfg, db, text, q)
    ensures OnlyTextNear(cfg, AddFollowUp(db, text, name, ticket, issue, k), q, Link(ticket, Some(db.nextFollowUp)))
  {
    var db' := AddFollowUp(db, text, name, ticket, issue, k);
    assert NearIncidents(cfg, db', q) == NearIncidents(cfg, db, q);
    forall u | u in NearFollowUps(cfg, db', q)
      ensures u == db.nextFollowUp
    {
      assert u in db.followUps ==> u in NearFollowUps(cfg, db, q);
    }
  }

  lemma TicketIsNear(cfg: Config, db: Db, text: Message, name: string, k: nat, issue: Issue, plate: Option<string>,
                     q: Message)
    requires Coherent(db) && PlainPhoto(cfg, text, q) && NothingNear(cfg, db, text, q)
    ensures OnlyTextNear(cfg, AddIncident(cfg, db, text, name, issue, plate, k), q, Link(db.nextIncident, None))
  {
    var db' := AddIncident(cfg, db, text, name, issue, plate, k);
    forall i | i in NearIncidents(cfg, db', q)
      ensures i == db.nextIncident
    {
      assert i in db.incidents ==> i in NearIncidents(cfg, db, q);
    }
    forall u | u in NearFollowUps(cfg, db', q)
      ensures u in NearFollowUps(cfg, db, q)
    {
    }
  }

  // The sweep links the sender's waiting photos, so that no row near the photo points elsewhere.
  lemma SweepSettles(cfg: Config, db: Db, text: Message, link: Link, q: Message)
    requires text.phone.Some? && PlainPhoto(cfg, text, q)
    requires forall i | i in db.media :: !Leads(cfg, text, db.media[i], q.at)
    requires forall i | i in db.media && db.media[i].messageId == Some(q.id) :: Waits(cfg, text, db.media[i])
    ensures var db' := Sweep(cfg, db, text, link, text.quoted);
            MediaFollow(cfg, db', text, q, link) && RowsFollow(db', q.id, link)
  {
    var db' := Sweep(cfg, db, text, link, text.quoted);
    forall i | i in db'.media
      ensures i in Swept(cfg, db, text, text.quoted) ==> LinkedTo(db'.media[i], link)
      ensures i !in Swept(cfg, db, text, text.quoted) ==> db'.media[i] == db.media[i]
    {
    }
    forall i | i in db'.media && db'.media[i].messageId == Some(q.id)
      ensures LinkedTo(db'.media[i], link)
    {
      assert i in Swept(cfg, db, text, text.quoted);
    }
  }

  lemma SweepRows(cfg: Config, db: Db, m: Message, link: Link, quoted: Option<string>)
    ensures var db' := Sweep(cfg, db, m, link, quoted);
            && db'.incidents == db.incidents && db'.followUps == db.followUps && db'.media.Keys == db.media.Keys
            && forall i | i in db.media ::
                 && db'.media[i].messageId == db.media[i].messageId
                 && db'.media[i].group == db.media[i].group && db'.media[i].phone == db.media[i].phone
  {
  }

  /** The text settles the album: it is filed where the router sends it, and the photos that wait go along. */
  lemma TextSettles(cfg: Config, db: Db, text: Message, photos: seq<Message>, ids: set<string>, k: nat, name: string)
    requires Album(cfg, text, photos, ids) && SingleIssue(cfg, text, k) && Expected(cfg, db, text, photos, ids, k)
    ensures var db' := TextIngest(cfg, db, text, name).0;
            && Settled(cfg, db', text, photos, ids, k, TextLink(cfg, db, text, k))
            && forall i | i in db.media :: i in db'.media && db'.media[i].messageId == db.media[i].messageId
  {
    hide TextIngest, GetOpenTickets, IssuesOf, Sweep, NearIncidents, NearFollowUps, OnlyTextNear, MediaFollow, RowsFollow,
         RouteIssue, Recorded, Coherent, PlainPhoto, AnswerFor, Leads, Waits;
    TextFiled(cfg, db, text, name, k);
    TextCoherent(cfg, db, text, name);
    var link := TextLink(cfg, db, text, k);
    var filed := FileIssue(cfg, text, name, IssuesOf(cfg, text)[k], k, db,
                           GetOpenTickets(cfg, db, text.group, text.order)).db;
    var db' := Sweep(cfg, filed, text, link, text.quoted);
    SweepRows(cfg, filed, text, link, text.quoted);
    forall j | 0 <= j < |photos|
      ensures OnlyTextNear(cfg, db', photos[j], link)
      ensures MediaFollow(cfg, db', text, photos[j], link) && RowsFollow(db', photos[j].id, link)
    {
      TextIsNear(cfg, db, filed, text, name, k, photos[j]);
      SameTablesOnlyText(cfg, filed, db', photos[j], link);
      SweepSettles(cfg, filed, text, link, photos[j]);
    }
  }

  lemma SameTablesOnlyText(cfg: Config, db: Db, db': Db, q: Message, link: Link)
    requires db'.incidents == db.incidents && db'.followUps == db.followUps && OnlyTextNear(cfg, db, q, link)
    ensures OnlyTextNear(cfg, db', q, link)
  {
    SameTablesNear(cfg, db, db', q);
  }

  // ---- Photos after the text ----

  // A photo after the text goes where the text went.
  lemma PhotoFollows(cfg: Config, db: Db, text: Message, photos: seq<Message>, ids: set<string>, k: nat, link: Link, j: nat,
                     name: string)
    requires Album(cfg, text, photos, ids) && j < |photos| && Settled(cfg, db, text, photos, ids, k, link)
    ensures var db' := PhotoIngest(cfg, db, photos[j], name).0;
            && Settled(cfg, db', text, photos, ids, k, link) && HasRow(db', photos[j].id)
            && forall i | i in db.media :: i in db'.media && db'.media[i].messageId == db.media[i].messageId
  {
    hide AttachPhoto, ProximityTarget, PhotoIngest, Query, OnlyTextNear, MediaFollow, RowsFollow, HasRow, Coherent,
         SendersOwn;
    var q := photos[j];
    NearestIsText(cfg, db, text, q, link);
    PlainChoice(cfg, db, text, q, name);
    NearIsValid(cfg, db, q, link);
    var db' := AttachPhoto(db, q, Choice([link], Some(ByProximity))).db;
    PhotoCoherent(cfg, db, q, name);
    AttachLinks(db, q, link);
    AttachKeepsOwn(db, db', text, ids, q, link);
    forall i | 0 <= i < |photos|
      ensures OnlyTextNear(cfg, db', photos[i], link)
      ensures MediaFollow(cfg, db', text, photos[i], link) && RowsFollow(db', photos[i].id, link)
    {
      StillFollows(cfg, db, db', text, photos[i], link);
    }
  }

  lemma NearIsValid(cfg: Config, db: Db, q: Message, link: Link)
    requires Coherent(db) && OnlyTextNear(cfg, db, q, link)
    ensures ValidLink(db, link.incident, link.followUp)
  {
    if link.followUp.Some? {
      var u := link.followUp.value;
      assert u in NearFollowUps(cfg, db, q) && u in db.followUps;
      assert link == Link(db.followUps[u].incident, Some(u));
    }
  }

  ghost predicate SamePlace(p: Media, p': Media) { p'.group == p.group && p'.phone == p.phone }

  // Rows keep message and sender, and their link or get this one; new rows are of photo `q`.
  ghost predicate LinkedRows(db: Db, db': Db, q: Message, link: Link) {
    && (forall i | i in db.media ::
          i in db'.media && db'.media[i].messageId == db.media[i].messageId && SamePlace(db.media[i], db'.media[i]))
    && (forall i | i in db'.media :: (i in db.media && db'.media[i] == db.media[i]) || LinkedTo(db'.media[i], link))
    && (forall i | i in db'.media && i !in db.media ::
          db'.media[i].messageId == Some(q.id) && db'.media[i].group == Some(q.group) && db'.media[i].phone == q.phone)
  }

  // Filing a photo on one link: every row keeps its link or gets this one, and a row is there.
  lemma AttachLinks(db: Db, q: Message, link: Link)
    requires Coherent(db) && q.file.Some? && ValidLink(db, link.incident, link.followUp)
    ensures var db' := AttachPhoto(db, q, Choice([link], Some(ByProximity))).db;
            && db'.incidents == db.incidents && db'.followUps == db.followUps
            && HasRow(db', q.id)
            && LinkedRows(db, db', q, link)
  {
    var choice := Choice([link], Some(ByProximity));
    var existing := Query(RowsOf(db, q.id), q.order.media);
    var stored := StoredFile(db, q, existing);
    var saved := SaveFile(db, q, existing);
    var a := AttachPhoto(db, q, choice);
    if existing != [] {
      assert existing[0] in RowsOf(db, q.id);
    } else {
      var start := StartAttaching(saved, existing);
      assert AttachAll(q, stored.value, choice, 0, start) == start;
      assert a == AttachNext(q, stored.value, choice, link, start);
      assert saved.nextMedia in RowsOf(a.db, q.id);
    }
    hide AttachPhoto, Query;
    AttachPhotoStep(db, q, choice);
    AttachedLinks(saved, a.db, q, stored.value, link);
    if existing != [] {
      assert existing[0] in RowsOf(a.db, q.id);
    }
  }

  lemma AttachedLinks(db: Db, db': Db, q: Message, file: string, link: Link)
    requires Attached(db, db', q, file, Choice([link], Some(ByProximity)))
    ensures LinkedRows(db, db', q, link)
  {
    var choice := Choice([link], Some(ByProximity));
    forall i | i in db'.media
      ensures (i in db.media && db'.media[i] == db.media[i]) || LinkedTo(db'.media[i], link)
      ensures i in db.media ==> db'.media[i].messageId == db.media[i].messageId && SamePlace(db.media[i], db'.media[i])
      ensures i !in db.media ==> db'.media[i] == PhotoRow(q, file, Some(link), choice.how)
    {
      if Claimed(db, q, choice, i, db'.media[i]) {
      } else if Added(db, q, file, choice, i, db'.media[i]) {
      } else {
        assert Untouched(db, i, db'.media[i]);
      }
    }
  }

  lemma AttachKeepsOwn(db: Db, db': Db, text: Message, ids: set<string>, q: Message, link: Link)
    requires SendersOwn(db, text, ids) && LinkedRows(db, db', q, link)
    requires q.id in ids && q.group == text.group && q.phone == text.phone
    ensures SendersOwn(db', text, ids)
  {
  }

  lemma StillFollows(cfg: Config, db: Db, db': Db, text: Message, q: Message, link: Link)
    requires db'.incidents == db.incidents && db'.followUps == db.followUps
    requires forall i | i in db'.media :: (i in db.media && db'.media[i] == db.media[i]) || LinkedTo(db'.media[i], link)
    requires OnlyTextNear(cfg, db, q, link) && MediaFollow(cfg, db, text, q, link) && RowsFollow(db, q.id, link)
    ensures OnlyTextNear(cfg, db', q, link) && MediaFollow(cfg, db', text, q, link) && RowsFollow(db', q.id, link)
  {
    SameTablesNear(cfg, db, db', q);
  }

  // ---- What others do in between ----

  lemma BesideNear(cfg: Config, db: Db, db': Db, text: Message, ids: set<string>, q: Message)
    requires Coherent(db) && Beside(db, db', text, ids) && PlainPhoto(cfg, text, q)
    ensures NearIncidents(cfg, db', q) == NearIncidents(cfg, db, q)
    ensures NearFollowUps(cfg, db', q) == NearFollowUps(cfg, db, q)
  {
    forall u | u in db.followUps
      ensures InGroup(db', db'.followUps[u].incident, q.group) <==> InGroup(db, db.followUps[u].incident, q.group)
    {
      assert db.followUps[u].incident in db.incidents;
    }
    forall i
      ensures i in NearIncidents(cfg, db', q) <==> i in NearIncidents(cfg, db, q)
      ensures i in NearFollowUps(cfg, db', q) <==> i in NearFollowUps(cfg, db, q)
    {
    }
  }

  lemma BesideExpected(cfg: Config, db: Db, db': Db, text: Message, photos: seq<Message>, ids: set<string>, k: nat)
    requires Album(cfg, text, photos, ids) && Expected(cfg, db, text, photos, ids, k)
    requires Beside(db, db', text, ids) && Coherent(db')
    ensures Expected(cfg, db', text, photos, ids, k)
  {
    hide Coherent, Recorded, NearIncidents, NearFollowUps, PlainPhoto;
    BesideKeepsOwn(db, db', text, ids);
    BesideUnrecorded(db, db', text, ids, k);
    forall j | 0 <= j < |photos|
      ensures NothingNear(cfg, db', text, photos[j])
    {
      BesideNear(cfg, db, db', text, ids, photos[j]);
    }
  }

  lemma BesideSettled(cfg: Config, db: Db, db': Db, text: Message, photos: seq<Message>, ids: set<string>, k: nat,
                      link: Link)
    requires Album(cfg, text, photos, ids) && Settled(cfg, db, text, photos, ids, k, link)
    requires Beside(db, db', text, ids) && Coherent(db')
    ensures Settled(cfg, db', text, photos, ids, k, link)
  {
    hide Coherent, NearIncidents, NearFollowUps, PlainPhoto;
    BesideKeepsOwn(db, db', text, ids);
    forall j | 0 <= j < |photos|
      ensures OnlyTextNear(cfg, db', photos[j], link)
      ensures MediaFollow(cfg, db', text, photos[j], link) && RowsFollow(db', photos[j].id, link)
    {
      BesideNear(cfg, db, db', text, ids, photos[j]);
      BesideFollows(cfg, db, db', text, ids, photos[j], link);
    }
  }

  lemma BesideFollows(cfg: Config, db: Db, db': Db, text: Message, ids: set<string>, q: Message, link: Link)
    requires SendersOwn(db, text, ids) && SendersOwn(db', text, ids) && Beside(db, db', text, ids) && q.id in ids
    requires OnlyTextNear(cfg, db, q, link) && MediaFollow(cfg, db, text, q, link) && RowsFollow(db, q.id, link)
    requires NearIncidents(cfg, db', q) == NearIncidents(cfg, db, q)
    requires NearFollowUps(cfg, db', q) == NearFollowUps(cfg, db, q)
    ensures OnlyTextNear(cfg, db', q, link) && MediaFollow(cfg, db', text, q, link) && RowsFollow(db', q.id, link)
  {
    hide NearIncidents;
    assert forall u | u in NearFollowUps(cfg, db, q) :: u in db.followUps;
    hide NearFollowUps;
  }

  // ---- Runs ----

  ghost predicate OfAlbum(photos: seq<Message>, s: Step) { s.PhotoArrives? && s.m in photos }

  // Photos of the album come in any order and number, mixed with what others do.
  ghost predicate Traffic(text: Message, photos: seq<Message>, ids: set<string>, steps: seq<Step>) {
    forall k | 0 <= k < |steps| :: OfAlbum(photos, steps[k]) || Elsewhere(text, ids, steps[k])
  }

  ghost function WithoutAlbum(photos: seq<Message>, steps: seq<Step>): seq<Step> {
    if steps == [] then []
    else
      var n := |steps| - 1;
      WithoutAlbum(photos, steps[..n]) + (if OfAlbum(photos, steps[n]) then [] else [steps[n]])
  }

  ghost predicate RowsPersist(db: Db, db': Db) {
    forall i | i in db.media :: i in db'.media && db'.media[i].messageId == db.media[i].messageId
  }

  // Every photo of the album among the steps has a row.
  ghost predicate HaveRows(photos: seq<Message>, steps: seq<Step>, db: Db) {
    forall k | 0 <= k < |steps| && OfAlbum(photos, steps[k]) :: HasRow(db, steps[k].m.id)
  }

  lemma HaveRowsLater(photos: seq<Message>, steps: seq<Step>, db: Db, db': Db)
    requires HaveRows(photos, steps, db) && RowsPersist(db, db')
    ensures HaveRows(photos, steps, db')
  {
    hide HasRow;
    forall k | 0 <= k < |steps| && OfAlbum(photos, steps[k])
      ensures HasRow(db', steps[k].m.id)
    {
      RowStays(db, db', steps[k].m.id);
    }
  }

  lemma HaveRowsNext(photos: seq<Message>, steps: seq<Step>, db: Db, db': Db)
    requires steps != [] && HaveRows(photos, steps[..|steps| - 1], db) && RowsPersist(db, db')
    requires OfAlbum(photos, steps[|steps| - 1]) ==> HasRow(db', steps[|steps| - 1].m.id)
    ensures HaveRows(photos, steps, db')
  {
    hide HasRow, RowsPersist;
    var before := steps[..|steps| - 1];
    HaveRowsLater(photos, before, db, db');
    forall k | 0 <= k < |steps| && OfAlbum(photos, steps[k])
      ensures HasRow(db', steps[k].m.id)
    {
      assert k < |before| ==> steps[k] == before[k];
    }
  }

  lemma ExpectedStep(cfg: Config, db: Db, text: Message, photos: seq<Message>, ids: set<string>, k: nat, s: Step)
    requires Album(cfg, text, photos, ids) && Expected(cfg, db, text, photos, ids, k)
    requires OfAlbum(photos, s) || Elsewhere(text, ids, s)
    ensures var db' := Apply(cfg, db, s);
            && Expected(cfg, db', text, photos, ids, k) && RowsPersist(db, db')
            && (OfAlbum(photos, s) ==> HasRow(db', s.m.id) && SameTickets(db, db'))
  {
    hide Coherent, SendersOwn, Recorded, NothingNear, PlainPhoto, Elsewhere;
    StepCoherent(cfg, db, s);
    if OfAlbum(photos, s) {
      var j :| 0 <= j < |photos| && photos[j] == s.m;
      var learned := Learn(db, s.m.phone, s.m.notifyName);
      LearnRenames(db, s.m.phone, s.m.notifyName);
      RenamedCoherent(db, learned);
      RenamedBeside(db, learned, text, ids);
      hide Learn, PhotoIngest, HasRow;
      BesideExpected(cfg, db, learned, text, photos, ids, k);
      PhotoWaits(cfg, learned, text, photos, ids, k, j, ResolveReporterName(db, s.m.phone, s.m.notifyName));
    } else {
      hide Apply;
      StepBeside(cfg, db, s, text, ids);
      BesideExpected(cfg, db, Apply(cfg, db, s), text, photos, ids, k);
    }
  }

  lemma SettledStep(cfg: Config, db: Db, text: Message, photos: seq<Message>, ids: set<string>, k: nat, link: Link, s: Step)
    requires Album(cfg, text, photos, ids) && Settled(cfg, db, text, photos, ids, k, link)
    requires OfAlbum(photos, s) || Elsewhere(text, ids, s)
    ensures var db' := Apply(cfg, db, s);
            && Settled(cfg, db', text, photos, ids, k, link) && RowsPersist(db, db')
            && (OfAlbum(photos, s) ==> HasRow(db', s.m.id))
  {
    hide Coherent, SendersOwn, OnlyTextNear, MediaFollow, RowsFollow, PlainPhoto, Elsewhere, IsRecord;
    StepCoherent(cfg, db, s);
    if OfAlbum(photos, s) {
      var j :| 0 <= j < |photos| && photos[j] == s.m;
      var learned := Learn(db, s.m.phone, s.m.notifyName);
      LearnRenames(db, s.m.phone, s.m.notifyName);
      RenamedCoherent(db, learned);
      RenamedBeside(db, learned, text, ids);
      hide Learn, PhotoIngest, HasRow;
      BesideSettled(cfg, db, learned, text, photos, ids, k, link);
      PhotoFollows(cfg, learned, text, photos, ids, k, link, j, ResolveReporterName(db, s.m.phone, s.m.notifyName));
    } else {
      hide Apply;
      StepBeside(cfg, db, s, text, ids);
      BesideSettled(cfg, db, Apply(cfg, db, s), text, photos, ids, k, link);
    }
  }

  lemma TextStep(cfg: Config, db: Db, text: Message, photos: seq<Message>, ids: set<string>, k: nat)
    requires Album(cfg, text, photos, ids) && SingleIssue(cfg, text, k) && Expected(cfg, db, text, photos, ids, k)
    ensures var db' := Apply(cfg, db, TextArrives(text));
            Settled(cfg, db', text, photos, ids, k, TextLink(cfg, db, text, k)) && RowsPersist(db, db')
  {
    hide Coherent, Expected, Settled, TextIngest, IssuesOf, TextLink, Beside;
    var learned := Learn(db, text.phone, text.notifyName);
    LearnRenames(db, text.phone, text.notifyName);
    assert Coherent(db) by { ExpectedCoherent(cfg, db, text, photos, ids, k); }
    RenamedCoherent(db, learned);
    RenamedBeside(db, learned, text, ids);
    BesideExpected(cfg, db, learned, text, photos, ids, k);
    SameTextLink(cfg, db, learned, text, k);
    TextSettles(cfg, learned, text, photos, ids, k, ResolveReporterName(db, text.phone, text.notifyName));
  }

  lemma ExpectedCoherent(cfg: Config, db: Db, text: Message, photos: seq<Message>, ids: set<string>, k: nat)
    requires Expected(cfg, db, text, photos, ids, k)
    ensures Coherent(db)
  {
  }

  lemma {:induction false} BeforeText(cfg: Config, db: Db, text: Message, photos: seq<Message>, ids: set<string>, k: nat,
                                      steps: seq<Step>)
    requires Album(cfg, text, photos, ids) && Expected(cfg, db, text, photos, ids, k) && Traffic(text, photos, ids, steps)
    ensures var end := Run(cfg, db, steps);
            && Expected(cfg, end, text, photos, ids, k) && HaveRows(photos, steps, end)
            && SameTickets(Run(cfg, db, WithoutAlbum(photos, steps)), end)
  {
    hide Album, Expected, Apply, OfAlbum, Elsewhere, HasRow, SameTickets, HaveRows, RowsPersist;
    if steps == [] {
      NoStepsYet(photos, db);
    } else {
      var n := |steps| - 1;
      var before := steps[..n];
      BeforeText(cfg, db, text, photos, ids, k, before);
      var mid, others := Run(cfg, db, before), WithoutAlbum(photos, before);
      ExpectedStep(cfg, mid, text, photos, ids, k, steps[n]);
      HaveRowsNext(photos, steps, mid, Run(cfg, db, steps));
      var skeleton := Run(cfg, db, others);
      if OfAlbum(photos, steps[n]) {
        SameTicketsTransitive(skeleton, mid, Run(cfg, db, steps));
        assert WithoutAlbum(photos, steps) == others;
      } else {
        ExpectedCoherent(cfg, mid, text, photos, ids, k);
        ExpectedCoherent(cfg, db, text, photos, ids, k);
        LinksStayCoherent(cfg, db, others);
        StepSame(cfg, skeleton, mid, steps[n], text, ids);
        assert WithoutAlbum(photos, steps) == others + [steps[n]];
        assert (others + [steps[n]])[..|others|] == others;
      }
    }
  }

  lemma NoStepsYet(photos: seq<Message>, db: Db)
    ensures HaveRows(photos, [], db) && SameTickets(db, db) && WithoutAlbum(photos, []) == []
  {
  }

  lemma SameTicketsTransitive(db0: Db, db1: Db, db2: Db)
    requires SameTickets(db0, db1) && SameTickets(db1, db2)
    ensures SameTickets(db0, db2)
  {
  }

  lemma {:induction false} AfterText(cfg: Config, db: Db, text: Message, photos: seq<Message>, ids: set<string>, k: nat,
                                     link: Link, steps: seq<Step>)
    requires Album(cfg, text, photos, ids) && Settled(cfg, db, text, photos, ids, k, link)
    requires Traffic(text, photos, ids, steps)
    ensures var end := Run(cfg, db, steps);
            Settled(cfg, end, text, photos, ids, k, link) && HaveRows(photos, steps, end) && RowsPersist(db, end)
  {
    hide Album, Settled, Apply, OfAlbum, Elsewhere, HasRow, HaveRows, RowsPersist;
    if steps == [] {
      NoneArrived(photos, db);
    } else {
      var n := |steps| - 1;
      AfterText(cfg, db, text, photos, ids, k, link, steps[..n]);
      var mid := Run(cfg, db, steps[..n]);
      SettledStep(cfg, mid, text, photos, ids, k, link, steps[n]);
      HaveRowsNext(photos, steps, mid, Run(cfg, db, steps));
      RowsPersistTransitive(db, mid, Run(cfg, db, steps));
    }
  }

  lemma NoneArrived(photos: seq<Message>, db: Db)
    ensures HaveRows(photos, [], db) && RowsPersist(db, db)
  {
  }

  lemma RowsPersistTransitive(db0: Db, db1: Db, db2: Db)
    requires RowsPersist(db0, db1) && RowsPersist(db1, db2)
    ensures RowsPersist(db0, db2)
  {
  }

  // ---- The theorem ----

  ghost function Delivery(cfg: Config, db: Db, before: seq<Step>, text: Message, after: seq<Step>): Db {
    Run(cfg, Apply(cfg, Run(cfg, db, before), TextArrives(text)), after)
  }

  // The photo has a row, and all its rows are on the link.
  ghost predicate FiledOn(db: Db, q: Message, link: Link) { HasRow(db, q.id) && RowsFollow(db, q.id, link) }

  // Where the text goes in the run without the album: the photos have no say in it.
  ghost function Destination(cfg: Config, db: Db, photos: seq<Message>, before: seq<Step>, text: Message, k: nat): Link
    requires k < |IssuesOf(cfg, text)|
  {
    TextLink(cfg, Run(cfg, db, WithoutAlbum(photos, before)), text, k)
  }

  /** Whatever photos of the sender arrive before the text and whatever photos after it, in any order and any
      number of times, and whatever others send in between: each photo ends on the record of the text, which is
      the ticket or follow-up that the text would be without the photos. */
  lemma PhotosJoinText(cfg: Config, db: Db, text: Message, photos: seq<Message>, ids: set<string>, k: nat,
                       before: seq<Step>, after: seq<Step>)
    requires Album(cfg, text, photos, ids) && SingleIssue(cfg, text, k) && Expected(cfg, db, text, photos, ids, k)
    requires Traffic(text, photos, ids, before + after)
    ensures var link, end := Destination(cfg, db, photos, before, text, k), Delivery(cfg, db, before, text, after);
            && IsRecord(end, text, k, link)
            && forall q | q in photos && PhotoArrives(q) in before + after :: FiledOn(end, q, link)
  {
    hide Album, Expected, Apply, Elsewhere, HasRow, SameTickets, RowsPersist, IssuesOf, TextLink, RowsFollow, Run,
         WithoutAlbum;
    TrafficParts(text, photos, ids, before, after);
    BeforeText(cfg, db, text, photos, ids, k, before);
    var mid := Run(cfg, db, before);
    var link := Destination(cfg, db, photos, before, text, k);
    SameTextLink(cfg, Run(cfg, db, WithoutAlbum(photos, before)), mid, text, k);
    TextStep(cfg, mid, text, photos, ids, k);
    var filed := Apply(cfg, mid, TextArrives(text));
    AfterText(cfg, filed, text, photos, ids, k, link, after);
    var end := Run(cfg, filed, after);
    HaveRowsLater(photos, before, mid, filed);
    HaveRowsLater(photos, before, filed, end);
    forall q | q in photos && PhotoArrives(q) in before + after
      ensures FiledOn(end, q, link)
    {
      Arrived(photos, before, after, end, q);
      SettledRows(cfg, end, text, photos, ids, k, link, q);
    }
    SettledRecord(cfg, end, text, photos, ids, k, link);
  }

  lemma TrafficParts(text: Message, photos: seq<Message>, ids: set<string>, before: seq<Step>, after: seq<Step>)
    requires Traffic(text, photos, ids, before + after)
    ensures Traffic(text, photos, ids, before) && Traffic(text, photos, ids, after)
  {
    hide OfAlbum, Elsewhere;
    assert forall k | 0 <= k < |before| :: (before + after)[k] == before[k];
    assert forall k | 0 <= k < |after| :: (before + after)[|before| + k] == after[k];
  }

  lemma Arrived(photos: seq<Message>, before: seq<Step>, after: seq<Step>, db: Db, q: Message)
    requires HaveRows(photos, before, db) && HaveRows(photos, after, db)
    requires q in photos && PhotoArrives(q) in before + after
    ensures HasRow(db, q.id)
  {
    assert PhotoArrives(q) in before || PhotoArrives(q) in after;
  }

  lemma SettledRows(cfg: Config, db: Db, text: Message, photos: seq<Message>, ids: set<string>, k: nat, link: Link,
                    q: Message)
    requires Settled(cfg, db, text, photos, ids, k, link) && q in photos
    ensures RowsFollow(db, q.id, link)
  {
  }

  lemma SettledRecord(cfg: Config, db: Db, text: Message, photos: seq<Message>, ids: set<string>, k: nat, link: Link)
    requires Settled(cfg, db, text, photos, ids, k, link)
    ensures IsRecord(db, text, k, link)
  {
  }

  /** Order independence: in two runs that differ only in where the sender's photos come, every photo delivered in
      both ends on the same ticket and the same follow-up. What others do before the text is the same and in the
      same order; after the text it may be anything. */
  lemma OrderIndependence(cfg: Config, db: Db, text: Message, photos: seq<Message>, ids: set<string>, k: nat,
                          before1: seq<Step>, after1: seq<Step>, before2: seq<Step>, after2: seq<Step>)
    requires Album(cfg, text, photos, ids) && SingleIssue(cfg, text, k) && Expected(cfg, db, text, photos, ids, k)
    requires Traffic(text, photos, ids, before1 + after1) && Traffic(text, photos, ids, before2 + after2)
    requires WithoutAlbum(photos, before1) == WithoutAlbum(photos, before2)
    ensures var end1, end2 := Delivery(cfg, db, before1, text, after1), Delivery(cfg, db, before2, text, after2);
            forall q | q in photos && PhotoArrives(q) in before1 + after1 && PhotoArrives(q) in before2 + after2 ::
              && HasRow(end1, q.id) && HasRow(end2, q.id)
              && forall i, j | i in end1.media && end1.media[i].messageId == Some(q.id)
                               && j in end2.media && end2.media[j].messageId == Some(q.id) ::
                   && end1.media[i].incident.Some? && end1.media[i].incident == end2.media[j].incident
                   && end1.media[i].followUp == end2.media[j].followUp
  {
    hide Delivery, Traffic, Album, Expected, Destination, HasRow;
    PhotosJoinText(cfg, db, text, photos, ids, k, before1, after1);
    PhotosJoinText(cfg, db, text, photos, ids, k, before2, after2);
    var link := Destination(cfg, db, photos, before1, text, k);
    SameDestination(cfg, db, photos, before1, before2, text, k);
  }

  lemma SameDestination(cfg: Config, db: Db, photos: seq<Message>, before1: seq<Step>, before2: seq<Step>, text: Message,
                        k: nat)
    requires k < |IssuesOf(cfg, text)| && WithoutAlbum(photos, before1) == WithoutAlbum(photos, before2)
    ensures Destination(cfg, db, photos, before1, text, k) == Destination(cfg, db, photos, before2, text, k)
  {
    hide TextLink;
  }
}
