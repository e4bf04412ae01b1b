/** The handlers themselves, updating the tables step by step (backend/main.py, backend/contacts.py). Each handler takes
    the database to the state that TicketModel specifies, keeps its links coherent, its files counted and manual names
    in place, and says what it means for its caller. */
module TicketStore {
  import opened Text
  import opened VehiclePlate
  import opened Classifier
  import opened Rows
  import opened TicketModel
  import opened TicketFiling
  import opened TicketEffects
  import TicketInvariants
  import TicketFiles
  import TicketNames

  // Once a commit has failed, the rest of the run changes nothing.
  lemma {:induction false} FailureStops(cfg: Config, db: Db, m: Message, name: string, issues: seq<Issue>,
                                        failAt: Option<nat>, i: nat, n: nat)
    requires i <= n <= |issues| && FileIssues(cfg, db, m, name, issues, failAt, i).failed
    ensures FileIssues(cfg, db, m, name, issues, failAt, n) == FileIssues(cfg, db, m, name, issues, failAt, i)
  {
    if i < n {
      FailureStops(cfg, db, m, name, issues, failAt, i, n - 1);
    }
  }

  lemma StrongestOfMore(filed: seq<Target>, t: Target)
    ensures Strongest(filed + [t])
         == if filed == [] || t.confidence > Strongest(filed).confidence then t else Strongest(filed)
  {
    assert (filed + [t])[..|filed|] == filed;
  }

  // The first of the candidates nearest in time.
  method FindNearest(candidates: seq<Candidate>, at: int) returns (best: Candidate)
    requires candidates != []
    ensures best == Nearest(candidates, at)
  {
    best := candidates[0];
    var k := 1;
    assert candidates[..1] == [best];
    while k < |candidates|
      invariant 1 <= k <= |candidates|
      invariant best == Nearest(candidates[..k], at)
    {
      assert candidates[..k + 1][..k] == candidates[..k];
      if Distance(candidates[k].at, at) < Distance(best.at, at) {
        best := candidates[k];
      }
      k := k + 1;
    }
    assert candidates[..k] == candidates;
  }

  // Visits the listed rows one by one.
  method UpdateEach(rows: map<int, Media>, ids: seq<int>, change: Media -> Media) returns (r: map<int, Media>)
    requires forall k | 0 <= k < |ids| :: ids[k] in rows
    requires forall a, b | 0 <= a < b < |ids| :: ids[a] != ids[b]
    ensures r.Keys == rows.Keys
    ensures forall i | i in rows :: r[i] == if i in ids then change(rows[i]) else rows[i]
  {
    r := rows;
    ghost var done: set<int> := {};
    var k := 0;
    while k < |ids|
      invariant k <= |ids| && r.Keys == rows.Keys
      invariant forall j | 0 <= j < |ids| :: ids[j] in done <==> j < k
      invariant forall i | i in done :: i in ids
      invariant forall i | i in rows :: r[i] == if i in done then change(rows[i]) else rows[i]
    {
      r := r[ids[k] := change(r[ids[k]])];
      done := done + {ids[k]};
      k := k + 1;
    }
  }

  lemma SweepRowByRow(cfg: Config, db: Db, m: Message, link: Link, quoted: Option<string>)
    ensures var db', swept := Sweep(cfg, db, m, link, quoted), Swept(cfg, db, m, quoted);
            && db' == db.(media := db'.media) && db'.media.Keys == db.media.Keys && swept <= db.media.Keys
            && forall i | i in db.media ::
                 db'.media[i] == if i in swept then SweptTo(db.media[i], link, quoted) else db.media[i]
  {
  }

  // While a message is filed, links stand and the tickets offered are of its group.
  lemma Filed(cfg: Config, db: Db, m: Message, name: string, issues: seq<Issue>, failAt: Option<nat>, n: nat)
    requires n <= |issues| && Sound(db)
    ensures var p := FileIssues(cfg, db, m, name, issues, failAt, n);
            && Coherent(p.db) && OpenInGroup(p.db, p.open, m.group)
            && forall t | t in p.filed :: GoodLink(p.db, m.group, t.link)
  {
    hide FileIssues;
    FileIssuesWell(cfg, db, m, name, issues, failAt, n);
  }

  // The name a message is filed under is the manual one if there is one, and stays so when its sender is learned.
  lemma SenderNamed(db: Db, phone: Option<string>, given: Option<string>)
    requires Sound(db)
    ensures TicketNames.ManualNameOf(TicketModel.Learn(db, phone, given), phone, Some(ResolveReporterName(db, phone, given)))
  {
    NamesOf(db);
    hide CleanName, Sound, TicketModel.Learn;
    LearningName(db, phone, given);
  }

  lemma NamesOf(db: Db)
    requires Sound(db)
    ensures TicketNames.ManualNamesHold(db)
  {
  }

  lemma CountedOf(db: Db)
    requires Sound(db)
    ensures TicketFiles.FilesExact(db)
  {
  }

  lemma CoherentOf(db: Db)
    requires Sound(db)
    ensures Coherent(db)
  {
  }

  class Store {
    const cfg: Config
    var incidents: map<int, Incident>
    var followUps: map<int, FollowUp>
    var media: map<int, Media>
    var files: set<string>
    var contacts: map<string, Contact>
    var nextIncident: int
    var nextFollowUp: int
    var nextMedia: int

    function State(): Db
      reads this
    {
      Db(incidents, followUps, media, files, contacts, nextIncident, nextFollowUp, nextMedia)
    }

    ghost predicate Valid()
      reads this
    {
      Sound(State())
    }

    constructor (cfg: Config)
      ensures this.cfg == cfg && State() == EMPTY_DB && Valid()
    {
      this.cfg := cfg;
      incidents, followUps, media, files, contacts := map[], map[], map[], {}, map[];
      nextIncident, nextFollowUp, nextMedia := 1, 1, 1;
      new;
      EmptySound();
    }

    // ---- Routing ----

    // The first open ticket on the plate wins.
    method Route(issue: Issue, text: string, open: seq<OpenTicket>, answer: RouterAnswer) returns (r: Routing)
      ensures r == RouteIssue(cfg, issue, text, open, answer)
    {
      if cfg.lead {
        return Routing(None, None);
      }
      if cfg.fleet {
        var plate := ResolvePlateForIssue(issue.snippet, text);
        if plate.Some? {
          var k := 0;
          while k < |open|
            invariant k <= |open|
            invariant FirstOnPlate(open, plate.value, issue.category) == FirstOnPlate(open[k..], plate.value, issue.category)
          {
            if open[k].plate == plate && open[k].category == issue.category {
              return Routing(Some(open[k].id), plate);
            }
            k := k + 1;
          }
        }
        return Routing(None, plate);
      }
      if open != [] && answer.SaysUpdate? && exists t | t in open :: t.id == answer.ticket {
        return Routing(Some(answer.ticket), None);
      }
      return Routing(None, None);
    }

    // Records one issue, as a follow-up of the ticket it is routed to or as a new ticket.
    method Record(m: Message, name: string, issue: Issue, i: nat, open: seq<OpenTicket>)
      returns (shown: seq<OpenTicket>, link: Link)
      requires Coherent(State()) && OpenInGroup(State(), open, m.group)
      modifies this`followUps, this`nextFollowUp, this`incidents, this`nextIncident
      ensures var f := FileIssue(cfg, m, name, issue, i, old(State()), open);
              State() == f.db && shown == f.open && link == f.link
      ensures FiledOne(old(State()), State(), m, name, i, link) && OpenInGroup(State(), shown, m.group)
    {
      hide Coherent, OpenInGroup, FiledOne, RouteIssue;
      FilingOne(cfg, m, name, issue, i, State(), open);
      var routing := Route(issue, m.text, open, AnswerFor(m, i));
      if routing.ticket.Some? {
        shown, link := open, Link(routing.ticket.value, Some(nextFollowUp));
        followUps := followUps[nextFollowUp :=
          FollowUp(routing.ticket.value, m.phone, Some(name), issue.snippet, m.at, Some(m.id), i, true, false)];
        nextFollowUp := nextFollowUp + 1;
      } else {
        shown, link := open + [OpenTicket(nextIncident, issue.category, routing.plate)], Link(nextIncident, None);
        incidents := incidents[nextIncident :=
          Incident(m.group, m.phone, Some(name), if cfg.lead then m.text else issue.snippet, issue.category,
                   routing.plate, cfg.initialStatus, m.at, Some(m.id), i)];
        nextIncident := nextIncident + 1;
      }
    }

    // ---- Sweeping ----

    method SweepUnassignedMedia(m: Message, link: Link, quoted: Option<string>) returns (attached: nat)
      modifies this
      ensures State() == Sweep(cfg, old(State()), m, link, quoted)
      ensures attached == |Swept(cfg, old(State()), m, quoted)|
    {
      hide Query, Sweep, Swept, SweptTo;
      ghost var before := State();
      SweepRowByRow(cfg, before, m, link, quoted);
      var keys := map i | i in Swept(cfg, State(), m, quoted) :: 0;
      assert keys.Keys == Swept(cfg, before, m, quoted);
      var swept := Query(keys, m.order.media);
      QueryLength(keys, m.order.media);
      assert forall k | 0 <= k < |swept| :: swept[k] in keys;
      media := UpdateEach(media, swept, p => SweptTo(p, link, quoted));
      attached := |swept|;
      ghost var spec := Sweep(cfg, before, m, link, quoted).media;
      forall i | i in before.media
        ensures media[i] == spec[i]
      {
        assert i in swept <==> i in keys;
      }
      assert media == spec;
    }

    // ---- Filing the issues of a message ----

    // Files the surviving issues one by one until a commit fails, and keeps the strongest of them in mind.
    method FileSurvivors(m: Message, name: string, issues: seq<Issue>, failAt: Option<nat>)
      returns (created: nat, updated: nat, skipped: nat, targets: seq<Target>,
               strongest: Option<Target>, failed: bool)
      requires Valid()
      modifies this`followUps, this`nextFollowUp, this`incidents, this`nextIncident
      ensures var p := FileIssues(cfg, old(State()), m, name, issues, failAt, |issues|);
              && State() == p.db && created == p.created && updated == p.updated && skipped == p.skipped
              && targets == p.filed && failed == p.failed
      ensures strongest == if targets == [] then None else Some(Strongest(targets))
      ensures Coherent(State()) && forall t | t in targets :: GoodLink(State(), m.group, t.link)
    {
      hide Sound, Coherent, OpenInGroup, FiledOne, GoodLink, GetOpenTickets, FileIssue, Recorded, Strongest;
      ghost var before := State();
      var open := GetOpenTickets(cfg, State(), m.group, m.order);
      created, updated, skipped, targets, strongest, failed := 0, 0, 0, [], None, false;
      Filed(cfg, before, m, name, issues, failAt, |issues|);
      var i := 0;
      while i < |issues|
        invariant i <= |issues|
        invariant FileIssues(cfg, before, m, name, issues, failAt, i)
               == Progress(State(), open, targets, created, updated, skipped, false)
        invariant strongest == if targets == [] then None else Some(Strongest(targets))
      {
        var issue := issues[i];
        if issue.confidence >= cfg.minConfidence {
          if Recorded(State(), m.id, i) {
            skipped := skipped + 1;
          } else if failAt == Some(i) {
            FailureStops(cfg, before, m, name, issues, failAt, i + 1, |issues|);
            failed := true;
            return;
          } else {
            var link;
            Filed(cfg, before, m, name, issues, failAt, i);
            open, link := Record(m, name, issue, i, open);
            if link.followUp.Some? {
              updated := updated + 1;
            } else {
              created := created + 1;
            }
            StrongestOfMore(targets, Target(issue.confidence, link));
            targets := targets + [Target(issue.confidence, link)];
            if strongest.None? || issue.confidence > strongest.value.confidence {
              strongest := Some(Target(issue.confidence, link));
            }
          }
        }
        i := i + 1;
      }
    }

    // ---- Text messages ----

    method HandleTextIngest(m: Message, name: string) returns (reply: Reply)
      requires Valid() && TicketNames.ManualNameOf(State(), m.phone, Some(name))
      modifies this
      ensures (State(), reply) == TextIngest(cfg, old(State()), m, name)
      ensures Valid() && TicketNames.NamesKept(old(State()), State())
    {
      hide Sound, TicketNames.NamesKept, TicketNames.ManualNameOf, Coherent, GoodLink, Sweep, Swept, PlateTarget, FileIssues,
           IssuesOf, AnySurvivor, Strongest;
      SoundDelivery(cfg, State(), TextArrives(m), name);
      var issues := IssuesOf(cfg, m);
      if !AnySurvivor(cfg, issues) {
        var plate := PlateTarget(cfg, State(), m.group, m.text, m.order);
        if plate.Some? {
          var attached := SweepUnassignedMedia(m, Link(plate.value, None), m.quoted);
        }
        return Noise;
      }
      var created, updated, skipped, targets, strongest, failed := FileSurvivors(m, name, issues, m.failAt);
      if failed {
        return Failed;
      }
      if created == 0 && updated == 0 && skipped > 0 {
        return Duplicate;
      }
      if strongest.None? {
        return Staged(created, updated, 0);
      }
      var attached := SweepUnassignedMedia(m, strongest.value.link, m.quoted);
      return Staged(created, updated, attached);
    }

    // ---- Photos ----

    method ProximityTarget(m: Message) returns (r: Option<Link>)
      ensures r == TicketModel.ProximityTarget(cfg, State(), m)
    {
      if m.phone.None? {
        return None;
      }
      hide Candidates;
      var candidates := Candidates(cfg, State(), m);
      if candidates == [] {
        return None;
      }
      var best := FindNearest(candidates, m.at);
      return Some(best.link);
    }

    // Quote first, then the caption's own tickets, then the one plate, then proximity.
    method FindTargets(m: Message, filed: seq<Target>) returns (c: Choice)
      requires Coherent(State()) && forall t | t in filed :: GoodLink(State(), m.group, t.link)
      ensures c == ChooseTargets(cfg, State(), m, filed)
      ensures WellChosen(State(), m, filed, c)
    {
      hide WellChosen, Coherent, GoodLink;
      ChoosingTargets(cfg, State(), m, filed);
      hide TicketModel.ProximityTarget, PlateTarget, QuotedTarget, SortTargets;
      var quoted := QuotedTarget(State(), m.group, m.quoted, m.order);
      if quoted.Some? {
        return Choice([quoted.value], Some(ByQuote));
      }
      if filed != [] {
        var sorted := SortTargets(filed);
        return Choice(seq(|sorted|, k requires 0 <= k < |sorted| => sorted[k].link), Some(ByCaption));
      }
      if m.text != "" {
        var plate := PlateTarget(cfg, State(), m.group, m.text, m.order);
        if plate.Some? {
          return Choice([Link(plate.value, None)], Some(ByPlate));
        }
      }
      var near := ProximityTarget(m);
      if near.Some? {
        return Choice([near.value], Some(ByProximity));
      }
      return Choice([], None);
    }

    // Files the photo on each chosen ticket that does not hold it yet, using up waiting rows first.
    method Attach(m: Message, choice: Choice) returns (attached: seq<int>)
      modifies this
      ensures var a := AttachPhoto(old(State()), m, choice);
              State() == a.db && attached == a.attached
    {
      hide Query;
      ghost var before := State();
      attached := [];
      var existing := Query(RowsOf(State(), m.id), m.order.media);
      assert forall k | 0 <= k < |existing| :: existing[k] in RowsOf(before, m.id);
      var stored := StoredFile(State(), m, existing);
      if existing == [] && stored.Some? {
        files := files + {stored.value};
      }
      ghost var start := StartAttaching(State(), existing);
      assert State() == SaveFile(before, m, existing);
      if stored.None? {
        return;
      }
      var have := set i | i in existing && media[i].incident.Some? :: media[i].incident.value;
      var spare := Unassigned(State(), existing);
      if choice.links == [] && existing == [] {
        AddMedia(PhotoRow(m, stored.value, None, None));
        return;
      }
      var k := 0;
      while k < |choice.links|
        invariant k <= |choice.links|
        invariant AttachAll(m, stored.value, choice, k, start) == Attaching(State(), have, spare, attached)
      {
        var link := choice.links[k];
        if link.incident !in have {
          if spare != [] && spare[|spare| - 1] in media {
            var id := spare[|spare| - 1];
            spare := spare[..|spare| - 1];
            media := media[id := media[id].(incident := Some(link.incident), followUp := link.followUp, how := choice.how)];
          } else {
            AddMedia(PhotoRow(m, stored.value, Some(link), choice.how));
          }
          have := have + {link.incident};
          attached := attached + [link.incident];
        }
        k := k + 1;
      }
    }

    method AddMedia(row: Media)
      modifies this
      ensures State() == NewMedia(old(State()), row)
    {
      media := media[nextMedia := row];
      nextMedia := nextMedia + 1;
    }

    method HandleMediaIngest(m: Message, name: string) returns (reply: Reply)
      requires Valid() && TicketNames.ManualNameOf(State(), m.phone, Some(name))
      modifies this
      ensures (State(), reply) == PhotoIngest(cfg, old(State()), m, name)
      ensures Valid() && TicketNames.NamesKept(old(State()), State())
    {
      hide Sound, TicketNames.NamesKept, TicketNames.ManualNameOf, Coherent, GoodLink, WellChosen, Sweep, Swept,
           ChooseTargets, AttachPhoto, FileIssues, IssuesOf, AnySurvivor, Strongest;
      SoundDelivery(cfg, State(), PhotoArrives(m), name);
      var issues := if m.text != "" then IssuesOf(cfg, m) else [];
      var created, updated, skipped, targets, strongest, failed := FileSurvivors(m, name, issues, None);
      if AnySurvivor(cfg, issues) && created == 0 && updated == 0 && skipped > 0 {
        return Duplicate;
      }
      var rowsBefore := nextMedia;
      var choice := FindTargets(m, targets);
      TicketInvariants.CaptionHasTarget(cfg, State(), m, targets);
      var attached := Attach(m, choice);
      var added := nextMedia > rowsBefore;
      if choice.how == Some(ByCaption) {
        var swept := SweepUnassignedMedia(m, choice.links[0], None);
      }
      if choice.links != [] {
        return Linked(choice.links[0], attached);
      }
      return Kept(added);
    }

    // ---- Staff actions ----

    method AssignMedia(id: int, target: Option<int>)
      requires Valid()
      modifies this
      ensures State() == TicketModel.AssignMedia(old(State()), id, target)
      ensures Valid() && Sent(old(State()), State(), id, target)
    {
      hide Sound, Sent;
      SoundStep(cfg, State(), Assign(id, target));
      Sending(State(), id, target);
      if id !in media {
        return;
      }
      if target.Some? {
        if target.value !in incidents || HasPhoto(State(), target.value, media[id].file, id) {
          return;
        }
        if media[id].group.None? {
          media := media[id := media[id].(group := Some(incidents[target.value].group))];
        }
      }
      media := media[id := media[id].(incident := target, followUp := None,
                                      how := if target.Some? then Some(ByHand) else None)];
    }

    method DeleteMedia(id: int)
      requires Valid()
      modifies this
      ensures State() == TicketModel.DeleteMedia(old(State()), id)
      ensures Valid() && Dismissed(old(State()), State(), id)
    {
      hide Sound, Dismissed;
      SoundStep(cfg, State(), Dismiss(id));
      CountedOf(State());
      Dismissing(State(), id);
      if id !in media {
        return;
      }
      var file := media[id].file;
      media := media - {id};
      if forall i | i in media :: media[i].file != file {
        files := files - {file};
      }
    }

    method UploadIncidentMedia(incident: int, file: string, now: int)
      requires Valid()
      modifies this
      ensures State() == UploadMedia(old(State()), incident, file, now)
      ensures Valid() && Uploaded(old(State()), State(), incident, file)
    {
      hide Sound, Uploaded, Coherent;
      SoundStep(cfg, State(), Upload(incident, file, now));
      CoherentOf(State());
      Uploading(State(), incident, file, now);
      if incident !in incidents {
        return;
      }
      files := files + {file};
      AddMedia(Media(Some(incident), None, file, now, Some(incidents[incident].group), None, None, Some(ByUpload)));
    }

    // Moves the photos filed under a follow-up.
    method RefileMedia(followUp: int, incident: int, keep: bool)
      modifies this`media
      ensures media == TicketModel.RefileMedia(old(State()), followUp, incident, keep)
    {
      hide Query;
      ghost var before := State();
      var keys := map i | i in media && media[i].followUp == Some(followUp) :: 0;
      var rows := Query(keys, map[]);
      assert forall k | 0 <= k < |rows| :: rows[k] in keys;
      media := UpdateEach(media, rows,
        (p: Media) => p.(incident := Some(incident), followUp := if keep then Some(followUp) else None));
      ghost var spec := TicketModel.RefileMedia(before, followUp, incident, keep);
      forall i | i in before.media
        ensures media[i] == spec[i]
      {
        assert i in rows <==> i in keys;
      }
      assert media == spec;
    }

    method PromoteFollowUp(id: int)
      requires Valid()
      modifies this
      ensures State() == Promote(cfg, old(State()), id)
      ensures Valid() && PromotedOrRefused(cfg, old(State()), State(), id)
    {
      hide Sound, PromotedOrRefused, Coherent;
      SoundStep(cfg, State(), Step.PromoteFollowUp(id));
      CoherentOf(State());
      Promoting(cfg, State(), id);
      if id !in followUps {
        return;
      }
      var u := followUps[id];
      if u.messageId.Some? && InIncidents(State(), u.messageId.value, 0) {
        return;
      }
      var group := if u.incident in incidents then incidents[u.incident].group else "";
      RefileMedia(id, nextIncident, false);
      incidents := incidents[nextIncident :=
        Incident(group, u.phone, u.name, u.body, "other", None, cfg.initialStatus, u.at, u.messageId, 0)];
      nextIncident := nextIncident + 1;
      followUps := followUps - {id};
    }

    method RelinkUpdate(id: int, target: int)
      requires Valid()
      modifies this
      ensures State() == Relink(old(State()), id, target)
      ensures Valid() && MovedTo(old(State()), State(), id, target)
    {
      hide Sound, MovedTo;
      SoundStep(cfg, State(), RelinkFollowUp(id, target));
      Relinking(State(), id, target);
      if id !in followUps || target !in incidents {
        return;
      }
      followUps := followUps[id := followUps[id].(incident := target, aiLinked := false, relinked := true)];
      RefileMedia(id, target, true);
    }

    method ReplyToIncident(incident: int, mid: Option<string>, actor: string, text: string, now: int)
      requires Valid()
      modifies this
      ensures State() == StaffReply(old(State()), incident, mid, actor, text, now)
      ensures Valid() && Answered(old(State()), State(), incident, mid, text)
    {
      hide Sound, Answered, Coherent;
      SoundStep(cfg, State(), ReplyTo(incident, mid, actor, text, now));
      CoherentOf(State());
      Answering(State(), incident, mid, actor, text, now);
      if incident !in incidents || (mid.Some? && InFollowUps(State(), mid.value, 0)) {
        return;
      }
      followUps := followUps[nextFollowUp := FollowUp(incident, None, Some(actor), text, now, mid, 0, false, false)];
      nextFollowUp := nextFollowUp + 1;
    }

    method UpdateIncidentStatus(incident: int, status: string)
      requires Valid()
      modifies this
      ensures State() == SetStatus(cfg, old(State()), incident, status)
      ensures Valid() && StatusGiven(cfg, old(State()), State(), incident, status)
    {
      hide Sound, StatusGiven;
      SoundStep(cfg, State(), ChangeStatus(incident, status));
      GivingStatus(cfg, State(), incident, status);
      if status !in cfg.statuses {
        return;
      }
      if incident in incidents {
        incidents := incidents[incident := incidents[incident].(status := status)];
      }
    }

    method UpdateIncidentFields(incident: int, category: Option<string>, plate: Option<Option<string>>)
      requires Valid()
      modifies this
      ensures State() == EditFields(cfg, old(State()), incident, category, plate)
      ensures Valid() && FieldsEdited(cfg, old(State()), State(), incident, category, plate)
    {
      hide Sound, FieldsEdited;
      SoundStep(cfg, State(), EditTicket(incident, category, plate));
      EditingFields(cfg, State(), incident, category, plate);
      if incident !in incidents || (category.Some? && category.value !in cfg.categories) {
        return;
      }
      if category.Some? {
        incidents := incidents[incident := incidents[incident].(category := category.value)];
      }
      if plate.Some? {
        incidents := incidents[incident := incidents[incident].(plate := plate.value)];
      }
      assert incidents == EditFields(cfg, old(State()), incident, category, plate).incidents;
    }

    // ---- Sender names ----

    // One bulk update per table.
    method RewriteRows(phone: string, name: string, onlyUnknown: bool)
      modifies this
      ensures State() == TicketModel.RewriteRows(old(State()), phone, name, onlyUnknown)
    {
      incidents := map i | i in incidents ::
        if incidents[i].phone == Some(phone) && (onlyUnknown ==> Nameless(incidents[i].name))
        then incidents[i].(name := Some(name)) else incidents[i];
      followUps := map u | u in followUps ::
        if followUps[u].phone == Some(phone) && (onlyUnknown ==> Nameless(followUps[u].name))
        then followUps[u].(name := Some(name)) else followUps[u];
    }

    method Learn(phone: Option<string>, given: Option<string>)
      requires Valid()
      modifies this
      ensures State() == TicketModel.Learn(old(State()), phone, given)
      ensures Valid() && NameLearned(old(State()), State(), phone, given)
    {
      hide Sound, NameLearned;
      SoundStep(cfg, State(), WhatsAppName(phone, given));
      NamesOf(State());
      LearningName(State(), phone, given);
      hide TicketModel.RewriteRows;
      var name := CleanName(given);
      if phone.None? || name.None? || name.value == UNKNOWN {
        return;
      }
      if phone.value in contacts {
        if contacts[phone.value].manual || contacts[phone.value].name == name.value {
          return;
        }
      }
      contacts := contacts[phone.value := Contact(name.value, false)];
      RewriteRows(phone.value, name.value, true);
    }

    method SetManualName(phone: string, given: Option<string>)
      requires Valid()
      modifies this
      ensures State() == TicketModel.SetManualName(old(State()), phone, given)
      ensures Valid() && NameSet(old(State()), State(), phone, given)
    {
      hide Sound, NameSet;
      SoundStep(cfg, State(), ManualName(phone, given));
      SettingName(State(), phone, given);
      hide TicketModel.RewriteRows;
      var name := CleanName(given);
      if name.None? {
        if phone in contacts && contacts[phone].manual {
          contacts := contacts - {phone};
        }
        return;
      }
      contacts := contacts[phone := Contact(name.value, true)];
      RewriteRows(phone, name.value, false);
    }

    // ---- The webhook ----

    method Ingest(s: Step)
      requires Valid() && IsDelivery(s)
      modifies this
      ensures State() == Apply(cfg, old(State()), s)
      ensures Valid()
    {
      hide TextIngest, PhotoIngest, TicketModel.Learn, Sound, NameLearned, TicketNames.ManualNameOf, TicketNames.NamesKept;
      SenderNamed(State(), s.m.phone, s.m.notifyName);
      var name := ResolveReporterName(State(), s.m.phone, s.m.notifyName);
      Learn(s.m.phone, s.m.notifyName);
      var reply;
      if s.TextArrives? {
        reply := HandleTextIngest(s.m, name);
      } else {
        reply := HandleMediaIngest(s.m, name);
      }
    }
  }
}
