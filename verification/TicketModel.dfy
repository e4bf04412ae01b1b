/** The ticket database and what each webhook delivery and each staff action does to it
    (backend/main.py, backend/contacts.py, backend/models.py). Handlers are atomic steps. */
module TicketModel {
  import opened Text
  import opened VehiclePlate
  import opened Classifier
  import opened Rows

  // ---- Tables ----

  datatype Incident = Incident(group: string, phone: Option<string>, name: Option<string>, body: string,
                               category: string, plate: Option<string>, status: string, at: int,
                               messageId: Option<string>, issueIndex: nat)

  datatype FollowUp = FollowUp(incident: int, phone: Option<string>, name: Option<string>, body: string, at: int,
                               messageId: Option<string>, issueIndex: nat, aiLinked: bool, relinked: bool)

  datatype LinkMethod = ByQuote | ByCaption | ByPlate | ByProximity | BySweep | ByHand | ByUpload

  datatype Media = Media(incident: Option<int>, followUp: Option<int>, file: string, at: int, group: Option<string>,
                         phone: Option<string>, messageId: Option<string>, how: Option<LinkMethod>)

  datatype Contact = Contact(name: string, manual: bool)

  datatype Db = Db(incidents: map<int, Incident>, followUps: map<int, FollowUp>, media: map<int, Media>,
                   files: set<string>, contacts: map<string, Contact>,
                   nextIncident: int, nextFollowUp: int, nextMedia: int)

  const EMPTY_DB := Db(map[], map[], map[], {}, map[], 1, 1, 1)

  datatype Config = Config(lead: bool, fleet: bool, minConfidence: real, window: nat, categories: set<string>) {
    const openLimit: nat := if fleet then 50 else 5
    const initialStatus: string := if lead then "new" else "review"
    const statuses: set<string> :=
      if lead then {"new", "contacted", "closed_won", "closed_lost"}
      else {"new", "review", "acknowledged", "resolved", "ignored"}
  }

  // The language model's routing answer for one issue.
  datatype RouterAnswer = SaysNew | SaysUpdate(ticket: int)

  // SQL leaves the order of rows open where no ORDER BY decides it; any order may come back.
  datatype RowOrder = RowOrder(incidents: map<int, int>, followUps: map<int, int>, media: map<int, int>)

  // A group message. `text` is the body of a text and the caption of a photo; `raw` and `answers`
  // are what the language model says about it; `file` is the path a photo's file is saved under,
  // None when it cannot be saved; `failAt` is the issue whose commit fails, if one does.
  datatype Message = Message(id: string, group: string, phone: Option<string>, notifyName: Option<string>, at: int,
                             text: string, quoted: Option<string>, raw: seq<RawItem>,
                             answers: map<nat, RouterAnswer>, file: Option<string>, failAt: Option<nat>,
                             order: RowOrder)

  datatype Reply = Noise | Duplicate | Failed | Staged(created: nat, updated: nat, attached: nat)
                 | Linked(link: Link, attachedTo: seq<int>) | Kept(unassigned: bool)

  // The ticket, and the follow-up under it if any, that a photo is filed under.
  datatype Link = Link(incident: int, followUp: Option<int>)

  // ---- Open tickets ----

  predicate IsOpen(i: Incident) { i.status != "resolved" && i.status != "ignored" }

  datatype OpenTicket = OpenTicket(id: int, category: string, plate: Option<string>)

  function Describe(db: Db, ids: seq<int>): (open: seq<OpenTicket>)
    requires forall k | 0 <= k < |ids| :: ids[k] in db.incidents
    ensures |open| == |ids|
    ensures forall k | 0 <= k < |ids| :: open[k].id == ids[k]
  {
    seq(|ids|, k requires 0 <= k < |ids| =>
      OpenTicket(ids[k], db.incidents[ids[k]].category, db.incidents[ids[k]].plate))
  }

  function NewestOpen(db: Db, group: string): map<int, int> {
    map i | i in db.incidents && db.incidents[i].group == group && IsOpen(db.incidents[i]) :: -db.incidents[i].at
  }

  function GetOpenTickets(cfg: Config, db: Db, group: string, order: RowOrder): (open: seq<OpenTicket>)
    ensures forall t | t in open :: t.id in db.incidents && db.incidents[t.id].group == group
  {
    var ids := Take(Query(NewestOpen(db, group), order.incidents), cfg.openLimit);
    assert forall k | 0 <= k < |ids| :: ids[k] in NewestOpen(db, group);
    Describe(db, ids)
  }

  // ---- Routing ----

  datatype Routing = Routing(ticket: Option<int>, plate: Option<string>)

  function FirstOnPlate(open: seq<OpenTicket>, plate: string, category: string): Option<int> {
    if open == [] then None
    else if open[0].plate == Some(plate) && open[0].category == category then Some(open[0].id)
    else FirstOnPlate(open[1..], plate, category)
  }

  function ClassifyUpdateOrNew(open: seq<OpenTicket>, answer: RouterAnswer): Option<int> {
    if answer.SaysUpdate? && (exists t | t in open :: t.id == answer.ticket) then Some(answer.ticket) else None
  }

  function RouteIssue(cfg: Config, issue: Issue, text: string, open: seq<OpenTicket>, answer: RouterAnswer): Routing {
    if cfg.lead then Routing(None, None)
    else if cfg.fleet then
      var plate := ResolvePlateForIssue(issue.snippet, text);
      if plate.Some? then Routing(FirstOnPlate(open, plate.value, issue.category), plate)
      else Routing(None, None)
    else if open != [] then Routing(ClassifyUpdateOrNew(open, answer), None)
    else Routing(None, None)
  }

  function AnswerFor(m: Message, i: nat): RouterAnswer {
    if i in m.answers then m.answers[i] else SaysNew
  }

  // ---- Filing one issue ----

  predicate InIncidents(db: Db, mid: string, i: nat) {
    exists t | t in db.incidents :: db.incidents[t].messageId == Some(mid) && db.incidents[t].issueIndex == i
  }

  predicate InFollowUps(db: Db, mid: string, i: nat) {
    exists u | u in db.followUps :: db.followUps[u].messageId == Some(mid) && db.followUps[u].issueIndex == i
  }

  predicate Recorded(db: Db, mid: string, i: nat) { InIncidents(db, mid, i) || InFollowUps(db, mid, i) }

  function AddFollowUp(db: Db, m: Message, name: string, ticket: int, issue: Issue, i: nat): Db {
    db.(followUps := db.followUps[db.nextFollowUp :=
          FollowUp(ticket, m.phone, Some(name), issue.snippet, m.at, Some(m.id), i, true, false)],
        nextFollowUp := db.nextFollowUp + 1)
  }

  function AddIncident(cfg: Config, db: Db, m: Message, name: string, issue: Issue, plate: Option<string>, i: nat): Db {
    db.(incidents := db.incidents[db.nextIncident :=
          Incident(m.group, m.phone, Some(name), if cfg.lead then m.text else issue.snippet, issue.category, plate,
                   cfg.initialStatus, m.at, Some(m.id), i)],
        nextIncident := db.nextIncident + 1)
  }

  datatype Filing = Filing(db: Db, open: seq<OpenTicket>, link: Link)

  // Files an issue that is not recorded yet: as a follow-up of an open ticket or as a new ticket.
  function FileIssue(cfg: Config, m: Message, name: string, issue: Issue, i: nat, db: Db, open: seq<OpenTicket>): Filing {
    var routing := RouteIssue(cfg, issue, m.text, open, AnswerFor(m, i));
    if routing.ticket.Some? then
      Filing(AddFollowUp(db, m, name, routing.ticket.value, issue, i), open,
             Link(routing.ticket.value, Some(db.nextFollowUp)))
    else
      Filing(AddIncident(cfg, db, m, name, issue, routing.plate, i),
             open + [OpenTicket(db.nextIncident, issue.category, routing.plate)],
             Link(db.nextIncident, None))
  }

  // A filed issue as a place for photos.
  datatype Target = Target(confidence: real, link: Link)

  // Progress of a run over the issues of one message.
  datatype Progress = Progress(db: Db, open: seq<OpenTicket>, filed: seq<Target>, created: nat, updated: nat,
                               skipped: nat, failed: bool)

  predicate Survives(cfg: Config, issue: Issue) { issue.confidence >= cfg.minConfidence }

  function FileNext(cfg: Config, m: Message, name: string, issues: seq<Issue>, failAt: Option<nat>, i: nat, p: Progress)
    : Progress
    requires i < |issues|
  {
    if p.failed || !Survives(cfg, issues[i]) then p
    else if Recorded(p.db, m.id, i) then p.(skipped := p.skipped + 1)
    else if failAt == Some(i) then p.(failed := true)
    else
      var f := FileIssue(cfg, m, name, issues[i], i, p.db, p.open);
      p.(db := f.db, open := f.open, filed := p.filed + [Target(issues[i].confidence, f.link)],
         created := p.created + (if f.link.followUp.None? then 1 else 0),
         updated := p.updated + (if f.link.followUp.Some? then 1 else 0))
  }

  function Start(cfg: Config, db: Db, m: Message): Progress {
    Progress(db, GetOpenTickets(cfg, db, m.group, m.order), [], 0, 0, 0, false)
  }

  // The state after the first `n` issues.
  function FileIssues(cfg: Config, db: Db, m: Message, name: string, issues: seq<Issue>, failAt: Option<nat>, n: nat)
    : Progress
    requires n <= |issues|
  {
    if n == 0 then Start(cfg, db, m)
    else FileNext(cfg, m, name, issues, failAt, n - 1, FileIssues(cfg, db, m, name, issues, failAt, n - 1))
  }

  function IssuesOf(cfg: Config, m: Message): seq<Issue> {
    Classify(m.raw, m.text, cfg.categories, cfg.fleet && !cfg.lead)
  }

  predicate AnySurvivor(cfg: Config, issues: seq<Issue>) {
    exists i | 0 <= i < |issues| :: Survives(cfg, issues[i])
  }

  // ---- Linking photos ----

  predicate InWindow(cfg: Config, a: int, b: int) { a - cfg.window <= b <= a + cfg.window }

  predicate SweptBy(cfg: Config, p: Media, m: Message, quoted: Option<string>) {
    && p.group == Some(m.group)
    && p.incident.None?
    && ((m.phone.Some? && p.phone == m.phone && InWindow(cfg, m.at, p.at))
        || (quoted.Some? && p.messageId == quoted))
  }

  function SweptTo(p: Media, link: Link, quoted: Option<string>): Media {
    p.(incident := Some(link.incident), followUp := link.followUp,
       how := Some(if quoted.Some? && p.messageId == quoted then ByQuote else BySweep))
  }

  function Swept(cfg: Config, db: Db, m: Message, quoted: Option<string>): set<int> {
    set i | i in db.media && SweptBy(cfg, db.media[i], m, quoted)
  }

  // Attaches the sender's waiting photos, and the photo the message quotes, to `link`.
  function Sweep(cfg: Config, db: Db, m: Message, link: Link, quoted: Option<string>): Db {
    db.(media := map i | i in db.media ::
          if i in Swept(cfg, db, m, quoted) then SweptTo(db.media[i], link, quoted) else db.media[i])
  }

  function PlateTarget(cfg: Config, db: Db, group: string, text: string, order: RowOrder): Option<int> {
    var plates := ExtractPlates(text);
    if !cfg.fleet || |set p | p in plates| != 1 then None
    else
      var rows := map i | i in NewestOpen(db, group) && db.incidents[i].plate == Some(plates[0]) :: -db.incidents[i].at;
      if rows.Keys == {} then None else Some(First(rows, order.incidents))
  }

  function QuotedIncidents(db: Db, group: string, mid: string): map<int, int> {
    map i | i in db.incidents && db.incidents[i].group == group && db.incidents[i].messageId == Some(mid)
      :: db.incidents[i].issueIndex
  }

  function QuotedFollowUps(db: Db, group: string, mid: string): map<int, int> {
    map u | u in db.followUps && db.followUps[u].messageId == Some(mid) && InGroup(db, db.followUps[u].incident, group)
      :: 0
  }

  function QuotedMedia(db: Db, group: string, mid: string): map<int, int> {
    map i | i in db.media && db.media[i].group == Some(group) && db.media[i].messageId == Some(mid)
            && db.media[i].incident.Some? :: 0
  }

  predicate InGroup(db: Db, incident: int, group: string) {
    incident in db.incidents && db.incidents[incident].group == group
  }

  // The ticket, follow-up or linked photo that the quoted message became.
  function QuotedTarget(db: Db, group: string, quoted: Option<string>, order: RowOrder): Option<Link> {
    if quoted.None? then None
    else
      var incidents := QuotedIncidents(db, group, quoted.value);
      var followUps := QuotedFollowUps(db, group, quoted.value);
      var media := QuotedMedia(db, group, quoted.value);
      if incidents.Keys != {} then Some(Link(First(incidents, order.incidents), None))
      else if followUps.Keys != {} then
        var u := First(followUps, order.followUps);
        Some(Link(db.followUps[u].incident, Some(u)))
      else if media.Keys != {} then
        var p := db.media[First(media, order.media)];
        Some(Link(p.incident.value, p.followUp))
      else None
  }

  datatype Candidate = Candidate(at: int, link: Link)

  function NearIncidents(cfg: Config, db: Db, m: Message): map<int, int> {
    map i | i in db.incidents && db.incidents[i].group == m.group && db.incidents[i].phone == m.phone
            && InWindow(cfg, m.at, db.incidents[i].at) :: 0
  }

  function NearFollowUps(cfg: Config, db: Db, m: Message): map<int, int> {
    map u | u in db.followUps && InGroup(db, db.followUps[u].incident, m.group) && db.followUps[u].phone == m.phone
            && InWindow(cfg, m.at, db.followUps[u].at) :: 0
  }

  function NearMedia(cfg: Config, db: Db, m: Message): map<int, int> {
    map i | i in db.media && db.media[i].group == Some(m.group) && db.media[i].phone == m.phone
            && db.media[i].incident.Some? && InWindow(cfg, m.at, db.media[i].at)
            && db.media[i].messageId.Some? && db.media[i].messageId != Some(m.id) :: 0
  }

  function IncidentCandidates(db: Db, ids: seq<int>): (cs: seq<Candidate>)
    requires forall k | 0 <= k < |ids| :: ids[k] in db.incidents
    ensures forall c | c in cs :: c.link.followUp.None? && c.link.incident in ids
                                  && c.link.incident in db.incidents && c.at == db.incidents[c.link.incident].at
  {
    seq(|ids|, k requires 0 <= k < |ids| => Candidate(db.incidents[ids[k]].at, Link(ids[k], None)))
  }

  function FollowUpCandidates(db: Db, ids: seq<int>): (cs: seq<Candidate>)
    requires forall k | 0 <= k < |ids| :: ids[k] in db.followUps
    ensures forall c | c in cs :: c.link.followUp.Some? && c.link.followUp.value in ids
                                  && c.link.followUp.value in db.followUps
                                  && c.at == db.followUps[c.link.followUp.value].at
                                  && c.link.incident == db.followUps[c.link.followUp.value].incident
  {
    seq(|ids|, k requires 0 <= k < |ids| =>
      Candidate(db.followUps[ids[k]].at, Link(db.followUps[ids[k]].incident, Some(ids[k]))))
  }

  function MediaCandidates(db: Db, ids: seq<int>): (cs: seq<Candidate>)
    requires forall k | 0 <= k < |ids| :: ids[k] in db.media && db.media[ids[k]].incident.Some?
    ensures |cs| == |ids|
    ensures forall k | 0 <= k < |ids| :: var p := db.media[ids[k]];
              cs[k] == Candidate(p.at, Link(p.incident.value, p.followUp))
  {
    seq(|ids|, k requires 0 <= k < |ids| =>
      Candidate(db.media[ids[k]].at, Link(db.media[ids[k]].incident.value, db.media[ids[k]].followUp)))
  }

  // The sender's own records near the photo: tickets, then follow-ups, then linked photos.
  function Candidates(cfg: Config, db: Db, m: Message): seq<Candidate> {
    var near := NearIncidents(cfg, db, m);
    var ts := Query(near, m.order.incidents);
    var nearF := NearFollowUps(cfg, db, m);
    var us := Query(nearF, m.order.followUps);
    var nearM := NearMedia(cfg, db, m);
    var ps := Query(nearM, m.order.media);
    IncidentCandidates(db, ts) + FollowUpCandidates(db, us) + MediaCandidates(db, ps)
  }

  function Distance(a: int, b: int): nat { if a <= b then b - a else a - b }

  // The first of the candidates nearest in time.
  function Nearest(candidates: seq<Candidate>, at: int): (c: Candidate)
    requires candidates != []
    ensures c in candidates
    ensures forall d | d in candidates :: Distance(c.at, at) <= Distance(d.at, at)
  {
    if |candidates| == 1 then candidates[0]
    else
      var c := Nearest(candidates[..|candidates| - 1], at);
      var last := candidates[|candidates| - 1];
      assert candidates == candidates[..|candidates| - 1] + [last];
      if Distance(last.at, at) < Distance(c.at, at) then last else c
  }

  function ProximityTarget(cfg: Config, db: Db, m: Message): Option<Link> {
    if m.phone.None? then None
    else
      var candidates := Candidates(cfg, db, m);
      if candidates == [] then None else Some(Nearest(candidates, m.at).link)
  }

  // ---- Text messages ----

  // The strongest issue filed, the earliest one among equals.
  function Strongest(filed: seq<Target>): (t: Target)
    requires filed != []
    ensures t in filed
  {
    if |filed| == 1 then filed[0]
    else
      var t := Strongest(filed[..|filed| - 1]);
      var last := filed[|filed| - 1];
      if last.confidence > t.confidence then last else t
  }

  function TextIngest(cfg: Config, db: Db, m: Message, name: string): (Db, Reply) {
    var issues := IssuesOf(cfg, m);
    if !AnySurvivor(cfg, issues) then
      var plate := PlateTarget(cfg, db, m.group, m.text, m.order);
      (if plate.Some? then Sweep(cfg, db, m, Link(plate.value, None), m.quoted) else db, Noise)
    else
      var p := FileIssues(cfg, db, m, name, issues, m.failAt, |issues|);
      if p.failed then (p.db, Failed)
      else if p.created == 0 && p.updated == 0 && p.skipped > 0 then (p.db, Duplicate)
      else if p.filed == [] then (p.db, Staged(p.created, p.updated, 0))
      else
        (Sweep(cfg, p.db, m, Strongest(p.filed).link, m.quoted),
         Staged(p.created, p.updated, |Swept(cfg, p.db, m, m.quoted)|))
  }

  // ---- Photos ----

  // `filed` by descending confidence, equals in the order they were filed.
  function SortTargets(filed: seq<Target>): (sorted: seq<Target>)
    ensures |sorted| == |filed|
    ensures forall t :: t in sorted <==> t in filed
  {
    if filed == [] then []
    else
      assert filed == filed[..|filed| - 1] + [filed[|filed| - 1]];
      InsertTarget(SortTargets(filed[..|filed| - 1]), filed[|filed| - 1])
  }

  function InsertTarget(sorted: seq<Target>, t: Target): (r: seq<Target>)
    ensures |r| == |sorted| + 1
    ensures forall x :: x in r <==> x in sorted || x == t
  {
    if sorted == [] || t.confidence > sorted[0].confidence then [t] + sorted
    else [sorted[0]] + InsertTarget(sorted[1..], t)
  }

  datatype Choice = Choice(links: seq<Link>, how: Option<LinkMethod>)

  // Where a photo goes; the first rule that applies wins.
  function ChooseTargets(cfg: Config, db: Db, m: Message, filed: seq<Target>): Choice {
    var quoted := QuotedTarget(db, m.group, m.quoted, m.order);
    if quoted.Some? then Choice([quoted.value], Some(ByQuote))
    else if filed != [] then
      var sorted := SortTargets(filed);
      Choice(seq(|sorted|, k requires 0 <= k < |sorted| => sorted[k].link), Some(ByCaption))
    else
      var plate := if m.text != "" then PlateTarget(cfg, db, m.group, m.text, m.order) else None;
      if plate.Some? then Choice([Link(plate.value, None)], Some(ByPlate))
      else
        var near := ProximityTarget(cfg, db, m);
        if near.Some? then Choice([near.value], Some(ByProximity)) else Choice([], None)
  }

  function RowsOf(db: Db, mid: string): map<int, int> {
    map i | i in db.media && db.media[i].messageId == Some(mid) :: 0
  }

  function NewMedia(db: Db, row: Media): Db {
    db.(media := db.media[db.nextMedia := row], nextMedia := db.nextMedia + 1)
  }

  function PhotoRow(m: Message, file: string, link: Option<Link>, how: Option<LinkMethod>): Media {
    Media(if link.Some? then Some(link.value.incident) else None,
          if link.Some? then link.value.followUp else None,
          file, m.at, Some(m.group), m.phone, Some(m.id), how)
  }

  // Progress of filing one photo on its targets: `have` are the tickets that hold it, `spare`
  // its rows that no ticket holds yet.
  datatype Attaching = Attaching(db: Db, have: set<int>, spare: seq<int>, attached: seq<int>)

  function AttachNext(m: Message, file: string, choice: Choice, link: Link, a: Attaching): Attaching {
    if link.incident in a.have then a
    else
      var have, attached := a.have + {link.incident}, a.attached + [link.incident];
      if a.spare != [] && a.spare[|a.spare| - 1] in a.db.media then
        var id := a.spare[|a.spare| - 1];
        var row := a.db.media[id].(incident := Some(link.incident), followUp := link.followUp, how := choice.how);
        Attaching(a.db.(media := a.db.media[id := row]), have, a.spare[..|a.spare| - 1], attached)
      else
        Attaching(NewMedia(a.db, PhotoRow(m, file, Some(link), choice.how)), have, a.spare, attached)
  }

  function StartAttaching(db: Db, existing: seq<int>): Attaching
    requires forall k | 0 <= k < |existing| :: existing[k] in db.media
  {
    Attaching(db,
              set i | i in existing && db.media[i].incident.Some? :: db.media[i].incident.value,
              Unassigned(db, existing), [])
  }

  function Unassigned(db: Db, rows: seq<int>): (spare: seq<int>)
    requires forall k | 0 <= k < |rows| :: rows[k] in db.media
    ensures forall i :: i in spare <==> i in rows && db.media[i].incident.None?
  {
    if rows == [] then []
    else (if db.media[rows[0]].incident.None? then [rows[0]] else []) + Unassigned(db, rows[1..])
  }

  function AttachAll(m: Message, file: string, choice: Choice, n: nat, start: Attaching): Attaching
    requires n <= |choice.links|
  {
    if n == 0 then start
    else AttachNext(m, file, choice, choice.links[n - 1], AttachAll(m, file, choice, n - 1, start))
  }

  // The file of a message that already has rows, or the newly saved one.
  function StoredFile(db: Db, m: Message, existing: seq<int>): Option<string>
    requires forall k | 0 <= k < |existing| :: existing[k] in db.media
  {
    if existing != [] then Some(db.media[existing[0]].file) else m.file
  }

  function SaveFile(db: Db, m: Message, existing: seq<int>): Db {
    if existing == [] && m.file.Some? then db.(files := db.files + {m.file.value}) else db
  }

  // Files the photo on the chosen tickets, or keeps it unassigned when there is none.
  function AttachPhoto(db: Db, m: Message, choice: Choice): Attaching {
    var existing := Query(RowsOf(db, m.id), m.order.media);
    var stored := StoredFile(db, m, existing);
    var saved := SaveFile(db, m, existing);
    var start := StartAttaching(saved, existing);
    if stored.None? then start
    else if choice.links == [] && existing == [] then
      start.(db := NewMedia(saved, PhotoRow(m, stored.value, None, None)))
    else AttachAll(m, stored.value, choice, |choice.links|, start)
  }

  function PhotoIngest(cfg: Config, db: Db, m: Message, name: string): (Db, Reply) {
    var issues := if m.text != "" then IssuesOf(cfg, m) else [];
    var p := FileIssues(cfg, db, m, name, issues, None, |issues|);
    if AnySurvivor(cfg, issues) && p.created == 0 && p.updated == 0 && p.skipped > 0 then (p.db, Duplicate)
    else
      var choice := ChooseTargets(cfg, p.db, m, p.filed);
      var a := AttachPhoto(p.db, m, choice);
      var db' := if choice.how == Some(ByCaption) then Sweep(cfg, a.db, m, choice.links[0], None) else a.db;
      (db', if choice.links != [] then Linked(choice.links[0], a.attached)
            else Kept(a.db.nextMedia > p.db.nextMedia))
  }

  // ---- Staff actions ----

  predicate HasPhoto(db: Db, incident: int, file: string, but: int) {
    exists i | i in db.media :: i != but && db.media[i].incident == Some(incident) && db.media[i].file == file
  }

  // Moves a photo to a ticket or, without one, back to the unassigned list. Refused when the
  // photo or the ticket is missing or the ticket already has the photo.
  function AssignMedia(db: Db, id: int, target: Option<int>): Db {
    if id !in db.media then db
    else if target.None? then
      db.(media := db.media[id := db.media[id].(incident := None, followUp := None, how := None)])
    else if target.value !in db.incidents || HasPhoto(db, target.value, db.media[id].file, id) then db
    else
      var group := if db.media[id].group.Some? then db.media[id].group else Some(db.incidents[target.value].group);
      db.(media := db.media[id :=
        db.media[id].(incident := target, followUp := None, how := Some(ByHand), group := group)])
  }

  // Dismisses a photo; its file goes when no other row shares it.
  function DeleteMedia(db: Db, id: int): Db {
    if id !in db.media then db
    else
      var file := db.media[id].file;
      var media := db.media - {id};
      db.(media := media, files := if exists i | i in media :: media[i].file == file then db.files else db.files - {file})
  }

  function UploadMedia(db: Db, incident: int, file: string, now: int): Db {
    if incident !in db.incidents then db
    else
      NewMedia(db.(files := db.files + {file}),
               Media(Some(incident), None, file, now, Some(db.incidents[incident].group), None, None, Some(ByUpload)))
  }

  function RefileMedia(db: Db, followUp: int, incident: int, keep: bool): map<int, Media> {
    map i | i in db.media ::
      if db.media[i].followUp == Some(followUp)
      then db.media[i].(incident := Some(incident), followUp := if keep then Some(followUp) else None)
      else db.media[i]
  }

  // Makes a follow-up a ticket of its own. The insert fails, and nothing changes, when the
  // follow-up's message already has a ticket for issue 0.
  function Promote(cfg: Config, db: Db, id: int): Db {
    if id !in db.followUps then db
    else
      var u := db.followUps[id];
      if u.messageId.Some? && InIncidents(db, u.messageId.value, 0) then db
      else
        var group := if u.incident in db.incidents then db.incidents[u.incident].group else "";
        var row := Incident(group, u.phone, u.name, u.body, "other", None, cfg.initialStatus, u.at, u.messageId, 0);
        db.(incidents := db.incidents[db.nextIncident := row],
            nextIncident := db.nextIncident + 1,
            media := RefileMedia(db, id, db.nextIncident, false),
            followUps := db.followUps - {id})
  }

  // Moves a follow-up, and the photos filed under it, to another ticket.
  function Relink(db: Db, id: int, target: int): Db {
    if id !in db.followUps || target !in db.incidents then db
    else
      db.(followUps := db.followUps[id := db.followUps[id].(incident := target, aiLinked := false, relinked := true)],
          media := RefileMedia(db, id, target, true))
  }

  // A reply sent from the dashboard, stored as a follow-up under the WhatsApp id it was given.
  function StaffReply(db: Db, incident: int, mid: Option<string>, actor: string, text: string, now: int): Db {
    if incident !in db.incidents || (mid.Some? && InFollowUps(db, mid.value, 0)) then db
    else
      db.(followUps := db.followUps[db.nextFollowUp :=
            FollowUp(incident, None, Some(actor), text, now, mid, 0, false, false)],
          nextFollowUp := db.nextFollowUp + 1)
  }

  // Refused for a status that the mode does not have.
  function SetStatus(cfg: Config, db: Db, incident: int, status: string): Db {
    if status !in cfg.statuses || incident !in db.incidents then db
    else db.(incidents := db.incidents[incident := db.incidents[incident].(status := status)])
  }

  // Sets the fields given; `plate` may be given as none. Refused for a category that is not in the table.
  function EditFields(cfg: Config, db: Db, incident: int, category: Option<string>, plate: Option<Option<string>>): Db {
    if incident !in db.incidents || (category.Some? && category.value !in cfg.categories) then db
    else
      var t := db.incidents[incident];
      db.(incidents := db.incidents[incident :=
        t.(category := if category.Some? then category.value else t.category,
           plate := if plate.Some? then plate.value else t.plate)])
  }

  // ---- Sender names ----

  const UNKNOWN := "Unknown"
  const MAX_NAME := 100

  function CleanName(name: Option<string>): Option<string> {
    if name.None? then None
    else
      var t := Trim(name.value, IsSpace);
      var cut := if |t| <= MAX_NAME then t else t[..MAX_NAME];
      if cut == "" then None else Some(cut)
  }

  function ResolveReporterName(db: Db, phone: Option<string>, notifyName: Option<string>): string {
    var known := phone.Some? && phone.value in db.contacts;
    if known && db.contacts[phone.value].manual then db.contacts[phone.value].name
    else if CleanName(notifyName).Some? then CleanName(notifyName).value
    else if known then db.contacts[phone.value].name
    else UNKNOWN
  }

  predicate Nameless(name: Option<string>) { name.None? || name == Some(UNKNOWN) }

  // Writes `name` on the rows of `phone`, on the nameless ones only if asked.
  function RewriteRows(db: Db, phone: string, name: string, onlyUnknown: bool): Db {
    db.(incidents := map i | i in db.incidents ::
          if db.incidents[i].phone == Some(phone) && (onlyUnknown ==> Nameless(db.incidents[i].name))
          then db.incidents[i].(name := Some(name)) else db.incidents[i],
        followUps := map u | u in db.followUps ::
          if db.followUps[u].phone == Some(phone) && (onlyUnknown ==> Nameless(db.followUps[u].name))
          then db.followUps[u].(name := Some(name)) else db.followUps[u])
  }

  // A name WhatsApp gives for a phone.
  function Learn(db: Db, phone: Option<string>, given: Option<string>): Db {
    var name := CleanName(given);
    if phone.None? || name.None? || name.value == UNKNOWN then db
    else if phone.value in db.contacts
            && (db.contacts[phone.value].manual || db.contacts[phone.value].name == name.value) then db
    else
      RewriteRows(db.(contacts := db.contacts[phone.value := Contact(name.value, false)]),
                  phone.value, name.value, true)
  }

  // An administrator's name for a phone; an empty one clears the choice.
  function SetManualName(db: Db, phone: string, given: Option<string>): Db {
    var name := CleanName(given);
    if name.None? then
      if phone in db.contacts && db.contacts[phone].manual then db.(contacts := db.contacts - {phone}) else db
    else
      RewriteRows(db.(contacts := db.contacts[phone := Contact(name.value, true)]), phone, name.value, false)
  }

  // ---- Runs ----

  datatype Step =
    | TextArrives(m: Message)
    | PhotoArrives(m: Message)
    | Assign(media: int, target: Option<int>)
    | Dismiss(media: int)
    | Upload(incident: int, file: string, now: int)
    | PromoteFollowUp(followUp: int)
    | RelinkFollowUp(followUp: int, incident: int)
    | ReplyTo(incident: int, mid: Option<string>, actor: string, body: string, now: int)
    | ChangeStatus(incident: int, status: string)
    | EditTicket(incident: int, category: Option<string>, plate: Option<Option<string>>)
    | WhatsAppName(phone: Option<string>, name: Option<string>)
    | ManualName(who: string, name: Option<string>)

  // A delivery is named, the name is learned, and then the message is filed.
  function Apply(cfg: Config, db: Db, s: Step): Db {
    match s
    case TextArrives(m) =>
      TextIngest(cfg, Learn(db, m.phone, m.notifyName), m, ResolveReporterName(db, m.phone, m.notifyName)).0
    case PhotoArrives(m) =>
      PhotoIngest(cfg, Learn(db, m.phone, m.notifyName), m, ResolveReporterName(db, m.phone, m.notifyName)).0
    case Assign(id, target) => AssignMedia(db, id, target)
    case Dismiss(id) => DeleteMedia(db, id)
    case Upload(incident, file, now) => UploadMedia(db, incident, file, now)
    case PromoteFollowUp(id) => Promote(cfg, db, id)
    case RelinkFollowUp(id, target) => Relink(db, id, target)
    case ReplyTo(incident, mid, actor, body, now) => StaffReply(db, incident, mid, actor, body, now)
    case ChangeStatus(incident, status) => SetStatus(cfg, db, incident, status)
    case EditTicket(incident, category, plate) => EditFields(cfg, db, incident, category, plate)
    case WhatsAppName(phone, name) => Learn(db, phone, name)
    case ManualName(phone, name) => SetManualName(db, phone, name)
  }

  function Run(cfg: Config, db: Db, steps: seq<Step>): Db {
    if steps == [] then db else Apply(cfg, Run(cfg, db, steps[..|steps| - 1]), steps[|steps| - 1])
  }

  predicate IsDelivery(s: Step) { s.TextArrives? || s.PhotoArrives? }
}
