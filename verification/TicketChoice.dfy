/** Exactly which ticket the handlers choose: by routing, by plate, by time and by confidence. */
module TicketChoice {
  import opened Text
  import opened VehiclePlate
  import opened Classifier
  import opened Rows
  import opened TicketModel

  // ---- The open tickets offered ----

  ghost predicate OpenIn(db: Db, i: int, group: string) { InGroup(db, i, group) && IsOpen(db.incidents[i]) }

  ghost predicate Shown(open: seq<OpenTicket>, i: int) { exists t | t in open :: t.id == i }

  ghost predicate NewestFirst(db: Db, ids: seq<int>) {
    && (forall k | 0 <= k < |ids| :: ids[k] in db.incidents)
    && (forall a, b | 0 <= a < b < |ids| :: ids[a] != ids[b] && db.incidents[ids[a]].at >= db.incidents[ids[b]].at)
  }

  lemma AllNewestFirst(db: Db, group: string, rank: map<int, int>)
    ensures var all := Query(NewestOpen(db, group), rank);
            && NewestFirst(db, all) && (forall i :: i in all <==> OpenIn(db, i, group))
  {
    hide Query;
    var keys := NewestOpen(db, group);
    QueryInOrder(keys, rank);
    var all := Query(keys, rank);
    forall a, b | 0 <= a < b < |all|
      ensures db.incidents[all[a]].at >= db.incidents[all[b]].at
    {
      assert Precedes(keys, rank, all[a], all[b]);
    }
  }

  // The tickets offered are the first of all open tickets of the group.
  lemma OfferedAreFirst(cfg: Config, db: Db, group: string, order: RowOrder)
    ensures var open, all := GetOpenTickets(cfg, db, group, order), Query(NewestOpen(db, group), order.incidents);
            && |open| == (if |all| <= cfg.openLimit then |all| else cfg.openLimit)
            && forall k | 0 <= k < |open| :: open[k].id == all[k]
  {
    hide Query, NewestOpen;
  }

  /** The tickets offered are open tickets of the group, newest first, each once. Only when there are more
      than the limit is one left out, and then it is no newer than any that is offered. */
  lemma OpenTicketsAreNewest(cfg: Config, db: Db, group: string, order: RowOrder)
    ensures var open := GetOpenTickets(cfg, db, group, order);
            && |open| <= cfg.openLimit
            && (forall a | 0 <= a < |open| :: OpenIn(db, open[a].id, group))
            && (forall a, b | 0 <= a < b < |open| ::
                  open[a].id != open[b].id && db.incidents[open[a].id].at >= db.incidents[open[b].id].at)
            && (forall i | OpenIn(db, i, group) && !Shown(open, i) ::
                  |open| == cfg.openLimit
                  && forall a | 0 <= a < |open| :: db.incidents[open[a].id].at >= db.incidents[i].at)
  {
    hide Query, NewestOpen, GetOpenTickets;
    var open, all := GetOpenTickets(cfg, db, group, order), Query(NewestOpen(db, group), order.incidents);
    AllNewestFirst(db, group, order.incidents);
    OfferedAreFirst(cfg, db, group, order);
    forall a | 0 <= a < |open|
      ensures open[a].id == all[a] && all[a] in all && Shown(open, all[a])
    {
      assert open[a] in open;
    }
    forall i | OpenIn(db, i, group) && !Shown(open, i)
      ensures |open| == cfg.openLimit && forall a | 0 <= a < |open| :: db.incidents[open[a].id].at >= db.incidents[i].at
    {
      var k :| 0 <= k < |all| && all[k] == i;
      assert k >= |open|;
    }
  }

  // ---- Routing ----

  ghost predicate OnPlate(t: OpenTicket, plate: Option<string>, category: string) {
    t.plate == plate && t.category == category
  }

  lemma {:induction false} FirstOnPlateExact(open: seq<OpenTicket>, plate: string, category: string)
    ensures var r := FirstOnPlate(open, plate, category);
            && (r.None? <==> forall k | 0 <= k < |open| :: !OnPlate(open[k], Some(plate), category))
            && (r.Some? ==> exists k | 0 <= k < |open| ::
                  open[k].id == r.value && OnPlate(open[k], Some(plate), category)
                  && forall j | 0 <= j < k :: !OnPlate(open[j], Some(plate), category))
  {
    if open != [] && !OnPlate(open[0], Some(plate), category) {
      FirstOnPlateExact(open[1..], plate, category);
      var r := FirstOnPlate(open[1..], plate, category);
      if r.Some? {
        var k :| 0 <= k < |open[1..]| && open[1..][k].id == r.value && OnPlate(open[1..][k], Some(plate), category)
                 && forall j | 0 <= j < k :: !OnPlate(open[1..][j], Some(plate), category);
        assert open[k + 1].id == r.value;
        assert forall j | 0 <= j < k + 1 :: j == 0 || open[j] == open[1..][j - 1];
      } else {
        assert forall k | 0 <= k < |open| :: k == 0 || open[k] == open[1..][k - 1];
      }
    }
  }

  /** In fleet mode an issue goes to the first offered ticket with its plate and category, and becomes a
      ticket of its own exactly when there is none; the language model has no say. */
  lemma FleetRouting(cfg: Config, issue: Issue, text: string, open: seq<OpenTicket>, answer: RouterAnswer)
    requires cfg.fleet && !cfg.lead
    ensures var r, plate := RouteIssue(cfg, issue, text, open, answer), ResolvePlateForIssue(issue.snippet, text);
            && (r.ticket.None? <==>
                  plate.None? || forall k | 0 <= k < |open| :: !OnPlate(open[k], plate, issue.category))
            && (r.ticket.Some? ==> exists k | 0 <= k < |open| ::
                  open[k].id == r.ticket.value && OnPlate(open[k], plate, issue.category)
                  && forall j | 0 <= j < k :: !OnPlate(open[j], plate, issue.category))
            && (forall other: RouterAnswer :: RouteIssue(cfg, issue, text, open, other) == r)
  {
    hide ResolvePlateForIssue;
    var plate := ResolvePlateForIssue(issue.snippet, text);
    if plate.Some? {
      FirstOnPlateExact(open, plate.value, issue.category);
    }
  }

  // ---- The plate in a text ----

  // `p` is the only plate the text names.
  ghost predicate NamesOnly(text: string, p: string) {
    var plates := ExtractPlates(text);
    plates != [] && forall q | q in plates :: q == p
  }

  lemma OnlyPlate(text: string)
    ensures var plates := ExtractPlates(text);
            && (|set p | p in plates| == 1 <==> exists p :: NamesOnly(text, p))
            && (|set p | p in plates| == 1 ==> plates != [] && NamesOnly(text, plates[0]))
  {
    hide ExtractPlates;
    var plates := ExtractPlates(text);
    var distinct := set p | p in plates;
    if plates == [] {
      assert distinct == {};
    } else {
      var first := plates[0];
      assert first in distinct;
      var rest := distinct - {first};
      assert forall q | q in plates :: q == first || q in rest;
      if rest == {} {
        assert distinct == {first};
        assert NamesOnly(text, first);
      } else {
        var q :| q in rest;
        assert q in plates && {first, q} <= distinct;
        assert |distinct| == 1 + |rest|;
      }
    }
  }

  ghost predicate OnThisPlate(db: Db, i: int, group: string, p: string) {
    OpenIn(db, i, group) && db.incidents[i].plate == Some(p)
  }

  ghost predicate NewestOnPlate(db: Db, i: int, group: string, p: string) {
    OnThisPlate(db, i, group, p)
    && forall j | OnThisPlate(db, j, group, p) :: db.incidents[j].at <= db.incidents[i].at
  }

  /** A text points at a ticket by plate exactly in fleet mode, when it names one plate only and the group has
      an open ticket on it; then it is a newest such ticket. */
  lemma PlateTargetExact(cfg: Config, db: Db, group: string, text: string, order: RowOrder)
    ensures var r := PlateTarget(cfg, db, group, text, order);
            && (r.Some? <==> cfg.fleet && exists p, i :: NamesOnly(text, p) && OnThisPlate(db, i, group, p))
            && (r.Some? ==> exists p :: NamesOnly(text, p) && NewestOnPlate(db, r.value, group, p))
  {
    hide ExtractPlates;
    var plates := ExtractPlates(text);
    OnlyPlate(text);
    if cfg.fleet && |set p | p in plates| == 1 {
      var p := plates[0];
      assert NamesOnly(text, p);
      var rows := map i | i in NewestOpen(db, group) && db.incidents[i].plate == Some(p) :: -db.incidents[i].at;
      assert forall i :: i in rows <==> OnThisPlate(db, i, group, p);
      if rows.Keys == {} {
        assert forall i :: i !in rows;
      } else {
        var f := First(rows, order.incidents);
        assert IsFirst(rows, order.incidents, f);
        assert forall j | j in rows && j != f :: Precedes(rows, order.incidents, f, j);
        assert NewestOnPlate(db, f, group, p);
      }
      assert forall q | NamesOnly(text, q) :: q == p;
    }
  }

  // ---- The nearest message ----

  ghost predicate NoneNear(cfg: Config, db: Db, m: Message) {
    NearIncidents(cfg, db, m).Keys == {} && NearFollowUps(cfg, db, m).Keys == {} && NearMedia(cfg, db, m).Keys == {}
  }

  /** A photo follows a nearest one of its sender's own tickets, follow-ups and linked photos in the window, and
      stays without a target exactly when there is none or the sender is unknown. */
  lemma ProximityIsNearest(cfg: Config, db: Db, m: Message)
    ensures var r := ProximityTarget(cfg, db, m);
            && (r.None? <==> m.phone.None? || NoneNear(cfg, db, m))
            && (r.Some? ==> exists c | c in Candidates(cfg, db, m) ::
                  c.link == r.value && forall d | d in Candidates(cfg, db, m) :: Distance(c.at, m.at) <= Distance(d.at, m.at))
  {
    hide NearIncidents, NearFollowUps, NearMedia;
    SomethingNear(cfg, db, m);
    if m.phone.Some? && Candidates(cfg, db, m) != [] {
      var c := Nearest(Candidates(cfg, db, m), m.at);
      assert c in Candidates(cfg, db, m);
    }
  }

  lemma SomethingNear(cfg: Config, db: Db, m: Message)
    ensures Candidates(cfg, db, m) == [] <==> NoneNear(cfg, db, m)
  {
    hide NearIncidents, NearFollowUps, NearMedia;
    QueryLength(NearIncidents(cfg, db, m), m.order.incidents);
    QueryLength(NearFollowUps(cfg, db, m), m.order.followUps);
    QueryLength(NearMedia(cfg, db, m), m.order.media);
    NoRows(NearIncidents(cfg, db, m));
    NoRows(NearFollowUps(cfg, db, m));
    NoRows(NearMedia(cfg, db, m));
  }

  lemma NoRows(keys: map<int, int>)
    ensures |keys| == 0 <==> keys.Keys == {}
  {
    assert |keys| == |keys.Keys|;
  }

  // ---- The strongest issue ----

  lemma {:induction false} InsertedInOrder(sorted: seq<Target>, t: Target)
    requires forall a, b | 0 <= a < b < |sorted| :: sorted[a].confidence >= sorted[b].confidence
    ensures var r := InsertTarget(sorted, t);
            && (forall a, b | 0 <= a < b < |r| :: r[a].confidence >= r[b].confidence)
            && multiset(r) == multiset(sorted) + multiset{t}
  {
    if sorted != [] && t.confidence <= sorted[0].confidence {
      InsertedInOrder(sorted[1..], t);
      assert sorted == [sorted[0]] + sorted[1..];
      forall x | x in InsertTarget(sorted[1..], t)
        ensures x.confidence <= sorted[0].confidence
      {
        if x != t {
          var k :| 0 <= k < |sorted[1..]| && sorted[1..][k] == x;
          assert sorted[k + 1] == x;
        }
      }
    }
  }

  /** A photo's caption issues are tried by descending confidence, none lost and none added, and the first of
      them is the strongest issue, the one whose ticket an issue text would sweep photos to. */
  lemma {:induction false} TargetsByConfidence(filed: seq<Target>)
    ensures var r := SortTargets(filed);
            && (forall a, b | 0 <= a < b < |r| :: r[a].confidence >= r[b].confidence)
            && multiset(r) == multiset(filed)
            && (filed != [] ==> r[0] == Strongest(filed))
  {
    if filed != [] {
      var before, last := filed[..|filed| - 1], filed[|filed| - 1];
      assert filed == before + [last];
      TargetsByConfidence(before);
      InsertedInOrder(SortTargets(before), last);
    }
  }
}
