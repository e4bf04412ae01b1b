/** Tier upgrades are granted at most once and nobody but staff restricts a client
    (billing/main.py:333-397, 788-817, 1205-1318). */
module BillingTiers {
  import opened Text
  import opened Rows
  import opened BillingModel

  // ---- What holds between steps ----

  ghost predicate TierSound(t: Tier) { t.maxGroups.Some? ==> t.minGroups <= t.maxGroups.value }

  // A restricted client has a tier.
  ghost predicate ClientSound(b: Bill, c: Client) {
    && (c.tier.Some? ==> c.tier.value in b.tiers)
    && (c.groups.Some? ==> c.tier.Some?)
  }

  // A pending upgrade belongs to a restricted client.
  ghost predicate RequestSound(b: Bill, q: Request) {
    && q.client in b.clients && q.tier in b.tiers
    && (q.status == Pending ==> b.clients[q.client].groups.Some?)
  }

  ghost predicate OnePending(b: Bill) {
    forall r, q | r in b.requests && q in b.requests && r != q && b.requests[r].client == b.requests[q].client ::
      b.requests[r].status != Pending || b.requests[q].status != Pending
  }

  ghost predicate Tiered(b: Bill) {
    && (forall t | t in b.tiers :: t < b.nextTier && TierSound(b.tiers[t]))
    && (forall c | c in b.clients :: c < b.nextClient && ClientSound(b, b.clients[c]))
    && (forall r | r in b.requests :: r < b.nextRequest && RequestSound(b, b.requests[r]))
    && OnePending(b)
  }

  // ---- What a step may do to the requests ----

  // A request is never lost or altered, never becomes pending again, and is confirmed only when it was pending.
  ghost predicate RequestsMoveOn(b: Bill, after: Bill) {
    forall r | r in b.requests ::
      && r in after.requests
      && after.requests[r] == b.requests[r].(status := after.requests[r].status, receipt := after.requests[r].receipt)
      && (after.requests[r].status == Pending ==> after.requests[r] == b.requests[r])
      && (after.requests[r].status == Confirmed && b.requests[r].status != Confirmed ==> b.requests[r].status == Pending)
  }

  // ---- Steps that leave subdomains, groups, tiers and requests alone ----

  ghost predicate SameTier(c: Client, d: Client) { c.groups == d.groups && c.tier == d.tier }

  ghost predicate SameTiers(b: Bill, after: Bill) {
    && after.clients.Keys == b.clients.Keys
    && (forall c | c in b.clients ::
          SameTier(b.clients[c], after.clients[c]) && after.clients[c].subdomain == b.clients[c].subdomain)
    && after.requests == b.requests && after.tiers == b.tiers
    && after.nextClient == b.nextClient && after.nextRequest == b.nextRequest && after.nextTier == b.nextTier
  }

  lemma SameTiersKeep(b: Bill, after: Bill)
    requires Tiered(b) && SameTiers(b, after)
    ensures Tiered(after) && RequestsMoveOn(b, after)
  {
  }

  lemma ConverseTiers(b: Bill, client: int, s: int, text: string, now: int, today: int, stk: Stk)
    requires client in b.clients && s in b.sessions
    ensures SameTiers(b, Converse(b, client, s, text, now, today, stk))
  {
    hide Lower, NormalizePhone, RenewalCharge;
  }

  lemma ReplyTiers(b: Bill, client: int, text: string, now: int, today: int, stk: Stk, rank: map<int, int>)
    requires client in b.clients
    ensures SameTiers(b, Reply(b, client, text, now, today, stk, rank))
  {
    hide Converse, First;
    var live := LiveSessions(b, client, now);
    if live.Keys != {} {
      var f := First(live, rank);
      assert IsFirst(live, rank, f);
      ConverseTiers(b, client, f, text, now, today, stk);
    }
  }

  lemma MessageTiers(b: Bill, s: Step)
    requires s.Message?
    ensures SameTiers(b, Apply(b, s))
  {
    hide Trim, Lower, Reply, First;
    if s.client in b.clients {
      ReplyTiers(b, s.client, Trim(s.body, IsSpace), s.now, s.today, s.stk, s.rank);
    }
  }

  lemma CheckAllTiers(b: Bill, ids: seq<int>, now: int, today: int)
    requires forall k | 0 <= k < |ids| :: ids[k] in b.clients
    ensures SameTiers(b, CheckAll(b, ids, now, today))
  {
    if ids != [] {
      CheckAllTiers(b, ids[..|ids| - 1], now, today);
    }
  }

  lemma SettleTiers(b: Bill, s: int, paid: bool, receipt: Option<string>, today: int)
    requires s in b.sessions
    ensures SameTiers(b, SettleRenewal(b, s, paid, receipt, today))
  {
  }

  lemma AccountSteps(b: Bill, s: Step)
    requires s.Message? || s.ManualReactivate? || s.CloseClient? || s.Check?
    ensures SameTiers(b, Apply(b, s))
  {
    hide ClientMessage, Query, CheckAll;
    if s.Message? {
      MessageTiers(b, s);
    } else if s.Check? {
      var ids := Query(OpenClients(b), s.rank);
      assert forall k | 0 <= k < |ids| :: ids[k] in OpenClients(b);
      CheckAllTiers(b, ids, s.now, s.today);
    }
  }

  // ---- Steps on groups, tiers and requests ----

  lemma SeedKeeps(b: Bill)
    requires Tiered(b)
    ensures Tiered(SeedTiers(b)) && b.tiers.Keys <= SeedTiers(b).tiers.Keys
  {
  }

  lemma SetKeeps(b: Bill, client: int, c: Client)
    requires Tiered(b) && client in b.clients && ClientSound(b, c)
    requires c.groups.Some? || b.clients[client].groups.None?
    ensures Tiered(SetClient(b, client, c))
  {
  }

  lemma WithTierKeeps(b: Bill, client: int, rank: map<int, int>)
    requires Tiered(b) && client in b.clients
    ensures var after := WithTier(b, client, rank);
            && Tiered(after) && after.clients.Keys == b.clients.Keys && after.requests == b.requests
            && after.clients == b.clients[client := after.clients[client]]
            && after.clients[client].tier.Some? && after.clients[client].groups == b.clients[client].groups
            && (b.clients[client].tier.Some? ==> after == b)
  {
    hide Tiered, SeedTiers, BaseTier;
    SeedKeeps(b);
    if b.clients[client].tier.None? {
      assert SeedTiers(b).clients == b.clients && SeedTiers(b).requests == b.requests by {
        SeedOnlyTiers(b);
      }
      SoundOf(SeedTiers(b), client);
      SetKeeps(SeedTiers(b), client, b.clients[client].(tier := Some(BaseTier(b, rank))));
    }
  }

  lemma SeedOnlyTiers(b: Bill)
    ensures SeedTiers(b).clients == b.clients && SeedTiers(b).requests == b.requests
  {
  }

  lemma SoundOf(b: Bill, client: int)
    requires Tiered(b) && client in b.clients
    ensures ClientSound(b, b.clients[client])
  {
  }

  lemma GroupStepsKeep(b: Bill, s: Step)
    requires Tiered(b) && (s.AddGroup? || s.AdminAdd? || s.AdminRemove?)
    ensures Tiered(Apply(b, s)) && Apply(b, s).requests == b.requests
  {
    hide Tiered, Trim, Without, TierLimit, WithTier, WithGroup, GroupsOf;
    if s.client in b.clients {
      var g := Trim(s.group, IsSpace);
      SoundOf(b, s.client);
      if s.AdminRemove? {
        var c := b.clients[s.client];
        if c.groups.Some? {
          SetKeeps(b, s.client, c.(groups := Some(Without(c.groups.value, g))));
        }
      } else {
        WithTierKeeps(b, s.client, s.rank);
        var b1 := WithTier(b, s.client, s.rank);
        SoundOf(b1, s.client);
        var c := b1.clients[s.client];
        if s.AdminAdd? {
          SetKeeps(b1, s.client, c.(groups := Some(WithGroup(GroupsOf(c), g))));
        } else if c.groups.Some? {
          SetKeeps(b1, s.client, c.(groups := Some(c.groups.value + [g])));
        }
      }
    }
  }

  lemma ResetKeeps(b: Bill, client: int)
    requires Tiered(b)
    ensures Tiered(AdminReset(b, client)) && RequestsMoveOn(b, AdminReset(b, client))
  {
  }

  lemma UpgradeKeeps(b: Bill, s: Step)
    requires Tiered(b) && s.Upgrade?
    ensures Tiered(Apply(b, s)) && RequestsMoveOn(b, Apply(b, s))
  {
    hide Trim, NormalizePhone, NextTier;
    assert PendingOf(b, s.client).Keys == {} ==>
        forall r | r in b.requests && b.requests[r].client == s.client :: b.requests[r].status != Pending by {
      assert forall r | r in b.requests && b.requests[r].client == s.client && b.requests[r].status == Pending ::
          r in PendingOf(b, s.client);
    }
  }

  lemma SettleUpgradeKeeps(b: Bill, r: int, paid: bool, receipt: Option<string>)
    requires Tiered(b) && r in b.requests
    ensures Tiered(SettleUpgrade(b, r, paid, receipt)) && RequestsMoveOn(b, SettleUpgrade(b, r, paid, receipt))
  {
    hide WithGroup, GroupsOf;
  }

  lemma CallbackKeeps(b: Bill, s: Step)
    requires Tiered(b) && s.Callback?
    ensures Tiered(Apply(b, s)) && RequestsMoveOn(b, Apply(b, s))
  {
    hide Tiered, RequestsMoveOn, SettleRenewal, SettleUpgrade, First;
    var owners, requests := SessionsOf(b, s.checkout), RequestsOf(b, s.checkout);
    SameTiersKeep(b, b);
    if owners.Keys != {} {
      var f := First(owners, s.rank);
      assert IsFirst(owners, s.rank, f);
      SettleTiers(b, f, s.paid, s.receipt, s.today);
      SameTiersKeep(b, SettleRenewal(b, f, s.paid, s.receipt, s.today));
    } else if requests.Keys != {} {
      var f := First(requests, s.rank);
      assert IsFirst(requests, s.rank, f);
      SettleUpgradeKeeps(b, f, s.paid, s.receipt);
    }
  }

  lemma NewClientKeeps(b: Bill, subdomain: string, chosen: Option<int>, today: int, rank: map<int, int>)
    requires Tiered(b)
    ensures var after := CreateClient(b, subdomain, chosen, today, rank); Tiered(after) && after.requests == b.requests
  {
    hide BaseTier, SeedTiers, Trim, Lower, SubdomainTaken;
    SeedKeeps(b);
    SeedOnlyTiers(b);
  }

  lemma EditKeeps(b: Bill, client: int, renewal: Option<int>, tier: Option<int>)
    requires Tiered(b)
    ensures var after := UpdateClient(b, client, renewal, tier); Tiered(after) && after.requests == b.requests
  {
    hide Tiered;
    if client in b.clients {
      SoundOf(b, client);
      var c := b.clients[client];
      SetKeeps(b, client,
        c.(renewal := if renewal.Some? then renewal.value else c.renewal,
           tier := if tier.Some? && tier.value in b.tiers then tier else c.tier));
    }
  }

  // Tiers that keep their ranges may be priced anew.
  lemma PricedKeeps(b: Bill, tiers: map<int, Tier>)
    requires Tiered(b) && tiers.Keys == b.tiers.Keys
    requires forall t | t in b.tiers ::
               tiers[t].minGroups == b.tiers[t].minGroups && tiers[t].maxGroups == b.tiers[t].maxGroups
    ensures Tiered(b.(tiers := tiers))
  {
  }

  lemma PricesKeep(b: Bill, a1: real, a2: real, a3: real, rank: map<int, int>)
    requires Tiered(b)
    ensures var after := SetPrices(b, a1, a2, a3, rank); Tiered(after) && after.requests == b.requests
  {
    hide Tiered, SeedTiers, Query, PriceTiers;
    SeedKeeps(b);
    SeedOnlyTiers(b);
    var b1 := SeedTiers(b);
    if 0.0 < a1 <= a2 <= a3 {
      var ids := Query(TierOrder(b1.tiers), rank);
      assert forall k | 0 <= k < |ids| :: ids[k] in TierOrder(b1.tiers);
      PricedKeeps(b1, PriceTiers(b1.tiers, ids, [a1, a2, a3]));
    }
  }

  lemma AdminStepsKeep(b: Bill, s: Step)
    requires Tiered(b) && (s.NewClient? || s.EditClient? || s.Prices?)
    ensures Tiered(Apply(b, s)) && Apply(b, s).requests == b.requests
  {
    hide Tiered, CreateClient, UpdateClient, SetPrices;
    if s.NewClient? {
      NewClientKeeps(b, s.subdomain, s.chosen, s.today, s.rank);
    } else if s.EditClient? {
      EditKeeps(b, s.client, s.renewal, s.tier);
    } else {
      PricesKeep(b, s.a1, s.a2, s.a3, s.rank);
    }
  }

  lemma StepKeeps(b: Bill, s: Step)
    requires Tiered(b)
    ensures Tiered(Apply(b, s)) && RequestsMoveOn(b, Apply(b, s))
  {
    hide Apply, Tiered, RequestsMoveOn;
    if s.Message? || s.ManualReactivate? || s.CloseClient? || s.Check? {
      AccountSteps(b, s);
      SameTiersKeep(b, Apply(b, s));
    } else if s.Callback? {
      CallbackKeeps(b, s);
    } else if s.Upgrade? {
      UpgradeKeeps(b, s);
    } else if s.ResetGroups? {
      ResetKeeps(b, s.client);
      ResetApplied(b, s);
    } else {
      if s.NewClient? || s.EditClient? || s.Prices? {
        AdminStepsKeep(b, s);
      } else {
        GroupStepsKeep(b, s);
      }
      SameRequests(b, Apply(b, s));
    }
  }

  lemma ResetApplied(b: Bill, s: Step)
    requires s.ResetGroups?
    ensures Apply(b, s) == AdminReset(b, s.client)
  {
  }

  lemma SameRequests(b: Bill, after: Bill)
    requires after.requests == b.requests
    ensures RequestsMoveOn(b, after)
  {
  }

  // ---- Over whole runs ----

  /** In every run each client has at most one pending upgrade, a client with a pending upgrade is
      restricted, and a restricted client has a tier that exists. */
  lemma {:induction false} TiersStaySound(b: Bill, steps: seq<Step>)
    requires Tiered(b)
    ensures Tiered(Run(b, steps))
  {
    hide Apply, Tiered;
    if steps != [] {
      TiersStaySound(b, steps[..|steps| - 1]);
      StepKeeps(Run(b, steps[..|steps| - 1]), steps[|steps| - 1]);
    }
  }

  lemma EmptyBillSound()
    ensures Tiered(EMPTY_BILL)
  {
  }

  // ---- Grants ----

  // The upgrade request a step grants.
  ghost function Grants(b: Bill, s: Step): (r: Option<int>) {
    if !s.Callback? || !s.paid || s.checkout == "" || SessionsOf(b, s.checkout).Keys != {}
       || RequestsOf(b, s.checkout).Keys == {} then None
    else
      var r := First(RequestsOf(b, s.checkout), s.rank);
      if b.requests[r].status == Pending then Some(r) else None
  }

  ghost function AllGranted(b: Bill, steps: seq<Step>): seq<int> {
    if steps == [] then []
    else
      var before := steps[..|steps| - 1];
      var r := Grants(Run(b, before), steps[|steps| - 1]);
      AllGranted(b, before) + (if r.Some? then [r.value] else [])
  }

  // `has` is `had` with `g` at the end unless it was there already.
  ghost predicate Joined(had: seq<string>, g: string, has: seq<string>) {
    had <= has && |has| == |had| + (if g in had then 0 else 1) && forall x :: x in has <==> x in had || x == g
  }

  /** A grant gives the pending request's group and tier to its client and confirms the request; every
      other client and request stays as it is. */
  lemma GrantGivesTheUpgrade(b: Bill, s: Step)
    requires Tiered(b) && Grants(b, s).Some?
    ensures var r, after := Grants(b, s).value, Apply(b, s);
            && r in b.requests && b.requests[r].status == Pending
            && var q := b.requests[r];
               && after.requests == b.requests[r := q.(status := Confirmed, receipt := s.receipt)]
               && q.client in b.clients && after.clients == b.clients[q.client := after.clients[q.client]]
               && b.clients[q.client].groups.Some? && after.clients[q.client].groups.Some?
               && Joined(b.clients[q.client].groups.value, q.group, after.clients[q.client].groups.value)
               && after.clients[q.client].tier == Some(q.tier)
               && after.clients[q.client]
                   == b.clients[q.client].(groups := after.clients[q.client].groups, tier := Some(q.tier))
  {
    var waiting := RequestsOf(b, s.checkout);
    var f := First(waiting, s.rank);
    assert IsFirst(waiting, s.rank, f);
    assert RequestSound(b, b.requests[f]);
  }

  /** A callback that grants nothing changes no client's groups or tier. */
  lemma OnlyGrantsUpgrade(b: Bill, s: Step, c: int)
    requires s.Callback? && Grants(b, s).None? && c in b.clients
    ensures c in Apply(b, s).clients && SameTier(b.clients[c], Apply(b, s).clients[c])
  {
    hide SettleRenewal;
    var owners := SessionsOf(b, s.checkout);
    if s.checkout != "" && owners.Keys != {} {
      var f := First(owners, s.rank);
      assert IsFirst(owners, s.rank, f);
      SettleTiers(b, f, s.paid, s.receipt, s.today);
    }
  }

  /** No upgrade is granted twice in any run: a granted request has left the pending state for good. */
  lemma {:induction false} GrantedAtMostOnce(b: Bill, steps: seq<Step>)
    requires Tiered(b)
    ensures forall i, k | 0 <= i < k < |AllGranted(b, steps)| :: AllGranted(b, steps)[i] != AllGranted(b, steps)[k]
    ensures forall r | r in AllGranted(b, steps) ::
              r in Run(b, steps).requests && Run(b, steps).requests[r].status != Pending
  {
    hide Apply, Tiered, Grants;
    if steps != [] {
      var before, last := steps[..|steps| - 1], steps[|steps| - 1];
      GrantedAtMostOnce(b, before);
      TiersStaySound(b, before);
      StepKeeps(Run(b, before), last);
      if Grants(Run(b, before), last).Some? {
        GrantGivesTheUpgrade(Run(b, before), last);
      }
    }
  }

  /** A request that has left the pending state, for whatever reason, is never granted afterwards. */
  lemma {:induction false} LeftPendingNeverGranted(b: Bill, steps: seq<Step>, r: int)
    requires Tiered(b) && r in b.requests && b.requests[r].status != Pending
    ensures r !in AllGranted(b, steps)
    ensures r in Run(b, steps).requests && Run(b, steps).requests[r].status != Pending
  {
    hide Apply, Tiered, Grants;
    if steps != [] {
      var before, last := steps[..|steps| - 1], steps[|steps| - 1];
      LeftPendingNeverGranted(b, before, r);
      TiersStaySound(b, before);
      StepKeeps(Run(b, before), last);
      if Grants(Run(b, before), last).Some? {
        GrantGivesTheUpgrade(Run(b, before), last);
      }
    }
  }

  // ---- What an upgrade asks for ----

  // `t` is a smallest tier that starts above `limit` groups.
  ghost predicate NextAbove(b: Bill, limit: int, t: int) {
    t in b.tiers && b.tiers[t].minGroups > limit
    && forall u | u in b.tiers && b.tiers[u].minGroups > limit :: b.tiers[t].minGroups <= b.tiers[u].minGroups
  }

  lemma NextTierIsNext(b: Bill, limit: int, rank: map<int, int>)
    ensures var r := NextTier(b, limit, rank);
            if r.Some? then NextAbove(b, limit, r.value) else forall t :: !NextAbove(b, limit, t)
  {
    var above := TiersAbove(b, limit);
    assert forall u | u in b.tiers && b.tiers[u].minGroups > limit :: u in above.Keys;
    if above.Keys != {} {
      var f := First(above, rank);
      assert IsFirst(above, rank, f);
      forall u | u in b.tiers && b.tiers[u].minGroups > limit
        ensures b.tiers[f].minGroups <= b.tiers[u].minGroups
      {
        assert u in above && (u == f || Precedes(above, rank, f, u));
      }
    }
  }

  // The step changed nothing or added one request of its client, for a next tier above the client's cap at the price of
  // that tier, pending exactly when M-Pesa took the payment.
  ghost predicate AsksForNextTier(b: Bill, after: Bill, s: Step)
    requires s.Upgrade?
  {
    after == b
    || (&& b.nextRequest in after.requests && b.nextRequest !in b.requests
        && var q := after.requests[b.nextRequest];
           after == b.(requests := b.requests[b.nextRequest := q], nextRequest := b.nextRequest + 1)
           && q.client == s.client && s.client in b.clients && b.clients[s.client].groups.Some?
           && (forall r | r in b.requests && b.requests[r].client == s.client :: b.requests[r].status != Pending)
           && TierLimit(b, b.clients[s.client]).Some?
           && NextAbove(b, TierLimit(b, b.clients[s.client]).value, q.tier)
           && q.amount == b.tiers[q.tier].amount && q.amount > 0.0
           && q.group == Trim(s.group, IsSpace) && q.group != ""
           && q.status == (if s.stk.StkSent? then Pending else Failed))
  }

  /** A self-service upgrade adds one request, at the price of a next tier above the client's cap, pending
      exactly when M-Pesa took the payment, or it changes nothing. */
  lemma UpgradeAsksForNextTier(b: Bill, s: Step)
    requires Tiered(b) && s.Upgrade?
    ensures AsksForNextTier(b, Apply(b, s), s)
  {
    hide Trim, NormalizePhone, NextTier;
    if s.client in b.clients {
      SoundOf(b, s.client);
      var limit := TierLimit(b, b.clients[s.client]);
      if limit.Some? {
        NextTierIsNext(b, limit.value, s.rank);
      }
      assert PendingOf(b, s.client).Keys == {} ==>
          forall r | r in b.requests && b.requests[r].client == s.client :: b.requests[r].status != Pending by {
        assert forall r | r in b.requests && b.requests[r].client == s.client && b.requests[r].status == Pending ::
            r in PendingOf(b, s.client);
      }
    }
  }

  // ---- Only staff restrict a client ----

  lemma StaysUnrestricted(b: Bill, s: Step, c: int)
    requires Tiered(b) && c in b.clients && b.clients[c].groups.None?
    requires !(s.AdminAdd? && s.client == c)
    ensures c in Apply(b, s).clients && Apply(b, s).clients[c].groups.None?
  {
    hide Tiered, ClientMessage, MpesaCallback, DailyCheck, SelfUpgrade, Reactivate, Close, BaseTier, Trim, WithTier, WithGroup,
         GroupsOf, Without, TierLimit, PriceTiers, Query, SeedTiers;
    SoundOf(b, c);
    SeedOnlyTiers(b);
    if s.Message? || s.ManualReactivate? || s.CloseClient? || s.Check? {
      AccountSteps(b, s);
    } else if s.Callback? {
      CallbackUnrestricted(b, s, c);
    } else if s.Upgrade? {
      UpgradeTiers(b, s);
    } else if s.NewClient? {
      Numbered(b, c);
    } else if s.AddGroup? || s.AdminAdd? {
      if s.client in b.clients {
        WithTierKeeps(b, s.client, s.rank);
      }
    }
  }

  lemma Numbered(b: Bill, c: int)
    requires Tiered(b) && c in b.clients
    ensures c < SeedTiers(b).nextClient
  {
  }

  lemma UpgradeTiers(b: Bill, s: Step)
    requires s.Upgrade?
    ensures Apply(b, s).clients == b.clients && Apply(b, s).tiers == b.tiers
  {
  }

  lemma CallbackUnrestricted(b: Bill, s: Step, c: int)
    requires Tiered(b) && c in b.clients && b.clients[c].groups.None? && s.Callback?
    ensures c in Apply(b, s).clients && Apply(b, s).clients[c].groups.None?
  {
    hide Apply, Grants;
    if Grants(b, s).Some? {
      GrantGivesTheUpgrade(b, s);
    } else {
      OnlyGrantsUpgrade(b, s, c);
    }
  }

  /** A client without restriction stays so until a staff member adds a group to it: no message,
      payment, self-service request, upgrade callback or other client's affair restricts it. */
  lemma {:induction false} OnlyStaffRestrict(b: Bill, steps: seq<Step>, c: int)
    requires Tiered(b) && c in b.clients && b.clients[c].groups.None?
    requires forall k | 0 <= k < |steps| :: !(steps[k].AdminAdd? && steps[k].client == c)
    ensures c in Run(b, steps).clients && Run(b, steps).clients[c].groups.None?
  {
    hide Apply, Tiered;
    if steps != [] {
      OnlyStaffRestrict(b, steps[..|steps| - 1], c);
      TiersStaySound(b, steps[..|steps| - 1]);
      StaysUnrestricted(Run(b, steps[..|steps| - 1]), steps[|steps| - 1], c);
    }
  }
}
