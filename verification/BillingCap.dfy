/** The cap on a restricted client's groups: which steps keep it, and exactly when a granted upgrade or a
    staff action does not (billing/main.py:275-314, 334-356, 788-817, 1205-1318). */
module BillingCap {
  import opened Text
  import opened Rows
  import opened BillingModel
  import opened BillingTiers

  // ---- The cap on groups ----

  // The most groups a tier allows; None is no bound.
  ghost function Cap(b: Bill, c: int): Option<int>
    requires c in b.clients
  {
    TierLimit(b, b.clients[c])
  }

  ghost predicate AtMost(x: Option<int>, y: Option<int>) { y.None? || (x.Some? && x.value <= y.value) }

  ghost predicate WithinCap(b: Bill, c: int)
    requires c in b.clients
  {
    b.clients[c].groups.Some? ==> AtMost(Some(|b.clients[c].groups.value|), Cap(b, c))
  }

  // ---- Steps other than a grant keep the cap ----

  // The steps staff can overrule the cap with.
  ghost predicate Overrules(s: Step, c: int) {
    (s.AdminAdd? && s.client == c) || (s.EditClient? && s.client == c && s.tier.Some?)
  }

  // The client is within its cap and, if restricted, was so before with no larger a cap.
  ghost predicate CapKept(b: Bill, after: Bill, c: int) {
    && c in b.clients && c in after.clients && WithinCap(after, c)
    && (after.clients[c].groups.Some? ==> b.clients[c].groups.Some? && AtMost(Cap(b, c), Cap(after, c)))
  }

  lemma SameTiersCap(b: Bill, after: Bill, c: int)
    requires c in b.clients && WithinCap(b, c) && SameTiers(b, after)
    ensures CapKept(b, after, c)
  {
  }

  lemma SettleUpgradeTables(b: Bill, r: int, paid: bool, receipt: Option<string>)
    requires r in b.requests
    ensures SettleUpgrade(b, r, paid, receipt).tiers == b.tiers
    ensures SettleUpgrade(b, r, paid, receipt).requests.Keys <= b.requests.Keys
  {
    hide WithGroup, GroupsOf;
  }

  lemma CallbackTables(b: Bill, s: Step)
    requires s.Callback?
    ensures Apply(b, s).tiers == b.tiers && Apply(b, s).requests.Keys <= b.requests.Keys
  {
    hide SettleRenewal, SettleUpgrade, First;
    var owners, requests := SessionsOf(b, s.checkout), RequestsOf(b, s.checkout);
    if owners.Keys != {} {
      var f := First(owners, s.rank);
      assert IsFirst(owners, s.rank, f);
      SettleTiers(b, f, s.paid, s.receipt, s.today);
    } else if requests.Keys != {} {
      var f := First(requests, s.rank);
      assert IsFirst(requests, s.rank, f);
      SettleUpgradeTables(b, f, s.paid, s.receipt);
    }
  }

  lemma AddCap(b: Bill, s: Step, c: int)
    requires Tiered(b) && c in b.clients && WithinCap(b, c) && s.AddGroup?
    ensures CapKept(b, Apply(b, s), c)
  {
    hide Tiered, Trim, WithTier;
    if s.client in b.clients {
      SoundOf(b, s.client);
      SoundOf(b, c);
      WithTierKeeps(b, s.client, s.rank);
      WithTierExtends(b, s.client, s.rank);
    }
  }

  lemma RemoveCap(b: Bill, s: Step, c: int)
    requires c in b.clients && WithinCap(b, c) && s.AdminRemove?
    ensures CapKept(b, Apply(b, s), c)
  {
    hide Trim, Without;
  }

  lemma ResetCap(b: Bill, s: Step, c: int)
    requires c in b.clients && WithinCap(b, c) && s.ResetGroups?
    ensures CapKept(b, Apply(b, s), c)
  {
  }

  ghost predicate TiersExtended(b: Bill, after: Bill) {
    forall t | t in b.tiers ::
      && t in after.tiers
      && after.tiers[t].minGroups == b.tiers[t].minGroups && after.tiers[t].maxGroups == b.tiers[t].maxGroups
  }

  lemma SameCap(b: Bill, after: Bill, c: int)
    requires Tiered(b) && TiersExtended(b, after) && c in b.clients && b.clients[c].groups.Some?
    requires c in after.clients && after.clients[c].tier == b.clients[c].tier
    ensures Cap(after, c) == Cap(b, c)
  {
    hide Tiered;
    SoundOf(b, c);
    var t := b.clients[c].tier.value;
    assert t in after.tiers && after.tiers[t].maxGroups == b.tiers[t].maxGroups;
  }

  lemma ExtendedCap(b: Bill, after: Bill, c: int)
    requires Tiered(b) && c in b.clients && WithinCap(b, c) && TiersExtended(b, after)
    requires c in after.clients && SameTier(b.clients[c], after.clients[c])
    ensures CapKept(b, after, c)
  {
    hide Tiered, TiersExtended;
    if b.clients[c].groups.Some? {
      SameCap(b, after, c);
    }
  }

  lemma SeedExtends(b: Bill)
    ensures TiersExtended(b, SeedTiers(b))
  {
  }

  lemma AdminStepTiers(b: Bill, s: Step, c: int)
    requires Tiered(b) && c in b.clients && (s.NewClient? || s.EditClient? || s.Prices? || s.AdminAdd?) && !Overrules(s, c)
    ensures var after := Apply(b, s);
            && TiersExtended(b, after) && after.requests == b.requests
            && c in after.clients && SameTier(b.clients[c], after.clients[c])
  {
    hide Tiered, SeedTiers, BaseTier, PriceTiers, Query, WithTier, WithGroup, GroupsOf, Trim, Lower, SubdomainTaken;
    SeedExtends(b);
    SeedOnlyTiers(b);
    Numbered(b, c);
    if s.AdminAdd? && s.client in b.clients {
      WithTierKeeps(b, s.client, s.rank);
      WithTierExtends(b, s.client, s.rank);
    }
  }

  lemma WithTierExtends(b: Bill, client: int, rank: map<int, int>)
    requires client in b.clients
    ensures TiersExtended(b, WithTier(b, client, rank))
  {
    hide BaseTier;
  }

  // The step is a paid callback for an upgrade of this client.
  ghost predicate GrantsTo(b: Bill, s: Step, c: int) {
    Grants(b, s).Some? && b.requests[Grants(b, s).value].client == c
  }

  lemma OthersCallbackCap(b: Bill, s: Step, c: int)
    requires Tiered(b) && c in b.clients && WithinCap(b, c) && s.Callback? && !GrantsTo(b, s, c)
    ensures CapKept(b, Apply(b, s), c)
  {
    hide Apply, Grants;
    CallbackTables(b, s);
    if Grants(b, s).Some? {
      GrantGivesTheUpgrade(b, s);
    } else {
      OnlyGrantsUpgrade(b, s, c);
    }
  }

  lemma OtherStepsCap(b: Bill, s: Step, c: int)
    requires Tiered(b) && c in b.clients && WithinCap(b, c) && !Overrules(s, c) && !GrantsTo(b, s, c)
    ensures CapKept(b, Apply(b, s), c)
  {
    hide Apply, Tiered, WithinCap, CapKept, GrantsTo;
    if s.Message? || s.ManualReactivate? || s.CloseClient? || s.Check? {
      AccountSteps(b, s);
      SameTiersCap(b, Apply(b, s), c);
    } else if s.Callback? {
      OthersCallbackCap(b, s, c);
    } else if s.AddGroup? {
      AddCap(b, s, c);
    } else if s.AdminRemove? {
      RemoveCap(b, s, c);
    } else if s.Upgrade? {
      UpgradeCap(b, s, c);
    } else if s.ResetGroups? {
      ResetCap(b, s, c);
    } else {
      AdminStepTiers(b, s, c);
      ExtendedCap(b, Apply(b, s), c);
    }
  }

  lemma UpgradeCap(b: Bill, s: Step, c: int)
    requires Tiered(b) && c in b.clients && WithinCap(b, c) && s.Upgrade?
    ensures CapKept(b, Apply(b, s), c)
  {
    hide Apply, Tiered;
    UpgradeTiers(b, s);
  }

  // ---- When a grant keeps the cap ----

  ghost function TierMax(b: Bill, t: int): Option<int> { if t in b.tiers then b.tiers[t].maxGroups else None }

  // How many groups the client has once the upgrade is granted.
  ghost function GroupsWith(b: Bill, q: Request): nat
    requires q.client in b.clients
  {
    var groups := GroupsOf(b.clients[q.client]);
    |groups| + if q.group in groups then 0 else 1
  }

  // The tier an upgrade leads to has room for the client's groups and no lower a cap.
  ghost predicate Fits(b: Bill, q: Request)
    requires q.client in b.clients
  {
    AtMost(Some(GroupsWith(b, q)), TierMax(b, q.tier)) && AtMost(Cap(b, q.client), TierMax(b, q.tier))
  }

  /** What a grant does to the cap, exactly: afterwards the client is within it when the requested tier has
      room for the groups it then has, and the cap has not gone down when that tier's is no lower. */
  lemma GrantCap(b: Bill, s: Step)
    requires Tiered(b) && Grants(b, s).Some?
    ensures var q, after := b.requests[Grants(b, s).value], Apply(b, s);
            && q.client in b.clients && q.client in after.clients
            && (WithinCap(after, q.client) <==> AtMost(Some(GroupsWith(b, q)), TierMax(b, q.tier)))
            && (AtMost(Cap(b, q.client), Cap(after, q.client)) <==> AtMost(Cap(b, q.client), TierMax(b, q.tier)))
            && (CapKept(b, after, q.client) <==> Fits(b, q))
  {
    hide Apply, Grants;
    GrantGivesTheUpgrade(b, s);
    GrantIsCallback(b, s);
    CallbackTables(b, s);
  }

  lemma GrantIsCallback(b: Bill, s: Step)
    requires Grants(b, s).Some?
    ensures s.Callback?
  {
  }

  // The step grants the client an upgrade that does not fit.
  ghost predicate Misfit(b: Bill, s: Step, c: int) {
    GrantsTo(b, s, c) && c in b.clients && !Fits(b, b.requests[Grants(b, s).value])
  }

  /** A step that does not overrule it keeps the cap exactly when it grants no upgrade that does not fit. */
  lemma StepCap(b: Bill, s: Step, c: int)
    requires Tiered(b) && c in b.clients && WithinCap(b, c) && !Overrules(s, c)
    ensures CapKept(b, Apply(b, s), c) <==> !Misfit(b, s, c)
  {
    hide Apply, Tiered, WithinCap, CapKept, Fits, Grants;
    if GrantsTo(b, s, c) {
      GrantCap(b, s);
    } else {
      OtherStepsCap(b, s, c);
    }
  }

  // ---- Upgrades that lead up ----

  ghost predicate Waits(b: Bill, c: int, r: int) {
    r in b.requests && b.requests[r].client == c && b.requests[r].status == Pending
  }

  // The upgrade leads to a tier that starts above the client's cap.
  ghost predicate LeadsUp(b: Bill, c: int, r: int)
    requires c in b.clients && r in b.requests
  {
    var t := b.requests[r].tier;
    t in b.tiers && Cap(b, c).Some? && Cap(b, c).value < b.tiers[t].minGroups
  }

  // Every waiting upgrade of the client leads up, except perhaps the `early` ones.
  ghost predicate LeadUp(b: Bill, c: int, early: set<int>) {
    && c in b.clients && early <= b.requests.Keys
    && (b.clients[c].groups.Some? ==> forall r | Waits(b, c, r) && r !in early :: LeadsUp(b, c, r))
  }

  lemma LeadingUpFits(b: Bill, c: int, r: int)
    requires Tiered(b) && c in b.clients && WithinCap(b, c) && Waits(b, c, r) && LeadsUp(b, c, r)
    ensures Fits(b, b.requests[r])
  {
    assert TierSound(b.tiers[b.requests[r].tier]);
    assert RequestSound(b, b.requests[r]);
  }

  // Steps that leave the client's cap alone and add no request of it.
  lemma SameCapLeadUp(b: Bill, after: Bill, c: int, early: set<int>)
    requires LeadUp(b, c, early) && RequestsMoveOn(b, after) && after.requests.Keys == b.requests.Keys
    requires c in after.clients && TiersExtended(b, after)
    requires after.clients[c].groups.Some? ==> b.clients[c].groups.Some? && Cap(after, c) == Cap(b, c)
    ensures LeadUp(after, c, early)
  {
    forall r | after.clients[c].groups.Some? && Waits(after, c, r) && r !in early
      ensures LeadsUp(after, c, r)
    {
      assert Waits(b, c, r) && LeadsUp(b, c, r);
    }
  }

  lemma RequestLeadUp(b: Bill, s: Step, c: int, early: set<int>)
    requires Tiered(b) && LeadUp(b, c, early) && s.Upgrade?
    ensures LeadUp(Apply(b, s), c, early)
  {
    hide Apply, Tiered;
    UpgradeAsksForNextTier(b, s);
    UpgradeTiers(b, s);
    var after := Apply(b, s);
    forall r | after.clients[c].groups.Some? && Waits(after, c, r) && r !in early
      ensures LeadsUp(after, c, r)
    {
      if r in b.requests {
        assert Waits(b, c, r) && LeadsUp(b, c, r);
      }
    }
  }

  lemma GrantedLeadUp(b: Bill, s: Step, c: int, early: set<int>)
    requires Tiered(b) && LeadUp(b, c, early) && GrantsTo(b, s, c)
    ensures LeadUp(Apply(b, s), c, early)
  {
    hide Apply, Grants;
    GrantGivesTheUpgrade(b, s);
    var after := Apply(b, s);
    assert forall r | r in after.requests :: !Waits(after, c, r);
  }

  lemma CallbackLeadUp(b: Bill, s: Step, c: int, early: set<int>)
    requires Tiered(b) && LeadUp(b, c, early) && s.Callback?
    ensures LeadUp(Apply(b, s), c, early)
  {
    hide Apply, Tiered, LeadUp, RequestsMoveOn;
    LeadUpClient(b, c, early);
    if GrantsTo(b, s, c) {
      GrantedLeadUp(b, s, c, early);
    } else {
      CallbackTables(b, s);
      StepKeeps(b, s);
      KeptRequests(b, Apply(b, s));
      hide Grants;
      if Grants(b, s).Some? {
        GrantGivesTheUpgrade(b, s);
      } else {
        OnlyGrantsUpgrade(b, s, c);
      }
      SameCapLeadUp(b, Apply(b, s), c, early);
    }
  }

  lemma LeadUpClient(b: Bill, c: int, early: set<int>)
    requires LeadUp(b, c, early)
    ensures c in b.clients
  {
  }

  lemma KeptRequests(b: Bill, after: Bill)
    requires RequestsMoveOn(b, after)
    ensures b.requests.Keys <= after.requests.Keys
  {
    forall r | r in b.requests
      ensures r in after.requests
    {
    }
  }

  lemma GroupsLeadUp(b: Bill, s: Step, c: int, early: set<int>)
    requires Tiered(b) && LeadUp(b, c, early) && (s.AddGroup? || s.AdminRemove?)
    ensures LeadUp(Apply(b, s), c, early)
  {
    hide Tiered, Trim, WithTier, Without, TierLimit, LeadUp, RequestsMoveOn;
    LeadUpClient(b, c, early);
    GroupStepsKeep(b, s);
    SameRequests(b, Apply(b, s));
    var after := Apply(b, s);
    if s.client in b.clients {
      SoundOf(b, c);
      if s.AddGroup? {
        WithTierKeeps(b, s.client, s.rank);
        WithTierExtends(b, s.client, s.rank);
      }
    }
    if b.clients[c].groups.Some? {
      SameCap(b, after, c);
    }
    SameCapLeadUp(b, after, c, early);
  }

  lemma ResetLeadUp(b: Bill, s: Step, c: int, early: set<int>)
    requires Tiered(b) && LeadUp(b, c, early) && s.ResetGroups?
    ensures LeadUp(Apply(b, s), c, early)
  {
    ResetKeeps(b, s.client);
    hide Tiered, LeadUp, RequestsMoveOn;
    LeadUpClient(b, c, early);
    SameCapLeadUp(b, Apply(b, s), c, early);
  }

  lemma SameTiersLeadUp(b: Bill, after: Bill, c: int, early: set<int>)
    requires LeadUp(b, c, early) && SameTiers(b, after)
    ensures LeadUp(after, c, early)
  {
    forall r | after.clients[c].groups.Some? && Waits(after, c, r) && r !in early
      ensures LeadsUp(after, c, r)
    {
      assert Waits(b, c, r) && LeadsUp(b, c, r);
    }
  }

  lemma StepLeadUp(b: Bill, s: Step, c: int, early: set<int>)
    requires Tiered(b) && LeadUp(b, c, early) && !Overrules(s, c)
    ensures LeadUp(Apply(b, s), c, early)
  {
    hide Apply, Tiered, LeadUp, RequestsMoveOn;
    LeadUpClient(b, c, early);
    if s.Message? || s.ManualReactivate? || s.CloseClient? || s.Check? {
      AccountSteps(b, s);
      SameTiersLeadUp(b, Apply(b, s), c, early);
    } else if s.Callback? {
      CallbackLeadUp(b, s, c, early);
    } else if s.AddGroup? || s.AdminRemove? {
      GroupsLeadUp(b, s, c, early);
    } else if s.Upgrade? {
      RequestLeadUp(b, s, c, early);
    } else if s.ResetGroups? {
      ResetLeadUp(b, s, c, early);
    } else {
      AdminStepTiers(b, s, c);
      SameRequests(b, Apply(b, s));
      if b.clients[c].groups.Some? {
        SameCap(b, Apply(b, s), c);
      }
      SameCapLeadUp(b, Apply(b, s), c, early);
    }
  }

  // ---- The cap over whole runs ----

  ghost predicate NotOverruled(steps: seq<Step>, c: int) {
    forall k | 0 <= k < |steps| :: !Overrules(steps[k], c)
  }

  ghost predicate KeepsCapAt(b: Bill, steps: seq<Step>, c: int, k: nat)
    requires k < |steps|
  {
    CapKept(Run(b, steps[..k]), Run(b, steps[..k + 1]), c)
  }

  ghost predicate MisfitAt(b: Bill, steps: seq<Step>, c: int, k: nat)
    requires k < |steps|
  {
    Misfit(Run(b, steps[..k]), steps[k], c)
  }

  lemma RunOneMore(b: Bill, steps: seq<Step>, k: nat)
    requires k < |steps|
    ensures Run(b, steps[..k + 1]) == Apply(Run(b, steps[..k]), steps[k])
  {
    hide Apply;
    assert steps[..k + 1][..k] == steps[..k];
  }

  lemma KeepsCapExactly(b: Bill, steps: seq<Step>, c: int, k: nat)
    requires Tiered(b) && NotOverruled(steps, c) && k < |steps|
    requires c in Run(b, steps[..k]).clients && WithinCap(Run(b, steps[..k]), c)
    ensures KeepsCapAt(b, steps, c, k) <==> !MisfitAt(b, steps, c, k)
  {
    hide Apply, Tiered, WithinCap, CapKept, Misfit, Run;
    TiersStaySound(b, steps[..k]);
    RunOneMore(b, steps, k);
    StepCap(Run(b, steps[..k]), steps[k], c);
  }

  // The client is within its cap as long as no step before has broken it.
  lemma {:induction false} StaysWithin(b: Bill, steps: seq<Step>, c: int, n: nat)
    requires Tiered(b) && c in b.clients && WithinCap(b, c) && NotOverruled(steps, c) && n <= |steps|
    requires (forall k | 0 <= k < n :: KeepsCapAt(b, steps, c, k)) || forall k | 0 <= k < n :: !MisfitAt(b, steps, c, k)
    ensures c in Run(b, steps[..n]).clients && WithinCap(Run(b, steps[..n]), c)
    ensures forall k | 0 <= k < n :: KeepsCapAt(b, steps, c, k) && !MisfitAt(b, steps, c, k)
  {
    hide Apply, Tiered, Misfit, MisfitAt;
    if n > 0 {
      StaysWithin(b, steps, c, n - 1);
      KeepsCapExactly(b, steps, c, n - 1);
    }
  }

  /** Without staff overruling it, every step of a run that starts within the cap keeps it, exactly when no
      step grants the client an upgrade that does not fit at that moment. */
  lemma CapHoldsExactly(b: Bill, steps: seq<Step>, c: int)
    requires Tiered(b) && c in b.clients && WithinCap(b, c) && NotOverruled(steps, c)
    ensures (forall k | 0 <= k < |steps| :: KeepsCapAt(b, steps, c, k))
            <==> forall k | 0 <= k < |steps| :: !MisfitAt(b, steps, c, k)
  {
    hide KeepsCapAt, MisfitAt, Tiered, WithinCap;
    if forall k | 0 <= k < |steps| :: KeepsCapAt(b, steps, c, k) {
      StaysWithin(b, steps, c, |steps|);
    } else if forall k | 0 <= k < |steps| :: !MisfitAt(b, steps, c, k) {
      StaysWithin(b, steps, c, |steps|);
    }
  }

  // The waiting upgrades that do not lead up.
  ghost function Downward(b: Bill, c: int): set<int>
    requires c in b.clients
  {
    set r | r in b.requests && Waits(b, c, r) && !LeadsUp(b, c, r)
  }

  lemma {:induction false} LeadUpHolds(b: Bill, steps: seq<Step>, c: int, early: set<int>)
    requires Tiered(b) && LeadUp(b, c, early) && NotOverruled(steps, c)
    ensures LeadUp(Run(b, steps), c, early)
  {
    hide Apply, Tiered, LeadUp;
    if steps != [] {
      LeadUpHolds(b, steps[..|steps| - 1], c, early);
      TiersStaySound(b, steps[..|steps| - 1]);
      StepLeadUp(Run(b, steps[..|steps| - 1]), steps[|steps| - 1], c, early);
    }
  }

  // Only an upgrade that waited from the start and did not lead up can fail to fit.
  lemma MisfitIsDownward(b: Bill, s: Step, c: int, early: set<int>)
    requires Tiered(b) && LeadUp(b, c, early) && WithinCap(b, c) && Misfit(b, s, c)
    ensures Grants(b, s).Some? && Grants(b, s).value in early
  {
    hide Grants, Tiered, Fits;
    GrantGivesTheUpgrade(b, s);
    var r := Grants(b, s).value;
    if r !in early {
      assert Waits(b, c, r);
      assert LeadsUp(b, c, r);
      LeadingUpFits(b, c, r);
      assert false;
    }
  }

  lemma MisfitIsGrant(b: Bill, s: Step, c: int)
    requires Misfit(b, s, c)
    ensures Grants(b, s).Some?
  {
  }

  /** From any state within the cap: in a run in which staff neither add a group to the client by hand nor
      move it to another tier, and in which no upgrade is granted that waited at the start without leading to
      a tier above the cap, a client that ends restricted was restricted all along, has at most as many groups
      as its tier allows, and its cap has not gone down. */
  lemma {:induction false} CapHolds(b: Bill, steps: seq<Step>, c: int)
    requires Tiered(b) && c in b.clients && WithinCap(b, c) && NotOverruled(steps, c)
    requires forall r | r in AllGranted(b, steps) :: r !in Downward(b, c)
    ensures CapKept(b, Run(b, steps), c)
  {
    hide Apply, Tiered, Downward, Grants, Misfit, LeadUp, Cap;
    if steps != [] {
      var before, s := steps[..|steps| - 1], steps[|steps| - 1];
      CapHolds(b, before, c);
      TiersStaySound(b, before);
      var mid := Run(b, before);
      StepCap(mid, s, c);
      AllLeadUp(b, c);
      LeadUpHolds(b, before, c, Downward(b, c));
      if Misfit(mid, s, c) {
        MisfitIsGrant(mid, s, c);
        var r := Grants(mid, s).value;
        assert r in AllGranted(b, steps);
        assert r !in Downward(b, c);
        MisfitIsDownward(mid, s, c, Downward(b, c));
        assert false;
      }
    }
  }

  lemma AllLeadUp(b: Bill, c: int)
    requires c in b.clients
    ensures LeadUp(b, c, Downward(b, c))
  {
  }

  // ---- What staff can do to the cap ----

  /** Staff adding a group by hand stay within the cap exactly when the group is already there or there
      is room for it. */
  lemma StaffAddWithinCap(b: Bill, c: int, group: string, rank: map<int, int>)
    requires Tiered(b) && c in b.clients && b.clients[c].groups.Some? && WithinCap(b, c)
    ensures c in AdminAddGroup(b, c, group, rank).clients
    ensures WithinCap(AdminAddGroup(b, c, group, rank), c)
            <==> Trim(group, IsSpace) == "" || Trim(group, IsSpace) in b.clients[c].groups.value
                 || AtMost(Some(|b.clients[c].groups.value| + 1), Cap(b, c))
  {
    hide Trim;
    SoundOf(b, c);
  }

  /** Staff moving a restricted client to another tier leave it within the cap with no downward upgrade waiting,
      exactly when the tier has room for its groups and ends below every tier that a waiting upgrade leads to. */
  lemma TierChangeKeepsCap(b: Bill, c: int, renewal: Option<int>, t: int)
    requires Tiered(b) && c in b.clients && b.clients[c].groups.Some? && t in b.tiers
    ensures var after := UpdateClient(b, c, renewal, Some(t));
            && c in after.clients
            && (WithinCap(after, c) && Downward(after, c) == {}
                <==> AtMost(Some(|b.clients[c].groups.value|), b.tiers[t].maxGroups)
                     && forall r | Waits(b, c, r) ::
                          b.tiers[t].maxGroups.Some? && b.tiers[t].maxGroups.value < b.tiers[b.requests[r].tier].minGroups)
  {
    var after := UpdateClient(b, c, renewal, Some(t));
    forall r | r in b.requests && Waits(b, c, r)
      ensures r in Downward(after, c)
              <==> !(b.tiers[t].maxGroups.Some? && b.tiers[t].maxGroups.value < b.tiers[b.requests[r].tier].minGroups)
    {
      assert RequestSound(b, b.requests[r]);
    }
    assert forall r | r in Downward(after, c) :: Waits(b, c, r);
    assert Downward(after, c) == {} <==> forall r | Waits(b, c, r) :: r !in Downward(after, c);
  }
}
