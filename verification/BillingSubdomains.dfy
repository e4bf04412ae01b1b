/** A subdomain belongs to one client (billing/main.py:218-225, billing/models.py:23). */
module BillingSubdomains {
  import opened Text
  import opened Rows
  import opened BillingModel
  import T = BillingTiers

  ghost predicate OneOwner(b: Bill) {
    forall c, d | c in b.clients && d in b.clients && c != d :: b.clients[c].subdomain != b.clients[d].subdomain
  }

  // The same clients with their subdomains.
  ghost predicate SameOwners(b: Bill, after: Bill) {
    after.clients.Keys == b.clients.Keys && forall c | c in b.clients :: after.clients[c].subdomain == b.clients[c].subdomain
  }

  lemma SettleOwners(b: Bill, r: int, paid: bool, receipt: Option<string>)
    requires r in b.requests
    ensures SameOwners(b, SettleUpgrade(b, r, paid, receipt))
  {
    hide WithGroup, GroupsOf;
  }

  lemma CallbackOwners(b: Bill, s: Step)
    requires s.Callback?
    ensures SameOwners(b, Apply(b, s))
  {
    hide SettleRenewal, SettleUpgrade, First;
    var owners, requests := SessionsOf(b, s.checkout), RequestsOf(b, s.checkout);
    if owners.Keys != {} {
      var f := First(owners, s.rank);
      assert IsFirst(owners, s.rank, f);
      T.SettleTiers(b, f, s.paid, s.receipt, s.today);
    } else if requests.Keys != {} {
      var f := First(requests, s.rank);
      assert IsFirst(requests, s.rank, f);
      SettleOwners(b, f, s.paid, s.receipt);
    }
  }

  lemma WithTierOwners(b: Bill, client: int, rank: map<int, int>)
    requires client in b.clients
    ensures SameOwners(b, WithTier(b, client, rank))
  {
    hide BaseTier;
  }

  lemma GroupOwners(b: Bill, s: Step)
    requires s.AddGroup? || s.AdminAdd? || s.AdminRemove? || s.Upgrade?
    ensures SameOwners(b, Apply(b, s))
  {
    hide Trim, WithTier, WithGroup, GroupsOf, Without, TierLimit, NormalizePhone, NextTier;
    if (s.AddGroup? || s.AdminAdd?) && s.client in b.clients {
      WithTierOwners(b, s.client, s.rank);
    }
  }

  lemma SeedOwners(b: Bill)
    ensures SameOwners(b, SeedTiers(b))
  {
  }

  lemma AdminOwners(b: Bill, s: Step)
    requires s.ResetGroups? || s.EditClient? || s.Prices?
    ensures SameOwners(b, Apply(b, s))
  {
    hide SeedTiers, Query, PriceTiers;
    SeedOwners(b);
  }

  lemma NewOwner(b: Bill, subdomain: string, chosen: Option<int>, today: int, rank: map<int, int>)
    requires OneOwner(b)
    ensures OneOwner(CreateClient(b, subdomain, chosen, today, rank))
  {
    hide SeedTiers, BaseTier, Trim, Lower;
    SeedOwners(b);
  }

  /** Every step keeps each subdomain with one client: a new client gets one that no client has, and no step changes a
      client's subdomain. */
  lemma StepOneOwner(b: Bill, s: Step)
    requires OneOwner(b)
    ensures OneOwner(Apply(b, s)) && (!s.NewClient? ==> SameOwners(b, Apply(b, s)))
  {
    hide Apply, T.SameTier;
    if s.Message? || s.ManualReactivate? || s.CloseClient? || s.Check? {
      T.AccountSteps(b, s);
    } else if s.Callback? {
      CallbackOwners(b, s);
    } else if s.AddGroup? || s.AdminAdd? || s.AdminRemove? || s.Upgrade? {
      GroupOwners(b, s);
    } else if s.NewClient? {
      NewOwner(b, s.subdomain, s.chosen, s.today, s.rank);
      CreatedBy(b, s);
    } else {
      AdminOwners(b, s);
    }
  }

  lemma CreatedBy(b: Bill, s: Step)
    requires s.NewClient?
    ensures Apply(b, s) == CreateClient(b, s.subdomain, s.chosen, s.today, s.rank)
  {
  }

  /** In every run a subdomain names at most one client. */
  lemma {:induction false} SubdomainsStayApart(b: Bill, steps: seq<Step>)
    requires OneOwner(b)
    ensures OneOwner(Run(b, steps))
  {
    hide Apply, OneOwner;
    if steps != [] {
      SubdomainsStayApart(b, steps[..|steps| - 1]);
      StepOneOwner(Run(b, steps[..|steps| - 1]), steps[|steps| - 1]);
    }
  }
}
