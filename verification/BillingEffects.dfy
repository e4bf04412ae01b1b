/** What holds of the billing tables between any two handlers, and what each handler means for its caller. */
module BillingEffects {
  import opened Text
  import opened Rows
  import opened BillingModel
  import P = BillingPayments
  import T = BillingTiers
  import C = BillingCap
  import D = BillingDunning
  import N = BillingSubdomains

  // All invariants of the tables, at the time `t` of the last reading of the clock.
  ghost predicate Sound(b: Bill, t: int) { P.Inv(b, t) && P.Priced(b) && T.Tiered(b) && D.Dunned(b) && N.OneOwner(b) }

  lemma EmptySound(t: int)
    ensures Sound(EMPTY_BILL, t)
  {
    P.EmptyBillBound(t);
    T.EmptyBillSound();
    D.EmptyBillDunned();
  }

  /** Every handler keeps all of them, settles no payment twice and revives no request. */
  lemma SoundStep(b: Bill, t: int, s: Step)
    requires Sound(b, t) && P.Allowed(b, t, s)
    ensures Sound(Apply(b, s), P.ClockAfter(t, s))
    ensures P.SettlesOnce(b, Apply(b, s)) && T.RequestsMoveOn(b, Apply(b, s)) && P.Charges(b, s)
  {
    hide Apply, P.Inv, P.Priced, T.Tiered, D.Dunned, N.OneOwner, P.SettlesOnce, T.RequestsMoveOn, P.Charges, P.Allowed;
    P.StepKeeps(b, t, s);
    P.StepCharges(b, t, s);
    T.StepKeeps(b, s);
    D.StepDunned(b, s);
    N.StepOneOwner(b, s);
  }

  lemma {:induction false} SoundRun(b: Bill, t: int, steps: seq<Step>)
    requires Sound(b, t) && P.AllowedRun(b, t, steps)
    ensures Sound(Run(b, steps), P.Clock(t, steps))
  {
    hide Apply, Sound, P.Allowed;
    if steps != [] {
      SoundRun(b, t, steps[..|steps| - 1]);
      SoundStep(Run(b, steps[..|steps| - 1]), P.Clock(t, steps[..|steps| - 1]), steps[|steps| - 1]);
    }
  }

  // Only the row of `client` may differ among the clients.
  ghost predicate OnlyClient(b: Bill, after: Bill, client: int) {
    if client in b.clients then client in after.clients && after.clients == b.clients[client := after.clients[client]]
    else after == b
  }

  // ---- Conversations ----

  // The client has one conversation under way, which waits for a number until five minutes from now.
  ghost predicate JustStarted(b: Bill, client: int, now: int) {
    exists s :: LiveSessions(b, client, now).Keys == {s} && b.sessions[s].state == AwaitingPhone
                && b.sessions[s].payment.None? && b.sessions[s].expires == now + 300
  }

  ghost predicate Commands(body: string, command: string) { Lower(Trim(body, IsSpace)) == command }

  /** The payment command leaves the client with exactly one conversation under way, a new one. */
  lemma StartingPayment(b: Bill, t: int, client: int, now: int, rank: map<int, int>)
    requires P.Inv(b, t) && t <= now && client in b.clients
    ensures JustStarted(StartPayment(b, client, now, rank), client, now)
  {
    hide P.Inv, First;
    P.OneLiveOf(b, t);
    var live := LiveSessions(b, client, now);
    var kept := if live.Keys == {} then b else DropSession(b, First(live, rank));
    if live.Keys != {} {
      var f := First(live, rank);
      assert IsFirst(live, rank, f);
      P.LiveIsAlone(b, client, now, t, f);
    }
    assert LiveSessions(kept, client, now).Keys == {};
    OneOpened(kept, client, now);
  }

  lemma OneOpened(b: Bill, client: int, now: int)
    requires LiveSessions(b, client, now).Keys == {}
    ensures JustStarted(OpenSession(b, client, now), client, now)
  {
    var after, s := OpenSession(b, client, now), b.nextSession;
    assert forall z | z in b.sessions && b.sessions[z].client == client && b.sessions[z].expires > now ::
        z in LiveSessions(b, client, now);
    assert LiveSessions(after, client, now).Keys == {s};
  }

  /** A group message adds a payment only at the client's tier price, leaves groups, tiers, requests and notices alone,
      and at most closes the account. */
  lemma Receiving(b: Bill, t: int, s: Step)
    requires Sound(b, t) && P.Allowed(b, t, s) && s.Message?
    ensures var after := Apply(b, s);
            && P.ChargesTier(b, after, s.client, s.today) && T.SameTiers(b, after) && D.Calm(b, after)
            && (s.client in b.clients && !s.fromMe && Commands(s.body, "/payment") ==> JustStarted(after, s.client, s.now))
            && (s.client in b.clients && !s.fromMe && Commands(s.body, "/close") ==> after == Close(b, s.client))
  {
    hide Lower, Trim, StartPayment, Reply, Close, P.Inv, P.Priced, T.Tiered, D.Dunned, P.Charges;
    SoundStep(b, t, s);
    P.MessagePriced(b, s);
    T.AccountSteps(b, s);
    D.MessageCalm(b, s);
    if s.client in b.clients {
      StartingPayment(b, t, s.client, s.now, s.rank);
    }
  }

  // ---- Callbacks ----

  ghost predicate MarksCleared(c: Client) {
    && c.status == Active && c.graceAt.None? && c.suspendedAt.None? && c.lastWarning.None? && !c.warned14 && !c.warned2
  }

  // The payment `p` is paid, and its client's account active to the end of the payment's period.
  ghost predicate Renewed(b: Bill, after: Bill, p: int) {
    && p in b.payments && b.payments[p].status == Unpaid && p in after.payments && after.payments[p].status == Paid
    && var c := b.payments[p].client;
       c in after.clients && after.clients[c].renewal == b.payments[p].end && MarksCleared(after.clients[c])
  }

  // The upgrade `r` is confirmed, and its client has the group and the tier.
  ghost predicate Upgraded(b: Bill, after: Bill, r: int) {
    && r in b.requests && b.requests[r].status == Pending && r in after.requests && after.requests[r].status == Confirmed
    && var q := b.requests[r];
       q.client in after.clients && after.clients[q.client].tier == Some(q.tier)
       && after.clients[q.client].groups.Some? && q.group in after.clients[q.client].groups.value
  }

  // The conversation is over and a payment bound to it settled. A paid one makes the account active and unmarked; a
  // failed one leaves all accounts alone.
  ghost predicate SessionOver(b: Bill, after: Bill, s: int, paid: bool)
    requires s in b.sessions
  {
    && after.sessions == b.sessions - {s}
    && (P.Bound(b) ==>
          P.Bound(after) && P.SettlesOnce(b, after)
          && (b.sessions[s].payment.Some? ==>
                var p := b.sessions[s].payment.value;
                p in after.payments && after.payments[p].status == if paid then Paid else NotPaid))
    && (paid && b.sessions[s].client in b.clients ==>
          b.sessions[s].client in after.clients && MarksCleared(after.clients[b.sessions[s].client]))
    && (!paid ==> after.clients == b.clients)
  }

  lemma SettlingSession(b: Bill, s: int, paid: bool, receipt: Option<string>, today: int)
    requires s in b.sessions
    ensures SessionOver(b, SettleRenewal(b, s, paid, receipt, today), s, paid)
  {
    hide P.Bound, P.SettlesOnce;
    if P.Bound(b) {
      P.SettleBinds(b, s, paid, receipt, today);
      assert P.SessionBound(b, b.sessions[s]) by { SessionOf(b, s); }
    }
  }

  lemma SessionOf(b: Bill, s: int)
    requires P.Bound(b) && s in b.sessions
    ensures P.SessionBound(b, b.sessions[s])
  {
  }

  // A paid upgrade of a known client is granted if it was pending and left alone otherwise; a failed one is marked so.
  ghost predicate UpgradeOver(b: Bill, after: Bill, r: int, paid: bool)
    requires r in b.requests
  {
    && (T.Tiered(b) ==> T.Tiered(after) && T.RequestsMoveOn(b, after))
    && (paid && b.requests[r].status == Pending && b.requests[r].client in b.clients ==> Upgraded(b, after, r))
    && (paid && b.requests[r].status != Pending ==> after == b)
    && (!paid ==> after.clients == b.clients && r in after.requests && after.requests[r].status == Failed)
  }

  lemma SettlingUpgrade(b: Bill, r: int, paid: bool, receipt: Option<string>)
    requires r in b.requests
    ensures UpgradeOver(b, SettleUpgrade(b, r, paid, receipt), r, paid)
  {
    hide T.Tiered, T.RequestsMoveOn;
    if T.Tiered(b) {
      T.SettleUpgradeKeeps(b, r, paid, receipt);
    }
  }

  lemma Settling(b: Bill, t: int, s: Step)
    requires Sound(b, t) && s.Callback?
    ensures var after := Apply(b, s);
            && P.OnlyDrops(b, after) && D.Calm(b, after)
            && (P.Confirms(b, s).Some? ==> Renewed(b, after, P.Confirms(b, s).value))
            && (T.Grants(b, s).Some? ==> Upgraded(b, after, T.Grants(b, s).value))
            && (P.Confirms(b, s).None? && T.Grants(b, s).None? ==>
                  forall c | c in b.clients :: c in after.clients && after.clients[c] == b.clients[c])
  {
    hide Apply, P.Inv, P.Priced, T.Tiered, D.Dunned, P.Confirms, T.Grants, P.OnlyDrops, D.Calm;
    P.CallbackDrops(b, s);
    D.CallbackCalm(b, s);
    if P.Confirms(b, s).Some? {
      P.ConfirmationRenews(b, t, s);
    }
    if T.Grants(b, s).Some? {
      T.GrantGivesTheUpgrade(b, s);
    }
    if P.Confirms(b, s).None? && T.Grants(b, s).None? {
      forall c | c in b.clients
        ensures c in Apply(b, s).clients && Apply(b, s).clients[c] == b.clients[c]
      {
        P.OnlyConfirmationsRenew(b, t, s, c);
        T.OnlyGrantsUpgrade(b, s, c);
      }
    }
  }

  // ---- Ticket groups ----

  // The client is restricted, on a tier that exists, and has the group.
  ghost predicate HasGroup(b: Bill, client: int, g: string) {
    && client in b.clients && b.clients[client].groups.Some? && g in b.clients[client].groups.value
    && b.clients[client].tier.Some? && b.clients[client].tier.value in b.tiers
  }

  lemma StaffAdding(b: Bill, client: int, group: string, rank: map<int, int>)
    requires T.Tiered(b)
    ensures var after, g := AdminAddGroup(b, client, group, rank), Trim(group, IsSpace);
            && OnlyClient(b, after, client) && after.requests == b.requests
            && (client in b.clients && g != "" ==>
                  HasGroup(after, client, g)
                  && T.Joined(GroupsOf(b.clients[client]), g, after.clients[client].groups.value))
            && (g == "" ==> after == b)
  {
    hide Trim, WithTier, T.Tiered;
    if client in b.clients {
      T.WithTierKeeps(b, client, rank);
      T.SoundOf(WithTier(b, client, rank), client);
      T.SoundOf(b, client);
    }
  }

  /** A self-service add is done exactly when a restricted client names a new group and there is room for it; then the
      group is the last of its groups and the client within its cap. Otherwise the groups stay as they are. */
  lemma SelfAdding(b: Bill, client: int, group: string, rank: map<int, int>)
    requires T.Tiered(b)
    ensures var (after, reply) := SelfAddGroup(b, client, group, rank);
            var g := Trim(group, IsSpace);
            && OnlyClient(b, after, client) && after.requests == b.requests
            && (reply.Done? <==>
                  client in b.clients && g != "" && b.clients[client].groups.Some? && g !in b.clients[client].groups.value
                  && C.AtMost(Some(|b.clients[client].groups.value| + 1), C.Cap(b, client)))
            && (reply.Done? ==>
                  HasGroup(after, client, g) && C.WithinCap(after, client)
                  && after.clients[client].groups == Some(b.clients[client].groups.value + [g]))
            && (!reply.Done? ==> after == b)
  {
    hide Trim, WithTier, T.Tiered;
    if client in b.clients {
      T.SoundOf(b, client);
      T.WithTierKeeps(b, client, rank);
    }
  }

  ghost predicate NoneWaits(b: Bill, client: int) { forall r :: !C.Waits(b, client, r) }

  // Only this client changes; it is unrestricted, on no tier, and none of its upgrades is pending.
  ghost predicate Unrestricted(b: Bill, after: Bill, client: int) {
    && OnlyClient(b, after, client)
    && (client in after.clients ==>
          after.clients[client].groups.None? && after.clients[client].tier.None? && NoneWaits(after, client))
  }

  lemma Resetting(b: Bill, client: int)
    ensures Unrestricted(b, AdminReset(b, client), client)
  {
  }

  // Refused exactly when the subdomain is taken. A new client has the subdomain, which no other client has, and is active
  // without marks and unrestricted, on the tier that was chosen if it exists.
  ghost predicate Registered(b: Bill, after: Bill, subdomain: string, chosen: Option<int>) {
    var name := Trim(Lower(subdomain), IsSpace);
    && (SubdomainTaken(b, name) <==> after.clients == b.clients)
    && (!SubdomainTaken(b, name) ==> JustRegistered(b, after, chosen) && after.clients[b.nextClient].subdomain == name)
  }

  ghost predicate JustRegistered(b: Bill, after: Bill, chosen: Option<int>) {
    && b.nextClient !in b.clients && b.nextClient in after.clients
    && after.clients == b.clients[b.nextClient := after.clients[b.nextClient]]
    && var c := after.clients[b.nextClient];
       MarksCleared(c) && c.groups.None? && c.tier.Some? && c.tier.value in after.tiers
       && (chosen.Some? && chosen.value in after.tiers ==> c.tier == chosen)
  }

  lemma Registering(b: Bill, subdomain: string, chosen: Option<int>, today: int, rank: map<int, int>)
    requires T.Tiered(b)
    ensures Registered(b, CreateClient(b, subdomain, chosen, today, rank), subdomain, chosen)
  {
    hide BaseTier, Trim, Lower;
    var after := CreateClient(b, subdomain, chosen, today, rank);
    assert SeedTiers(b).clients == b.clients;
    assert b.nextClient !in b.clients;
    assert !SubdomainTaken(b, Trim(Lower(subdomain), IsSpace)) ==> b.nextClient in after.clients;
  }

  // ---- The daily check ----

  lemma CheckingOne(b: Bill, client: int, now: int, today: int)
    requires D.Dunned(b) && client in b.clients
    ensures var after := CheckOne(b, client, now, today);
            D.Dunned(after) && OnlyClient(b, after, client) && D.UpToDate(after.clients[client], now, today)
  {
    hide D.Dunned, D.UpToDate, CheckClient;
    D.CheckOneKeeps(b, client, now, today);
    D.DunnedOf(b, client);
    D.CheckedIsUpToDate(b.clients[client], b.notices, client, now, today);
  }
}
