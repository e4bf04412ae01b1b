/** The billing handlers themselves, updating the tables step by step (billing/main.py,
    billing/scheduler.py). Each handler takes the tables to the state that BillingModel specifies, keeps all their
    invariants under a clock that does not go back, and says what it means for its caller. */
module BillingService {
  import opened Text
  import opened Rows
  import opened BillingModel
  import opened BillingEffects
  import P = BillingPayments
  import T = BillingTiers
  import C = BillingCap
  import D = BillingDunning

  lemma {:induction false} WithoutSnoc(groups: seq<string>, last: string, g: string)
    ensures Without(groups + [last], g) == Without(groups, g) + (if last == g then [] else [last])
  {
    if groups == [] {
      assert groups + [last] == [last];
    } else {
      assert (groups + [last])[1..] == groups[1..] + [last];
      WithoutSnoc(groups[1..], last, g);
    }
  }

  // Cancelling the pending requests one by one is the reset of all of them.
  lemma ResetOneByOne(b: Bill, client: int, rank: map<int, int>, cancelled: map<int, Request>)
    requires client in b.clients && cancelled.Keys == b.requests.Keys
    requires var ids := Query(PendingOf(b, client), rank);
             forall r | r in b.requests ::
               cancelled[r] == if r in ids then b.requests[r].(status := Cancelled) else b.requests[r]
    ensures AdminReset(b, client).requests == cancelled
  {
    hide Query;
    var ids := Query(PendingOf(b, client), rank);
    forall r | r in b.requests
      ensures cancelled[r] == AdminReset(b, client).requests[r]
    {
      assert r in ids <==> r in PendingOf(b, client);
    }
    assert cancelled == AdminReset(b, client).requests;
  }

  lemma PendingKnown(b: Bill, client: int, rank: map<int, int>, ids: seq<int>)
    requires ids == Query(PendingOf(b, client), rank)
    ensures forall k | 0 <= k < |ids| :: ids[k] in b.requests
  {
    hide Query;
    assert forall k | 0 <= k < |ids| :: ids[k] in PendingOf(b, client);
  }

  lemma OpenKnown(b: Bill, rank: map<int, int>, ids: seq<int>)
    requires ids == Query(OpenClients(b), rank)
    ensures forall k | 0 <= k < |ids| :: ids[k] in b.clients
  {
    hide Query;
    assert forall k | 0 <= k < |ids| :: ids[k] in OpenClients(b);
  }

  lemma TierIds(tiers: map<int, Tier>, rank: map<int, int>)
    ensures forall t :: t in Query(TierOrder(tiers), rank) <==> t in tiers
  {
    hide Query;
    assert forall t :: t in Query(TierOrder(tiers), rank) <==> t in TierOrder(tiers);
  }

  lemma ResetInParts(b: Bill, client: int)
    requires client in b.clients
    ensures AdminReset(b, client)
         == SetClient(b, client, b.clients[client].(groups := None, tier := None)).(
              requests := AdminReset(b, client).requests)
  {
  }

  lemma ResetUnknown(b: Bill, client: int)
    requires client !in b.clients
    ensures AdminReset(b, client) == b
  {
  }

  lemma NoneChecked(b: Bill, now: int, today: int)
    ensures CheckAll(b, [], now, today) == b
  {
  }

  lemma CheckOneMore(b: Bill, ids: seq<int>, n: nat, now: int, today: int)
    requires n < |ids| && forall k | 0 <= k < |ids| :: ids[k] in b.clients
    ensures CheckAll(b, ids[..n + 1], now, today) == CheckOne(CheckAll(b, ids[..n], now, today), ids[n], now, today)
  {
    hide CheckOne;
    assert ids[..n + 1][..n] == ids[..n];
  }

  lemma BaseIsFirst(b: Bill, rank: map<int, int>)
    requires b.tiers.Keys != {}
    ensures var ids := Query(TierOrder(b.tiers), rank); ids != [] && ids[0] == BaseTier(b, rank)
  {
    SeededTiers(b);
  }

  lemma BaseUnseeded(b: Bill, rank: map<int, int>)
    ensures SeedTiers(b).tiers.Keys != {} && BaseTier(SeedTiers(b), rank) == BaseTier(b, rank)
  {
    hide First;
    assert BaseTier(b, rank) in SeedTiers(b).tiers;
  }

  // The groups other than `g`, in order.
  method LeaveOut(groups: seq<string>, g: string) returns (kept: seq<string>)
    ensures kept == Without(groups, g)
  {
    kept := [];
    for k := 0 to |groups|
      invariant kept == Without(groups[..k], g)
    {
      WithoutSnoc(groups[..k], groups[k], g);
      assert groups[..k + 1] == groups[..k] + [groups[k]];
      if groups[k] != g {
        kept := kept + [groups[k]];
      }
    }
    assert groups[..|groups|] == groups;
  }

  method CancelEach(requests: map<int, Request>, ids: seq<int>) returns (r: map<int, Request>)
    requires forall k | 0 <= k < |ids| :: ids[k] in requests
    ensures r.Keys == requests.Keys
    ensures forall i | i in requests :: r[i] == if i in ids then requests[i].(status := Cancelled) else requests[i]
  {
    r := requests;
    ghost var done: set<int> := {};
    for k := 0 to |ids|
      invariant r.Keys == requests.Keys
      invariant (forall j | 0 <= j < k :: ids[j] in done) && (forall i | i in done :: i in ids)
      invariant forall i | i in requests :: r[i] == if i in done then requests[i].(status := Cancelled) else requests[i]
    {
      r := r[ids[k] := r[ids[k]].(status := Cancelled)];
      done := done + {ids[k]};
    }
  }

  // Pairs tiers and prices until one of them runs out.
  method PriceEach(tiers: map<int, Tier>, ids: seq<int>, amounts: seq<real>) returns (r: map<int, Tier>)
    requires forall k | 0 <= k < |ids| :: ids[k] in tiers
    ensures r == PriceTiers(tiers, ids, amounts)
  {
    r := tiers;
    var k := 0;
    while k < |ids| && k < |amounts|
      invariant k <= |ids| && k <= |amounts| && r.Keys == tiers.Keys
      invariant PriceTiers(r, ids[k..], amounts[k..]) == PriceTiers(tiers, ids, amounts)
    {
      assert ids[k..][1..] == ids[k + 1..] && amounts[k..][1..] == amounts[k + 1..];
      r := r[ids[k] := r[ids[k]].(amount := amounts[k])];
      k := k + 1;
    }
  }

  // The branches of the status check.
  method CheckAccount(account: Client, now: int, today: int) returns (c: Client, notice: Option<NoticeKind>)
    ensures Checked(c, notice) == CheckClient(account, now, today)
    ensures notice.None? ==> c == account
    ensures c.status == account.status || (account.status == Active && c.status == Grace && notice == Some(Expired))
            || (account.status == Grace && c.status == BillingOnly && notice == Some(Suspended))
    ensures c.renewal == account.renewal && T.SameTier(c, account)
  {
    c, notice := account, None;
    match c.status {
      case Active =>
        var daysUntilRenewal := c.renewal - today;
        if today > c.renewal {
          c := c.(status := Grace);
          c := c.(graceAt := Some(now));
          c := c.(lastWarning := Some(now));
          notice := Some(Expired);
        } else if daysUntilRenewal == 14 && !c.warned14 {
          c := c.(warned14 := true);
          notice := Some(Renews14);
        } else if daysUntilRenewal == 2 && !c.warned2 {
          c := c.(warned2 := true);
          notice := Some(Renews2);
        }
      case Grace =>
        if c.graceAt.Some? {
          var graceAge := now - c.graceAt.value;
          if graceAge >= GRACE_DAYS * DAY {
            c := c.(status := BillingOnly);
            c := c.(suspendedAt := Some(now));
            c := c.(lastWarning := Some(now));
            notice := Some(Suspended);
          } else if c.lastWarning.None? || now - c.lastWarning.value >= WARNING_HOURS * HOUR {
            c := c.(lastWarning := Some(now));
            notice := Some(GraceReminder);
          }
        }
      case BillingOnly =>
        if c.lastWarning.None? || now - c.lastWarning.value >= WARNING_HOURS * HOUR {
          c := c.(lastWarning := Some(now));
          notice := Some(SuspendedReminder);
        }
      case Closed =>
    }
  }

  class Service {
    var clients: map<int, Client>
    var sessions: map<int, Session>
    var payments: map<int, Payment>
    var requests: map<int, Request>
    var tiers: map<int, Tier>
    var notices: seq<Notice>
    var nextClient: int
    var nextSession: int
    var nextPayment: int
    var nextRequest: int
    var nextTier: int
    // The latest reading of the clock.
    ghost var clock: int

    function State(): Bill
      reads this
    {
      Bill(clients, sessions, payments, requests, tiers, notices, nextClient, nextSession, nextPayment, nextRequest, nextTier)
    }

    ghost predicate Valid()
      reads this
    {
      Sound(State(), clock)
    }

    constructor (ghost now: int)
      ensures State() == EMPTY_BILL && Valid() && clock == now
    {
      clients, sessions, payments, requests, tiers, notices := map[], map[], map[], map[], map[], [];
      nextClient, nextSession, nextPayment, nextRequest, nextTier := 1, 1, 1, 1, 1;
      clock := now;
      new;
      EmptySound(now);
    }

    // ---- The payment conversation ----

    // Records a payment and pushes it to the phone. It waits in the conversation, or has failed and ended it.
    method Push(client: int, s: int, amount: real, now: int, today: int, stk: Stk)
      requires s in sessions && sessions[s].client == client && sessions[s].state == AwaitingConfirm
      requires P.Bound(State())
      modifies this`sessions, this`payments, this`nextPayment
      ensures State() == PushPayment(old(State()), client, s, amount, now, today, stk)
      ensures P.Bound(State()) && P.SettlesOnce(old(State()), State())
      ensures payments.Keys == old(payments).Keys + {old(nextPayment)}
      ensures payments[old(nextPayment)].amount == amount && payments[old(nextPayment)].client == client
      ensures stk.StkSent? ==> payments[old(nextPayment)].status == Unpaid
                               && s in sessions && sessions[s].payment == Some(old(nextPayment))
      ensures stk.StkError? ==> payments[old(nextPayment)].status == NotPaid && s !in sessions
    {
      hide P.Bound, P.SettlesOnce;
      P.PushBinds(State(), client, s, amount, now, today, stk);
      var p := nextPayment;
      payments := payments[p := Payment(client, sessions[s].phone, amount, Unpaid, None, today, PeriodEnd(today))];
      nextPayment := p + 1;
      if stk.StkError? {
        payments := payments[p := payments[p].(status := NotPaid)];
        sessions := sessions - {s};
        return;
      }
      var x := sessions[s];
      x := x.(state := AwaitingStk);
      x := x.(checkout := stk.checkout);
      x := x.(payment := Some(p));
      x := x.(expires := now + 10 * MINUTE);
      sessions := sessions[s := x];
    }

    // One turn of the conversation under way. Only a confirmation adds a payment, at the price of the client's tier.
    method TakeTurn(client: int, s: int, text: string, now: int, today: int, stk: Stk)
      requires Sound(State(), now) && client in clients && s in LiveSessions(State(), client, now)
      requires stk.StkSent? && stk.checkout.Some? ==> P.Unused(State(), stk.checkout.value)
      modifies this`sessions, this`payments, this`nextPayment
      ensures State() == Converse(old(State()), client, s, text, now, today, stk)
      ensures P.Inv(State(), now) && P.Priced(State()) && P.SettlesOnce(old(State()), State())
      ensures P.ChargesTier(old(State()), State(), client, today)
      ensures payments.Keys != old(payments).Keys ==>
                old(sessions)[s].state == AwaitingConfirm && Lower(text) in {"yes", "y", "ok"}
    {
      hide Lower, NormalizePhone, PushPayment, P.Inv, P.Priced, P.SettlesOnce, P.ChargesTier, T.Tiered, D.Dunned, P.Bound;
      P.ConverseKeeps(State(), client, s, text, now, today, stk, now);
      P.ConversePriced(State(), client, s, text, now, today, stk);
      BoundOf(State(), now);
      match sessions[s].state
      case AwaitingPhone =>
        var phone := NormalizePhone(text);
        if phone.None? {
          return;
        }
        if RenewalCharge(State(), clients[client]).None? {
          sessions := sessions - {s};
          return;
        }
        var x := sessions[s];
        x := x.(state := AwaitingConfirm);
        x := x.(phone := phone);
        x := x.(expires := now + 5 * MINUTE);
        sessions := sessions[s := x];
      case AwaitingConfirm =>
        var reply := Lower(text);
        if reply == "no" || reply == "cancel" {
          sessions := sessions - {s};
          return;
        }
        if reply != "yes" && reply != "y" && reply != "ok" {
          return;
        }
        var charge := RenewalCharge(State(), clients[client]);
        if charge.None? {
          sessions := sessions - {s};
          return;
        }
        Push(client, s, charge.value, now, today, stk);
      case AwaitingStk =>
    }

    method Receive(client: int, body: string, fromMe: bool, now: int, today: int, stk: Stk, rank: map<int, int>)
      requires Valid() && clock <= now
      requires stk.StkSent? && stk.checkout.Some? ==> P.Unused(State(), stk.checkout.value)
      modifies this
      ensures State() == ClientMessage(old(State()), client, body, fromMe, now, today, stk, rank)
      ensures Valid() && clock == now && P.SettlesOnce(old(State()), State())
      ensures P.ChargesTier(old(State()), State(), client, today)
      ensures T.SameTiers(old(State()), State()) && D.Calm(old(State()), State())
      ensures client in old(clients) && !fromMe && Commands(body, "/payment") ==> JustStarted(State(), client, now)
      ensures client in old(clients) && !fromMe && Commands(body, "/close") ==> State() == Close(old(State()), client)
    {
      hide Trim, Lower, Reply, StartPayment, Sound, P.SettlesOnce, P.ChargesTier, T.SameTiers, D.Calm, P.Unused, JustStarted,
           Commands,
           Close, T.RequestsMoveOn, P.Charges, P.Inv, P.Priced, T.Tiered, D.Dunned;
      ghost var s := Message(client, body, fromMe, now, today, stk, rank);
      SoundStep(State(), clock, s);
      Receiving(State(), clock, s);
      SoundLater(State(), clock, now);
      if fromMe || client !in clients {
        clock := now;
        return;
      }
      clock := now;
      var text := Trim(body, IsSpace);
      if Lower(text) == "/close" {
        clients := clients[client := clients[client].(status := Closed)];
        ClosedHere(old(State()), client);
        return;
      }
      if Lower(text) == "/statement" {
        return;
      }
      if Lower(text) == "/payment" {
        StartAgain(client, now, rank);
        return;
      }
      Continue(client, text, now, today, stk, rank);
    }

    // A new conversation in place of the one under way.
    method StartAgain(client: int, now: int, rank: map<int, int>)
      modifies this`sessions, this`nextSession
      ensures State() == StartPayment(old(State()), client, now, rank)
    {
      hide First;
      var live := LiveSessions(State(), client, now);
      if live.Keys != {} {
        sessions := sessions - {First(live, rank)};
      }
      sessions := sessions[nextSession := Session(client, AwaitingPhone, None, None, None, now + 5 * MINUTE)];
      nextSession := nextSession + 1;
    }

    // A turn of the conversation under way, or the end of one that just expired.
    method Continue(client: int, text: string, now: int, today: int, stk: Stk, rank: map<int, int>)
      requires Sound(State(), now) && client in clients
      requires stk.StkSent? && stk.checkout.Some? ==> P.Unused(State(), stk.checkout.value)
      modifies this`sessions, this`payments, this`nextPayment
      ensures State() == Reply(old(State()), client, text, now, today, stk, rank)
    {
      hide First, Converse, Sound, P.Unused;
      var live := LiveSessions(State(), client, now);
      if live.Keys != {} {
        var s := First(live, rank);
        assert IsFirst(live, rank, s);
        TakeTurn(client, s, text, now, today, stk);
        return;
      }
      var expired := JustExpired(State(), client, now);
      if expired.Keys != {} {
        sessions := sessions - {First(expired, rank)};
      }
    }

    // ---- M-Pesa callbacks ----

    // Ends a conversation by the outcome of its payment; a payment bound to it is settled that way.
    method SettleSession(s: int, paid: bool, receipt: Option<string>, today: int)
      requires s in sessions
      modifies this`sessions, this`payments, this`clients
      ensures State() == SettleRenewal(old(State()), s, paid, receipt, today)
      ensures SessionOver(old(State()), State(), s, paid)
    {
      hide SessionOver;
      SettlingSession(State(), s, paid, receipt, today);
      var client := sessions[s].client;
      if client !in clients {
        sessions := sessions - {s};
        return;
      }
      var p := if sessions[s].payment.Some? && sessions[s].payment.value in payments then sessions[s].payment else None;
      if paid {
        if p.Some? {
          payments := payments[p.value := payments[p.value].(status := Paid)];
          payments := payments[p.value := payments[p.value].(receipt := receipt)];
        }
        var c := clients[client];
        c := c.(status := Active);
        c := c.(graceAt := None);
        c := c.(suspendedAt := None);
        c := c.(lastWarning := None);
        c := c.(warned14 := false);
        c := c.(warned2 := false);
        c := c.(renewal := if p.Some? then payments[p.value].end else PeriodEnd(today));
        clients := clients[client := c];
      } else if p.Some? {
        payments := payments[p.value := payments[p.value].(status := NotPaid)];
      }
      sessions := sessions - {s};
    }

    // A paid upgrade that is pending is granted; a failed one is marked so, and nothing else happens.
    method SettleRequest(r: int, paid: bool, receipt: Option<string>)
      requires r in requests
      modifies this`requests, this`clients
      ensures State() == SettleUpgrade(old(State()), r, paid, receipt)
      ensures UpgradeOver(old(State()), State(), r, paid)
    {
      hide UpgradeOver, WithGroup, GroupsOf;
      SettlingUpgrade(State(), r, paid, receipt);
      JoinedGroup(State(), r);
      if !paid {
        requests := requests[r := requests[r].(status := Failed)];
        return;
      }
      if requests[r].status != Pending {
        return;
      }
      var client := requests[r].client;
      if client !in clients {
        requests := requests - {r};
        return;
      }
      var c, q := clients[client], requests[r];
      var groups := if c.groups.Some? then c.groups.value else [];
      if q.group !in groups {
        groups := groups + [q.group];
      }
      c := c.(groups := Some(groups));
      c := c.(tier := Some(q.tier));
      q := q.(receipt := receipt);
      q := q.(status := Confirmed);
      clients := clients[client := c];
      requests := requests[r := q];
    }

    method Settle(checkout: string, paid: bool, receipt: Option<string>, today: int, rank: map<int, int>)
      requires Valid()
      modifies this`sessions, this`payments, this`clients, this`requests
      ensures State() == MpesaCallback(old(State()), checkout, paid, receipt, today, rank)
      ensures Valid() && P.SettlesOnce(old(State()), State()) && T.RequestsMoveOn(old(State()), State())
      ensures var s := Callback(checkout, paid, receipt, today, rank);
              && (old(P.Confirms(State(), s)).Some? ==> Renewed(old(State()), State(), old(P.Confirms(State(), s)).value))
              && (old(T.Grants(State(), s)).Some? ==> Upgraded(old(State()), State(), old(T.Grants(State(), s)).value))
              && (old(P.Confirms(State(), s)).None? && old(T.Grants(State(), s)).None? ==>
                    forall c | c in old(clients) :: c in clients && clients[c] == old(clients)[c])
    {
      hide SettleRenewal, SettleUpgrade, First, Sound, P.SettlesOnce, T.RequestsMoveOn, Renewed, Upgraded, P.Confirms,
           T.Grants,
           P.Charges, P.OnlyDrops, D.Calm, SessionOver, UpgradeOver;
      ghost var s := Callback(checkout, paid, receipt, today, rank);
      SoundStep(State(), clock, s);
      Settling(State(), clock, s);
      if checkout == "" {
        return;
      }
      var owners := SessionsOf(State(), checkout);
      if owners.Keys == {} {
        var waiting := RequestsOf(State(), checkout);
        if waiting.Keys != {} {
          var r := First(waiting, rank);
          assert IsFirst(waiting, rank, r);
          SettleRequest(r, paid, receipt);
        }
        return;
      }
      var x := First(owners, rank);
      assert IsFirst(owners, rank, x);
      SettleSession(x, paid, receipt, today);
    }

    // ---- Ticket groups ----

    method GetOrSeedTiers(rank: map<int, int>) returns (ids: seq<int>)
      modifies this`tiers, this`nextTier
      ensures State() == SeedTiers(old(State()))
      ensures ids == Query(TierOrder(tiers), rank) && ids != [] && ids[0] == BaseTier(old(State()), rank)
    {
      hide Query, BaseTier, TierOrder;
      BaseUnseeded(State(), rank);
      if tiers.Keys == {} {
        tiers := map[nextTier := Tier(1, Some(5), 0.0), nextTier + 1 := Tier(6, Some(10), 0.0),
                     nextTier + 2 := Tier(11, None, 0.0)];
        nextTier := nextTier + 3;
      }
      ids := Query(TierOrder(tiers), rank);
      BaseIsFirst(State(), rank);
    }

    method EnsureTier(client: int, rank: map<int, int>)
      requires client in clients
      modifies this`tiers, this`nextTier, this`clients
      ensures State() == WithTier(old(State()), client, rank)
    {
      hide BaseTier, Query;
      if clients[client].tier.None? {
        var ids := GetOrSeedTiers(rank);
        clients := clients[client := clients[client].(tier := Some(ids[0]))];
      }
    }

    method StaffAddGroup(client: int, group: string, rank: map<int, int>)
      requires Valid()
      modifies this`tiers, this`nextTier, this`clients
      ensures State() == AdminAddGroup(old(State()), client, group, rank)
      ensures Valid() && OnlyClient(old(State()), State(), client)
      ensures client in old(clients) && Trim(group, IsSpace) != "" ==>
                HasGroup(State(), client, Trim(group, IsSpace))
                && T.Joined(GroupsOf(old(clients)[client]), Trim(group, IsSpace), clients[client].groups.value)
      ensures Trim(group, IsSpace) == "" ==> State() == old(State())
    {
      hide Trim, WithTier, Sound, OnlyClient, HasGroup, T.Joined, P.SettlesOnce, T.RequestsMoveOn, P.Charges, T.Tiered;
      SoundStep(State(), clock, AdminAdd(client, group, rank));
      TieredOf(State(), clock);
      StaffAdding(State(), client, group, rank);
      var g := Trim(group, IsSpace);
      if client !in clients || g == "" {
        return;
      }
      var groups := if clients[client].groups.Some? then clients[client].groups.value else [];
      WithTierKeepsGroups(State(), client, rank);
      EnsureTier(client, rank);
      if g !in groups {
        groups := groups + [g];
      }
      clients := clients[client := clients[client].(groups := Some(groups))];
    }

    method StaffRemoveGroup(client: int, group: string)
      requires Valid()
      modifies this`clients
      ensures State() == AdminRemoveGroup(old(State()), client, group)
      ensures Valid() && OnlyClient(old(State()), State(), client)
      ensures client in clients && clients[client].groups.Some? ==>
                Trim(group, IsSpace) !in clients[client].groups.value
    {
      hide Trim, Sound, P.SettlesOnce, T.RequestsMoveOn, P.Charges;
      SoundStep(State(), clock, AdminRemove(client, group));
      if client !in clients || clients[client].groups.None? {
        return;
      }
      var kept := LeaveOut(clients[client].groups.value, Trim(group, IsSpace));
      clients := clients[client := clients[client].(groups := Some(kept))];
    }

    method StaffReset(client: int, rank: map<int, int>)
      requires Valid()
      modifies this`clients, this`requests
      ensures State() == AdminReset(old(State()), client)
      ensures Valid() && Unrestricted(old(State()), State(), client)
    {
      hide Query, PendingOf, AdminReset, Sound, Unrestricted, P.SettlesOnce, T.RequestsMoveOn, P.Charges;
      SoundStep(State(), clock, ResetGroups(client));
      Resetting(State(), client);
      if client !in clients {
        ResetUnknown(State(), client);
        return;
      }
      ResetInParts(State(), client);
      CancelPending(client, rank);
      clients := clients[client := clients[client].(groups := None)];
      clients := clients[client := clients[client].(tier := None)];
    }

    method CancelPending(client: int, rank: map<int, int>)
      requires client in clients
      modifies this`requests
      ensures requests == AdminReset(old(State()), client).requests
    {
      hide Query, PendingOf, AdminReset;
      var ids := Query(PendingOf(State(), client), rank);
      PendingKnown(State(), client, rank, ids);
      requests := CancelEach(requests, ids);
      ResetOneByOne(old(State()), client, rank, requests);
    }

    method AddGroup(client: int, group: string, rank: map<int, int>) returns (reply: AddReply)
      requires Valid()
      modifies this`tiers, this`nextTier, this`clients
      ensures (State(), reply) == SelfAddGroup(old(State()), client, group, rank)
      ensures Valid() && OnlyClient(old(State()), State(), client)
      ensures reply.Done? <==>
                client in old(clients) && Trim(group, IsSpace) != "" && old(clients)[client].groups.Some?
                && Trim(group, IsSpace) !in old(clients)[client].groups.value
                && C.AtMost(Some(|old(clients)[client].groups.value| + 1), C.Cap(old(State()), client))
      ensures reply.Done? ==> HasGroup(State(), client, Trim(group, IsSpace)) && C.WithinCap(State(), client)
                              && clients[client].groups == Some(old(clients)[client].groups.value + [Trim(group, IsSpace)])
      ensures !reply.Done? ==> State() == old(State())
    {
      hide Trim, WithTier, Sound, OnlyClient, HasGroup, C.WithinCap, C.AtMost, P.SettlesOnce, T.RequestsMoveOn, P.Charges,
           T.Tiered;
      SoundStep(State(), clock, Step.AddGroup(client, group, rank));
      TieredOf(State(), clock);
      SelfAdding(State(), client, group, rank);
      if client !in clients {
        return NotFound;
      }
      var g := Trim(group, IsSpace);
      if g == "" {
        return Bad;
      }
      if clients[client].groups.None? {
        return NotEnabled;
      }
      var groups := clients[client].groups.value;
      if g in groups {
        return AlreadyThere;
      }
      WithTierKeepsGroups(State(), client, rank);
      EnsureTier(client, rank);
      var limit := TierLimit(State(), clients[client]);
      if limit.Some? && |groups| + 1 > limit.value {
        return LimitReached;
      }
      clients := clients[client := clients[client].(groups := Some(groups + [g]))];
      return Done;
    }

    method RequestUpgrade(client: int, group: string, phone: string, stk: Stk, rank: map<int, int>)
      requires Valid()
      requires stk.StkSent? && stk.checkout.Some? ==> P.Unused(State(), stk.checkout.value)
      modifies this`requests, this`nextRequest
      ensures State() == SelfUpgrade(old(State()), client, group, phone, stk, rank)
      ensures Valid()
      ensures T.AsksForNextTier(old(State()), State(), Upgrade(client, group, phone, stk, rank))
    {
      hide Trim, NormalizePhone, NextTier, PendingOf, Sound, P.SettlesOnce, T.RequestsMoveOn, P.Charges, T.Tiered, P.Unused,
           T.AsksForNextTier;
      ghost var s := Upgrade(client, group, phone, stk, rank);
      SoundStep(State(), clock, s);
      TieredOf(State(), clock);
      T.UpgradeAsksForNextTier(State(), s);
      var g := Trim(group, IsSpace);
      if client !in clients || g == "" || NormalizePhone(phone).None? || clients[client].groups.None? {
        return;
      }
      if PendingOf(State(), client).Keys != {} {
        return;
      }
      var limit := 0;
      if clients[client].tier.Some? && clients[client].tier.value in tiers {
        var current := tiers[clients[client].tier.value];
        if current.maxGroups.None? {
          return;
        }
        limit := current.maxGroups.value;
      }
      var next := NextTier(State(), limit, rank);
      if next.None? || tiers[next.value].amount <= 0.0 {
        return;
      }
      var row := Request(client, g, next.value, tiers[next.value].amount, None, None, Pending);
      match stk {
        case StkError => row := row.(status := Failed);
        case StkSent(checkout) => row := row.(checkout := checkout);
      }
      requests := requests[nextRequest := row];
      nextRequest := nextRequest + 1;
    }

    // ---- Administration ----

    method Register(subdomain: string, chosen: Option<int>, today: int, rank: map<int, int>)
      requires Valid()
      modifies this`tiers, this`nextTier, this`clients, this`nextClient
      ensures State() == CreateClient(old(State()), subdomain, chosen, today, rank)
      ensures Valid() && Registered(old(State()), State(), subdomain, chosen)
    {
      hide SeedTiers, Query, TierOrder, BaseTier, Trim, Lower, Sound, P.SettlesOnce, T.RequestsMoveOn, P.Charges, T.Tiered,
           Registered;
      SoundStep(State(), clock, NewClient(subdomain, chosen, today, rank));
      TieredOf(State(), clock);
      Registering(State(), subdomain, chosen, today, rank);
      var name := Trim(Lower(subdomain), IsSpace);
      var ids := GetOrSeedTiers(rank);
      TierIds(tiers, rank);
      if exists c | c in clients :: clients[c].subdomain == name {
        return;
      }
      var tier := ids[0];
      if chosen.Some? && chosen.value in ids {
        tier := chosen.value;
      }
      clients := clients[nextClient :=
        Client(name, Active, today + PERIOD_DAYS, None, None, None, false, false, None, Some(tier))];
      nextClient := nextClient + 1;
    }

    method Edit(client: int, renewal: Option<int>, tier: Option<int>)
      requires Valid()
      modifies this`clients
      ensures State() == UpdateClient(old(State()), client, renewal, tier)
      ensures Valid() && OnlyClient(old(State()), State(), client)
      ensures client in clients && renewal.Some? ==> clients[client].renewal == renewal.value
      ensures client in clients && tier.Some? && tier.value in tiers ==> clients[client].tier == tier
      ensures client in clients ==> clients[client].groups == old(clients)[client].groups
                                    && D.SameMarks(old(clients)[client], clients[client])
    {
      hide Sound, P.SettlesOnce, T.RequestsMoveOn, P.Charges;
      SoundStep(State(), clock, EditClient(client, renewal, tier));
      if client !in clients {
        return;
      }
      if renewal.Some? {
        clients := clients[client := clients[client].(renewal := renewal.value)];
      }
      if tier.Some? && tier.value in tiers {
        clients := clients[client := clients[client].(tier := tier)];
      }
      assert clients == UpdateClient(old(State()), client, renewal, tier).clients;
    }

    method CloseAccount(client: int)
      requires Valid()
      modifies this`clients
      ensures State() == Close(old(State()), client)
      ensures Valid() && OnlyClient(old(State()), State(), client)
      ensures client in clients ==> clients[client] == old(clients)[client].(status := Closed)
    {
      hide Sound, P.SettlesOnce, T.RequestsMoveOn, P.Charges;
      SoundStep(State(), clock, CloseClient(client));
      if client in clients {
        clients := clients[client := clients[client].(status := Closed)];
      }
    }

    method SetTierPrices(a1: real, a2: real, a3: real, rank: map<int, int>)
      requires Valid()
      modifies this`tiers, this`nextTier
      ensures State() == SetPrices(old(State()), a1, a2, a3, rank)
      ensures Valid() && C.TiersExtended(SeedTiers(old(State())), State())
    {
      hide SeedTiers, Query, TierOrder, PriceTiers, BaseTier, Sound, P.SettlesOnce, T.RequestsMoveOn, P.Charges;
      SoundStep(State(), clock, Prices(a1, a2, a3, rank));
      var ids := GetOrSeedTiers(rank);
      if a1 <= 0.0 || a2 <= 0.0 || a3 <= 0.0 || !(a1 <= a2 <= a3) {
        return;
      }
      TierIds(tiers, rank);
      tiers := PriceEach(tiers, ids, [a1, a2, a3]);
    }

    method Activate(client: int)
      requires Valid()
      modifies this`clients
      ensures State() == Reactivate(old(State()), client)
      ensures Valid() && OnlyClient(old(State()), State(), client)
      ensures client in clients ==>
                && MarksCleared(clients[client]) && clients[client].renewal == old(clients)[client].renewal
                && T.SameTier(old(clients)[client], clients[client])
    {
      hide Sound, P.SettlesOnce, T.RequestsMoveOn, P.Charges;
      SoundStep(State(), clock, ManualReactivate(client));
      if client !in clients {
        return;
      }
      var c := clients[client];
      c := c.(status := Active);
      c := c.(graceAt := None);
      c := c.(suspendedAt := None);
      c := c.(lastWarning := None);
      c := c.(warned14 := false);
      c := c.(warned2 := false);
      clients := clients[client := c];
    }

    // ---- The daily check ----

    // Brings one account up to date and sends the notice that is due.
    method CheckStatus(client: int, now: int, today: int)
      requires client in clients && D.Dunned(State())
      modifies this`clients, this`notices
      ensures State() == CheckOne(old(State()), client, now, today)
      ensures D.Dunned(State()) && OnlyClient(old(State()), State(), client)
      ensures client in clients && D.UpToDate(clients[client], now, today)
    {
      hide D.Dunned, D.UpToDate, OnlyClient, CheckClient;
      CheckingOne(State(), client, now, today);
      var c, notice := CheckAccount(clients[client], now, today);
      clients := clients[client := c];
      if notice.Some? {
        notices := notices + [Notice(client, notice.value, now)];
      }
    }

    method RunDailyChecks(now: int, today: int, rank: map<int, int>)
      requires Valid() && clock <= now
      modifies this`clients, this`notices, this`clock
      ensures State() == DailyCheck(old(State()), now, today, rank)
      ensures Valid() && clock == now
      ensures clients.Keys == old(clients).Keys && forall c | c in clients :: D.UpToDate(clients[c], now, today)
    {
      hide CheckOne, CheckAll, Query, OpenClients, Sound, P.SettlesOnce, T.RequestsMoveOn, P.Charges, D.Dunned, D.UpToDate,
           OnlyClient;
      SoundStep(State(), clock, Check(now, today, rank));
      DunnedState(State(), clock);
      D.CheckIsThorough(State(), now, today, rank);
      var ids := Query(OpenClients(State()), rank);
      OpenKnown(State(), rank, ids);
      NoneChecked(State(), now, today);
      for k := 0 to |ids|
        invariant clients.Keys == old(clients).Keys && clock == old(clock) && D.Dunned(State())
        invariant State() == CheckAll(old(State()), ids[..k], now, today)
      {
        CheckOneMore(old(State()), ids, k, now, today);
        CheckStatus(ids[k], now, today);
      }
      assert ids[..|ids|] == ids;
      clock := now;
    }
  }

  // ---- What the invariants say, part by part ----

  lemma BoundOf(b: Bill, t: int)
    requires Sound(b, t)
    ensures P.Bound(b) && T.Tiered(b)
  {
  }

  lemma SoundLater(b: Bill, t: int, now: int)
    requires Sound(b, t) && t <= now
    ensures Sound(b, now)
  {
    P.Later(b, t, now);
  }

  lemma JoinedGroup(b: Bill, r: int)
    requires r in b.requests
    ensures var q := b.requests[r];
            q.client in b.clients ==>
              var had := GroupsOf(b.clients[q.client]);
              had == (if b.clients[q.client].groups.Some? then b.clients[q.client].groups.value else [])
              && WithGroup(had, q.group) == if q.group in had then had else had + [q.group]
  {
  }

  lemma TieredOf(b: Bill, t: int)
    requires Sound(b, t)
    ensures T.Tiered(b)
  {
  }

  lemma DunnedState(b: Bill, t: int)
    requires Sound(b, t)
    ensures D.Dunned(b)
  {
  }

  lemma ClosedHere(b: Bill, client: int)
    requires client in b.clients
    ensures Close(b, client) == b.(clients := b.clients[client := b.clients[client].(status := Closed)])
  {
  }

  lemma WithTierKeepsGroups(b: Bill, client: int, rank: map<int, int>)
    requires client in b.clients
    ensures client in WithTier(b, client, rank).clients
    ensures WithTier(b, client, rank).clients[client].groups == b.clients[client].groups
  {
    hide BaseTier;
  }
}
