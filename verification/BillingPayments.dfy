/** Renewal payments settle at most once. A payment conversation holds its own unsettled payment of
    its own client, a payment is settled once and then never changes, and late or repeated callbacks
    do nothing (billing/main.py:578-742, 819-894). */
module BillingPayments {
  import opened Text
  import opened Rows
  import opened BillingModel

  // ---- What holds between steps ----

  // A conversation is bound to a payment exactly when the payment was pushed to the phone.
  ghost predicate SessionBound(b: Bill, x: Session) {
    && x.client in b.clients
    && (x.payment.Some? <==> x.state == AwaitingStk)
    && (x.checkout.Some? ==> x.payment.Some?)
    && (x.payment.Some? ==>
          x.payment.value in b.payments && b.payments[x.payment.value].client == x.client
          && b.payments[x.payment.value].status == Unpaid)
  }

  ghost predicate Bound(b: Bill) {
    && (forall s | s in b.sessions :: s < b.nextSession && SessionBound(b, b.sessions[s]))
    && (forall p | p in b.payments :: p < b.nextPayment)
    && (forall r | r in b.requests :: r < b.nextRequest)
    && (forall s, z | s in b.sessions && z in b.sessions && s != z ::
          b.sessions[s].payment.None? || b.sessions[s].payment != b.sessions[z].payment)
  }

  // No two rows wait for the same M-Pesa checkout.
  ghost predicate CheckoutsApart(b: Bill) {
    && (forall s, z | s in b.sessions && z in b.sessions && s != z ::
          b.sessions[s].checkout.None? || b.sessions[s].checkout != b.sessions[z].checkout)
    && (forall r, q | r in b.requests && q in b.requests && r != q ::
          b.requests[r].checkout.None? || b.requests[r].checkout != b.requests[q].checkout)
    && (forall s, r | s in b.sessions && r in b.requests ::
          b.sessions[s].checkout.None? || b.sessions[s].checkout != b.requests[r].checkout)
  }

  ghost predicate OneLive(b: Bill, t: int) {
    forall s, z | s in b.sessions && z in b.sessions && s != z && b.sessions[s].client == b.sessions[z].client ::
      b.sessions[s].expires <= t || b.sessions[z].expires <= t
  }

  ghost predicate Inv(b: Bill, t: int) { Bound(b) && CheckoutsApart(b) && OneLive(b, t) }

  // ---- Runs in which checkouts are new and the clock does not go back ----

  ghost predicate Unused(b: Bill, checkout: string) {
    && (forall s | s in b.sessions :: b.sessions[s].checkout != Some(checkout))
    && (forall r | r in b.requests :: b.requests[r].checkout != Some(checkout))
  }

  // The checkout M-Pesa issued in a step.
  function Issued(s: Step): Option<string> {
    if (s.Message? || s.Upgrade?) && s.stk.StkSent? then s.stk.checkout else None
  }

  function ClockAfter(t: int, s: Step): int { if s.Message? || s.Check? then s.now else t }

  ghost predicate Allowed(b: Bill, t: int, s: Step) {
    t <= ClockAfter(t, s) && (Issued(s).Some? ==> Unused(b, Issued(s).value))
  }

  function Clock(t: int, steps: seq<Step>): int {
    if steps == [] then t else ClockAfter(Clock(t, steps[..|steps| - 1]), steps[|steps| - 1])
  }

  ghost predicate AllowedRun(b: Bill, t: int, steps: seq<Step>) {
    steps == []
    || (AllowedRun(b, t, steps[..|steps| - 1])
        && Allowed(Run(b, steps[..|steps| - 1]), Clock(t, steps[..|steps| - 1]), steps[|steps| - 1]))
  }

  // ---- A payment is settled once ----

  // A step leaves a settled payment alone and changes only the outcome of an unsettled one.
  ghost predicate SettlesOnce(b: Bill, after: Bill) {
    forall p | p in b.payments ::
      && p in after.payments
      && after.payments[p] == b.payments[p].(status := after.payments[p].status, receipt := after.payments[p].receipt)
      && (b.payments[p].status != Unpaid ==> after.payments[p] == b.payments[p])
      && (after.payments[p].status != Paid ==> after.payments[p].receipt == b.payments[p].receipt)
  }

  lemma DropKeeps(b: Bill, s: int, t: int)
    requires Inv(b, t)
    ensures Inv(DropSession(b, s), t) && SettlesOnce(b, DropSession(b, s)) && SettlesOnce(b, b)
  {
  }

  lemma OpenKeeps(b: Bill, client: int, now: int, t: int)
    requires Inv(b, t) && t <= now && client in b.clients
    requires LiveSessions(b, client, now).Keys == {}
    ensures Inv(OpenSession(b, client, now), now) && SettlesOnce(b, OpenSession(b, client, now))
  {
    assert forall s | s in b.sessions && b.sessions[s].client == client && b.sessions[s].expires > now ::
        s in LiveSessions(b, client, now);
  }

  lemma LiveIsAlone(b: Bill, client: int, now: int, t: int, s: int)
    requires OneLive(b, t) && t <= now && s in LiveSessions(b, client, now)
    ensures LiveSessions(DropSession(b, s), client, now).Keys == {}
    ensures forall z | z in b.sessions && b.sessions[z].client == client && z != s :: b.sessions[z].expires <= now
  {
    NoKeys(LiveSessions(DropSession(b, s), client, now));
  }

  lemma PushBinds(b: Bill, client: int, s: int, amount: real, now: int, today: int, stk: Stk)
    requires Bound(b) && s in b.sessions && b.sessions[s].client == client && b.sessions[s].state == AwaitingConfirm
    ensures Bound(PushPayment(b, client, s, amount, now, today, stk))
    ensures SettlesOnce(b, PushPayment(b, client, s, amount, now, today, stk))
  {
  }

  lemma PushKeeps(b: Bill, client: int, s: int, amount: real, now: int, today: int, stk: Stk, t: int)
    requires Inv(b, t) && t <= now && s in LiveSessions(b, client, now) && b.sessions[s].state == AwaitingConfirm
    requires stk.StkSent? && stk.checkout.Some? ==> Unused(b, stk.checkout.value)
    ensures Inv(PushPayment(b, client, s, amount, now, today, stk), now)
    ensures SettlesOnce(b, PushPayment(b, client, s, amount, now, today, stk))
  {
    hide Bound, SettlesOnce;
    LiveIsAlone(b, client, now, t, s);
    PushBinds(b, client, s, amount, now, today, stk);
  }

  lemma PhoneKeeps(b: Bill, s: int, phone: Option<string>, now: int, t: int)
    requires Inv(b, t) && t <= now && s in b.sessions && b.sessions[s].expires > now
    requires b.sessions[s].state == AwaitingPhone
    ensures var x := b.sessions[s].(state := AwaitingConfirm, phone := phone, expires := now + 5 * MINUTE);
            var after := b.(sessions := b.sessions[s := x]);
            Inv(after, now) && SettlesOnce(b, after)
  {
    LiveIsAlone(b, b.sessions[s].client, now, t, s);
  }

  lemma ConverseKeeps(b: Bill, client: int, s: int, text: string, now: int, today: int, stk: Stk, t: int)
    requires Inv(b, t) && t <= now && client in b.clients && s in LiveSessions(b, client, now)
    requires stk.StkSent? && stk.checkout.Some? ==> Unused(b, stk.checkout.value)
    ensures Inv(Converse(b, client, s, text, now, today, stk), now)
    ensures SettlesOnce(b, Converse(b, client, s, text, now, today, stk))
  {
    hide Inv, Lower, NormalizePhone, PushPayment, RenewalCharge, DropSession;
    Later(b, t, now);
    DropKeeps(b, s, now);
    var charge := RenewalCharge(b, b.clients[client]);
    if b.sessions[s].state == AwaitingPhone {
      PhoneKeeps(b, s, NormalizePhone(text), now, t);
    } else if b.sessions[s].state == AwaitingConfirm && charge.Some? {
      PushKeeps(b, client, s, charge.value, now, today, stk, t);
    }
  }

  lemma StartKeeps(b: Bill, client: int, now: int, rank: map<int, int>, t: int)
    requires Inv(b, t) && t <= now && client in b.clients
    ensures Inv(StartPayment(b, client, now, rank), now) && SettlesOnce(b, StartPayment(b, client, now, rank))
  {
    hide Inv, OpenSession, First;
    var live := LiveSessions(b, client, now);
    if live.Keys == {} {
      OpenKeeps(b, client, now, t);
    } else {
      var f := First(live, rank);
      assert IsFirst(live, rank, f);
      OneLiveOf(b, t);
      LiveIsAlone(b, client, now, t, f);
      DropKeeps(b, f, t);
      OpenKeeps(DropSession(b, f), client, now, t);
    }
  }

  lemma OneLiveOf(b: Bill, t: int)
    requires Inv(b, t)
    ensures OneLive(b, t)
  {
  }

  lemma Later(b: Bill, t: int, now: int)
    requires Inv(b, t) && t <= now
    ensures Inv(b, now)
  {
  }

  lemma ReplyKeeps(b: Bill, client: int, text: string, now: int, today: int, stk: Stk, rank: map<int, int>, t: int)
    requires Inv(b, t) && t <= now && client in b.clients
    requires stk.StkSent? && stk.checkout.Some? ==> Unused(b, stk.checkout.value)
    ensures var after := Reply(b, client, text, now, today, stk, rank); Inv(after, now) && SettlesOnce(b, after)
  {
    hide Inv, Converse, First;
    var live, expired := LiveSessions(b, client, now), JustExpired(b, client, now);
    Later(b, t, now);
    if live.Keys != {} {
      var f := First(live, rank);
      assert IsFirst(live, rank, f);
      ConverseKeeps(b, client, f, text, now, today, stk, t);
    } else if expired.Keys != {} {
      DropKeeps(b, First(expired, rank), now);
    }
  }

  lemma CloseKeeps(b: Bill, client: int, t: int)
    requires Inv(b, t)
    ensures Inv(Close(b, client), t) && SettlesOnce(b, Close(b, client))
  {
  }

  lemma MessageKeeps(b: Bill, t: int, s: Step)
    requires Inv(b, t) && s.Message? && Allowed(b, t, s)
    ensures Inv(Apply(b, s), s.now) && SettlesOnce(b, Apply(b, s))
  {
    hide Inv, Lower, Trim, StartPayment, Reply, Close;
    Later(b, t, s.now);
    CloseKeeps(b, s.client, s.now);
    if s.client in b.clients {
      StartKeeps(b, s.client, s.now, s.rank, t);
      ReplyKeeps(b, s.client, Trim(s.body, IsSpace), s.now, s.today, s.stk, s.rank, t);
    }
  }

  lemma SettleBinds(b: Bill, s: int, paid: bool, receipt: Option<string>, today: int)
    requires Bound(b) && s in b.sessions
    ensures Bound(SettleRenewal(b, s, paid, receipt, today))
    ensures SettlesOnce(b, SettleRenewal(b, s, paid, receipt, today))
  {
  }

  lemma SettleKeeps(b: Bill, s: int, paid: bool, receipt: Option<string>, today: int, t: int)
    requires Inv(b, t) && s in b.sessions
    ensures Inv(SettleRenewal(b, s, paid, receipt, today), t)
    ensures SettlesOnce(b, SettleRenewal(b, s, paid, receipt, today))
  {
    hide Bound, SettlesOnce;
    SettleBinds(b, s, paid, receipt, today);
  }

  lemma UpgradeSettleKeeps(b: Bill, r: int, paid: bool, receipt: Option<string>, t: int)
    requires Inv(b, t) && r in b.requests
    ensures Inv(SettleUpgrade(b, r, paid, receipt), t)
    ensures SettlesOnce(b, SettleUpgrade(b, r, paid, receipt))
  {
    hide WithGroup, GroupsOf;
  }

  lemma CallbackKeeps(b: Bill, t: int, s: Step)
    requires Inv(b, t) && s.Callback?
    ensures Inv(Apply(b, s), t) && SettlesOnce(b, Apply(b, s))
  {
    hide SettleRenewal, SettleUpgrade, First;
    var owners, requests := SessionsOf(b, s.checkout), RequestsOf(b, s.checkout);
    if owners.Keys != {} {
      var f := First(owners, s.rank);
      assert IsFirst(owners, s.rank, f);
      SettleKeeps(b, f, s.paid, s.receipt, s.today, t);
    } else if requests.Keys != {} {
      var f := First(requests, s.rank);
      assert IsFirst(requests, s.rank, f);
      UpgradeSettleKeeps(b, f, s.paid, s.receipt, t);
    }
  }

  // ---- Steps that do not touch conversations and payments ----

  ghost predicate OnlyOtherTables(b: Bill, after: Bill) {
    && after.sessions == b.sessions && after.nextSession == b.nextSession
    && after.payments == b.payments && after.nextPayment == b.nextPayment
    && b.clients.Keys <= after.clients.Keys
    && b.nextRequest <= after.nextRequest
  }

  ghost predicate RequestsAlike(b: Bill, after: Bill) {
    after.requests.Keys == b.requests.Keys
    && forall r | r in b.requests ::
         && after.requests[r].checkout == b.requests[r].checkout
         && (after.requests[r].status == Pending ==> b.requests[r].status == Pending)
  }

  lemma OtherTablesKeep(b: Bill, after: Bill, t: int)
    requires Inv(b, t) && OnlyOtherTables(b, after) && RequestsAlike(b, after)
    ensures Inv(after, t) && SettlesOnce(b, after)
  {
  }

  lemma CheckAllTables(b: Bill, ids: seq<int>, now: int, today: int)
    requires forall k | 0 <= k < |ids| :: ids[k] in b.clients
    ensures OnlyOtherTables(b, CheckAll(b, ids, now, today)) && CheckAll(b, ids, now, today).requests == b.requests
    ensures CheckAll(b, ids, now, today).tiers == b.tiers
  {
    hide CheckClient;
    if ids != [] {
      CheckAllTables(b, ids[..|ids| - 1], now, today);
    }
  }

  lemma TierTables(b: Bill, client: int, rank: map<int, int>)
    requires client in b.clients
    ensures OnlyOtherTables(b, WithTier(b, client, rank)) && WithTier(b, client, rank).requests == b.requests
    ensures client in WithTier(b, client, rank).clients
  {
    hide BaseTier;
  }

  lemma GroupSteps(b: Bill, s: Step)
    requires s.AddGroup? || s.AdminAdd? || s.AdminRemove?
    ensures OnlyOtherTables(b, Apply(b, s)) && Apply(b, s).requests == b.requests
  {
    hide Trim, WithGroup, GroupsOf, Without, TierLimit, BaseTier, WithTier;
    if !s.AdminRemove? && s.client in b.clients {
      TierTables(b, s.client, s.rank);
    }
  }

  lemma ClientSteps(b: Bill, s: Step)
    requires s.NewClient? || s.EditClient? || s.ManualReactivate? || s.CloseClient? || s.ResetGroups?
    ensures OnlyOtherTables(b, Apply(b, s)) && RequestsAlike(b, Apply(b, s))
  {
    hide BaseTier;
  }

  lemma OtherSteps(b: Bill, s: Step)
    requires !s.Message? && !s.Callback? && !s.Upgrade?
    ensures OnlyOtherTables(b, Apply(b, s)) && RequestsAlike(b, Apply(b, s))
  {
    hide Query, PriceTiers, SelfAddGroup, AdminAddGroup, AdminRemoveGroup, AdminReset, CreateClient, UpdateClient,
         Reactivate, Close, CheckAll;
    if s.AddGroup? || s.AdminAdd? || s.AdminRemove? {
      GroupSteps(b, s);
    } else if s.Check? {
      var ids := Query(OpenClients(b), s.rank);
      assert forall k | 0 <= k < |ids| :: ids[k] in OpenClients(b);
      CheckAllTables(b, ids, s.now, s.today);
    } else if !s.Prices? {
      ClientSteps(b, s);
    }
  }

  lemma UpgradeKeeps(b: Bill, t: int, s: Step)
    requires Inv(b, t) && s.Upgrade? && Allowed(b, t, s)
    ensures Inv(Apply(b, s), t) && SettlesOnce(b, Apply(b, s))
  {
    hide Trim, First, NormalizePhone, NextTier;
  }

  lemma StepKeeps(b: Bill, t: int, s: Step)
    requires Inv(b, t) && Allowed(b, t, s)
    ensures Inv(Apply(b, s), ClockAfter(t, s)) && SettlesOnce(b, Apply(b, s))
  {
    hide Apply;
    if s.Message? {
      MessageKeeps(b, t, s);
    } else if s.Callback? {
      CallbackKeeps(b, t, s);
    } else if s.Upgrade? {
      UpgradeKeeps(b, t, s);
    } else {
      OtherSteps(b, s);
      OtherTablesKeep(b, Apply(b, s), t);
    }
  }

  // ---- Over whole runs ----

  /** Whatever messages, callbacks and staff actions arrive: every conversation that waits for M-Pesa
      holds an unsettled payment of its own client that no other conversation holds, no checkout has
      two owners, and a client has at most one conversation under way. */
  lemma {:induction false} PaymentsStayBound(b: Bill, t: int, steps: seq<Step>)
    requires Inv(b, t) && AllowedRun(b, t, steps)
    ensures Inv(Run(b, steps), Clock(t, steps))
  {
    hide Apply, Allowed, Inv;
    if steps != [] {
      var before := steps[..|steps| - 1];
      PaymentsStayBound(b, t, before);
      StepKeeps(Run(b, before), Clock(t, before), steps[|steps| - 1]);
    }
  }

  lemma EmptyBillBound(t: int)
    ensures Inv(EMPTY_BILL, t) && Priced(EMPTY_BILL)
  {
  }

  ghost predicate Settled(b: Bill, p: int) { p in b.payments && b.payments[p].status != Unpaid }

  /** A settled payment keeps its outcome, receipt and period for ever. */
  lemma {:induction false} SettledForGood(b: Bill, t: int, steps: seq<Step>, n: nat, p: int)
    requires Inv(b, t) && AllowedRun(b, t, steps) && n <= |steps|
    requires Settled(Run(b, steps[..n]), p)
    ensures Settled(Run(b, steps), p) && Run(b, steps).payments[p] == Run(b, steps[..n]).payments[p]
    decreases |steps|
  {
    hide Apply, Allowed, Inv;
    if n == |steps| {
      assert steps[..n] == steps;
    } else {
      var before := steps[..|steps| - 1];
      assert before[..n] == steps[..n];
      SettledForGood(b, t, before, n, p);
      PaymentsStayBound(b, t, before);
      StepKeeps(Run(b, before), Clock(t, before), steps[|steps| - 1]);
    }
  }

  // ---- What a payment is for ----

  ghost predicate MobileNumber(s: string) {
    |s| == 12 && s[..4] == "2547" && forall i | 0 <= i < 12 :: IsDigit(s[i])
  }

  lemma {:induction false} OnlyDigits(s: string)
    requires forall i | 0 <= i < |s| :: IsDigit(s[i])
    ensures Digits(s) == s
  {
    if s != [] {
      OnlyDigits(s[1..]);
    }
  }

  lemma NationalForm(phone: string)
    requires MobileNumber(phone)
    ensures var d := "0" + phone[3..]; |d| == 10 && d[..2] == "07" && "254" + d[1..] == phone
  {
    assert phone[..4][0] == '2' && phone[..4][1] == '5' && phone[..4][2] == '4' && phone[..4][3] == '7';
  }

  lemma InternationalForm(d: string)
    requires |d| == 10 && d[..2] == "07" && forall i | 0 <= i < |d| :: IsDigit(d[i])
    ensures var phone := "254" + d[1..]; MobileNumber(phone) && d == "0" + phone[3..]
  {
    assert d[..2][0] == '0' && d[..2][1] == '7';
  }

  /** A text is taken for a mobile number exactly when its digits are that number in international or in national
      form, whatever stands between them. */
  lemma AcceptedNumbers(raw: string, phone: string)
    ensures NormalizePhone(raw) == Some(phone)
            <==> MobileNumber(phone) && (Digits(raw) == phone || Digits(raw) == "0" + phone[3..])
  {
    hide Digits;
    var d := Digits(raw);
    if MobileNumber(phone) {
      NationalForm(phone);
    }
    if |d| == 10 && d[..2] == "07" {
      InternationalForm(d);
    }
  }

  ghost predicate PhoneGiven(x: Session) {
    x.state != AwaitingPhone ==> x.phone.Some? && MobileNumber(x.phone.value)
  }

  // A positive amount from a mobile number for a period of 30 days.
  ghost predicate WellPriced(p: Payment) {
    p.phone.Some? && MobileNumber(p.phone.value) && p.amount > 0.0 && p.end == p.start + 30
  }

  ghost predicate Priced(b: Bill) {
    && (forall s | s in b.sessions :: PhoneGiven(b.sessions[s]))
    && (forall p | p in b.payments :: WellPriced(b.payments[p]))
  }

  // The new payments are for the price of the client's tier, from `today` on.
  ghost predicate ChargesTier(b: Bill, after: Bill, client: int, today: int) {
    forall p | p in after.payments && p !in b.payments ::
      && client in b.clients && after.payments[p].client == client && after.payments[p].start == today
      && b.clients[client].tier.Some? && b.clients[client].tier.value in b.tiers
      && after.payments[p].amount == b.tiers[b.clients[client].tier.value].amount
  }

  lemma ConversePriced(b: Bill, client: int, s: int, text: string, now: int, today: int, stk: Stk)
    requires Priced(b) && client in b.clients && s in b.sessions
    ensures var after := Converse(b, client, s, text, now, today, stk); Priced(after) && ChargesTier(b, after, client, today)
  {
    hide Lower, NormalizePhone, MobileNumber;
    if NormalizePhone(text).Some? {
      assert MobileNumber(NormalizePhone(text).value) by { NormalizedIsMobile(text); }
    }
  }

  lemma NormalizedIsMobile(raw: string)
    requires NormalizePhone(raw).Some?
    ensures MobileNumber(NormalizePhone(raw).value)
  {
    hide NormalizePhone;
  }

  lemma MessagePriced(b: Bill, s: Step)
    requires Priced(b) && s.Message?
    ensures Priced(Apply(b, s)) && ChargesTier(b, Apply(b, s), s.client, s.today)
  {
    hide Trim, Lower, Reply, First, WellPriced, MobileNumber;
    if s.client in b.clients {
      ReplyPriced(b, s.client, Trim(s.body, IsSpace), s.now, s.today, s.stk, s.rank);
    }
  }

  lemma ReplyPriced(b: Bill, client: int, text: string, now: int, today: int, stk: Stk, rank: map<int, int>)
    requires Priced(b) && client in b.clients
    ensures var after := Reply(b, client, text, now, today, stk, rank); Priced(after) && ChargesTier(b, after, client, today)
  {
    hide Converse, First, WellPriced, PhoneGiven;
    var live := LiveSessions(b, client, now);
    if live.Keys != {} {
      var f := First(live, rank);
      assert IsFirst(live, rank, f);
      ConversePriced(b, client, f, text, now, today, stk);
    }
  }

  ghost predicate OnlyDrops(b: Bill, after: Bill) {
    && after.sessions.Keys <= b.sessions.Keys && (forall s | s in after.sessions :: after.sessions[s] == b.sessions[s])
    && after.payments.Keys == b.payments.Keys
  }

  lemma CallbackDrops(b: Bill, s: Step)
    requires s.Callback?
    ensures OnlyDrops(b, Apply(b, s))
  {
    hide SettleRenewal, SettleUpgrade, First;
    var owners, requests := SessionsOf(b, s.checkout), RequestsOf(b, s.checkout);
    if owners.Keys != {} {
      var f := First(owners, s.rank);
      assert IsFirst(owners, s.rank, f);
      SettleDrops(b, f, s.paid, s.receipt, s.today);
    } else if requests.Keys != {} {
      var f := First(requests, s.rank);
      assert IsFirst(requests, s.rank, f);
      UpgradeDrops(b, f, s.paid, s.receipt);
    }
  }

  lemma SettleDrops(b: Bill, s: int, paid: bool, receipt: Option<string>, today: int)
    requires s in b.sessions
    ensures OnlyDrops(b, SettleRenewal(b, s, paid, receipt, today))
  {
  }

  lemma UpgradeDrops(b: Bill, r: int, paid: bool, receipt: Option<string>)
    requires r in b.requests
    ensures OnlyDrops(b, SettleUpgrade(b, r, paid, receipt))
  {
    hide WithGroup, GroupsOf;
  }

  lemma DropsPriced(b: Bill, after: Bill)
    requires Priced(b) && OnlyDrops(b, after) && SettlesOnce(b, after)
    ensures Priced(after)
  {
    hide MobileNumber;
  }

  lemma OtherPriced(b: Bill, s: Step)
    requires Priced(b) && !s.Message? && !s.Callback?
    ensures Priced(Apply(b, s)) && Apply(b, s).payments == b.payments
  {
    hide Trim, First, NormalizePhone, NextTier, Apply, PhoneGiven, WellPriced;
    if s.Upgrade? {
      UpgradeTables(b, s);
    } else {
      OtherSteps(b, s);
    }
  }

  lemma UpgradeTables(b: Bill, s: Step)
    requires s.Upgrade?
    ensures Apply(b, s).sessions == b.sessions && Apply(b, s).payments == b.payments
  {
    hide Trim, First, NormalizePhone, NextTier;
  }

  /** In every run each payment is a positive amount from a mobile number for a period of 30 days, and
      whatever a step adds is charged at the client's tier price from that day on. */
  lemma {:induction false} PaymentsAreCharges(b: Bill, t: int, steps: seq<Step>)
    requires Inv(b, t) && Priced(b) && AllowedRun(b, t, steps)
    ensures Priced(Run(b, steps))
    ensures forall k | 0 <= k < |steps| :: ChargesAt(b, steps, k)
  {
    hide Apply, Allowed, Inv, Priced, ChargesTier;
    if steps != [] {
      var n := |steps| - 1;
      var before := steps[..n];
      PaymentsAreCharges(b, t, before);
      PaymentsStayBound(b, t, before);
      StepCharges(Run(b, before), Clock(t, before), steps[n]);
      forall k | 0 <= k < |steps|
        ensures ChargesAt(b, steps, k)
      {
        if k < n {
          assert ChargesAt(b, before, k);
          assert before[..k] == steps[..k];
        } else {
          assert steps[..k] == before;
        }
      }
    }
  }

  ghost predicate ChargesAt(b: Bill, steps: seq<Step>, k: nat)
    requires k < |steps|
  {
    Charges(Run(b, steps[..k]), steps[k])
  }

  // Only a client's message adds a payment, at the price of its tier.
  ghost predicate Charges(b: Bill, s: Step) {
    if s.Message? then ChargesTier(b, Apply(b, s), s.client, s.today) else Apply(b, s).payments.Keys == b.payments.Keys
  }

  lemma StepCharges(b: Bill, t: int, s: Step)
    requires Inv(b, t) && Priced(b) && Allowed(b, t, s)
    ensures Priced(Apply(b, s)) && Charges(b, s)
  {
    hide Apply, Inv, Priced, ChargesTier, OnlyDrops, SettlesOnce;
    if s.Message? {
      MessagePriced(b, s);
    } else if s.Callback? {
      StepKeeps(b, t, s);
      CallbackDrops(b, s);
      DropsPriced(b, Apply(b, s));
      DropsKeys(b, Apply(b, s));
    } else {
      OtherPriced(b, s);
    }
  }

  lemma DropsKeys(b: Bill, after: Bill)
    requires OnlyDrops(b, after)
    ensures after.payments.Keys == b.payments.Keys
  {
  }

  // ---- Confirmations ----

  // The payment a callback confirms.
  ghost function Confirms(b: Bill, s: Step): (p: Option<int>) {
    if !s.Callback? || !s.paid || s.checkout == "" || SessionsOf(b, s.checkout).Keys == {} then None
    else b.sessions[First(SessionsOf(b, s.checkout), s.rank)].payment
  }

  /** A confirming callback settles one unsettled payment of the client it renews. The renewal date
      becomes the end of that payment's period, the account becomes active with every overdue mark
      cleared, the conversation ends, and nothing else changes. */
  lemma ConfirmationRenews(b: Bill, t: int, s: Step)
    requires Inv(b, t) && Confirms(b, s).Some?
    ensures var p, after := Confirms(b, s).value, Apply(b, s);
            && p in b.payments && b.payments[p].status == Unpaid
            && after.payments == b.payments[p := b.payments[p].(status := Paid, receipt := s.receipt)]
            && var c := b.payments[p].client;
               && c in b.clients
               && after.clients == b.clients[c := after.clients[c]]
               && after.clients[c].renewal == b.payments[p].end
               && after.clients[c].status == Active
               && after.clients[c].graceAt.None? && after.clients[c].suspendedAt.None?
               && after.clients[c].lastWarning.None? && !after.clients[c].warned14 && !after.clients[c].warned2
               && after.clients[c].groups == b.clients[c].groups && after.clients[c].tier == b.clients[c].tier
               && after.requests == b.requests && after.notices == b.notices
               && after.sessions.Keys < b.sessions.Keys
               && (forall z | z in after.sessions :: after.sessions[z] == b.sessions[z])
               && (forall z | z in after.sessions :: after.sessions[z].payment != Some(p))
  {
    var owners := SessionsOf(b, s.checkout);
    var f := First(owners, s.rank);
    assert IsFirst(owners, s.rank, f);
    assert SessionBound(b, b.sessions[f]);
  }

  /** Only a confirmation renews: any other callback leaves every client's status, renewal date and
      overdue marks as they were. */
  lemma OnlyConfirmationsRenew(b: Bill, t: int, s: Step, c: int)
    requires Inv(b, t) && s.Callback? && Confirms(b, s).None? && c in b.clients
    ensures var after := Apply(b, s);
            c in after.clients
            && after.clients[c] == b.clients[c].(groups := after.clients[c].groups, tier := after.clients[c].tier)
            && forall p | p in b.payments && after.payments[p] != b.payments[p] :: after.payments[p].status == NotPaid
  {
    hide WithGroup, GroupsOf, OneLive, CheckoutsApart;
    CallbackKeeps(b, t, s);
    var owners := SessionsOf(b, s.checkout);
    if s.checkout != "" && owners.Keys != {} {
      var f := First(owners, s.rank);
      assert IsFirst(owners, s.rank, f);
      assert SessionBound(b, b.sessions[f]);
    }
  }

  // The payments confirmed in a run, in order.
  ghost function AllConfirmed(b: Bill, steps: seq<Step>): seq<int> {
    if steps == [] then []
    else
      var before := steps[..|steps| - 1];
      var p := Confirms(Run(b, before), steps[|steps| - 1]);
      AllConfirmed(b, before) + (if p.Some? then [p.value] else [])
  }

  /** No payment is confirmed twice in any run, and every confirmed payment stays paid. */
  lemma {:induction false} ConfirmedAtMostOnce(b: Bill, t: int, steps: seq<Step>)
    requires Inv(b, t) && AllowedRun(b, t, steps)
    ensures forall i, k | 0 <= i < k < |AllConfirmed(b, steps)| :: AllConfirmed(b, steps)[i] != AllConfirmed(b, steps)[k]
    ensures forall p | p in AllConfirmed(b, steps) ::
              p in Run(b, steps).payments && Run(b, steps).payments[p].status == Paid
  {
    hide Apply, Allowed, Inv, Confirms;
    if steps != [] {
      var before, last := steps[..|steps| - 1], steps[|steps| - 1];
      ConfirmedAtMostOnce(b, t, before);
      PaymentsStayBound(b, t, before);
      StepKeeps(Run(b, before), Clock(t, before), last);
      if Confirms(Run(b, before), last).Some? {
        ConfirmationRenews(Run(b, before), Clock(t, before), last);
      }
    }
  }

  // ---- Repeated and late callbacks ----

  lemma UnusedCallback(b: Bill, checkout: string, paid: bool, receipt: Option<string>, today: int, rank: map<int, int>)
    requires Unused(b, checkout)
    ensures MpesaCallback(b, checkout, paid, receipt, today, rank) == b
  {
    NoKeys(SessionsOf(b, checkout));
    NoKeys(RequestsOf(b, checkout));
  }

  // No conversation waits for the checkout; upgrade requests for it, if there may be any, are not pending.
  ghost predicate Quiet(b: Bill, checkout: string, answered: bool) {
    && (forall s | s in b.sessions :: b.sessions[s].checkout != Some(checkout))
    && (forall r | r in b.requests && b.requests[r].checkout == Some(checkout) ::
          answered && b.requests[r].status != Pending)
  }

  lemma UnusedIsQuiet(b: Bill, checkout: string)
    ensures Unused(b, checkout) <==> Quiet(b, checkout, false)
  {
  }

  // The checkout is not issued again in the run.
  ghost predicate NotReissued(steps: seq<Step>, checkout: string) {
    forall k | 0 <= k < |steps| :: Issued(steps[k]) != Some(checkout)
  }

  /** Whatever happens after the first callback for a checkout, short of the id being issued again, a second one changes
      nothing exactly when it reports success, or when no upgrade request that is not already failed is left for that
      checkout. A payment conversation is over after the first callback, so its repeats never matter. */
  lemma RepeatedCallback(b: Bill, t: int, first: Step, steps: seq<Step>, second: Step)
    requires Inv(b, t) && first.Callback? && second.Callback? && first.checkout == second.checkout
    requires AllowedRun(Apply(b, first), ClockAfter(t, first), steps) && NotReissued(steps, first.checkout)
    ensures var mid := Run(Apply(b, first), steps);
            && (Apply(mid, second) == mid
                <==> first.checkout == "" || second.paid
                     || forall r | r in RequestsOf(mid, first.checkout) :: mid.requests[r].status == Failed)
            && (SessionsOf(b, first.checkout).Keys != {} ==> Apply(mid, second) == mid)
  {
    hide Apply, Run, Inv, AllowedRun, Quiet;
    var checkout, after := first.checkout, Apply(b, first);
    if checkout == "" {
      NoCheckout(Run(after, steps), second);
    } else {
      QuietAfterFirst(b, t, first);
      StaysQuiet(after, steps, checkout, true);
      StepKeeps(b, t, first);
      PaymentsStayBound(after, ClockAfter(t, first), steps);
      LateUpgradeCallback(Run(after, steps), Clock(ClockAfter(t, first), steps), second);
      if SessionsOf(b, checkout).Keys != {} {
        StaysQuiet(after, steps, checkout, false);
        QuietCallback(Run(after, steps), second);
      }
    }
  }

  lemma NoCheckout(b: Bill, s: Step)
    requires s.Callback? && s.checkout == ""
    ensures Apply(b, s) == b
  {
  }

  lemma QuietCallback(b: Bill, s: Step)
    requires s.Callback? && Quiet(b, s.checkout, false)
    ensures Apply(b, s) == b
  {
    UnusedIsQuiet(b, s.checkout);
    UnusedCallback(b, s.checkout, s.paid, s.receipt, s.today, s.rank);
    hide Unused, MpesaCallback;
  }

  lemma QuietAfterFirst(b: Bill, t: int, s: Step)
    requires Inv(b, t) && s.Callback? && s.checkout != ""
    ensures Quiet(Apply(b, s), s.checkout, true)
    ensures SessionsOf(b, s.checkout).Keys != {} ==> Quiet(Apply(b, s), s.checkout, false)
  {
    hide Apply, Inv;
    FirstCallback(b, t, s);
    var after := Apply(b, s);
    forall r | r in after.requests && after.requests[r].checkout == Some(s.checkout)
      ensures after.requests[r].status != Pending && SessionsOf(b, s.checkout).Keys == {}
    {
      assert r in RequestsOf(after, s.checkout);
      AfterFirst(b, t, s, r);
    }
  }

  // After a first callback no conversation waits for the checkout.
  lemma FirstCallback(b: Bill, t: int, s: Step)
    requires Inv(b, t) && s.Callback? && s.checkout != ""
    ensures forall z | z in Apply(b, s).sessions :: Apply(b, s).sessions[z].checkout != Some(s.checkout)
    ensures SessionsOf(b, s.checkout).Keys != {} ==> RequestsOf(Apply(b, s), s.checkout).Keys == {}
  {
    var owners := SessionsOf(b, s.checkout);
    if owners.Keys != {} {
      var f := First(owners, s.rank);
      assert IsFirst(owners, s.rank, f);
      assert forall r | r in b.requests :: b.requests[r].checkout != b.sessions[f].checkout;
    } else {
      assert forall z | z in b.sessions :: z !in owners;
    }
  }

  // A callback for a checkout whose requests were all answered before.
  lemma LateUpgradeCallback(b: Bill, t: int, s: Step)
    requires Inv(b, t) && s.Callback? && s.checkout != "" && Quiet(b, s.checkout, true)
    ensures Apply(b, s) == b
            <==> s.paid || forall r | r in RequestsOf(b, s.checkout) :: b.requests[r].status == Failed
  {
    hide WithGroup, GroupsOf, SettleRenewal, First;
    NoKeys(SessionsOf(b, s.checkout));
    var waiting := RequestsOf(b, s.checkout);
    if waiting.Keys != {} {
      var r := First(waiting, s.rank);
      assert IsFirst(waiting, s.rank, r);
      assert forall q | q in waiting :: q == r;
      var after := SettleUpgrade(b, r, s.paid, s.receipt);
      assert Apply(b, s) == after;
      if !s.paid {
        assert after.requests[r].status == Failed;
        if b.requests[r].status == Failed {
          assert b.requests[r].(status := Failed) == b.requests[r];
          assert after.requests == b.requests;
        }
      }
    }
  }

  // A request that a callback for its checkout left in place is no longer pending.
  lemma AfterFirst(b: Bill, t: int, s: Step, r: int)
    requires Inv(b, t) && s.Callback? && s.checkout != ""
    requires r in RequestsOf(Apply(b, s), s.checkout)
    ensures Apply(b, s).requests[r].status != Pending
  {
    hide WithGroup, GroupsOf;
    var owners, waiting := SessionsOf(b, s.checkout), RequestsOf(b, s.checkout);
    if owners.Keys == {} {
      assert r in waiting;
      var f := First(waiting, s.rank);
      assert IsFirst(waiting, s.rank, f);
    } else {
      FirstCallback(b, t, s);
      assert false;
    }
  }

  /** Once nothing waits for a checkout, its callbacks are ignored for as long as M-Pesa does not issue
      it again, however late they come. */
  lemma LateCallbackIgnored(b: Bill, steps: seq<Step>, checkout: string, late: Step)
    requires Unused(b, checkout) && NotReissued(steps, checkout)
    requires late.Callback? && late.checkout == checkout
    ensures Unused(Run(b, steps), checkout)
    ensures Apply(Run(b, steps), late) == Run(b, steps)
  {
    hide Apply, Unused, Quiet, Run;
    UnusedIsQuiet(b, checkout);
    StaysQuiet(b, steps, checkout, false);
    UnusedIsQuiet(Run(b, steps), checkout);
    QuietCallback(Run(b, steps), late);
  }

  lemma {:induction false} StaysQuiet(b: Bill, steps: seq<Step>, checkout: string, answered: bool)
    requires Quiet(b, checkout, answered) && NotReissued(steps, checkout)
    ensures Quiet(Run(b, steps), checkout, answered)
  {
    hide Apply, Quiet;
    if steps != [] {
      var n := |steps| - 1;
      StaysQuiet(b, steps[..n], checkout, answered);
      StepQuiet(Run(b, steps[..n]), steps[n], checkout, answered);
    }
  }

  lemma PushQuiet(b: Bill, client: int, s: int, amount: real, now: int, today: int, stk: Stk, checkout: string,
                  answered: bool)
    requires s in b.sessions && Quiet(b, checkout, answered)
    requires stk.StkSent? ==> stk.checkout != Some(checkout)
    ensures Quiet(PushPayment(b, client, s, amount, now, today, stk), checkout, answered)
  {
  }

  lemma DropQuiet(b: Bill, s: int, checkout: string, answered: bool)
    requires Quiet(b, checkout, answered)
    ensures Quiet(DropSession(b, s), checkout, answered)
  {
  }

  lemma ConverseQuiet(b: Bill, client: int, s: int, text: string, now: int, today: int, stk: Stk, checkout: string,
                      answered: bool)
    requires client in b.clients && s in b.sessions && Quiet(b, checkout, answered)
    requires stk.StkSent? ==> stk.checkout != Some(checkout)
    ensures Quiet(Converse(b, client, s, text, now, today, stk), checkout, answered)
  {
    hide Lower, NormalizePhone, RenewalCharge, PushPayment, DropSession;
    DropQuiet(b, s, checkout, answered);
    var charge := RenewalCharge(b, b.clients[client]);
    if charge.Some? {
      PushQuiet(b, client, s, charge.value, now, today, stk, checkout, answered);
    }
  }

  lemma ReplyQuiet(b: Bill, client: int, text: string, now: int, today: int, stk: Stk, rank: map<int, int>,
                   checkout: string, answered: bool)
    requires client in b.clients && Quiet(b, checkout, answered)
    requires stk.StkSent? ==> stk.checkout != Some(checkout)
    ensures Quiet(Reply(b, client, text, now, today, stk, rank), checkout, answered)
  {
    hide Quiet, Converse, First, DropSession;
    var live, expired := LiveSessions(b, client, now), JustExpired(b, client, now);
    if live.Keys != {} {
      var f := First(live, rank);
      assert IsFirst(live, rank, f);
      ConverseQuiet(b, client, f, text, now, today, stk, checkout, answered);
    } else if expired.Keys != {} {
      DropQuiet(b, First(expired, rank), checkout, answered);
    }
  }

  lemma StepQuiet(b: Bill, s: Step, checkout: string, answered: bool)
    requires Quiet(b, checkout, answered) && Issued(s) != Some(checkout)
    ensures Quiet(Apply(b, s), checkout, answered)
  {
    hide Trim, Lower, Reply, NormalizePhone, NextTier, First, SelfAddGroup, AdminAddGroup, AdminRemoveGroup, AdminReset,
         CreateClient, UpdateClient, SetPrices, Reactivate, DailyCheck, MpesaCallback;
    if s.Message? && s.client in b.clients {
      ReplyQuiet(b, s.client, Trim(s.body, IsSpace), s.now, s.today, s.stk, s.rank, checkout, answered);
    } else if s.Callback? {
      CallbackQuiet(b, s, checkout, answered);
    } else if !s.Message? && !s.Upgrade? {
      OtherSteps(b, s);
    }
  }

  lemma SettleQuiet(b: Bill, s: int, paid: bool, receipt: Option<string>, today: int, checkout: string, answered: bool)
    requires Quiet(b, checkout, answered) && s in b.sessions
    ensures Quiet(SettleRenewal(b, s, paid, receipt, today), checkout, answered)
  {
  }

  lemma UpgradeQuiet(b: Bill, r: int, paid: bool, receipt: Option<string>, checkout: string, answered: bool)
    requires Quiet(b, checkout, answered) && r in b.requests
    ensures Quiet(SettleUpgrade(b, r, paid, receipt), checkout, answered)
  {
    hide WithGroup, GroupsOf;
  }

  lemma CallbackQuiet(b: Bill, s: Step, checkout: string, answered: bool)
    requires Quiet(b, checkout, answered) && s.Callback?
    ensures Quiet(Apply(b, s), checkout, answered)
  {
    hide Quiet, SettleRenewal, SettleUpgrade, First;
    var owners, requests := SessionsOf(b, s.checkout), RequestsOf(b, s.checkout);
    if owners.Keys != {} {
      var f := First(owners, s.rank);
      assert IsFirst(owners, s.rank, f);
      SettleQuiet(b, f, s.paid, s.receipt, s.today, checkout, answered);
    } else if requests.Keys != {} {
      var f := First(requests, s.rank);
      assert IsFirst(requests, s.rank, f);
      UpgradeQuiet(b, f, s.paid, s.receipt, checkout, answered);
    }
  }
}
