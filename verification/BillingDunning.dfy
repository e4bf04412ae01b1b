/** The overdue timeline: what a client's status says about its marks, and in which order and at which
    distance the notices of an overdue episode are sent (billing/scheduler.py:17-97,
    billing/main.py:592-594, 832-838, 1097-1103, 1118). */
module BillingDunning {
  import opened Text
  import opened Rows
  import opened BillingModel

  // ---- The record of notices ----

  ghost predicate Overdue(n: Notice) { n.kind != Renews14 && n.kind != Renews2 }

  ghost function LastOverdue(notices: seq<Notice>, client: int): (r: Option<Notice>)
    ensures r.Some? ==> r.value in notices && r.value.client == client && Overdue(r.value)
  {
    if notices == [] then None
    else
      var n := notices[|notices| - 1];
      if n.client == client && Overdue(n) then Some(n) else LastOverdue(notices[..|notices| - 1], client)
  }

  // The notice that opened the latest overdue episode.
  ghost function LastExpired(notices: seq<Notice>, client: int): (r: Option<Notice>)
    ensures r.Some? ==> r.value in notices && r.value.client == client && r.value.kind == Expired
  {
    if notices == [] then None
    else
      var n := notices[|notices| - 1];
      if n.client == client && n.kind == Expired then Some(n) else LastExpired(notices[..|notices| - 1], client)
  }

  ghost predicate InGrace(n: Option<Notice>) { n.Some? && (n.value.kind == Expired || n.value.kind == GraceReminder) }

  ghost predicate InSuspension(n: Option<Notice>) {
    n.Some? && (n.value.kind == Suspended || n.value.kind == SuspendedReminder)
  }

  // The last notice of `notices` follows the earlier ones as the timeline wants.
  ghost predicate InOrder(notices: seq<Notice>)
    requires notices != []
  {
    var n, earlier := notices[|notices| - 1], notices[..|notices| - 1];
    var previous, opened_ := LastOverdue(earlier, n.client), LastExpired(earlier, n.client);
    match n.kind
    case GraceReminder =>
      InGrace(previous) && n.at - previous.value.at >= WARNING_HOURS * HOUR
      && opened_.Some? && n.at - opened_.value.at < GRACE_DAYS * DAY
    case Suspended => InGrace(previous) && opened_.Some? && n.at - opened_.value.at >= GRACE_DAYS * DAY
    case SuspendedReminder => InSuspension(previous) && n.at - previous.value.at >= WARNING_HOURS * HOUR
    case _ => true
  }

  ghost predicate Timeline(notices: seq<Notice>) {
    forall k | 0 < k <= |notices| :: InOrder(notices[..k])
  }

  // ---- What a client's status says ----

  ghost predicate Marked(c: Client, notices: seq<Notice>, client: int) {
    var last, opened_ := LastOverdue(notices, client), LastExpired(notices, client);
    match c.status
    case Active => c.graceAt.None? && c.suspendedAt.None? && c.lastWarning.None?
    case Grace =>
      c.graceAt.Some? && c.suspendedAt.None? && c.lastWarning.Some?
      && InGrace(last) && last.value.at == c.lastWarning.value
      && opened_.Some? && opened_.value.at == c.graceAt.value
    case BillingOnly =>
      c.graceAt.Some? && c.suspendedAt.Some? && c.lastWarning.Some?
      && c.suspendedAt.value - c.graceAt.value >= GRACE_DAYS * DAY
      && InSuspension(last) && last.value.at == c.lastWarning.value
    case Closed => true
  }

  ghost predicate Dunned(b: Bill) {
    Timeline(b.notices) && forall c | c in b.clients :: Marked(b.clients[c], b.notices, c)
  }

  // ---- Steps other than the daily check ----

  ghost predicate SameMarks(c: Client, d: Client) {
    c.status == d.status && c.graceAt == d.graceAt && c.suspendedAt == d.suspendedAt && c.lastWarning == d.lastWarning
  }

  ghost predicate Settles(c: Client) {
    c.status == Closed || (c.status == Active && c.graceAt.None? && c.suspendedAt.None? && c.lastWarning.None?)
  }

  // No notice is sent; each account keeps its marks, is closed, or is active with the marks cleared.
  ghost predicate Calm(b: Bill, after: Bill) {
    && after.notices == b.notices
    && (forall c | c in after.clients ::
          (c in b.clients && SameMarks(b.clients[c], after.clients[c])) || Settles(after.clients[c]))
  }

  lemma CalmKeeps(b: Bill, after: Bill)
    requires Dunned(b) && Calm(b, after)
    ensures Dunned(after)
  {
    hide Timeline, InGrace, InSuspension, LastOverdue, LastExpired;
  }

  lemma ConverseCalm(b: Bill, client: int, s: int, text: string, now: int, today: int, stk: Stk)
    requires client in b.clients && s in b.sessions
    ensures Calm(b, Converse(b, client, s, text, now, today, stk))
  {
    hide Lower, NormalizePhone, RenewalCharge;
  }

  lemma ReplyCalm(b: Bill, client: int, text: string, now: int, today: int, stk: Stk, rank: map<int, int>)
    requires client in b.clients
    ensures Calm(b, Reply(b, client, text, now, today, stk, rank))
  {
    hide Converse, First;
    var live := LiveSessions(b, client, now);
    if live.Keys != {} {
      var f := First(live, rank);
      assert IsFirst(live, rank, f);
      ConverseCalm(b, client, f, text, now, today, stk);
    }
  }

  lemma MessageCalm(b: Bill, s: Step)
    requires s.Message?
    ensures Calm(b, Apply(b, s))
  {
    hide Trim, Lower, Reply, First;
    if s.client in b.clients {
      ReplyCalm(b, s.client, Trim(s.body, IsSpace), s.now, s.today, s.stk, s.rank);
    }
  }

  lemma SettleCalm(b: Bill, s: int, paid: bool, receipt: Option<string>, today: int)
    requires s in b.sessions
    ensures Calm(b, SettleRenewal(b, s, paid, receipt, today))
  {
  }

  lemma SettleUpgradeCalm(b: Bill, r: int, paid: bool, receipt: Option<string>)
    requires r in b.requests
    ensures Calm(b, SettleUpgrade(b, r, paid, receipt))
  {
    hide WithGroup, GroupsOf;
  }

  lemma CallbackCalm(b: Bill, s: Step)
    requires s.Callback?
    ensures Calm(b, Apply(b, s))
  {
    hide SettleRenewal, SettleUpgrade, First;
    var owners, requests := SessionsOf(b, s.checkout), RequestsOf(b, s.checkout);
    if owners.Keys != {} {
      var f := First(owners, s.rank);
      assert IsFirst(owners, s.rank, f);
      SettleCalm(b, f, s.paid, s.receipt, s.today);
    } else if requests.Keys != {} {
      var f := First(requests, s.rank);
      assert IsFirst(requests, s.rank, f);
      SettleUpgradeCalm(b, f, s.paid, s.receipt);
    }
  }

  lemma WithTierCalm(b: Bill, client: int, rank: map<int, int>)
    requires client in b.clients
    ensures Calm(b, WithTier(b, client, rank)) && client in WithTier(b, client, rank).clients
  {
    hide BaseTier;
  }

  lemma GroupsCalm(b: Bill, s: Step)
    requires s.AddGroup? || s.AdminAdd? || s.AdminRemove? || s.Upgrade?
    ensures Calm(b, Apply(b, s))
  {
    hide Trim, WithTier, WithGroup, GroupsOf, Without, TierLimit, NormalizePhone, NextTier, First;
    if (s.AddGroup? || s.AdminAdd?) && s.client in b.clients {
      WithTierCalm(b, s.client, s.rank);
    }
  }

  lemma AccountCalm(b: Bill, s: Step)
    requires s.ResetGroups? || s.EditClient? || s.ManualReactivate? || s.CloseClient?
    ensures Calm(b, Apply(b, s))
  {
  }

  lemma SeedCalm(b: Bill)
    ensures SeedTiers(b).clients == b.clients && SeedTiers(b).notices == b.notices
  {
  }

  lemma AdminCalm(b: Bill, s: Step)
    requires s.ResetGroups? || s.NewClient? || s.EditClient? || s.Prices? || s.ManualReactivate? || s.CloseClient?
    ensures Calm(b, Apply(b, s))
  {
    hide BaseTier, Query, PriceTiers, SeedTiers, AdminReset, UpdateClient, Reactivate, Close;
    if s.NewClient? || s.Prices? {
      SeedCalm(b);
    } else {
      AccountCalm(b, s);
    }
  }

  // ---- The daily check ----

  lemma OneMore(notices: seq<Notice>, n: Notice, client: int)
    ensures LastOverdue(notices + [n], client)
            == if n.client == client && Overdue(n) then Some(n) else LastOverdue(notices, client)
    ensures LastExpired(notices + [n], client)
            == if n.client == client && n.kind == Expired then Some(n) else LastExpired(notices, client)
  {
    assert (notices + [n])[..|notices|] == notices;
  }

  lemma OneMoreInOrder(notices: seq<Notice>, n: Notice)
    requires Timeline(notices) && InOrder(notices + [n])
    ensures Timeline(notices + [n])
  {
    hide InOrder;
    var all := notices + [n];
    assert all[..|all|] == all;
    forall k | 0 < k <= |all|
      ensures InOrder(all[..k])
    {
      if k <= |notices| {
        assert all[..k] == notices[..k];
      }
    }
  }

  lemma CheckedMarks(c: Client, notices: seq<Notice>, client: int, now: int, today: int)
    requires Marked(c, notices, client)
    ensures var r := CheckClient(c, now, today);
            match r.notice
            case None => r.client == c
            case Some(kind) =>
              InOrder(notices + [Notice(client, kind, now)]) && Marked(r.client, notices + [Notice(client, kind, now)], client)
  {
    hide LastOverdue, LastExpired;
    var r := CheckClient(c, now, today);
    if r.notice.Some? {
      var n := Notice(client, r.notice.value, now);
      OneMore(notices, n, client);
      assert (notices + [n])[..|notices|] == notices;
    }
  }

  lemma OthersMarked(c: Client, notices: seq<Notice>, n: Notice, client: int)
    requires Marked(c, notices, client) && n.client != client
    ensures Marked(c, notices + [n], client)
  {
    hide LastOverdue, LastExpired;
    OneMore(notices, n, client);
  }

  lemma CheckOneKeeps(b: Bill, client: int, now: int, today: int)
    requires Dunned(b) && client in b.clients
    ensures Dunned(CheckOne(b, client, now, today))
  {
    hide Timeline, InOrder, Marked, CheckClient;
    var c := b.clients[client];
    var r := CheckClient(c, now, today);
    CheckedMarks(c, b.notices, client, now, today);
    if r.notice.Some? {
      var n := Notice(client, r.notice.value, now);
      OneMoreInOrder(b.notices, n);
      forall d | d in b.clients && d != client
        ensures Marked(b.clients[d], b.notices + [n], d)
      {
        OthersMarked(b.clients[d], b.notices, n, d);
      }
    } else {
      assert b.notices + [] == b.notices;
    }
  }

  lemma {:induction false} CheckAllKeeps(b: Bill, ids: seq<int>, now: int, today: int)
    requires Dunned(b) && forall k | 0 <= k < |ids| :: ids[k] in b.clients
    ensures Dunned(CheckAll(b, ids, now, today))
  {
    hide Dunned, CheckOne;
    if ids != [] {
      CheckAllKeeps(b, ids[..|ids| - 1], now, today);
      CheckOneKeeps(CheckAll(b, ids[..|ids| - 1], now, today), ids[|ids| - 1], now, today);
    }
  }

  lemma OpenIds(b: Bill, rank: map<int, int>)
    ensures var ids := Query(OpenClients(b), rank);
            && (forall k | 0 <= k < |ids| :: ids[k] in b.clients)
            && (forall c | c in b.clients && b.clients[c].status != Closed :: c in ids)
            && (forall i, k | 0 <= i < k < |ids| :: ids[i] != ids[k])
  {
    var ids := Query(OpenClients(b), rank);
    assert forall k | 0 <= k < |ids| :: ids[k] in OpenClients(b);
    assert forall c | c in b.clients && b.clients[c].status != Closed :: c in OpenClients(b);
  }

  lemma StepDunned(b: Bill, s: Step)
    requires Dunned(b)
    ensures Dunned(Apply(b, s))
  {
    hide Dunned, Calm, ClientMessage, MpesaCallback, SelfAddGroup, SelfUpgrade, AdminAddGroup, AdminRemoveGroup, AdminReset,
         CreateClient, UpdateClient, SetPrices, Reactivate, Close, CheckAll;
    if s.Check? {
      OpenIds(b, s.rank);
      CheckAllKeeps(b, Query(OpenClients(b), s.rank), s.now, s.today);
    } else {
      if s.Message? {
        MessageCalm(b, s);
      } else if s.Callback? {
        CallbackCalm(b, s);
      } else if s.AddGroup? || s.AdminAdd? || s.AdminRemove? || s.Upgrade? {
        GroupsCalm(b, s);
      } else {
        AdminCalm(b, s);
      }
      CalmKeeps(b, Apply(b, s));
    }
  }

  /** In every run: an active account has no overdue marks; an account in grace knows when grace began,
      which is when its expiry notice was sent; an account is suspended at least 14 days after that; and
      the record of notices is in order. So an episode's notices are an expiry, reminders, a suspension
      and more reminders, and each reminder comes at least 48 hours after the notice before it. */
  lemma {:induction false} TimelineHolds(b: Bill, steps: seq<Step>)
    requires Dunned(b)
    ensures Dunned(Run(b, steps))
  {
    hide Apply, Dunned;
    if steps != [] {
      TimelineHolds(b, steps[..|steps| - 1]);
      StepDunned(Run(b, steps[..|steps| - 1]), steps[|steps| - 1]);
    }
  }

  lemma EmptyBillDunned()
    ensures Dunned(EMPTY_BILL)
  {
  }

  lemma DunnedOf(b: Bill, client: int)
    requires Dunned(b) && client in b.clients
    ensures Marked(b.clients[client], b.notices, client)
  {
  }

  // ---- A check leaves nobody behind ----

  ghost predicate UpToDate(c: Client, now: int, today: int) {
    match c.status
    case Active => c.renewal >= today
    case Grace =>
      c.graceAt.Some? && now - c.graceAt.value < GRACE_DAYS * DAY
      && c.lastWarning.Some? && now - c.lastWarning.value < WARNING_HOURS * HOUR
    case BillingOnly => c.lastWarning.Some? && now - c.lastWarning.value < WARNING_HOURS * HOUR
    case Closed => true
  }

  lemma CheckedIsUpToDate(c: Client, notices: seq<Notice>, client: int, now: int, today: int)
    requires Marked(c, notices, client)
    ensures UpToDate(CheckClient(c, now, today).client, now, today)
  {
  }

  lemma {:induction false} CheckAllUpToDate(b: Bill, ids: seq<int>, now: int, today: int)
    requires Dunned(b) && forall k | 0 <= k < |ids| :: ids[k] in b.clients
    requires forall i, k | 0 <= i < k < |ids| :: ids[i] != ids[k]
    ensures forall c | c in b.clients ::
              if c in ids then UpToDate(CheckAll(b, ids, now, today).clients[c], now, today)
              else CheckAll(b, ids, now, today).clients[c] == b.clients[c]
  {
    hide UpToDate, CheckClient, Timeline, Marked;
    if ids != [] {
      var n := |ids| - 1;
      CheckAllUpToDate(b, ids[..n], now, today);
      var before := CheckAll(b, ids[..n], now, today);
      CheckAllKeeps(b, ids[..n], now, today);
      CheckedIsUpToDate(before.clients[ids[n]], before.notices, ids[n], now, today);
      assert ids == ids[..n] + [ids[n]];
    }
  }

  /** After a daily check no account past its renewal date is active, no account is in grace for 14 days
      or more, and every overdue account has been warned within the last 48 hours. */
  lemma CheckIsThorough(b: Bill, now: int, today: int, rank: map<int, int>)
    requires Dunned(b)
    ensures var after := DailyCheck(b, now, today, rank);
            after.clients.Keys == b.clients.Keys
            && forall c | c in after.clients :: UpToDate(after.clients[c], now, today)
  {
    hide Dunned, CheckAll;
    OpenIds(b, rank);
    var ids := Query(OpenClients(b), rank);
    CheckAllUpToDate(b, ids, now, today);
  }
}
