/** The billing database and what each message, callback, request and daily check does to it
    (billing/main.py, billing/scheduler.py, billing/models.py). Handlers are atomic steps.
    Instants are in seconds, dates in days. */
module BillingModel {
  import opened Text
  import opened Rows

  // ---- Tables ----

  datatype Tier = Tier(minGroups: int, maxGroups: Option<int>, amount: real)

  datatype Status = Active | Grace | BillingOnly | Closed

  datatype Client = Client(subdomain: string, status: Status, renewal: int, graceAt: Option<int>, suspendedAt: Option<int>,
                           lastWarning: Option<int>, warned14: bool, warned2: bool,
                           groups: Option<seq<string>>, tier: Option<int>)

  datatype SessionState = AwaitingPhone | AwaitingConfirm | AwaitingStk

  datatype Session = Session(client: int, state: SessionState, phone: Option<string>, checkout: Option<string>,
                             payment: Option<int>, expires: int)

  datatype PaymentStatus = Unpaid | Paid | NotPaid

  datatype Payment = Payment(client: int, phone: Option<string>, amount: real, status: PaymentStatus,
                             receipt: Option<string>, start: int, end: int)

  datatype RequestStatus = Pending | Confirmed | Failed | Cancelled

  datatype Request = Request(client: int, group: string, tier: int, amount: real, checkout: Option<string>,
                             receipt: Option<string>, status: RequestStatus)

  datatype NoticeKind = Renews14 | Renews2 | Expired | GraceReminder | Suspended | SuspendedReminder

  // A notice of the daily check, sent to the client's group.
  datatype Notice = Notice(client: int, kind: NoticeKind, at: int)

  datatype Bill = Bill(clients: map<int, Client>, sessions: map<int, Session>, payments: map<int, Payment>,
                       requests: map<int, Request>, tiers: map<int, Tier>, notices: seq<Notice>,
                       nextClient: int, nextSession: int, nextPayment: int, nextRequest: int, nextTier: int)

  const EMPTY_BILL := Bill(map[], map[], map[], map[], map[], [], 1, 1, 1, 1, 1)

  // What the M-Pesa push request answers.
  datatype Stk = StkError | StkSent(checkout: Option<string>)

  const MINUTE := 60
  const HOUR := 3600
  const DAY := 86400
  const PERIOD_DAYS := 30
  const GRACE_DAYS := 14
  const WARNING_HOURS := 48

  // ---- Tiers ----

  function TierOrder(tiers: map<int, Tier>): map<int, int> {
    map t | t in tiers :: tiers[t].minGroups
  }

  // The tier table with the three fixed tiers in it if it was empty.
  function SeedTiers(b: Bill): Bill {
    if b.tiers.Keys != {} then b
    else
      b.(tiers := map[b.nextTier := Tier(1, Some(5), 0.0), b.nextTier + 1 := Tier(6, Some(10), 0.0),
                      b.nextTier + 2 := Tier(11, None, 0.0)],
         nextTier := b.nextTier + 3)
  }

  lemma SeededTiers(b: Bill)
    ensures TierOrder(SeedTiers(b).tiers).Keys != {}
  {
    if b.tiers.Keys != {} {
      assert TierOrder(b.tiers).Keys == b.tiers.Keys;
    } else {
      assert b.nextTier in TierOrder(SeedTiers(b).tiers);
    }
  }

  function BaseTier(b: Bill, rank: map<int, int>): (t: int)
    ensures t in SeedTiers(b).tiers
  {
    SeededTiers(b);
    First(TierOrder(SeedTiers(b).tiers), rank)
  }

  function TiersAbove(b: Bill, limit: int): map<int, int> {
    map t | t in b.tiers && b.tiers[t].minGroups > limit :: b.tiers[t].minGroups
  }

  // The smallest tier that starts above `limit` groups.
  function NextTier(b: Bill, limit: int, rank: map<int, int>): (r: Option<int>)
    ensures r.Some? ==> r.value in b.tiers && b.tiers[r.value].minGroups > limit
  {
    var above := TiersAbove(b, limit);
    if above.Keys == {} then None else Some(First(above, rank))
  }

  // ---- Renewal payments ----

  function ToLower(c: char): char {
    if 'A' <= c <= 'Z' then c - 'A' + 'a' else c
  }

  function Lower(s: string): string {
    if s == [] then [] else [ToLower(s[0])] + Lower(s[1..])
  }

  function Digits(s: string): (d: string)
    ensures forall i | 0 <= i < |d| :: IsDigit(d[i])
  {
    if s == [] then [] else (if IsDigit(s[0]) then [s[0]] else []) + Digits(s[1..])
  }

  // A Kenyan mobile number in international form.
  function NormalizePhone(raw: string): (phone: Option<string>)
    ensures phone.Some? ==> |phone.value| == 12 && phone.value[..4] == "2547"
                            && forall i | 0 <= i < 12 :: IsDigit(phone.value[i])
  {
    var d := Digits(raw);
    if |d| == 10 && d[..2] == "07" then
      var p := "254" + d[1..];
      assert p[..4] == "254" + [d[..2][1]];
      Some(p)
    else if |d| == 12 && d[..4] == "2547" then Some(d)
    else None
  }

  function PeriodEnd(start: int): int { start + PERIOD_DAYS }

  // What the client pays for a period; None when it has no tier or the tier has no price.
  function RenewalCharge(b: Bill, c: Client): Option<real> {
    if c.tier.Some? && c.tier.value in b.tiers && b.tiers[c.tier.value].amount > 0.0
    then Some(b.tiers[c.tier.value].amount) else None
  }

  function LiveSessions(b: Bill, client: int, now: int): map<int, int> {
    map s | s in b.sessions && b.sessions[s].client == client && b.sessions[s].expires > now :: 0
  }

  function JustExpired(b: Bill, client: int, now: int): map<int, int> {
    map s | s in b.sessions && b.sessions[s].client == client && now - HOUR < b.sessions[s].expires <= now :: 0
  }

  function OpenSession(b: Bill, client: int, now: int): Bill {
    b.(sessions := b.sessions[b.nextSession := Session(client, AwaitingPhone, None, None, None, now + 5 * MINUTE)],
       nextSession := b.nextSession + 1)
  }

  function DropSession(b: Bill, s: int): Bill { b.(sessions := b.sessions - {s}) }

  // The client confirms: a payment is recorded and pushed to the phone.
  function PushPayment(b: Bill, client: int, s: int, amount: real, now: int, today: int, stk: Stk): Bill
    requires s in b.sessions
  {
    var row := Payment(client, b.sessions[s].phone, amount, Unpaid, None, today, PeriodEnd(today));
    var added := b.(payments := b.payments[b.nextPayment := row], nextPayment := b.nextPayment + 1);
    match stk
    case StkError =>
      DropSession(added.(payments := added.payments[b.nextPayment := row.(status := NotPaid)]), s)
    case StkSent(checkout) =>
      added.(sessions := added.sessions[s :=
        b.sessions[s].(state := AwaitingStk, checkout := checkout, payment := Some(b.nextPayment),
                       expires := now + 10 * MINUTE)])
  }

  // One turn of the payment conversation in session `s`.
  function Converse(b: Bill, client: int, s: int, text: string, now: int, today: int, stk: Stk): Bill
    requires client in b.clients && s in b.sessions
  {
    var charge := RenewalCharge(b, b.clients[client]);
    var reply := Lower(text);
    match b.sessions[s].state
    case AwaitingPhone =>
      var phone := NormalizePhone(text);
      if phone.None? then b
      else if charge.None? then DropSession(b, s)
      else
        b.(sessions := b.sessions[s :=
          b.sessions[s].(state := AwaitingConfirm, phone := phone, expires := now + 5 * MINUTE)])
    case AwaitingConfirm =>
      if reply == "no" || reply == "cancel" then DropSession(b, s)
      else if reply != "yes" && reply != "y" && reply != "ok" then b
      else if charge.None? then DropSession(b, s)
      else PushPayment(b, client, s, charge.value, now, today, stk)
    case AwaitingStk => b
  }

  function Close(b: Bill, client: int): Bill {
    if client !in b.clients then b
    else b.(clients := b.clients[client := b.clients[client].(status := Closed)])
  }

  // The payment command: a new conversation in place of the one under way.
  function StartPayment(b: Bill, client: int, now: int, rank: map<int, int>): Bill {
    var live := LiveSessions(b, client, now);
    OpenSession(if live.Keys == {} then b else DropSession(b, First(live, rank)), client, now)
  }

  // Any other text: a turn of the conversation under way, or the end of one that just expired.
  function Reply(b: Bill, client: int, text: string, now: int, today: int, stk: Stk, rank: map<int, int>): Bill
    requires client in b.clients
  {
    var live, expired := LiveSessions(b, client, now), JustExpired(b, client, now);
    if live.Keys != {} then Converse(b, client, First(live, rank), text, now, today, stk)
    else if expired.Keys != {} then DropSession(b, First(expired, rank))
    else b
  }

  function ClientMessage(b: Bill, client: int, body: string, fromMe: bool, now: int, today: int, stk: Stk,
                         rank: map<int, int>): Bill
  {
    var text := Trim(body, IsSpace);
    if fromMe || client !in b.clients then b
    else if Lower(text) == "/close" then Close(b, client)
    else if Lower(text) == "/statement" then b
    else if Lower(text) == "/payment" then StartPayment(b, client, now, rank)
    else Reply(b, client, text, now, today, stk, rank)
  }

  // ---- M-Pesa callbacks ----

  function SessionsOf(b: Bill, checkout: string): map<int, int> {
    map s | s in b.sessions && b.sessions[s].checkout == Some(checkout) :: 0
  }

  function RequestsOf(b: Bill, checkout: string): map<int, int> {
    map r | r in b.requests && b.requests[r].checkout == Some(checkout) :: 0
  }

  function Reactivated(c: Client): Client {
    c.(status := Active, graceAt := None, suspendedAt := None, lastWarning := None, warned14 := false, warned2 := false)
  }

  // The payment bound to a session, if it has one.
  function BoundPayment(b: Bill, s: int): Option<int>
    requires s in b.sessions
  {
    if b.sessions[s].payment.Some? && b.sessions[s].payment.value in b.payments then b.sessions[s].payment else None
  }

  function SettleRenewal(b: Bill, s: int, paid: bool, receipt: Option<string>, today: int): Bill
    requires s in b.sessions
  {
    var client := b.sessions[s].client;
    var p := BoundPayment(b, s);
    if client !in b.clients then DropSession(b, s)
    else if !paid then
      DropSession(if p.Some? then b.(payments := b.payments[p.value := b.payments[p.value].(status := NotPaid)]) else b, s)
    else
      var renewal := if p.Some? then b.payments[p.value].end else PeriodEnd(today);
      var settled := b.(clients := b.clients[client := Reactivated(b.clients[client]).(renewal := renewal)]);
      DropSession(
        if p.Some? then
          settled.(payments := b.payments[p.value := b.payments[p.value].(status := Paid, receipt := receipt)])
        else settled, s)
  }

  function WithGroup(groups: seq<string>, g: string): (r: seq<string>)
    ensures g in r && |groups| <= |r| <= |groups| + 1
  {
    if g in groups then groups else groups + [g]
  }

  function GroupsOf(c: Client): seq<string> {
    if c.groups.Some? then c.groups.value else []
  }

  // A paid upgrade adds the group and moves the client to the tier, unless it is no longer pending.
  function SettleUpgrade(b: Bill, r: int, paid: bool, receipt: Option<string>): Bill
    requires r in b.requests
  {
    var q := b.requests[r];
    if !paid then b.(requests := b.requests[r := q.(status := Failed)])
    else if q.status != Pending then b
    else if q.client !in b.clients then b.(requests := b.requests - {r})
    else
      var c := b.clients[q.client];
      b.(clients := b.clients[q.client := c.(groups := Some(WithGroup(GroupsOf(c), q.group)), tier := Some(q.tier))],
         requests := b.requests[r := q.(status := Confirmed, receipt := receipt)])
  }

  function MpesaCallback(b: Bill, checkout: string, paid: bool, receipt: Option<string>, today: int,
                         rank: map<int, int>): Bill
  {
    if checkout == "" then b
    else if SessionsOf(b, checkout).Keys != {} then
      SettleRenewal(b, First(SessionsOf(b, checkout), rank), paid, receipt, today)
    else if RequestsOf(b, checkout).Keys != {} then
      SettleUpgrade(b, First(RequestsOf(b, checkout), rank), paid, receipt)
    else b
  }

  // ---- Ticket groups ----

  function SetClient(b: Bill, client: int, c: Client): Bill { b.(clients := b.clients[client := c]) }

  // The client with the base tier if it had none.
  function WithTier(b: Bill, client: int, rank: map<int, int>): Bill
    requires client in b.clients
  {
    if b.clients[client].tier.Some? then b
    else SetClient(SeedTiers(b), client, b.clients[client].(tier := Some(BaseTier(b, rank))))
  }

  function AdminAddGroup(b: Bill, client: int, group: string, rank: map<int, int>): Bill {
    var g := Trim(group, IsSpace);
    if client !in b.clients || g == "" then b
    else
      var b1 := WithTier(b, client, rank);
      var c := b1.clients[client];
      SetClient(b1, client, c.(groups := Some(WithGroup(GroupsOf(c), g))))
  }

  function Without(groups: seq<string>, g: string): (r: seq<string>)
    ensures |r| <= |groups| && g !in r
  {
    if groups == [] then [] else (if groups[0] == g then [] else [groups[0]]) + Without(groups[1..], g)
  }

  function AdminRemoveGroup(b: Bill, client: int, group: string): Bill {
    if client !in b.clients || b.clients[client].groups.None? then b
    else
      var c := b.clients[client];
      SetClient(b, client, c.(groups := Some(Without(c.groups.value, Trim(group, IsSpace)))))
  }

  // Lifts the restriction and cancels the upgrades under way.
  function AdminReset(b: Bill, client: int): Bill {
    if client !in b.clients then b
    else
      SetClient(b, client, b.clients[client].(groups := None, tier := None)).(
        requests := map r | r in b.requests ::
          if b.requests[r].client == client && b.requests[r].status == Pending
          then b.requests[r].(status := Cancelled) else b.requests[r])
  }

  function TierLimit(b: Bill, c: Client): Option<int> {
    if c.tier.Some? && c.tier.value in b.tiers then b.tiers[c.tier.value].maxGroups else None
  }

  datatype AddReply = NotFound | NotEnabled | Bad | AlreadyThere | LimitReached | Done

  function SelfAddGroup(b: Bill, client: int, group: string, rank: map<int, int>): (Bill, AddReply) {
    var g := Trim(group, IsSpace);
    if client !in b.clients then (b, NotFound)
    else if g == "" then (b, Bad)
    else if b.clients[client].groups.None? then (b, NotEnabled)
    else if g in b.clients[client].groups.value then (b, AlreadyThere)
    else
      var b1 := WithTier(b, client, rank);
      var c := b1.clients[client];
      var limit := TierLimit(b1, c);
      if limit.Some? && |c.groups.value| + 1 > limit.value then (b1, LimitReached)
      else (SetClient(b1, client, c.(groups := Some(c.groups.value + [g]))), Done)
  }

  function PendingOf(b: Bill, client: int): map<int, int> {
    map r | r in b.requests && b.requests[r].client == client && b.requests[r].status == Pending :: 0
  }

  function SelfUpgrade(b: Bill, client: int, group: string, phone: string, stk: Stk, rank: map<int, int>): Bill {
    var g := Trim(group, IsSpace);
    if client !in b.clients || g == "" || NormalizePhone(phone).None? then b
    else
      var c := b.clients[client];
      if c.groups.None? || PendingOf(b, client).Keys != {} then b
      else
        var known := c.tier.Some? && c.tier.value in b.tiers;
        if known && b.tiers[c.tier.value].maxGroups.None? then b
        else
          var limit := if known then b.tiers[c.tier.value].maxGroups.value else 0;
          var next := NextTier(b, limit, rank);
          if next.None? || b.tiers[next.value].amount <= 0.0 then b
          else
            var row := Request(client, g, next.value, b.tiers[next.value].amount,
                               if stk.StkSent? then stk.checkout else None, None,
                               if stk.StkSent? then Pending else Failed);
            b.(requests := b.requests[b.nextRequest := row], nextRequest := b.nextRequest + 1)
  }

  // ---- Administration ----

  predicate SubdomainTaken(b: Bill, subdomain: string) {
    exists c | c in b.clients :: b.clients[c].subdomain == subdomain
  }

  // Refused, after the tiers were looked up, when the subdomain is taken.
  function CreateClient(b: Bill, subdomain: string, chosen: Option<int>, today: int, rank: map<int, int>): Bill {
    var b1, name := SeedTiers(b), Trim(Lower(subdomain), IsSpace);
    var tier := if chosen.Some? && chosen.value in b1.tiers then chosen.value else BaseTier(b, rank);
    if SubdomainTaken(b1, name) then b1
    else
      b1.(clients := b1.clients[b1.nextClient :=
            Client(name, Active, today + PERIOD_DAYS, None, None, None, false, false, None, Some(tier))],
          nextClient := b1.nextClient + 1)
  }

  function UpdateClient(b: Bill, client: int, renewal: Option<int>, tier: Option<int>): Bill {
    if client !in b.clients then b
    else
      var c := b.clients[client];
      SetClient(b, client,
        c.(renewal := if renewal.Some? then renewal.value else c.renewal,
           tier := if tier.Some? && tier.value in b.tiers then tier else c.tier))
  }

  function PriceTiers(tiers: map<int, Tier>, ids: seq<int>, amounts: seq<real>): (r: map<int, Tier>)
    requires forall k | 0 <= k < |ids| :: ids[k] in tiers
    ensures r.Keys == tiers.Keys
    ensures forall t | t in tiers :: r[t].minGroups == tiers[t].minGroups && r[t].maxGroups == tiers[t].maxGroups
  {
    if ids == [] || amounts == [] then tiers
    else PriceTiers(tiers[ids[0] := tiers[ids[0]].(amount := amounts[0])], ids[1..], amounts[1..])
  }

  // Three positive prices that do not fall from tier to tier.
  function SetPrices(b: Bill, a1: real, a2: real, a3: real, rank: map<int, int>): Bill {
    var b1 := SeedTiers(b);
    if !(0.0 < a1 <= a2 <= a3) then b1
    else
      var ids := Query(TierOrder(b1.tiers), rank);
      assert forall k | 0 <= k < |ids| :: ids[k] in TierOrder(b1.tiers);
      b1.(tiers := PriceTiers(b1.tiers, ids, [a1, a2, a3]))
  }

  function Reactivate(b: Bill, client: int): Bill {
    if client !in b.clients then b else SetClient(b, client, Reactivated(b.clients[client]))
  }

  // ---- The daily check ----

  datatype Checked = Checked(client: Client, notice: Option<NoticeKind>)

  predicate Due(last: Option<int>, now: int) {
    last.None? || now - last.value >= WARNING_HOURS * HOUR
  }

  function CheckClient(c: Client, now: int, today: int): Checked {
    match c.status
    case Active =>
      if today > c.renewal then
        Checked(c.(status := Grace, graceAt := Some(now), lastWarning := Some(now)), Some(Expired))
      else if c.renewal - today == 14 && !c.warned14 then Checked(c.(warned14 := true), Some(Renews14))
      else if c.renewal - today == 2 && !c.warned2 then Checked(c.(warned2 := true), Some(Renews2))
      else Checked(c, None)
    case Grace =>
      if c.graceAt.None? then Checked(c, None)
      else if now - c.graceAt.value >= GRACE_DAYS * DAY then
        Checked(c.(status := BillingOnly, suspendedAt := Some(now), lastWarning := Some(now)), Some(Suspended))
      else if Due(c.lastWarning, now) then Checked(c.(lastWarning := Some(now)), Some(GraceReminder))
      else Checked(c, None)
    case BillingOnly =>
      if Due(c.lastWarning, now) then Checked(c.(lastWarning := Some(now)), Some(SuspendedReminder))
      else Checked(c, None)
    case Closed => Checked(c, None)
  }

  function CheckOne(b: Bill, client: int, now: int, today: int): Bill
    requires client in b.clients
  {
    var r := CheckClient(b.clients[client], now, today);
    b.(clients := b.clients[client := r.client],
       notices := b.notices + (if r.notice.Some? then [Notice(client, r.notice.value, now)] else []))
  }

  function OpenClients(b: Bill): map<int, int> {
    map c | c in b.clients && b.clients[c].status != Closed :: 0
  }

  function CheckAll(b: Bill, ids: seq<int>, now: int, today: int): (r: Bill)
    requires forall k | 0 <= k < |ids| :: ids[k] in b.clients
    ensures r.clients.Keys == b.clients.Keys
  {
    if ids == [] then b
    else
      var n := |ids| - 1;
      CheckOne(CheckAll(b, ids[..n], now, today), ids[n], now, today)
  }

  function DailyCheck(b: Bill, now: int, today: int, rank: map<int, int>): Bill {
    var ids := Query(OpenClients(b), rank);
    assert forall k | 0 <= k < |ids| :: ids[k] in OpenClients(b);
    CheckAll(b, ids, now, today)
  }

  // ---- Runs ----

  datatype Step =
    | Message(client: int, body: string, fromMe: bool, now: int, today: int, stk: Stk, rank: map<int, int>)
    | Callback(checkout: string, paid: bool, receipt: Option<string>, today: int, rank: map<int, int>)
    | AddGroup(client: int, group: string, rank: map<int, int>)
    | Upgrade(client: int, group: string, phone: string, stk: Stk, rank: map<int, int>)
    | AdminAdd(client: int, group: string, rank: map<int, int>)
    | AdminRemove(client: int, group: string)
    | ResetGroups(client: int)
    | NewClient(subdomain: string, chosen: Option<int>, today: int, rank: map<int, int>)
    | EditClient(client: int, renewal: Option<int>, tier: Option<int>)
    | Prices(a1: real, a2: real, a3: real, rank: map<int, int>)
    | ManualReactivate(client: int)
    | CloseClient(client: int)
    | Check(now: int, today: int, rank: map<int, int>)

  function Apply(b: Bill, s: Step): Bill {
    match s
    case Message(client, body, fromMe, now, today, stk, rank) => ClientMessage(b, client, body, fromMe, now, today, stk, rank)
    case Callback(checkout, paid, receipt, today, rank) => MpesaCallback(b, checkout, paid, receipt, today, rank)
    case AddGroup(client, group, rank) => SelfAddGroup(b, client, group, rank).0
    case Upgrade(client, group, phone, stk, rank) => SelfUpgrade(b, client, group, phone, stk, rank)
    case AdminAdd(client, group, rank) => AdminAddGroup(b, client, group, rank)
    case AdminRemove(client, group) => AdminRemoveGroup(b, client, group)
    case ResetGroups(client) => AdminReset(b, client)
    case NewClient(subdomain, chosen, today, rank) => CreateClient(b, subdomain, chosen, today, rank)
    case EditClient(client, renewal, tier) => UpdateClient(b, client, renewal, tier)
    case Prices(a1, a2, a3, rank) => SetPrices(b, a1, a2, a3, rank)
    case ManualReactivate(client) => Reactivate(b, client)
    case CloseClient(client) => Close(b, client)
    case Check(now, today, rank) => DailyCheck(b, now, today, rank)
  }

  function Run(b: Bill, steps: seq<Step>): Bill {
    if steps == [] then b else Apply(Run(b, steps[..|steps| - 1]), steps[|steps| - 1])
  }
}
