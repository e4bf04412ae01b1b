/** A run in which a callback that reports failure overwrites an upgrade that was already confirmed
    (billing/main.py:788-817). */
module BillingOverwrite {
  import opened Text
  import opened Rows
  import opened BillingModel
  import opened BillingPayments

  const NO_RANK: map<int, int> := map[]

  function Tiers(a1: real, a2: real, a3: real): map<int, Tier> {
    map[1 := Tier(1, Some(5), a1), 2 := Tier(6, Some(10), a2), 3 := Tier(11, None, a3)]
  }

  function NewcomerIn(groups: Option<seq<string>>, tier: int): Client {
    Client("s", Active, 30, None, None, None, false, false, groups, Some(tier))
  }

  // One client, registered on the lowest tier, and no conversations.
  function Books(tiers: map<int, Tier>, client: Client, requests: map<int, Request>, next: int): Bill {
    Bill(map[1 := client], map[], map[], requests, tiers, [], 2, 1, 1, next, 4)
  }

  function Asked(status: RequestStatus): map<int, Request> {
    map[1 := Request(1, "h", 2, 2.0, Some("c"), None, status)]
  }

  const REGISTERED := Books(Tiers(0.0, 0.0, 0.0), NewcomerIn(None, 1), map[], 1)
  const PRICED := Books(Tiers(1.0, 2.0, 3.0), NewcomerIn(None, 1), map[], 1)
  const RESTRICTED := Books(Tiers(1.0, 2.0, 3.0), NewcomerIn(Some(["g"]), 1), map[], 1)
  const WAITING := Books(Tiers(1.0, 2.0, 3.0), NewcomerIn(Some(["g"]), 1), Asked(Pending), 2)
  const GRANTED := Books(Tiers(1.0, 2.0, 3.0), NewcomerIn(Some(["g", "h"]), 2), Asked(Confirmed), 2)

  const REGISTER := NewClient("s", None, 0, NO_RANK)
  const PRICE := Prices(1.0, 2.0, 3.0, NO_RANK)
  const RESTRICT := AdminAdd(1, "g", NO_RANK)
  const ASK := Upgrade(1, "h", "0712345678", StkSent(Some("c")), NO_RANK)
  const PAY := Callback("c", true, None, 0, NO_RANK)
  const FAIL := Callback("c", false, None, 0, NO_RANK)

  lemma LowestTier(a1: real, a2: real, a3: real)
    ensures var order := TierOrder(Tiers(a1, a2, a3)); order.Keys != {} && First(order, NO_RANK) == 1
  {
    var order := TierOrder(Tiers(a1, a2, a3));
    assert 1 in order && order[1] == 1;
    var f := First(order, NO_RANK);
    assert IsFirst(order, NO_RANK, f);
    assert order == map[1 := 1, 2 := 6, 3 := 11];
  }

  lemma Registering()
    ensures Apply(EMPTY_BILL, REGISTER) == REGISTERED
  {
    Subdomain();
    hide First, Trim, Lower;
    assert SeedTiers(EMPTY_BILL).tiers == Tiers(0.0, 0.0, 0.0);
    LowestTier(0.0, 0.0, 0.0);
    assert BaseTier(EMPTY_BILL, NO_RANK) == 1;
    assert map[][1 := NewcomerIn(None, 1)] == map[1 := NewcomerIn(None, 1)];
  }

  lemma Subdomain()
    ensures Trim(Lower("s"), IsSpace) == "s"
  {
    assert Lower("s") == "s";
  }

  lemma ThreeInOrder(order: map<int, int>, ids: seq<int>)
    requires order == map[1 := 1, 2 := 6, 3 := 11] && |ids| == 3 && InOrder(order, NO_RANK, ids)
    ensures ids == [1, 2, 3]
  {
    assert Precedes(order, NO_RANK, ids[0], ids[1]) && Precedes(order, NO_RANK, ids[1], ids[2]);
  }

  lemma TiersBySize(a1: real, a2: real, a3: real)
    ensures Query(TierOrder(Tiers(a1, a2, a3)), NO_RANK) == [1, 2, 3]
  {
    hide Query, InOrder;
    var order := TierOrder(Tiers(a1, a2, a3));
    var ids := Query(order, NO_RANK);
    assert order == map[1 := 1, 2 := 6, 3 := 11];
    QueryLength(order, NO_RANK);
    QueryInOrder(order, NO_RANK);
    assert |order| == 3 by {
      assert order.Keys == {1, 2, 3};
      assert |order| == |order.Keys|;
    }
    ThreeInOrder(order, ids);
  }

  lemma Pricing()
    ensures Apply(REGISTERED, PRICE) == PRICED
  {
    hide Query;
    var tiers := Tiers(0.0, 0.0, 0.0);
    assert SeedTiers(REGISTERED) == REGISTERED by {
      assert 1 in REGISTERED.tiers.Keys;
    }
    TiersBySize(0.0, 0.0, 0.0);
    PricedOneByOne(tiers);
  }

  lemma PricedOneByOne(tiers: map<int, Tier>)
    requires tiers == Tiers(0.0, 0.0, 0.0)
    ensures PriceTiers(tiers, [1, 2, 3], [1.0, 2.0, 3.0]) == Tiers(1.0, 2.0, 3.0)
  {
    var t1 := tiers[1 := tiers[1].(amount := 1.0)];
    var t2 := t1[2 := t1[2].(amount := 2.0)];
    assert [1, 2, 3][1..] == [2, 3] && [2, 3][1..] == [3] && [3][1..] == [];
    assert [1.0, 2.0, 3.0][1..] == [2.0, 3.0] && [2.0, 3.0][1..] == [3.0] && [3.0][1..] == [];
    assert PriceTiers(tiers, [1, 2, 3], [1.0, 2.0, 3.0]) == PriceTiers(t1, [2, 3], [2.0, 3.0]);
    assert PriceTiers(t1, [2, 3], [2.0, 3.0]) == PriceTiers(t2, [3], [3.0]);
    var t3 := t2[3 := t2[3].(amount := 3.0)];
    assert PriceTiers(t2, [3], [3.0]) == PriceTiers(t3, [], []);
    assert t3 == Tiers(1.0, 2.0, 3.0);
  }

  lemma Restricting()
    ensures Apply(PRICED, RESTRICT) == RESTRICTED
  {
    assert Trim("g", IsSpace) == "g";
    hide Trim, BaseTier;
    assert [] + ["g"] == ["g"];
  }

  lemma SecondTier(b: Bill)
    requires b.tiers == Tiers(1.0, 2.0, 3.0)
    ensures NextTier(b, 5, NO_RANK) == Some(2)
  {
    var above := TiersAbove(b, 5);
    assert above == map[2 := 6, 3 := 11];
    assert 2 in above.Keys;
    var f := First(above, NO_RANK);
    assert IsFirst(above, NO_RANK, f);
  }

  lemma Number()
    ensures NormalizePhone("0712345678").Some?
  {
    hide NormalizePhone, Digits, MobileNumber;
    var s := "0712345678";
    AreDigits();
    OnlyDigits(s);
    InternationalForm(s);
    AcceptedNumbers(s, "254" + s[1..]);
  }

  lemma AreDigits()
    ensures var s := "0712345678"; |s| == 10 && s[..2] == "07" && forall i | 0 <= i < |s| :: IsDigit(s[i])
  {
  }

  lemma NothingPending()
    ensures PendingOf(RESTRICTED, 1).Keys == {}
  {
    NoKeys(PendingOf(RESTRICTED, 1));
  }

  // A restricted client on a tier with a bound gets a pending request for the next tier.
  lemma AskedFor(b: Bill, client: int, group: string, phone: string, checkout: string, limit: int, next: int)
    requires client in b.clients && Trim(group, IsSpace) == group && group != "" && NormalizePhone(phone).Some?
    requires b.clients[client].groups.Some? && PendingOf(b, client).Keys == {}
    requires TierLimit(b, b.clients[client]) == Some(limit) && NextTier(b, limit, NO_RANK) == Some(next)
    requires next in b.tiers && b.tiers[next].amount > 0.0
    ensures SelfUpgrade(b, client, group, phone, StkSent(Some(checkout)), NO_RANK)
         == b.(requests := b.requests[b.nextRequest :=
                 Request(client, group, next, b.tiers[next].amount, Some(checkout), None, Pending)],
               nextRequest := b.nextRequest + 1)
  {
    hide Trim, NormalizePhone, NextTier, PendingOf;
  }

  lemma Asking()
    ensures Apply(RESTRICTED, ASK) == WAITING
  {
    hide NormalizePhone, NextTier, PendingOf, SelfUpgrade;
    Number();
    SecondTier(RESTRICTED);
    NothingPending();
    TrimmedAlready();
    hide Trim;
    AskedFor(RESTRICTED, 1, "h", "0712345678", "c", 5, 2);
    assert map[][1 := Asked(Pending)[1]] == Asked(Pending);
  }

  lemma TrimmedAlready()
    ensures Trim("h", IsSpace) == "h"
  {
  }

  lemma Paying()
    ensures Apply(WAITING, PAY) == GRANTED
  {
    NoKeys(SessionsOf(WAITING, "c"));
    var waiting := RequestsOf(WAITING, "c");
    assert 1 in waiting;
    var f := First(waiting, NO_RANK);
    assert IsFirst(waiting, NO_RANK, f);
    hide First;
    assert ["g"] + ["h"] == ["g", "h"];
    assert Asked(Pending)[1 := Asked(Confirmed)[1]] == Asked(Confirmed);
  }

  lemma Failing()
    ensures Apply(GRANTED, FAIL) == GRANTED.(requests := Asked(Failed))
  {
    NoKeys(SessionsOf(GRANTED, "c"));
    var waiting := RequestsOf(GRANTED, "c");
    assert 1 in waiting;
    var f := First(waiting, NO_RANK);
    assert IsFirst(waiting, NO_RANK, f);
    hide First;
    assert Asked(Confirmed)[1 := Asked(Failed)[1]] == Asked(Failed);
  }

  lemma OneStepMore(b: Bill, t: int, steps: seq<Step>, s: Step)
    ensures Run(b, steps + [s]) == Apply(Run(b, steps), s) && Clock(t, steps + [s]) == ClockAfter(Clock(t, steps), s)
    ensures AllowedRun(b, t, steps) && Allowed(Run(b, steps), Clock(t, steps), s) ==> AllowedRun(b, t, steps + [s])
  {
    hide Apply;
    assert (steps + [s])[..|steps|] == steps;
  }

  /** From the empty tables: a client is registered, the tiers are priced, staff restrict the client, it asks for the
      next tier and pays. The callback for the payment confirms the upgrade; a second one for the same checkout, which
      reports failure, marks it failed, while the client keeps the tier. */
  lemma FailureOverwritesUpgrade()
    ensures var steps := [REGISTER, PRICE, RESTRICT, ASK, PAY];
            var b := Run(EMPTY_BILL, steps);
            && AllowedRun(EMPTY_BILL, 0, steps + [FAIL])
            && 1 in b.requests && b.requests[1].status == Confirmed && 1 in b.clients && b.clients[1].tier == Some(2)
            && Apply(b, FAIL) != b && Apply(b, FAIL).clients == b.clients
            && 1 in Apply(b, FAIL).requests && Apply(b, FAIL).requests[1].status == Failed
  {
    hide Apply, Run, Allowed, AllowedRun, Clock;
    UntilAsked();
    Paying();
    Failing();
    OneStepMore(EMPTY_BILL, 0, [REGISTER, PRICE, RESTRICT, ASK], PAY);
    OneStepMore(EMPTY_BILL, 0, [REGISTER, PRICE, RESTRICT, ASK] + [PAY], FAIL);
    assert [REGISTER, PRICE, RESTRICT, ASK] + [PAY] == [REGISTER, PRICE, RESTRICT, ASK, PAY];
    NothingIssued(WAITING, PAY);
    NothingIssued(GRANTED, FAIL);
    Outcome();
  }

  lemma UntilAsked()
    ensures var steps := [REGISTER, PRICE, RESTRICT, ASK];
            Run(EMPTY_BILL, steps) == WAITING && AllowedRun(EMPTY_BILL, 0, steps) && Clock(0, steps) == 0
  {
    hide Apply, Run, Allowed, AllowedRun, Clock;
    Registering();
    Pricing();
    Restricting();
    Asking();
    StartOfRun();
    OneStepMore(EMPTY_BILL, 0, [], REGISTER);
    OneStepMore(EMPTY_BILL, 0, [] + [REGISTER], PRICE);
    OneStepMore(EMPTY_BILL, 0, [] + [REGISTER] + [PRICE], RESTRICT);
    OneStepMore(EMPTY_BILL, 0, [] + [REGISTER] + [PRICE] + [RESTRICT], ASK);
    assert [] + [REGISTER] + [PRICE] + [RESTRICT] + [ASK] == [REGISTER, PRICE, RESTRICT, ASK];
    NothingIssued(EMPTY_BILL, REGISTER);
    NothingIssued(REGISTERED, PRICE);
    NothingIssued(PRICED, RESTRICT);
    NewlyIssued();
  }

  lemma Outcome()
    ensures 1 in GRANTED.requests && GRANTED.requests[1].status == Confirmed
    ensures 1 in GRANTED.clients && GRANTED.clients[1].tier == Some(2)
    ensures Asked(Failed)[1].status == Failed && GRANTED.(requests := Asked(Failed)) != GRANTED
  {
    assert Asked(Failed)[1] != Asked(Confirmed)[1];
  }

  lemma StartOfRun()
    ensures Run(EMPTY_BILL, []) == EMPTY_BILL && AllowedRun(EMPTY_BILL, 0, []) && Clock(0, []) == 0
  {
  }

  lemma NothingIssued(b: Bill, s: Step)
    requires !s.Message? && !s.Check? && !s.Upgrade?
    ensures Allowed(b, 0, s) && ClockAfter(0, s) == 0
  {
  }

  lemma NewlyIssued()
    ensures Allowed(RESTRICTED, 0, ASK) && ClockAfter(0, ASK) == 0
  {
  }
}
