/** A run in which a paid upgrade takes a client over its cap and to a lower one: staff moved the client up after it had
    asked for the upgrade (billing/main.py:308-314, 799-813). */
module BillingDowngrade {
  import opened Text
  import opened Rows
  import opened BillingModel
  import opened BillingPayments
  import opened BillingOverwrite
  import T = BillingTiers
  import C = BillingCap

  const MOVE_UP := EditClient(1, None, Some(3))
  const LETTERS := "abcdefijk"

  function Names(letters: string): (names: seq<string>)
    ensures |names| == |letters|
  {
    seq(|letters|, i requires 0 <= i < |letters| => [letters[i]])
  }

  function Adds(letters: string): seq<Step> {
    seq(|letters|, i requires 0 <= i < |letters| => AdminAdd(1, [letters[i]], NO_RANK))
  }

  // The client on the third tier, with the upgrade to the second tier still pending.
  function MovedUp(groups: seq<string>): Bill {
    Books(Tiers(1.0, 2.0, 3.0), NewcomerIn(Some(groups), 3), Asked(Pending), 2)
  }

  lemma MovingUp()
    ensures Apply(WAITING, MOVE_UP) == MovedUp(["g"])
  {
    assert 3 in WAITING.tiers;
  }

  lemma OneAdded(groups: seq<string>, letter: char)
    requires !IsSpace(letter) && [letter] !in groups
    ensures Apply(MovedUp(groups), AdminAdd(1, [letter], NO_RANK)) == MovedUp(groups + [[letter]])
  {
    assert Trim([letter], IsSpace) == [letter];
    hide Trim, BaseTier;
  }

  lemma {:induction false} AllAdded(letters: string)
    requires forall i | 0 <= i < |letters| :: !IsSpace(letters[i]) && letters[i] != 'g'
    requires forall i, j | 0 <= i < j < |letters| :: letters[i] != letters[j]
    ensures Run(MovedUp(["g"]), Adds(letters)) == MovedUp(["g"] + Names(letters))
  {
    hide Apply, MovedUp;
    if letters == [] {
      assert ["g"] + Names(letters) == ["g"];
    } else {
      var n := |letters| - 1;
      var before := ["g"] + Names(letters[..n]);
      AllAdded(letters[..n]);
      assert Adds(letters)[..n] == Adds(letters[..n]);
      OneAdded(before, letters[n]);
      assert before + [[letters[n]]] == ["g"] + Names(letters);
    }
  }

  lemma {:induction false} RunOn(b: Bill, t: int, steps: seq<Step>, more: seq<Step>)
    requires AllowedRun(b, t, steps) && forall k | 0 <= k < |more| :: more[k].AdminAdd?
    ensures Run(b, steps + more) == Run(Run(b, steps), more)
    ensures AllowedRun(b, t, steps + more) && Clock(t, steps + more) == Clock(t, steps)
  {
    hide Apply;
    if more == [] {
      assert steps + more == steps;
    } else {
      var n := |more| - 1;
      RunOn(b, t, steps, more[..n]);
      assert (steps + more)[..|steps| + n] == steps + more[..n];
    }
  }

  lemma Granting(groups: seq<string>)
    requires |groups| == 10 && "h" !in groups
    ensures var b := MovedUp(groups); var after := Apply(b, PAY);
            && 1 in b.clients && C.WithinCap(b, 1) && 1 in after.clients && !C.WithinCap(after, 1)
            && !C.AtMost(C.Cap(b, 1), C.Cap(after, 1))
  {
    var b := MovedUp(groups);
    assert 1 in RequestsOf(b, "c");
    NoKeys(SessionsOf(b, "c"));
    assert T.Grants(b, PAY) == Some(1);
    hide Apply, T.Grants, First;
    C.GrantCap(b, PAY);
  }

  lemma NoH(letters: string)
    requires 'h' !in letters
    ensures "h" !in ["g"] + Names(letters)
  {
  }

  /** From the empty tables: a client on the lowest tier asks for the next one, staff move it up to the tier without bound
      and add groups to it by hand, and then the upgrade it asked for is paid. The callback takes it from 10 groups
      without bound to 11 groups on a tier for at most 10. */
  lemma DownwardUpgradeBreaksCap()
    ensures var steps := [REGISTER, PRICE, RESTRICT, ASK] + [MOVE_UP] + Adds(LETTERS);
            var b := Run(EMPTY_BILL, steps);
            var after := Apply(b, PAY);
            && AllowedRun(EMPTY_BILL, 0, steps + [PAY])
            && 1 in b.clients && C.WithinCap(b, 1) && 1 in after.clients && !C.WithinCap(after, 1)
            && !C.AtMost(C.Cap(b, 1), C.Cap(after, 1))
  {
    hide Apply, Run, Allowed, AllowedRun, Clock, Adds, Names, C.WithinCap, C.Cap;
    var asked := [REGISTER, PRICE, RESTRICT, ASK];
    UntilAsked();
    MovingUp();
    NothingIssued(WAITING, MOVE_UP);
    OneStepMore(EMPTY_BILL, 0, asked, MOVE_UP);
    AllAdds(LETTERS);
    RunOn(EMPTY_BILL, 0, asked + [MOVE_UP], Adds(LETTERS));
    AllAdded(LETTERS);
    NoH(LETTERS);
    Granting(["g"] + Names(LETTERS));
    var steps := asked + [MOVE_UP] + Adds(LETTERS);
    NothingIssued(Run(EMPTY_BILL, steps), PAY);
    OneStepMore(EMPTY_BILL, 0, steps, PAY);
  }

  lemma AllAdds(letters: string)
    ensures forall k | 0 <= k < |Adds(letters)| :: Adds(letters)[k].AdminAdd?
  {
  }
}
