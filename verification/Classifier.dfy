/** What classify_message does with the language model's answer (backend/classifier.py).
    The answer itself is arbitrary: a list of items with any content. */
module Classifier {
  import opened Text
  import opened VehiclePlate

  datatype RawItem = RawItem(category: string, confidence: real, snippet: Option<string>)

  datatype Issue = Issue(category: string, confidence: real, snippet: string)

  const MAX_ISSUES := 5

  function Clamp(x: real): real {
    var low := if x < 1.0 then x else 1.0;
    if low > 0.0 then low else 0.0
  }

  // One item, with an unknown category filed as "other". In fleet mode the snippet is scrubbed.
  function CleanItem(item: RawItem, message: string, categories: set<string>, fleet: bool): Issue {
    var valid := if categories == {} then {"other"} else categories;
    var snippet := if item.snippet.Some? then item.snippet.value else message;
    Issue(
      if item.category in valid then item.category else "other",
      Clamp(item.confidence),
      if fleet then StripUnknownPlates(snippet, message) else snippet)
  }

  function CleanItems(raw: seq<RawItem>, message: string, categories: set<string>, fleet: bool): (issues: seq<Issue>)
    ensures |issues| == |raw|
    ensures forall i | 0 <= i < |raw| :: issues[i] == CleanItem(raw[i], message, categories, fleet)
  {
    seq(|raw|, i requires 0 <= i < |raw| => CleanItem(raw[i], message, categories, fleet))
  }

  // Position of the issue that a stable descending sort by confidence puts last.
  function Weakest(issues: seq<Issue>): (w: nat)
    requires issues != []
    ensures w < |issues|
    ensures forall i | 0 <= i < |issues| :: issues[w].confidence <= issues[i].confidence
    ensures forall i | w < i < |issues| :: issues[w].confidence < issues[i].confidence
  {
    if |issues| == 1 then 0
    else
      var w := 1 + Weakest(issues[1..]);
      assert issues[w] == issues[1..][w - 1];
      if issues[0].confidence < issues[w].confidence then 0 else w
  }

  // The MAX_ISSUES most confident issues, in their original order.
  function KeepStrongest(issues: seq<Issue>): (kept: seq<Issue>)
    ensures |kept| == if |issues| <= MAX_ISSUES then |issues| else MAX_ISSUES
    ensures forall x | x in kept :: x in issues
    decreases |issues|
  {
    if |issues| <= MAX_ISSUES then issues
    else
      var w := Weakest(issues);
      KeepStrongest(issues[..w] + issues[w + 1..])
  }

  // ---- The kept issues are the first of the stable sort ----

  // Whether a stable descending sort by confidence puts position `j` before position `i`.
  predicate Outranks(issues: seq<Issue>, j: nat, i: nat)
    requires i < |issues| && j < |issues|
  {
    issues[j].confidence > issues[i].confidence || (issues[j].confidence == issues[i].confidence && j < i)
  }

  // How many of the first `n` issues come before position `i` in that sort.
  function Rank(issues: seq<Issue>, i: nat, n: nat): (r: nat)
    requires i < |issues| && n <= |issues|
  {
    if n == 0 then 0 else Rank(issues, i, n - 1) + if Outranks(issues, n - 1, i) then 1 else 0
  }

  // Of the first `n` issues, those among the MAX_ISSUES that the sort puts first.
  function TopIssues(issues: seq<Issue>, n: nat): seq<Issue>
    requires n <= |issues|
  {
    if n == 0 then []
    else TopIssues(issues, n - 1) + if Rank(issues, n - 1, |issues|) < MAX_ISSUES then [issues[n - 1]] else []
  }

  lemma {:induction false} RankBound(issues: seq<Issue>, i: nat, n: nat)
    requires i < |issues| && n <= |issues|
    ensures Rank(issues, i, n) <= if n <= i then n else n - 1
  {
    if n > 0 {
      RankBound(issues, i, n - 1);
    }
  }

  lemma {:induction false} WeakestIsLast(issues: seq<Issue>, n: nat)
    requires issues != [] && n <= |issues|
    ensures Rank(issues, Weakest(issues), n) == if n <= Weakest(issues) then n else n - 1
  {
    hide Weakest;
    if n > 0 {
      WeakestIsLast(issues, n - 1);
    }
  }

  // Position `n` once the position `w` is taken out.
  function Closed(n: nat, w: nat): nat { if n <= w then n else n - 1 }

  // `rest` is `issues` without the weakest one.
  predicate WithoutWeakest(issues: seq<Issue>, rest: seq<Issue>)
    requires issues != []
  {
    var w := Weakest(issues);
    |rest| == |issues| - 1 && forall j | 0 <= j < |issues| && j != w :: rest[Closed(j, w)] == issues[j]
  }

  lemma {:induction false} RankWithoutWeakest(issues: seq<Issue>, rest: seq<Issue>, i: nat, n: nat)
    requires issues != [] && WithoutWeakest(issues, rest) && i < |issues| && n <= |issues| && i != Weakest(issues)
    ensures var w := Weakest(issues); Rank(issues, i, n) == Rank(rest, Closed(i, w), Closed(n, w))
  {
    hide Weakest;
    if n > 0 {
      RankWithoutWeakest(issues, rest, i, n - 1);
      if n - 1 != Weakest(issues) {
        assert Outranks(issues, n - 1, i) == Outranks(rest, Closed(n - 1, Weakest(issues)), Closed(i, Weakest(issues)));
      }
    }
  }

  lemma {:induction false} TopWithoutWeakest(issues: seq<Issue>, rest: seq<Issue>, n: nat)
    requires |issues| > MAX_ISSUES && WithoutWeakest(issues, rest) && n <= |issues|
    ensures TopIssues(issues, n) == TopIssues(rest, Closed(n, Weakest(issues)))
  {
    hide Weakest, Rank;
    if n > 0 {
      TopWithoutWeakest(issues, rest, n - 1);
      if n - 1 == Weakest(issues) {
        WeakestIsLast(issues, |issues|);
      } else {
        RankWithoutWeakest(issues, rest, n - 1, |issues|);
      }
    }
  }

  lemma {:induction false} AllOfAFew(issues: seq<Issue>, n: nat)
    requires |issues| <= MAX_ISSUES && n <= |issues|
    ensures TopIssues(issues, n) == issues[..n]
  {
    if n > 0 {
      AllOfAFew(issues, n - 1);
      RankBound(issues, n - 1, |issues|);
    }
  }

  function Dropped(issues: seq<Issue>): (rest: seq<Issue>)
    requires issues != []
    ensures WithoutWeakest(issues, rest)
  {
    hide Weakest;
    var w := Weakest(issues);
    issues[..w] + issues[w + 1..]
  }

  lemma KeepDropped(issues: seq<Issue>)
    requires |issues| > MAX_ISSUES
    ensures KeepStrongest(issues) == KeepStrongest(Dropped(issues)) && |Dropped(issues)| == |issues| - 1
  {
  }

  lemma KeepFew(issues: seq<Issue>)
    requires |issues| <= MAX_ISSUES
    ensures KeepStrongest(issues) == issues && issues[..|issues|] == issues
  {
  }

  /** Dropping the weakest issue until five are left keeps exactly the first five of the stable sort by
      descending confidence, in their original order. */
  lemma {:induction false} StrongestAreTop(issues: seq<Issue>)
    ensures KeepStrongest(issues) == TopIssues(issues, |issues|)
    decreases |issues|
  {
    hide KeepStrongest, Weakest, TopIssues, WithoutWeakest, Rank;
    if |issues| <= MAX_ISSUES {
      AllOfAFew(issues, |issues|);
      KeepFew(issues);
    } else {
      KeepDropped(issues);
      var rest := Dropped(issues);
      TopWithoutWeakest(issues, rest, |issues|);
      StrongestAreTop(rest);
    }
  }

  function Classify(raw: seq<RawItem>, message: string, categories: set<string>, fleet: bool): seq<Issue> {
    KeepStrongest(CleanItems(raw, message, categories, fleet))
  }
}
