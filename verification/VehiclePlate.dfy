/** Number plates in free text (backend/vehicle_plate.py).

    The pattern is \bK[A-Z]{3}\s?\d{3}[A-Z]?\b, ignoring case. Text is scanned from the left;
    the flag `w` of each scanner says whether the character just before `s` is a word
    character, which is what \b looks at. */
module VehiclePlate {
  import opened Text

  // ---- The language of the pattern ----

  // `p` spells a plate: K, three letters, at most one space, three digits, at most one letter.
  predicate SpellsPlate(p: string) {
    exists d | 4 <= d <= 5 :: SpellsPlateWith(p, d)
  }

  predicate SpellsPlateWith(p: string, d: nat) {
    && 4 <= d && d + 3 <= |p| <= d + 4
    && (p[0] == 'K' || p[0] == 'k')
    && IsLetter(p[1]) && IsLetter(p[2]) && IsLetter(p[3])
    && (d == 5 ==> IsSpace(p[4]))
    && IsDigit(p[d]) && IsDigit(p[d + 1]) && IsDigit(p[d + 2])
    && (|p| == d + 4 ==> IsLetter(p[d + 3]))
  }

  // The pattern matches the first `n` characters of `s`.
  predicate Matches(w: bool, s: string, n: nat) {
    && !w
    && n <= |s|
    && SpellsPlate(s[..n])
    && (n < |s| ==> !IsWord(s[n]))
  }

  // ---- The matcher ----

  // Length of the match at the start of `s`; 0 when there is none.
  function MatchLength(w: bool, s: string): (n: nat)
    ensures n <= |s| && n <= 9
  {
    if w || |s| < 7 || !(s[0] == 'K' || s[0] == 'k')
       || !IsLetter(s[1]) || !IsLetter(s[2]) || !IsLetter(s[3]) then 0
    else
      var d := if IsSpace(s[4]) then 5 else 4;
      if |s| < d + 3 || !IsDigit(s[d]) || !IsDigit(s[d + 1]) || !IsDigit(s[d + 2]) then 0
      else
        var e := if |s| > d + 3 && IsLetter(s[d + 3]) then d + 4 else d + 3;
        if |s| > e && IsWord(s[e]) then 0 else e
  }

  // The greedy matcher finds every match of the pattern, and there is at most one length.
  lemma MatchLengthExact(w: bool, s: string, n: nat)
    requires n > 0
    ensures MatchLength(w, s) == n <==> Matches(w, s, n)
  {
    if Matches(w, s, n) {
      var d :| 4 <= d <= 5 && SpellsPlateWith(s[..n], d);
      assert IsSpace(s[4]) <==> d == 5;
    }
    if MatchLength(w, s) == n {
      var d := if IsSpace(s[4]) then 5 else 4;
      assert SpellsPlateWith(s[..n], d);
    }
  }

  // ---- Scanning ----

  // Every match in `s`, left to right, as written.
  function FindAll(w: bool, s: string): seq<string>
    decreases |s|
  {
    if s == [] then [] else
      var n := MatchLength(w, s);
      if n > 0 then [s[..n]] + FindAll(true, s[n..])
      else FindAll(IsWord(s[0]), s[1..])
  }

  function NormalizePlate(raw: string): string {
    if raw == [] then []
    else (if IsSpace(raw[0]) then [] else [ToUpper(raw[0])]) + NormalizePlate(raw[1..])
  }

  function NormalizeAll(raws: seq<string>): (plates: seq<string>)
    ensures |plates| == |raws|
  {
    if raws == [] then [] else [NormalizePlate(raws[0])] + NormalizeAll(raws[1..])
  }

  function ExtractPlates(text: string): seq<string> {
    NormalizeAll(FindAll(false, text))
  }

  function ResolvePlateForIssue(snippet: string, fullText: string): Option<string> {
    var own := ExtractPlates(snippet);
    if own != [] then Some(own[0])
    else
      var all := ExtractPlates(fullText);
      if |set p | p in all| == 1 then Some(all[0]) else None
  }

  // ---- Scrubbing ----

  // `s` with every match whose plate is not in `known` deleted.
  function DeleteUnknown(w: bool, s: string, known: set<string>): string
    decreases |s|
  {
    if s == [] then [] else
      var n := MatchLength(w, s);
      if n > 0 then
        (if NormalizePlate(s[..n]) in known then s[..n] else []) + DeleteUnknown(true, s[n..], known)
      else [s[0]] + DeleteUnknown(IsWord(s[0]), s[1..], known)
  }

  predicate IsEdge(c: char) { c == ' ' || c == '\t' || c == '\n' || c == ':' || c == '-' || c == ',' || c == '/' }

  function StripUnknownPlates(snippet: string, fullText: string): string {
    var known := set p | p in ExtractPlates(fullText);
    var cleaned := Trim(DeleteUnknown(false, snippet, known), IsEdge);
    if cleaned == [] then fullText else cleaned
  }

  function KeepKnown(plates: seq<string>, known: set<string>): (kept: seq<string>)
    ensures forall p :: p in kept <==> p in plates && p in known
  {
    if plates == [] then []
    else (if plates[0] in known then [plates[0]] else []) + KeepKnown(plates[1..], known)
  }

  // ---- Deleting a plate never splices a new one ----

  // A match starts with K, and what comes right after it is not a word character.
  lemma MatchFacts(w: bool, s: string)
    requires MatchLength(w, s) > 0
    ensures var n := MatchLength(w, s);
            s[0] in "Kk" && IsWord(s[n - 1]) && (n < |s| ==> !IsWord(s[n]) && MatchLength(true, s[n..]) == 0)
  {
  }

  // The scrubbed text begins like the original one, unless a match was deleted there; then it
  // is empty or begins with a non-word character.
  lemma ScrubbedHead(w: bool, s: string, known: set<string>)
    ensures var r := DeleteUnknown(w, s, known);
            && (s == [] ==> r == [])
            && (s != [] && MatchLength(w, s) == 0 ==> r == [s[0]] + DeleteUnknown(IsWord(s[0]), s[1..], known))
            && (MatchLength(w, s) > 0 ==> r == [] || r[0] in "Kk" || !IsWord(r[0]))
  {
    if MatchLength(w, s) > 0 {
      MatchFacts(w, s);
      var n := MatchLength(w, s);
      if n < |s| {
        assert DeleteUnknown(true, s[n..], known)[0] == s[n];
      }
    }
  }

  // Where the scrubbed text shows a run of word characters after a word character, the
  // original shows the same run.
  lemma {:induction false} WordRun(s: string, known: set<string>, k: nat)
    requires var r := DeleteUnknown(true, s, known);
             k <= |r| && forall i | 0 <= i < k :: IsWord(r[i])
    ensures k <= |s| && s[..k] == DeleteUnknown(true, s, known)[..k]
    ensures k > 0 ==> DeleteUnknown(true, s, known)[k..] == DeleteUnknown(true, s[k..], known)
  {
    if k > 0 {
      var r := DeleteUnknown(true, s, known);
      ScrubbedHead(true, s, known);
      assert IsWord(r[0]) && s != [];
      assert r == [s[0]] + DeleteUnknown(true, s[1..], known);
      assert r[1..] == DeleteUnknown(true, s[1..], known);
      forall i | 0 <= i < k - 1 ensures IsWord(r[1..][i]) {
        assert r[1..][i] == r[i + 1];
      }
      WordRun(s[1..], known, k - 1);
      assert s[..k] == [s[0]] + s[1..][..k - 1] && r[..k] == [r[0]] + r[1..][..k - 1];
      assert r[k..] == r[1..][k - 1..] && s[k..] == s[1..][k - 1..];
    }
  }

  // A scrubbed text that opens with four word characters opens like the original.
  lemma FirstFour(w: bool, s: string, r: string, known: set<string>)
    requires s != [] && MatchLength(w, s) == 0 && r == DeleteUnknown(w, s, known)
    requires |r| >= 4 && IsWord(r[0]) && IsWord(r[1]) && IsWord(r[2]) && IsWord(r[3])
    ensures |s| >= 4 && s[..4] == r[..4] && r[4..] == DeleteUnknown(true, s[4..], known)
  {
    var tail := s[1..];
    assert r[0] == s[0] && r[1..] == DeleteUnknown(true, tail, known);
    WordRun(tail, known, 3);
    assert s[..4] == [s[0]] + tail[..3] && r[..4] == [r[0]] + r[1..][..3];
    assert r[4..] == r[1..][3..] && s[4..] == tail[3..];
  }

  // A digit one space after a word was already there before scrubbing.
  lemma AcrossSpace(s: string, r: string, known: set<string>)
    requires |r| > 5 && |s| >= 4 && s[..4] == r[..4] && r[4..] == DeleteUnknown(true, s[4..], known)
    requires IsSpace(r[4]) && IsDigit(r[5])
    ensures |s| >= 6 && s[..6] == r[..6] && r[6..] == DeleteUnknown(true, s[6..], known)
  {
    ScrubbedHead(true, s[4..], known);
    assert r[4] == r[4..][0] && r[5..] == r[4..][1..];
    assert s[5..] == s[4..][1..];
    ScrubbedHead(false, s[5..], known);
    assert r[5] == r[5..][0] && r[6..] == r[5..][1..];
    assert s[6..] == s[5..][1..];
    assert r[..6] == r[..4] + [r[4], r[5]] && s[..6] == s[..4] + [s[4], s[5]];
  }

  // Where the pattern does not match, scrubbing does not make it match.
  lemma NoSplice(w: bool, s: string, known: set<string>)
    requires s != [] && MatchLength(w, s) == 0
    ensures MatchLength(w, DeleteUnknown(w, s, known)) == 0
  {
    var r := DeleteUnknown(w, s, known);
    var m := MatchLength(w, r);
    if m > 0 {
      MatchLengthExact(w, r, m);
      var d :| 4 <= d <= 5 && SpellsPlateWith(r[..m], d);
      FirstFour(w, s, r, known);
      if d == 5 {
        AcrossSpace(s, r, known);
        SameTail(s, r, known, 6, m);
      } else {
        SameTail(s, r, known, 4, m);
      }
      MatchLengthExact(w, s, m);
    }
  }

  // Once the first `b` characters agree, a match of the scrubbed text is one of the original.
  lemma SameTail(s: string, r: string, known: set<string>, b: nat, m: nat)
    requires 4 <= b <= m <= |r| && b <= |s| && s[..b] == r[..b]
    requires r[b..] == DeleteUnknown(true, s[b..], known)
    requires Matches(false, r, m) && forall i | b <= i < m :: IsWord(r[i])
    ensures Matches(false, s, m)
  {
    forall i | 0 <= i < m - b ensures IsWord(r[b..][i]) {
      assert r[b..][i] == r[b + i];
    }
    WordRun(s[b..], known, m - b);
    assert s[..m] == r[..m] by {
      assert s[..m] == s[..b] + s[b..][..m - b] && r[..m] == r[..b] + r[b..][..m - b];
    }
    assert r[m..] == DeleteUnknown(true, s[m..], known) by {
      assert r[m..] == r[b..][m - b..] && s[m..] == s[b..][m - b..];
    }
    ScrubbedHead(true, s[m..], known);
  }

  lemma NormalizeCons(raw: string, raws: seq<string>)
    ensures NormalizeAll([raw] + raws) == [NormalizePlate(raw)] + NormalizeAll(raws)
  {
    assert ([raw] + raws)[1..] == raws;
  }

  lemma KeepCons(plate: string, plates: seq<string>, known: set<string>)
    ensures KeepKnown([plate] + plates, known)
         == (if plate in known then [plate] else []) + KeepKnown(plates, known)
  {
    assert ([plate] + plates)[1..] == plates;
  }

  // A match with a known plate is still a match after scrubbing.
  lemma KeptMatch(w: bool, s: string, known: set<string>)
    requires MatchLength(w, s) > 0 && NormalizePlate(s[..MatchLength(w, s)]) in known
    ensures var n, r := MatchLength(w, s), DeleteUnknown(w, s, known);
            && MatchLength(w, r) == n && r[..n] == s[..n]
            && r[n..] == DeleteUnknown(true, s[n..], known)
  {
    var n, r := MatchLength(w, s), DeleteUnknown(w, s, known);
    MatchFacts(w, s);
    MatchLengthExact(w, s, n);
    ScrubbedHead(true, s[n..], known);
    assert r == s[..n] + DeleteUnknown(true, s[n..], known);
    assert Matches(w, r, n);
    MatchLengthExact(w, r, n);
  }

  // Scrubbing the text filters the list of its plates. `w'` is the flag in the scrubbed text,
  // which differs from `w` only just behind a deleted match.
  lemma {:induction false} ScrubFilters(w: bool, w': bool, s: string, known: set<string>)
    requires w' == w || s == [] || !IsWord(s[0])
    ensures NormalizeAll(FindAll(w', DeleteUnknown(w, s, known))) == KeepKnown(NormalizeAll(FindAll(w, s)), known)
    decreases |s|
  {
    var r := DeleteUnknown(w, s, known);
    var n := MatchLength(w, s);
    if s == [] {
    } else if n == 0 {
      if w' == w {
        NoSplice(w, s, known);
      }
      assert MatchLength(w', r) == 0;
      assert r[1..] == DeleteUnknown(IsWord(s[0]), s[1..], known);
      ScrubFilters(IsWord(s[0]), IsWord(s[0]), s[1..], known);
    } else {
      MatchFacts(w, s);
      var found, later := s[..n], FindAll(true, s[n..]);
      NormalizeCons(found, later);
      KeepCons(NormalizePlate(found), NormalizeAll(later), known);
      if NormalizePlate(found) in known {
        KeptMatch(w, s, known);
        NormalizeCons(found, FindAll(true, r[n..]));
        ScrubFilters(true, true, s[n..], known);
      } else {
        ScrubFilters(true, w', s[n..], known);
        assert r == DeleteUnknown(true, s[n..], known);
      }
    }
  }

  // ---- Trimming the edges keeps the plates ----

  lemma {:induction false} TrimLeftKeepsMatches(s: string)
    ensures FindAll(false, TrimLeft(s, IsEdge)) == FindAll(false, s)
  {
    if s != [] && IsEdge(s[0]) {
      TrimLeftKeepsMatches(s[1..]);
      assert MatchLength(false, s) == 0 && !IsWord(s[0]);
    }
  }

  lemma EdgeAddsNoMatch(w: bool, s: string, c: char)
    requires !IsWord(c)
    ensures MatchLength(w, s + [c]) == MatchLength(w, s)
  {
  }

  lemma {:induction false} EdgeAddsNoMatches(w: bool, s: string, c: char)
    requires !IsWord(c)
    ensures FindAll(w, s + [c]) == FindAll(w, s)
    decreases |s|
  {
    var t := s + [c];
    EdgeAddsNoMatch(w, s, c);
    if s == [] {
      assert t[1..] == [];
    } else {
      var n := MatchLength(w, s);
      if n > 0 {
        assert t[n..] == s[n..] + [c] && t[..n] == s[..n];
        EdgeAddsNoMatches(true, s[n..], c);
      } else {
        assert t[1..] == s[1..] + [c];
        EdgeAddsNoMatches(IsWord(s[0]), s[1..], c);
      }
    }
  }

  lemma {:induction false} TrimRightKeepsMatches(s: string)
    ensures FindAll(false, TrimRight(s, IsEdge)) == FindAll(false, s)
    decreases |s|
  {
    if s != [] && IsEdge(s[|s| - 1]) {
      var init := s[..|s| - 1];
      assert s == init + [s[|s| - 1]];
      EdgeAddsNoMatches(false, init, s[|s| - 1]);
      TrimRightKeepsMatches(init);
    }
  }

  // ---- Main results ----

  /** Scrubbing a snippet keeps exactly the plates that the message contains, in their order;
      when nothing but edges is left the whole message stands in for the snippet. */
  lemma ScrubbedPlates(snippet: string, fullText: string)
    ensures var known := set p | p in ExtractPlates(fullText);
            var r := StripUnknownPlates(snippet, fullText);
            r == fullText || ExtractPlates(r) == KeepKnown(ExtractPlates(snippet), known)
  {
    var known := set p | p in ExtractPlates(fullText);
    var scrubbed := DeleteUnknown(false, snippet, known);
    ScrubFilters(false, false, snippet, known);
    TrimLeftKeepsMatches(scrubbed);
    TrimRightKeepsMatches(TrimLeft(scrubbed, IsEdge));
  }

  /** Every plate readable in a scrubbed snippet occurs in the message, and so does the plate an
      issue is filed under. */
  lemma OnlyWrittenPlates(snippet: string, fullText: string)
    ensures var r := StripUnknownPlates(snippet, fullText);
            && (forall p | p in ExtractPlates(r) :: p in ExtractPlates(fullText))
            && (forall p | ResolvePlateForIssue(r, fullText) == Some(p) :: p in ExtractPlates(fullText))
  {
    ScrubbedPlates(snippet, fullText);
    var all := ExtractPlates(fullText);
    if all == [] {
      assert (set p | p in all) == {};
    }
  }
}
