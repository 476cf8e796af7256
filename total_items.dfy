/**
 * The "of N items" count read from the pagination status line
 * (`parseTotalItems` in content.js).
 */
module TotalItems {
  import opened Wrappers
  import opened Text

  predicate IsDigitOrComma(c: char) {
    IsDigit(c) || c == ','
  }

  /** The length of the longest run of characters satisfying `p` from index
      `i` (what the run holds: `RunSpans`). */
  function Run(s: string, i: nat, p: char -> bool): (n: nat)
    requires i <= |s|
    ensures i + n <= |s|
    decreases |s| - i
  {
    if i < |s| && p(s[i]) then 1 + Run(s, i + 1, p) else 0
  }

  /** Every character of the run satisfies `p`, and the one after it, if
      any, does not. */
  lemma {:induction false} RunSpans(s: string, i: nat, p: char -> bool)
    requires i <= |s|
    ensures forall k :: i <= k < i + Run(s, i, p) ==> p(s[k])
    ensures i + Run(s, i, p) == |s| || !p(s[i + Run(s, i, p)])
    decreases |s| - i
  {
    if i < |s| && p(s[i]) {
      RunSpans(s, i + 1, p);
    }
  }

  /** A way for `/of\s+([\d,]+)\s+items?/i` to match at `p`, the group being
      `s[b..c]`: "of", spaces up to `b`, digits and commas up to `c`, spaces up
      to `e`, then "item" (the optional "s" never decides a match). Letters
      compare ASCII-case-insensitively, as a regular expression without the
      `u` flag does. */
  predicate Split(s: string, p: nat, b: nat, c: nat, e: nat) {
    p + 2 < b < c < e && e + 4 <= |s| &&
    LowerChar(s[p]) == 'o' && LowerChar(s[p + 1]) == 'f' &&
    (forall k :: p + 2 <= k < b ==> IsSpace(s[k])) &&
    (forall k :: b <= k < c ==> IsDigitOrComma(s[k])) &&
    (forall k :: c <= k < e ==> IsSpace(s[k])) &&
    Lower(s[e..e + 4]) == "item"
  }

  /** Where the greedy runs after position `p + 2` end: spaces up to `b`,
      digits and commas up to `c`, spaces up to `e`. */
  function GreedyEnds(s: string, p: nat): (ends: (nat, nat, nat))
    requires p + 2 <= |s|
    ensures p + 2 <= ends.0 <= ends.1 <= ends.2 <= |s|
  {
    var b := p + 2 + Run(s, p + 2, IsSpace);
    var c := b + Run(s, b, IsDigitOrComma);
    (b, c, c + Run(s, c, IsSpace))
  }

  /** The match of the pattern at `p`, taking each run greedily: the text
      there starts with "of" in either case, and the group is a non-empty run
      of digits and commas (`MatchAtSound` and `MatchAtComplete` relate it to
      every way the pattern can match). */
  function MatchAt(s: string, p: nat): (r: Option<string>)
    requires p <= |s|
    ensures r.Some? ==> p + 2 <= |s| && LowerChar(s[p]) == 'o' && LowerChar(s[p + 1]) == 'f'
    ensures r.Some? ==> r.value != [] && forall c :: c in r.value ==> IsDigitOrComma(c)
  {
    if p + 2 <= |s| && LowerChar(s[p]) == 'o' && LowerChar(s[p + 1]) == 'f' then
      var (b, c, e) := GreedyEnds(s, p);
      if p + 2 < b < c < e && e + 4 <= |s| && Lower(s[e..e + 4]) == "item" then
        RunSpans(s, b, IsDigitOrComma);
        Some(s[b..c])
      else None
    else None
  }

  /** The greedy scan matches only where the pattern can match. */
  lemma MatchAtSound(s: string, p: nat)
    requires p <= |s|
    ensures MatchAt(s, p).Some? ==>
      exists b: nat, c: nat, e: nat :: Split(s, p, b, c, e) && MatchAt(s, p).value == s[b..c]
  {
    if MatchAt(s, p).Some? {
      var (b, c, e) := GreedyEnds(s, p);
      GreedySplit(s, p, b, c, e);
    }
  }

  /** The three greedy runs hold what their names say. */
  lemma GreedyRuns(s: string, p: nat, b: nat, c: nat, e: nat)
    requires p + 2 <= |s| && (b, c, e) == GreedyEnds(s, p)
    ensures forall k :: p + 2 <= k < b ==> IsSpace(s[k])
    ensures forall k :: b <= k < c ==> IsDigitOrComma(s[k])
    ensures forall k :: c <= k < e ==> IsSpace(s[k])
  {
    RunSpans(s, p + 2, IsSpace);
    RunSpans(s, b, IsDigitOrComma);
    RunSpans(s, c, IsSpace);
  }

  /** Where the greedy scan matches, its three runs form a split. */
  lemma GreedySplit(s: string, p: nat, b: nat, c: nat, e: nat)
    requires p <= |s| && MatchAt(s, p).Some? && (b, c, e) == GreedyEnds(s, p)
    ensures Split(s, p, b, c, e) && MatchAt(s, p).value == s[b..c]
  {
    assert p + 2 < b < c < e && e + 4 <= |s| && Lower(s[e..e + 4]) == "item";
    GreedyRuns(s, p, b, c, e);
  }

  lemma DigitIsNotSpace(c: char)
    requires IsDigitOrComma(c)
    ensures !IsSpace(c)
  {
  }

  lemma ItemIsNotSpace(t: string)
    requires |t| == 4 && Lower(t) == "item"
    ensures !IsSpace(t[0])
  {
    assert LowerChar(t[0]) == 'i';
  }

  /** The end of a run: the first index from `i` on that fails `p`, when all before it pass. */
  lemma RunEnds(s: string, i: nat, j: nat, p: char -> bool)
    requires i <= j <= |s|
    requires forall k :: i <= k < j ==> p(s[k])
    requires j == |s| || !p(s[j])
    ensures Run(s, i, p) == j - i
  {
    var n := Run(s, i, p);
    RunSpans(s, i, p);
    if i + n < j { assert false; }
    if j < i + n { assert false; }
  }

  /** The spaces after "of" in a split form the whole greedy run. */
  lemma LeadingSpacesRun(s: string, p: nat, b: nat, c: nat, e: nat)
    requires Split(s, p, b, c, e)
    ensures p + 2 + Run(s, p + 2, IsSpace) == b
  {
    DigitIsNotSpace(s[b]);
    RunEnds(s, p + 2, b, IsSpace);
  }

  /** The group of a split is the whole greedy run of digits and commas. */
  lemma GroupRun(s: string, p: nat, b: nat, c: nat, e: nat)
    requires Split(s, p, b, c, e)
    ensures b + Run(s, b, IsDigitOrComma) == c
  {
    assert !IsDigitOrComma(s[c]);
    RunEnds(s, b, c, IsDigitOrComma);
  }

  /** The spaces before "item" in a split form the whole greedy run. */
  lemma TrailingSpacesRun(s: string, p: nat, b: nat, c: nat, e: nat)
    requires Split(s, p, b, c, e)
    ensures c + Run(s, c, IsSpace) == e
  {
    ItemIsNotSpace(s[e..e + 4]);
    assert s[e..e + 4][0] == s[e];
    RunEnds(s, c, e, IsSpace);
  }

  /** The three runs a split is made of are exactly the greedy runs. */
  lemma SplitRuns(s: string, p: nat, b: nat, c: nat, e: nat)
    requires Split(s, p, b, c, e)
    ensures GreedyEnds(s, p) == (b, c, e)
  {
    LeadingSpacesRun(s, p, b, c, e);
    GroupRun(s, p, b, c, e);
    TrailingSpacesRun(s, p, b, c, e);
    var g := GreedyEnds(s, p);
    assert g.0 == b;
    assert g.1 == c;
  }

  /** Wherever the pattern can match, the greedy scan matches too, with the
      same group: the three runs are made of disjoint classes, so no other
      split exists for backtracking to find. */
  lemma MatchAtComplete(s: string, p: nat, b: nat, c: nat, e: nat)
    requires Split(s, p, b, c, e)
    ensures MatchAt(s, p) == Some(s[b..c])
  {
    SplitRuns(s, p, b, c, e);
  }

  /** The leftmost position at or after `p` where the pattern matches. */
  function FirstMatch(s: string, p: nat): (r: Option<nat>)
    requires p <= |s|
    ensures r.Some? ==> p <= r.value <= |s| && MatchAt(s, r.value).Some?
    ensures r.Some? ==> forall q :: p <= q < r.value ==> MatchAt(s, q).None?
    ensures r.None? ==> forall q :: p <= q <= |s| ==> MatchAt(s, q).None?
    decreases |s| - p
  {
    if MatchAt(s, p).Some? then Some(p)
    else if p == |s| then None
    else FirstMatch(s, p + 1)
  }

  /** What `parseTotalItems` returns: null, NaN (a group of commas only), or a count. */
  datatype ItemCount = NoCount | NotANumber | Count(n: nat)

  /** `str.replace(/,/g, "")`: every comma goes, every other character stays
      (in order: `RemoveCommasAppend`). */
  function RemoveCommas(s: string): (r: string)
    ensures forall i :: 0 <= i < |r| ==> r[i] != ','
    ensures forall c :: c != ',' ==> (c in r <==> c in s)
    ensures (forall i :: 0 <= i < |s| ==> s[i] != ',') ==> r == s
  {
    if s == [] then []
    else
      assert s == [s[0]] + s[1..];
      if s[0] == ',' then RemoveCommas(s[1..])
      else [s[0]] + RemoveCommas(s[1..])
  }

  /** Removing the commas keeps the order of what remains: it works piece by
      piece on a concatenation. */
  lemma {:induction false} RemoveCommasAppend(a: string, b: string)
    ensures RemoveCommas(a + b) == RemoveCommas(a) + RemoveCommas(b)
  {
    if a != [] {
      assert (a + b)[0] == a[0];
      assert (a + b)[1..] == a[1..] + b;
      RemoveCommasAppend(a[1..], b);
    } else {
      assert a + b == b;
    }
  }

  /** The model of `parseTotalItems`, the status element's text being `status`. */
  function ParseTotalItems(status: Option<string>): (r: ItemCount)
    ensures status.None? ==> r == NoCount
    ensures status.Some? ==>
      (r.NoCount? <==> forall p :: 0 <= p <= |status.value| ==> MatchAt(status.value, p).None?)
    // otherwise the leftmost match's group, without its commas, is read in decimal
    ensures !r.NoCount? ==>
      status.Some? && FirstMatch(status.value, 0).Some? &&
      var digits := RemoveCommas(MatchAt(status.value, FirstMatch(status.value, 0).value).value);
      (r.NotANumber? <==> digits == []) &&
      (r.Count? ==> AllDigits(digits) && r.n == DecimalValue(digits))
  {
    match status
    case None => NoCount
    case Some(text) =>
      match FirstMatch(text, 0)
      case None => NoCount
      case Some(p) =>
        var group := MatchAt(text, p).value;
        var digits := RemoveCommas(group);
        if digits == [] then NotANumber
        else
          assert AllDigits(digits) by {
            forall i | 0 <= i < |digits| ensures IsDigit(digits[i]) {
              assert digits[i] in digits;
            }
          }
          Count(DecimalValue(digits))
  }

  /** "of D items", for a non-empty run D of digits and commas, is a split
      with D as the group. */
  lemma StatusSplit(s: string, d: string)
    requires d != [] && forall k :: 0 <= k < |d| ==> IsDigitOrComma(d[k])
    requires s == "of " + d + " items"
    ensures Split(s, 0, 3, 3 + |d|, 4 + |d|)
  {
    var c, e := 3 + |d|, 4 + |d|;
    assert s[3..c] == d && s[c..] == " items";
    assert s[e..e + 4] == " items"[1..5] == "item";
    assert Lower("item") == "item" by {
      forall i | 0 <= i < 4 ensures Lower("item")[i] == "item"[i] { }
    }
    assert s[c] == ' ' && s[2] == ' ';
    forall k | 3 <= k < c ensures IsDigitOrComma(s[k]) {
      assert s[k] == d[k - 3];
    }
  }

  /** "of D items", for a non-empty run D of digits and commas, matches at
      its start with D as the group. */
  lemma StatusMatch(s: string, d: string)
    requires d != [] && forall k :: 0 <= k < |d| ==> IsDigitOrComma(d[k])
    requires s == "of " + d + " items"
    ensures FirstMatch(s, 0) == Some(0) && MatchAt(s, 0) == Some(d)
  {
    StatusSplit(s, d);
    MatchAtComplete(s, 0, 3, 3 + |d|, 4 + |d|);
    assert s[3..3 + |d|] == d;
  }

  /** The status text "of N items" reads back as N. */
  lemma {:induction false} CountRoundTrip(n: nat)
    ensures ParseTotalItems(Some("of " + Decimal(n) + " items")) == Count(n)
  {
    var d := Decimal(n);
    StatusMatch("of " + d + " items", d);
    assert RemoveCommas(d) == d;
    DecimalRoundTrip(n);
  }

  /** "of 1,234 items" matches at its start, with the group "1,234". */
  lemma SampleMatch(s: string)
    requires s == "of 1,234 items"
    ensures FirstMatch(s, 0) == Some(0) && MatchAt(s, 0) == Some("1,234")
  {
    var d := "1,234";
    assert forall k :: 0 <= k < |d| ==> IsDigitOrComma(d[k]);
    StatusMatch(s, d);
  }

  lemma SampleValue()
    ensures AllDigits("1234") && DecimalValue("1234") == 1234
  {
    assert "1234"[..3] == "123" && "123"[..2] == "12" && "12"[..1] == "1" && "1"[..0] == "";
  }

  lemma SampleDigits(g: string)
    requires g == "1,234"
    ensures RemoveCommas(g) == "1234"
  {
    assert RemoveCommas(g[4..]) == "4";
    assert g[3..][1..] == g[4..];
    assert RemoveCommas(g[3..]) == "34";
    assert g[2..][1..] == g[3..];
    assert RemoveCommas(g[2..]) == "234";
    assert g[1..][1..] == g[2..];
    assert RemoveCommas(g[1..]) == "234";
  }

  /** The thousands separators are dropped: "of 1,234 items" reads as 1234. */
  lemma ThousandsSeparator(s: string)
    requires s == "of 1,234 items"
    ensures ParseTotalItems(Some(s)) == Count(1234)
  {
    SampleMatch(s);
    SampleDigits("1,234");
    SampleValue();
  }
}
