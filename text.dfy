/** The few string operations of Python that the formatting code relies on:
    slicing a prefix, `sep.join(parts)` and counting a character. */
module Text {

  /** Python's `s[:n]` for a non-negative `n`: at most `n` leading characters. */
  function Prefix(s: string, n: nat): (r: string)
    ensures |r| == if |s| < n then |s| else n
    ensures r <= s
  {
    if |s| < n then s else s[..n]
  }

  /** Python's `sep.join(parts)`: the parts in order, with `sep` between two
      consecutive parts and nowhere else. */
  function Join(parts: seq<string>, sep: string): string
    decreases |parts|
  {
    if |parts| == 0 then ""
    else if |parts| == 1 then parts[0]
    else Join(parts[..|parts| - 1], sep) + sep + parts[|parts| - 1]
  }

  /** Joining one more part adds a separator and that part at the end. */
  lemma JoinSnoc(parts: seq<string>, sep: string, p: string)
    requires |parts| > 0
    ensures Join(parts + [p], sep) == Join(parts, sep) + sep + p
  {
  }

  /** Part `i` of a join sits right after the join of the parts before it and
      one separator (no separator before the first part): every part appears
      once, unchanged, in order. */
  lemma {:induction false} JoinAt(parts: seq<string>, sep: string, i: nat)
    requires i < |parts|
    ensures var before := Join(parts[..i], sep) + (if i == 0 then "" else sep);
            var whole := Join(parts, sep);
            |before| + |parts[i]| <= |whole| &&
            whole[..|before|] == before &&
            whole[|before|..|before| + |parts[i]|] == parts[i] &&
            (i == |parts| - 1 ==> |before| + |parts[i]| == |whole|)
    decreases |parts|
  {
    var n := |parts|;
    var init := parts[..n - 1];
    if n == 1 {
      assert parts[..0] == [];
    } else if i == n - 1 {
      assert parts[..i] == init;
    } else {
      JoinAt(init, sep, i);
      assert init[..i] == parts[..i];
    }
  }

  /** Number of occurrences of `c` in `s`. */
  function Count(s: string, c: char): nat
    decreases |s|
  {
    if |s| == 0 then 0 else Count(s[..|s| - 1], c) + (if s[|s| - 1] == c then 1 else 0)
  }

  lemma {:induction false} CountConcat(a: string, b: string, c: char)
    ensures Count(a + b, c) == Count(a, c) + Count(b, c)
    decreases |b|
  {
    if |b| == 0 {
      assert a + b == a;
    } else {
      assert (a + b)[..|a + b| - 1] == a + b[..|b| - 1];
      CountConcat(a, b[..|b| - 1], c);
    }
  }

  /** Sum of the occurrences of `c` over the parts. */
  function CountAll(parts: seq<string>, c: char): nat
    decreases |parts|
  {
    if |parts| == 0 then 0 else CountAll(parts[..|parts| - 1], c) + Count(parts[|parts| - 1], c)
  }

  /** A join holds the occurrences of `c` of its parts and of its separators. */
  lemma {:induction false} CountJoin(parts: seq<string>, sep: string, c: char)
    requires |parts| > 0
    ensures Count(Join(parts, sep), c) == CountAll(parts, c) + (|parts| - 1) * Count(sep, c)
    decreases |parts|
  {
    var n := |parts|;
    if n == 1 {
      assert parts[..0] == [];
    } else {
      var init := parts[..n - 1];
      CountJoin(init, sep, c);
      assert (n - 1) * Count(sep, c) == (n - 2) * Count(sep, c) + Count(sep, c);
      CountConcat(Join(init, sep), sep, c);
      CountConcat(Join(init, sep) + sep, parts[n - 1], c);
    }
  }

  /** A string without a line break. */
  predicate SingleLine(s: string)
  {
    forall i :: 0 <= i < |s| ==> s[i] != '\n'
  }

  lemma {:induction false} CountSingleLine(s: string)
    requires SingleLine(s)
    ensures Count(s, '\n') == 0
    decreases |s|
  {
    if |s| > 0 {
      CountSingleLine(s[..|s| - 1]);
    }
  }

  lemma {:induction false} CountAllSingleLines(parts: seq<string>)
    requires forall k :: 0 <= k < |parts| ==> SingleLine(parts[k])
    ensures CountAll(parts, '\n') == 0
    decreases |parts|
  {
    if |parts| > 0 {
      CountAllSingleLines(parts[..|parts| - 1]);
      CountSingleLine(parts[|parts| - 1]);
    }
  }

  /** A slice that lies inside the right operand of a concatenation. */
  lemma SliceRight(a: string, b: string, i: nat, j: nat)
    requires |a| <= i <= j <= |a| + |b|
    ensures (a + b)[i..j] == b[i - |a|..j - |a|]
  {
  }

  /** Where part `i` starts in a join: after the parts before it and, unless
      it is the first, one separator. */
  function PartStart(parts: seq<string>, sep: string, i: nat): nat
    requires i <= |parts|
  {
    |Join(parts[..i], sep)| + (if i == 0 then 0 else |sep|)
  }

  /** `part` stands in `whole` starting at index `at`. */
  predicate OccursAt(whole: string, part: string, at: nat)
  {
    at + |part| <= |whole| && whole[at..at + |part|] == part
  }

  /** Part `i` of a join placed after a fixed leading text: before it stand
      the leading text, the earlier parts and one separator; the last part
      ends the text. */
  lemma JoinAtAfter(lead: string, parts: seq<string>, sep: string, i: nat)
    requires i < |parts|
    ensures OccursAt(lead + Join(parts, sep), parts[i], |lead| + PartStart(parts, sep, i))
    ensures var start := |lead| + PartStart(parts, sep, i);
            (lead + Join(parts, sep))[..start] == lead + Join(parts[..i], sep) + (if i == 0 then "" else sep)
    ensures i == |parts| - 1 ==> |lead| + PartStart(parts, sep, i) + |parts[i]| == |lead + Join(parts, sep)|
  {
    JoinAt(parts, sep, i);
    var body := Join(parts, sep);
    var before := Join(parts[..i], sep) + (if i == 0 then "" else sep);
    var start := |lead| + PartStart(parts, sep, i);
    assert |before| == PartStart(parts, sep, i);
    SliceRight(lead, body, start, start + |parts[i]|);
    assert (lead + body)[..start] == lead + body[..|before|];
  }
}
