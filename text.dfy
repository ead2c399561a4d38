/** String helpers with the meaning JavaScript gives them, over `seq<char>`. */
module Text {

  // ---------------------------------------------------------------------------
  // Case mapping (ASCII letters only)
  // ---------------------------------------------------------------------------

  function UpperChar(c: char): char {
    if 'a' <= c <= 'z' then (c as int - 32) as char else c
  }

  function LowerChar(c: char): char {
    if 'A' <= c <= 'Z' then (c as int + 32) as char else c
  }

  /** `s.toUpperCase()` restricted to ASCII letters. */
  function Upper(s: string): (r: string)
    ensures |r| == |s|
    ensures forall i :: 0 <= i < |r| ==> !('a' <= r[i] <= 'z')
  {
    if s == [] then [] else Upper(s[..|s| - 1]) + [UpperChar(s[|s| - 1])]
  }

  /** `s.toLowerCase()` restricted to ASCII letters. */
  function Lower(s: string): (r: string)
    ensures |r| == |s|
    ensures forall i :: 0 <= i < |r| ==> !('A' <= r[i] <= 'Z')
  {
    if s == [] then [] else Lower(s[..|s| - 1]) + [LowerChar(s[|s| - 1])]
  }

  lemma {:induction false} UpperAt(s: string, i: nat)
    requires i < |s|
    ensures Upper(s)[i] == UpperChar(s[i])
  {
    if i < |s| - 1 {
      UpperAt(s[..|s| - 1], i);
    }
  }

  lemma {:induction false} LowerAt(s: string, i: nat)
    requires i < |s|
    ensures Lower(s)[i] == LowerChar(s[i])
  {
    if i < |s| - 1 {
      LowerAt(s[..|s| - 1], i);
    }
  }

  /** Upper-casing forgets any earlier lower-casing. */
  lemma {:induction false} UpperOfLower(s: string)
    ensures Upper(Lower(s)) == Upper(s)
  {
    forall i | 0 <= i < |s|
      ensures Upper(Lower(s))[i] == Upper(s)[i]
    {
      UpperAt(Lower(s), i);
      LowerAt(s, i);
      UpperAt(s, i);
      UpperOfLowerChar(s[i]);
    }
  }

  lemma UpperOfLowerChar(c: char)
    ensures UpperChar(LowerChar(c)) == UpperChar(c)
  {
  }

  // ---------------------------------------------------------------------------
  // Searching
  // ---------------------------------------------------------------------------

  /** Index of the first `c` in `s`, or `|s|` when there is none. */
  function IndexOf(s: string, c: char): (k: nat)
    ensures k <= |s|
    ensures c !in s[..k]
    ensures k < |s| ==> s[k] == c
  {
    if s == [] then 0
    else if s[0] == c then 0
    else 1 + IndexOf(s[1..], c)
  }

  /** Index of the last `c` in `s`, or -1 when there is none. */
  function LastIndexOf(s: string, c: char): (k: int)
    ensures -1 <= k < |s|
    ensures k == -1 <==> c !in s
    ensures k >= 0 ==> s[k] == c && c !in s[k + 1..]
  {
    if s == [] then -1
    else if s[|s| - 1] == c then |s| - 1
    else
      var init := s[..|s| - 1];
      assert s == init + [s[|s| - 1]];
      var k := LastIndexOf(init, c);
      assert k >= 0 ==> s[k + 1..] == init[k + 1..] + [s[|s| - 1]];
      k
  }

  predicate StartsWith(s: string, prefix: string) {
    |prefix| <= |s| && s[..|prefix|] == prefix
  }

  predicate EndsWith(s: string, suffix: string) {
    |suffix| <= |s| && s[|s| - |suffix|..] == suffix
  }

  /** `s.includes(t)`. */
  predicate Contains(s: string, t: string)
    decreases |s|
  {
    StartsWith(s, t) || (|s| > 0 && Contains(s[1..], t))
  }

  /** An occurrence of `t` at position `i` makes `s` contain `t`. */
  lemma {:induction false} ContainsAt(s: string, t: string, i: nat)
    requires i + |t| <= |s| && s[i..i + |t|] == t
    ensures Contains(s, t)
  {
    if i > 0 {
      assert s[1..][i - 1..i - 1 + |t|] == s[i..i + |t|];
      ContainsAt(s[1..], t, i - 1);
    }
  }

  // ---------------------------------------------------------------------------
  // Split and join on a separator character
  // ---------------------------------------------------------------------------

  /** `s.split(sep)`: always at least one part, and no part holds `sep`. */
  function Split(s: string, sep: char): (parts: seq<string>)
    ensures |parts| >= 1
    ensures forall i :: 0 <= i < |parts| ==> sep !in parts[i]
    decreases |s|
  {
    var k := LastIndexOf(s, sep);
    if k < 0 then [s] else Split(s[..k], sep) + [s[k + 1..]]
  }

  /** `parts.join(sep)`. */
  function Join(parts: seq<string>, sep: char): string
  {
    if parts == [] then []
    else if |parts| == 1 then parts[0]
    else Join(parts[..|parts| - 1], sep) + [sep] + parts[|parts| - 1]
  }

  /** Joining the parts of a split gives back the string. */
  lemma {:induction false} JoinSplit(s: string, sep: char)
    ensures Join(Split(s, sep), sep) == s
    decreases |s|
  {
    var k := LastIndexOf(s, sep);
    if k >= 0 {
      var front := Split(s[..k], sep);
      JoinSplit(s[..k], sep);
      assert (front + [s[k + 1..]])[..|front|] == front;
      assert s == s[..k] + [sep] + s[k + 1..];
    }
  }

  /** Splitting after appending a separator and a separator-free tail adds one part. */
  lemma SplitAppend(a: string, sep: char, b: string)
    requires sep !in b
    ensures Split(a + [sep] + b, sep) == Split(a, sep) + [b]
  {
    var s := a + [sep] + b;
    assert s[|a|] == sep;
    assert s[|a| + 1..] == b;
    assert s[..|a|] == a;
  }

  /** A string without the separator splits into itself alone. */
  lemma SplitWhole(s: string, sep: char)
    requires sep !in s
    ensures Split(s, sep) == [s]
  {
  }

  /** Two separator-free strings joined by one separator split back into the two. */
  lemma SplitTwo(a: string, sep: char, b: string)
    requires sep !in a && sep !in b
    ensures Split(a + [sep] + b, sep) == [a, b]
  {
    SplitAppend(a, sep, b);
    SplitWhole(a, sep);
  }

  /** The last part of a split is everything after the last separator. */
  lemma SplitLast(s: string, sep: char)
    ensures Split(s, sep)[|Split(s, sep)| - 1] == s[LastIndexOf(s, sep) + 1..]
  {
  }

  /** The first part of a split is everything before the first separator. */
  lemma {:induction false} SplitFirst(s: string, sep: char)
    ensures Split(s, sep)[0] == s[..IndexOf(s, sep)]
    decreases |s|
  {
    var k := LastIndexOf(s, sep);
    if k < 0 {
      IndexOfAbsent(s, sep);
      assert Split(s, sep) == [s];
    } else {
      var front := Split(s[..k], sep);
      assert Split(s, sep) == front + [s[k + 1..]];
      SplitFirst(s[..k], sep);
      IndexOfPrefix(s, sep, k);
      var j := IndexOf(s, sep);
      assert front[0] == s[..k][..j];
      assert s[..k][..j] == s[..j];
    }
  }

  lemma {:induction false} IndexOfAbsent(s: string, c: char)
    requires c !in s
    ensures IndexOf(s, c) == |s|
  {
    if s != [] {
      IndexOfAbsent(s[1..], c);
    }
  }

  /** The first occurrence is found in any prefix that ends at an occurrence. */
  lemma {:induction false} IndexOfPrefix(s: string, c: char, k: nat)
    requires k < |s| && s[k] == c
    ensures IndexOf(s[..k], c) == IndexOf(s, c)
  {
    if s[0] != c {
      assert s[..k][1..] == s[1..][..k - 1];
      IndexOfPrefix(s[1..], c, k - 1);
    }
  }

  // ---------------------------------------------------------------------------
  // Whitespace (JavaScript's WhiteSpace and LineTerminator, which `\s` also matches)
  // ---------------------------------------------------------------------------

  predicate IsSpace(c: char) {
    if c < '\U{80}' then c == ' ' || '\t' <= c <= '\r'
    else
      || c == '\U{A0}' || c == '\U{1680}' || ('\U{2000}' <= c <= '\U{200A}')
      || c == '\U{2028}' || c == '\U{2029}' || c == '\U{202F}' || c == '\U{205F}'
      || c == '\U{3000}' || c == '\U{FEFF}'
  }

  /** Drops leading whitespace. */
  function TrimStart(s: string): (r: string)
    ensures |r| <= |s| && r == s[|s| - |r|..]
    ensures r == [] || !IsSpace(r[0])
  {
    if s != [] && IsSpace(s[0]) then TrimStart(s[1..]) else s
  }

  /** Drops trailing whitespace. */
  function TrimEnd(s: string): (r: string)
    ensures |r| <= |s| && r == s[..|r|]
    ensures r == [] || !IsSpace(r[|r| - 1])
  {
    if s != [] && IsSpace(s[|s| - 1]) then TrimEnd(s[..|s| - 1]) else s
  }

  /** `s.trim()`. */
  function Trim(s: string): string {
    TrimEnd(TrimStart(s))
  }

  /** `s.replace(/\s+/g, '-')`: every maximal run of whitespace becomes one dash. */
  function DashForSpaceRuns(s: string): (r: string)
    ensures s != [] ==> r != []
    decreases |s|
  {
    if s == [] then []
    else if IsSpace(s[0]) then "-" + DashForSpaceRuns(TrimStart(s))
    else [s[0]] + DashForSpaceRuns(s[1..])
  }

  /**
   * The result holds no whitespace, is no longer than the input, and is the input itself when
   * the input holds no whitespace.
   */
  lemma {:induction false} DashForSpaceRunsShape(s: string)
    ensures var r := DashForSpaceRuns(s);
      && (forall i :: 0 <= i < |r| ==> !IsSpace(r[i]))
      && |r| <= |s|
      && ((forall i :: 0 <= i < |s| ==> !IsSpace(s[i])) ==> r == s)
    decreases |s|
  {
    if s == [] {
    } else if IsSpace(s[0]) {
      DashForSpaceRunsShape(TrimStart(s));
    } else {
      DashForSpaceRunsShape(s[1..]);
      var r, q := DashForSpaceRuns(s), DashForSpaceRuns(s[1..]);
      assert r == [s[0]] + q;
      assert forall i :: 1 <= i < |r| ==> r[i] == q[i - 1];
      if forall i :: 0 <= i < |s| ==> !IsSpace(s[i]) {
        assert forall i :: 0 <= i < |s[1..]| ==> !IsSpace(s[1..][i]) by {
          forall i | 0 <= i < |s[1..]| ensures !IsSpace(s[1..][i]) {
            assert s[1..][i] == s[i + 1];
          }
        }
        assert s == [s[0]] + s[1..];
      }
    }
  }

  /** Trimming a whitespace run off the front of `b` leaves `b`. */
  lemma {:induction false} TrimStartRun(w: string, b: string)
    requires forall i :: 0 <= i < |w| ==> IsSpace(w[i])
    requires b == [] || !IsSpace(b[0])
    ensures TrimStart(w + b) == b
    decreases |w|
  {
    if w != [] {
      assert (w + b)[1..] == w[1..] + b;
      TrimStartRun(w[1..], b);
    } else {
      assert w + b == b;
    }
  }

  lemma ConcatAssoc(p: string, x: string, tail: string)
    ensures p + (x + tail) == (p + x) + tail
  {
  }

  /** A leading whitespace run becomes one dash. */
  lemma LeadingRun(w: string, b: string)
    requires w != [] && forall i :: 0 <= i < |w| ==> IsSpace(w[i])
    requires b == [] || !IsSpace(b[0])
    ensures DashForSpaceRuns(w + b) == "-" + DashForSpaceRuns(b)
  {
    assert (w + b)[0] == w[0];
    TrimStartRun(w, b);
  }

  /** A leading non-space character is copied, whatever follows it. */
  lemma CopyHead(a: string, rest: string)
    requires a != [] && !IsSpace(a[0])
    ensures DashForSpaceRuns(a + rest) == [a[0]] + DashForSpaceRuns(a[1..] + rest)
  {
    assert (a + rest)[0] == a[0];
    assert (a + rest)[1..] == a[1..] + rest;
  }

  /** The step of `SpaceRunBecomesDash` for a leading non-space character. */
  lemma CopyHeadSplices(a: string, rest: string, tail: string)
    requires a != [] && !IsSpace(a[0])
    requires DashForSpaceRuns(a[1..] + rest) == DashForSpaceRuns(a[1..]) + tail
    ensures DashForSpaceRuns(a + rest) == DashForSpaceRuns(a) + tail
  {
    CopyHead(a, rest);
    ConcatAssoc([a[0]], DashForSpaceRuns(a[1..]), tail);
  }

  /** Whitespace followed by more whitespace adds nothing of its own. */
  lemma SkipSpace(x: string)
    requires |x| >= 2 && IsSpace(x[0]) && IsSpace(x[1])
    ensures DashForSpaceRuns(x) == DashForSpaceRuns(x[1..])
  {
    assert TrimStart(x) == TrimStart(x[1..]);
  }

  /** Whitespace right before a non-space becomes the dash. */
  lemma DashBeforeWord(x: string)
    requires |x| >= 2 && IsSpace(x[0]) && !IsSpace(x[1])
    ensures DashForSpaceRuns(x) == "-" + DashForSpaceRuns(x[1..])
  {
    assert TrimStart(x) == TrimStart(x[1..]) == x[1..];
  }

  /** The step of `SpaceRunBecomesDash` for leading whitespace. */
  lemma SpaceHeadSplices(a: string, rest: string, tail: string)
    requires a != [] && IsSpace(a[0]) && !IsSpace(a[|a| - 1])
    requires DashForSpaceRuns(a[1..] + rest) == DashForSpaceRuns(a[1..]) + tail
    ensures DashForSpaceRuns(a + rest) == DashForSpaceRuns(a) + tail
  {
    assert |a| >= 2;
    var s := a + rest;
    assert s[0] == a[0] && s[1] == a[1] && s[1..] == a[1..] + rest;
    if IsSpace(a[1]) {
      SkipSpace(s);
      SkipSpace(a);
    } else {
      DashBeforeWord(s);
      DashBeforeWord(a);
      ConcatAssoc("-", DashForSpaceRuns(a[1..]), tail);
    }
  }

  /**
   * A whole whitespace run between two non-space characters becomes exactly one dash,
   * and the text on either side is treated independently.
   */
  lemma {:induction false} SpaceRunBecomesDash(a: string, w: string, b: string)
    requires w != [] && forall i :: 0 <= i < |w| ==> IsSpace(w[i])
    requires a == [] || !IsSpace(a[|a| - 1])
    requires b == [] || !IsSpace(b[0])
    ensures DashForSpaceRuns(a + w + b) == DashForSpaceRuns(a) + "-" + DashForSpaceRuns(b)
    decreases |a|
  {
    var tail := "-" + DashForSpaceRuns(b);
    SpliceShape(a, w, b, tail);
    if a == [] {
      LeadingRun(w, b);
    } else {
      assert a[1..] == [] || a[1..][|a[1..]| - 1] == a[|a| - 1];
      SpaceRunBecomesDash(a[1..], w, b);
      SpliceShape(a[1..], w, b, tail);
      if !IsSpace(a[0]) {
        CopyHeadSplices(a, w + b, tail);
      } else {
        SpaceHeadSplices(a, w + b, tail);
      }
    }
  }

  /** Regrouping of the two sides of `SpaceRunBecomesDash`. */
  lemma SpliceShape(a: string, w: string, b: string, tail: string)
    requires tail == "-" + DashForSpaceRuns(b)
    ensures a + w + b == a + (w + b)
    ensures a == [] ==> a + w + b == w + b
    ensures DashForSpaceRuns(a) + "-" + DashForSpaceRuns(b) == DashForSpaceRuns(a) + tail
  {
    assert a + w + b == a + (w + b);
  }

  // ---------------------------------------------------------------------------
  // Decimal digits
  // ---------------------------------------------------------------------------

  predicate IsDigit(c: char) {
    '0' <= c <= '9'
  }

  predicate AllDigits(s: string) {
    forall i :: 0 <= i < |s| ==> IsDigit(s[i])
  }

  /** `String(n)` for a non-negative integer. */
  function Decimal(n: nat): (r: string)
    ensures r != [] && AllDigits(r)
  {
    if n < 10 then [('0' as int + n) as char]
    else Decimal(n / 10) + [('0' as int + n % 10) as char]
  }
}
