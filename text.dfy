/** Python string operations the runners rely on: `str.join`, `str.split`,
    slicing with `[:n]` and `str.strip`. Strings are sequences of Unicode
    code points, as Python's are. */
module Text {

  /** `sep.join(parts)` */
  function Join(parts: seq<string>, sep: string): string
  {
    if parts == [] then ""
    else if |parts| == 1 then parts[0]
    else parts[0] + sep + Join(parts[1..], sep)
  }

  /** `s.split(c)` for a one-character separator `c`. */
  function Split(s: string, c: char): (r: seq<string>)
    ensures |r| >= 1
  {
    if s == [] then [""]
    else if s[0] == c then [""] + Split(s[1..], c)
    else
      var rest := Split(s[1..], c);
      [[s[0]] + rest[0]] + rest[1..]
  }

  predicate StartsWith(s: string, prefix: string) {
    |prefix| <= |s| && s[..|prefix|] == prefix
  }

  predicate EndsWith(s: string, suffix: string) {
    |suffix| <= |s| && s[|s| - |suffix|..] == suffix
  }

  /** `part in s` for strings: `part` occurs in `s` at some position. */
  predicate Contains(s: string, part: string) {
    exists k :: 0 <= k <= |s| && StartsWith(s[k..], part)
  }

  /** `s[:n]` for a non-negative `n`: the first `n` code points, or all of `s`. */
  function Take(s: string, n: nat): (r: string)
    ensures |r| == if |s| <= n then |s| else n
    ensures r == s[..|r|]
  {
    if |s| <= n then s else s[..n]
  }

  /** The characters for which Python's `str.isspace()` holds. */
  predicate IsSpace(c: char) {
    || ('\t' <= c <= '\r')
    || ('\U{1c}' <= c <= '\U{1f}')
    || c == ' ' || c == '\U{85}' || c == '\U{a0}' || c == '\U{1680}'
    || ('\U{2000}' <= c <= '\U{200a}')
    || c == '\U{2028}' || c == '\U{2029}' || c == '\U{202f}' || c == '\U{205f}' || c == '\U{3000}'
  }

  /** Every character of `s` is whitespace (vacuously so for ""). */
  predicate IsBlank(s: string) {
    forall i :: 0 <= i < |s| ==> IsSpace(s[i])
  }

  function StripLeft(s: string): string {
    if s != [] && IsSpace(s[0]) then StripLeft(s[1..]) else s
  }

  function StripRight(s: string): string {
    if s != [] && IsSpace(s[|s| - 1]) then StripRight(s[..|s| - 1]) else s
  }

  /** `s.strip()` with no argument. */
  function Strip(s: string): string {
    StripRight(StripLeft(s))
  }

  // ---------------------------------------------------------------------
  // Lemmas

  /** Splitting a joined list at a separator that no part contains gives the parts back. */
  lemma {:induction false} SplitJoin(parts: seq<string>, c: char)
    requires parts != []
    requires forall i :: 0 <= i < |parts| ==> c !in parts[i]
    ensures Split(Join(parts, [c]), c) == parts
  {
    if |parts| == 1 {
      SplitNoSeparator(parts[0], c);
    } else {
      var tail := parts[1..];
      assert Join(parts, [c]) == parts[0] + [c] + Join(tail, [c]);
      SplitAtFirst(parts[0], Join(tail, [c]), c);
      SplitJoin(tail, c);
      assert parts == [parts[0]] + tail;
    }
  }

  lemma {:induction false} SplitNoSeparator(s: string, c: char)
    requires c !in s
    ensures Split(s, c) == [s]
  {
    if s != [] {
      assert c !in s[1..];
      SplitNoSeparator(s[1..], c);
      assert [s[0]] + s[1..] == s;
    }
  }

  lemma {:induction false} SplitAtFirst(x: string, y: string, c: char)
    requires c !in x
    ensures Split(x + [c] + y, c) == [x] + Split(y, c)
  {
    var s := x + [c] + y;
    if x == [] {
      assert s == [c] + y;
      assert s[1..] == y;
    } else {
      assert s[0] == x[0];
      assert s[1..] == x[1..] + [c] + y;
      assert c !in x[1..];
      SplitAtFirst(x[1..], y, c);
      assert [x[0]] + x[1..] == x;
    }
  }

  lemma {:induction false} StripLeftEmpty(s: string)
    ensures StripLeft(s) == "" <==> IsBlank(s)
    ensures StripLeft(s) != "" ==> !IsSpace(StripLeft(s)[0])
  {
    if s != [] && IsSpace(s[0]) {
      StripLeftEmpty(s[1..]);
      assert IsBlank(s[1..]) ==> IsBlank(s) by {
        if IsBlank(s[1..]) {
          forall i | 0 <= i < |s| ensures IsSpace(s[i]) {
            if i > 0 { assert s[i] == s[1..][i - 1]; }
          }
        }
      }
    } else if s != [] {
      assert !IsSpace(s[0]);
    }
  }

  lemma {:induction false} StripRightEmpty(s: string)
    requires s != "" ==> !IsSpace(s[0])
    ensures StripRight(s) == "" <==> s == ""
  {
    if s != [] && IsSpace(s[|s| - 1]) {
      assert |s| > 1;
      var init := s[..|s| - 1];
      assert init[0] == s[0];
      StripRightEmpty(init);
    }
  }

  /** `s.strip()` is empty exactly when `s` holds no non-whitespace character. */
  lemma StripEmptyIffBlank(s: string)
    ensures Strip(s) == "" <==> IsBlank(s)
  {
    StripLeftEmpty(s);
    StripRightEmpty(StripLeft(s));
  }

  /** A joined list starts with its first part. */
  lemma {:induction false} JoinStartsWithFirst(parts: seq<string>, sep: string)
    requires parts != []
    ensures StartsWith(Join(parts, sep), parts[0])
  {
    if |parts| > 1 {
      var j := Join(parts, sep);
      assert j == parts[0] + (sep + Join(parts[1..], sep));
      assert j[..|parts[0]|] == parts[0];
    }
  }

  /** Every part of a join occurs in the joined string. */
  lemma {:induction false} JoinContainsPart(parts: seq<string>, sep: string, i: nat)
    requires i < |parts|
    ensures Contains(Join(parts, sep), parts[i])
  {
    var j := Join(parts, sep);
    if |parts| == 1 {
      assert j[0..] == parts[0];
    } else if i == 0 {
      assert j == parts[0] + (sep + Join(parts[1..], sep));
      assert j[0..][..|parts[0]|] == parts[0];
    } else {
      var rest := Join(parts[1..], sep);
      JoinContainsPart(parts[1..], sep, i - 1);
      assert parts[1..][i - 1] == parts[i];
      var k' :| 0 <= k' <= |rest| && StartsWith(rest[k'..], parts[i]);
      var front := parts[0] + sep;
      assert j == front + rest;
      var k := |front| + k';
      assert j[k..] == rest[k'..];
    }
  }
}
