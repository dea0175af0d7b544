/**
 * The JavaScript string operations the core relies on: trim, startsWith,
 * endsWith, includes, indexOf, replace (first occurrence and global with a
 * literal pattern), split, join and toLowerCase.
 */
module Text {

  /** ECMAScript WhiteSpace and LineTerminator code points: what trim() removes. */
  predicate IsSpace(c: char) {
    || c == '\t' || c == '\n' || c == '\U{000B}' || c == '\U{000C}' || c == '\r'
    || c == ' ' || c == '\U{00A0}' || c == '\U{1680}'
    || ('\U{2000}' <= c <= '\U{200A}')
    || c == '\U{2028}' || c == '\U{2029}' || c == '\U{202F}' || c == '\U{205F}'
    || c == '\U{3000}' || c == '\U{FEFF}'
  }

  /** String.prototype.trimStart */
  function TrimStart(s: string): (r: string)
    ensures |r| <= |s| && r == s[|s| - |r|..]
    ensures r == [] || !IsSpace(r[0])
    ensures forall i :: 0 <= i < |s| - |r| ==> IsSpace(s[i])
  {
    if s != [] && IsSpace(s[0]) then
      var t := TrimStart(s[1..]);
      assert forall i :: 1 <= i < |s| - |t| ==> s[i] == s[1..][i - 1];
      t
    else s
  }

  /** String.prototype.trimEnd */
  function TrimEnd(s: string): (r: string)
    ensures |r| <= |s| && r == s[..|r|]
    ensures r == [] || !IsSpace(r[|r| - 1])
    ensures forall i :: |r| <= i < |s| ==> IsSpace(s[i])
  {
    if s != [] && IsSpace(s[|s| - 1]) then TrimEnd(s[..|s| - 1]) else s
  }

  /** String.prototype.trim */
  function Trim(s: string): string {
    TrimEnd(TrimStart(s))
  }

  predicate StartsWith(s: string, p: string) {
    |p| <= |s| && s[..|p|] == p
  }

  predicate EndsWith(s: string, p: string) {
    |p| <= |s| && s[|s| - |p|..] == p
  }

  /** `p` occurs in `s` starting at index `i`. */
  predicate OccursAt(s: string, p: string, i: int) {
    0 <= i && i + |p| <= |s| && s[i..i + |p|] == p
  }

  /** The first index at or after `from` where `p` occurs in `s`, or -1. */
  function IndexFrom(s: string, p: string, from: nat): (k: int)
    ensures k == -1 || (from <= k && OccursAt(s, p, k))
    ensures forall j :: from <= j && (k == -1 || j < k) ==> !OccursAt(s, p, j)
    decreases |s| - from
  {
    if from + |p| > |s| then -1
    else if s[from..from + |p|] == p then from
    else IndexFrom(s, p, from + 1)
  }

  /** String.prototype.indexOf */
  function IndexOf(s: string, p: string): int {
    IndexFrom(s, p, 0)
  }

  /** String.prototype.includes */
  predicate Contains(s: string, p: string) {
    IndexOf(s, p) >= 0
  }

  lemma ContainsIff(s: string, p: string)
    ensures Contains(s, p) <==> exists i :: OccursAt(s, p, i)
  {
    if !Contains(s, p) {
      assert forall i :: 0 <= i ==> !OccursAt(s, p, i);
    }
  }

  lemma SliceOfSlice(s: string, a: nat, b: nat, i: nat, j: nat)
    requires a <= b <= |s| && i <= j <= b - a
    ensures s[a..b][i..j] == s[a + i..a + j]
  {
    assert forall k :: 0 <= k < j - i ==> s[a..b][i..j][k] == s[a + i + k];
  }

  /** An occurrence inside a slice is an occurrence in the whole string. */
  lemma ContainsInfix(s: string, a: nat, b: nat, p: string)
    requires a <= b <= |s|
    requires Contains(s[a..b], p)
    ensures Contains(s, p)
  {
    var t := s[a..b];
    ContainsIff(t, p);
    var i :| OccursAt(t, p, i);
    SliceOfSlice(s, a, b, i, i + |p|);
    assert OccursAt(s, p, a + i);
    ContainsIff(s, p);
  }

  /** String.prototype.replace(p, v) with a string pattern: only the first occurrence. */
  function ReplaceFirst(s: string, p: string, v: string): string
    decreases |s|
  {
    if StartsWith(s, p) then v + s[|p|..]
    else if s == [] then s
    else [s[0]] + ReplaceFirst(s[1..], p, v)
  }

  /** An occurrence one place further into `s` is an occurrence in `s[1..]`. */
  lemma OccursAtShift(s: string, p: string, j: nat)
    requires s != []
    ensures OccursAt(s, p, j + 1) == OccursAt(s[1..], p, j)
  {
    if j + 1 + |p| <= |s| {
      assert s[j + 1..j + 1 + |p|] == s[1..][j..j + |p|];
    }
  }

  /** The scan agrees with the indexOf-based definition: the first occurrence, if any, is replaced. */
  lemma {:induction false} ReplaceFirstSpec(s: string, p: string, v: string)
    ensures IndexOf(s, p) < 0 ==> ReplaceFirst(s, p, v) == s
    ensures IndexOf(s, p) >= 0 ==> ReplaceFirst(s, p, v) == s[..IndexOf(s, p)] + v + s[IndexOf(s, p) + |p|..]
    decreases |s|
  {
    var k := IndexOf(s, p);
    if StartsWith(s, p) {
      assert OccursAt(s, p, 0);
      assert k == 0;
    } else if s == [] {
      assert |p| > 0;
      assert k == -1;
    } else {
      var t := s[1..];
      ReplaceFirstSpec(t, p, v);
      IndexOfShift(s, p);
      var k' := IndexOf(t, p);
      assert ReplaceFirst(s, p, v) == [s[0]] + ReplaceFirst(t, p, v);
      if k' < 0 {
        assert [s[0]] + t == s;
      } else {
        ReplaceFirstShift(s, k', p, v);
      }
    }
  }

  /** One step of the scan: a replacement at `k'` in `s[1..]` is one at `k' + 1` in `s`. */
  lemma ReplaceFirstShift(s: string, k': nat, p: string, v: string)
    requires s != [] && k' + |p| <= |s| - 1
    ensures [s[0]] + (s[1..][..k'] + v + s[1..][k' + |p|..]) == s[..k' + 1] + v + s[k' + 1 + |p|..]
  {
    assert [s[0]] + s[1..][..k'] == s[..k' + 1];
    assert s[1..][k' + |p|..] == s[k' + 1 + |p|..];
  }

  /** Past a non-occurrence at 0, indexOf on `s` is one more than on `s[1..]`. */
  lemma IndexOfShift(s: string, p: string)
    requires s != [] && !StartsWith(s, p)
    ensures IndexOf(s[1..], p) < 0 ==> IndexOf(s, p) == -1
    ensures IndexOf(s[1..], p) >= 0 ==> IndexOf(s, p) == IndexOf(s[1..], p) + 1
  {
    var t := s[1..];
    var k := IndexOf(s, p);
    var k' := IndexOf(t, p);
    assert !OccursAt(s, p, 0);
    forall j: nat
      ensures OccursAt(s, p, j + 1) == OccursAt(t, p, j)
    {
      OccursAtShift(s, p, j);
    }
    if k >= 0 {
      assert OccursAt(s, p, k);
      assert OccursAt(t, p, k - 1);
    }
    if k' >= 0 {
      assert OccursAt(s, p, k' + 1);
    }
  }

  /**
   * String.prototype.replace(/p/g, v) with a literal, non-empty pattern: scan
   * from the left, replace each match and resume after it.
   */
  function ReplaceAll(s: string, p: string, v: string): string
    requires |p| > 0
    decreases |s|
  {
    if |s| < |p| then s
    else if s[..|p|] == p then v + ReplaceAll(s[|p|..], p, v)
    else [s[0]] + ReplaceAll(s[1..], p, v)
  }

  /** Character-wise ASCII lower-casing (String.prototype.toLowerCase on A-Z). */
  function LowerChar(c: char): char {
    if 'A' <= c <= 'Z' then (c as int + 32) as char else c
  }

  function ToLower(s: string): (r: string)
    ensures |r| == |s|
    ensures forall i :: 0 <= i < |s| ==> r[i] == LowerChar(s[i])
  {
    seq(|s|, i requires 0 <= i < |s| => LowerChar(s[i]))
  }

  /** The same replacement as ReplaceAll, with the pattern matched ignoring ASCII case (the `i` flag). */
  function ReplaceAllIgnoreCase(s: string, p: string, v: string): string
    requires |p| > 0
    decreases |s|
  {
    if |s| < |p| then s
    else if ToLower(s[..|p|]) == ToLower(p) then v + ReplaceAllIgnoreCase(s[|p|..], p, v)
    else [s[0]] + ReplaceAllIgnoreCase(s[1..], p, v)
  }

  /** Array.prototype.join */
  function Join(parts: seq<string>, sep: string): string
    decreases |parts|
  {
    if |parts| == 0 then ""
    else if |parts| == 1 then parts[0]
    else parts[0] + sep + Join(parts[1..], sep)
  }

  /** Joining one more part appends the separator and that part. */
  lemma {:induction false} JoinSnoc(parts: seq<string>, x: string, sep: string)
    requires |parts| > 0
    ensures Join(parts + [x], sep) == Join(parts, sep) + sep + x
    decreases |parts|
  {
    if |parts| == 1 {
      assert (parts + [x])[1..] == [x];
    } else {
      assert (parts + [x])[1..] == parts[1..] + [x];
      JoinSnoc(parts[1..], x, sep);
    }
  }

  /** A join begins with its first part and ends with its last. */
  lemma {:induction false} JoinEnds(parts: seq<string>, sep: string)
    requires |parts| > 0
    ensures StartsWith(Join(parts, sep), parts[0])
    ensures EndsWith(Join(parts, sep), parts[|parts| - 1])
  {
    if |parts| > 1 {
      JoinEnds(parts[1..], sep);
      var rest := Join(parts[1..], sep);
      var last := parts[|parts| - 1];
      assert parts[1..][|parts| - 2] == last;
      var j := parts[0] + sep + rest;
      assert j[..|parts[0]|] == parts[0];
      assert j[|j| - |last|..] == rest[|rest| - |last|..];
    }
  }

  /** What the whole string lacks, its tail lacks too. */
  lemma NotContainsTail(s: string, p: string)
    requires |s| > 0 && !Contains(s, p)
    ensures !Contains(s[1..], p)
  {
    if Contains(s[1..], p) {
      assert s[1..|s|] == s[1..];
      ContainsInfix(s, 1, |s|, p);
    }
  }

  /** A prefix of a prefix, and a suffix of a suffix. */
  lemma AffixTransitive(s: string, t: string, u: string)
    ensures StartsWith(s, t) && StartsWith(t, u) ==> StartsWith(s, u)
    ensures EndsWith(s, t) && EndsWith(t, u) ==> EndsWith(s, u)
  {
    if StartsWith(s, t) && StartsWith(t, u) {
      assert s[..|u|] == s[..|t|][..|u|];
    }
    if EndsWith(s, t) && EndsWith(t, u) {
      assert s[|s| - |u|..] == s[|s| - |t|..][|t| - |u|..];
    }
  }

  /** String.prototype.split with a one-character separator. */
  function Split(s: string, c: char): (r: seq<string>)
    ensures |r| > 0
    decreases |s|
  {
    var k := IndexOf(s, [c]);
    if k < 0 then [s] else [s[..k]] + Split(s[k + 1..], c)
  }

  /** A string free of `c` splits into itself. */
  lemma SplitNone(a: string, c: char)
    requires c !in a
    ensures Split(a, c) == [a]
  {
    ContainsChar(a, c);
  }

  /** The first `c` of a + [c] + b, when `a` has none, is at |a|. */
  lemma IndexOfSeparator(a: string, c: char, b: string)
    requires c !in a
    ensures IndexOf(a + [c] + b, [c]) == |a|
  {
    var s := a + [c] + b;
    assert s[|a|..|a| + 1] == [c];
    assert OccursAt(s, [c], |a|);
    forall j | 0 <= j < |a|
      ensures !OccursAt(s, [c], j)
    {
      assert s[j] == a[j];
      assert s[j..j + 1][0] == s[j];
    }
  }

  /** Splitting at the first separator: the part before it and the split of the rest. */
  lemma SplitAt(a: string, c: char, b: string)
    requires c !in a
    ensures Split(a + [c] + b, c) == [a] + Split(b, c)
  {
    var s := a + [c] + b;
    IndexOfSeparator(a, c, b);
    assert s[..|a|] == a;
    assert s[|a| + 1..] == b;
  }

  /** What precedes the first separator. */
  lemma BeforeSeparator(a: string, c: char, b: string)
    requires c !in a
    ensures Before(a + [c] + b, c) == a
  {
    IndexOfSeparator(a, c, b);
    assert (a + [c] + b)[..|a|] == a;
  }

  /** Joining with a separator no part contains, then splitting at it, gives the parts back. */
  lemma {:induction false} SplitJoin(parts: seq<string>, c: char)
    requires |parts| > 0
    requires forall i :: 0 <= i < |parts| ==> c !in parts[i]
    ensures Split(Join(parts, [c]), c) == parts
    decreases |parts|
  {
    if |parts| == 1 {
      SplitNone(parts[0], c);
    } else {
      SplitJoin(parts[1..], c);
      SplitAt(parts[0], c, Join(parts[1..], [c]));
      assert [parts[0]] + parts[1..] == parts;
    }
  }

  /** s.split(c)[0]: everything before the first `c`. */
  function Before(s: string, c: char): (r: string)
    ensures StartsWith(s, r)
    ensures c !in r
    ensures |r| < |s| ==> s[|r|] == c
  {
    var k := IndexOf(s, [c]);
    if k < 0 then
      assert forall j :: 0 <= j < |s| ==> (s[j] == c ==> OccursAt(s, [c], j));
      s
    else
      assert forall j :: 0 <= j < k ==> (s[j] == c ==> OccursAt(s, [c], j));
      s[..k]
  }

  /** `"s".replace(/p$/, '')`: drop one trailing `p`. */
  function DropSuffix(s: string, p: string): (r: string)
    ensures EndsWith(s, p) ==> s == r + p
    ensures !EndsWith(s, p) ==> r == s
  {
    if EndsWith(s, p) then s[..|s| - |p|] else s
  }

  /** `"s".replace(/^p/, '')`: drop one leading `p`. */
  function DropPrefix(s: string, p: string): (r: string)
    ensures StartsWith(s, p) ==> s == p + r
    ensures !StartsWith(s, p) ==> r == s
  {
    if StartsWith(s, p) then s[|p|..] else s
  }

  // ---------------------------------------------------------------------
  // Lemmas
  // ---------------------------------------------------------------------

  /** A string that starts with a word framed by non-space characters still starts with it once trimmed. */
  lemma TrimKeepsPrefix(s: string, p: string)
    requires StartsWith(s, p) && |p| > 0
    requires !IsSpace(p[0]) && !IsSpace(p[|p| - 1])
    ensures StartsWith(Trim(s), p)
  {
    assert TrimStart(s) == s;
    var r := TrimEnd(s);
    assert !IsSpace(s[|p| - 1]);
    assert |r| >= |p|;
    assert r[..|p|] == s[..|p|];
  }

  /** Trim returns a slice of its input, so it adds no new occurrence of anything. */
  lemma TrimIsInfix(s: string) returns (a: nat, b: nat)
    ensures a <= b <= |s| && Trim(s) == s[a..b]
  {
    var t := TrimStart(s);
    a := |s| - |t|;
    b := a + |TrimEnd(t)|;
    assert t == s[a..];
    assert TrimEnd(t) == t[..b - a] == s[a..b];
  }

  /** A one-character pattern occurs exactly when the character does. */
  lemma ContainsChar(s: string, c: char)
    ensures Contains(s, [c]) <==> c in s
  {
    ContainsIff(s, [c]);
    if c in s {
      var i :| 0 <= i < |s| && s[i] == c;
      assert s[i..i + 1] == [c];
      assert OccursAt(s, [c], i);
    }
    if Contains(s, [c]) {
      var i := IndexOf(s, [c]);
      assert s[i..i + 1] == [c];
      assert s[i] == c;
    }
  }

  /** replace with a string pattern acts on the first occurrence: the one after a prefix free of its first character. */
  lemma {:induction false} ReplaceFirstAfter(a: string, p: string, b: string, v: string)
    requires |p| > 0 && p[0] !in a
    ensures ReplaceFirst(a + p + b, p, v) == a + v + b
    decreases |a|
  {
    var s := a + p + b;
    if a == [] {
      assert ReplaceFirst(s, p, v) == v + b by {
        assert s == p + b;
        assert StartsWith(s, p) by {
          assert s[..|p|] == p;
        }
        assert s[|p|..] == b;
      }
    } else {
      assert ReplaceFirst(s, p, v) == [a[0]] + ReplaceFirst(a[1..] + p + b, p, v) by {
        assert !StartsWith(s, p) by {
          if |p| <= |s| {
            assert s[..|p|][0] == a[0];
          }
        }
        assert a == [a[0]] + a[1..];
        assert s == [a[0]] + (a[1..] + p + b);
        assert s[0] == a[0];
        assert s[1..] == a[1..] + p + b;
      }
      ReplaceFirstAfter(a[1..], p, b, v);
      assert [a[0]] + (a[1..] + v + b) == a + v + b;
    }
  }

  /** A string with no white space at either end is left alone by trim. */
  lemma TrimUnspaced(s: string)
    requires s == [] || (!IsSpace(s[0]) && !IsSpace(s[|s| - 1]))
    ensures TrimStart(s) == s && TrimEnd(s) == s && Trim(s) == s
  {
  }

  /** Trimming twice is trimming once. */
  lemma TrimIdempotent(s: string)
    ensures Trim(Trim(s)) == Trim(s)
  {
    var t := Trim(s);
    if t != [] {
      assert !IsSpace(t[0]) by {
        var u := TrimStart(s);
        assert t == TrimEnd(u) && t == u[..|t|];
      }
      assert TrimStart(t) == t;
    }
  }

  const Ticks: string := "```"

  /** `s` begins with `k` backticks. */
  predicate TicksAhead(s: string, k: nat) {
    |s| >= k && forall i :: 0 <= i < k ==> s[i] == '`'
  }

  /** If the scan's output begins with k <= 2 backticks, so does its input. */
  lemma {:induction false} RemoveTicksLeading(t: string, k: nat)
    requires k <= 2
    ensures TicksAhead(ReplaceAll(t, Ticks, ""), k) ==> TicksAhead(t, k)
    decreases |t|
  {
    var r := ReplaceAll(t, Ticks, "");
    if |t| < 3 {
    } else if t[..3] == Ticks {
      assert forall i :: 0 <= i < 3 ==> t[i] == Ticks[i];
    } else if k > 0 {
      var r' := ReplaceAll(t[1..], Ticks, "");
      assert r == [t[0]] + r';
      RemoveTicksLeading(t[1..], k - 1);
      if TicksAhead(r, k) {
        assert forall i :: 0 <= i < k - 1 ==> r'[i] == r[i + 1];
        assert TicksAhead(r', k - 1);
        assert r[0] == t[0];
        assert forall i :: 1 <= i < k ==> t[i] == t[1..][i - 1];
      }
    }
  }

  /** Removing every ``` (left to right, as the global regex does) leaves no ``` behind. */
  lemma {:induction false} RemoveTicksComplete(s: string)
    ensures !Contains(ReplaceAll(s, Ticks, ""), Ticks)
    decreases |s|
  {
    var r := ReplaceAll(s, Ticks, "");
    ContainsIff(r, Ticks);
    if |s| < 3 {
      assert |r| < 3;
    } else if s[..3] == Ticks {
      RemoveTicksComplete(s[3..]);
      assert r == ReplaceAll(s[3..], Ticks, "");
    } else {
      var r' := ReplaceAll(s[1..], Ticks, "");
      assert r == [s[0]] + r';
      RemoveTicksComplete(s[1..]);
      ContainsIff(r', Ticks);
      RemoveTicksLeading(s[1..], 2);
      forall i | 0 <= i ensures !OccursAt(r, Ticks, i) {
        if i == 0 {
          assert |r| >= 3 ==> r'[0] == r[1] && r'[1] == r[2] && r[0] == s[0];
          assert s[..3] == [s[0], s[1..][0], s[1..][1]];
        } else if i + 3 <= |r| {
          assert r'[i - 1..i + 2] == r[i..i + 3];
          assert !OccursAt(r', Ticks, i - 1);
        }
      }
    }
  }

  /** With a replacement that begins like the pattern, the first character survives the scan. */
  lemma ReplaceAllHead(t: string, p: string, v: string)
    requires |p| > 0 && |v| > 0 && v[0] == p[0] && |t| > 0
    ensures |ReplaceAll(t, p, v)| > 0 && ReplaceAll(t, p, v)[0] == t[0]
  {
    if |t| >= |p| && t[..|p|] == p {
      assert t[0] == p[0];
    }
  }

  /** Occurrences of a pattern of length 3 inside a concatenation with a 4-character head. */
  lemma OccursInTail(head: string, tail: string, p: string, i: int)
    requires |head| == 4 && |p| == 3
    requires OccursAt(head + tail, p, i) && i >= 4
    ensures OccursAt(tail, p, i - 4)
  {
    assert (head + tail)[i..i + 3] == tail[i - 4..i - 1];
  }

  lemma OccursBehindChar(c: char, tail: string, p: string, i: int)
    requires |p| == 3 && OccursAt([c] + tail, p, i) && i >= 1
    ensures OccursAt(tail, p, i - 1)
  {
    assert ([c] + tail)[i..i + 3] == tail[i - 1..i + 2];
  }
}
