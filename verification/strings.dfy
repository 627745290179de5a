/**
 The JavaScript string primitives the tenant-resolution code relies on, over `string`
 (a `seq<char>`): `indexOf`, `includes`, `endsWith`, `replace` with a string pattern,
 and `split` on a one-character separator, together with `join`, its inverse.
 */
module Strings {
  import opened Options

  /** `t` occurs in `s` starting at index `i`. */
  predicate OccursAt(s: string, t: string, i: int) {
    0 <= i && i + |t| <= |s| && s[i..i + |t|] == t
  }

  /** An occurrence in `s[1..]` is an occurrence in `s` one position further right. */
  lemma OccursAtTail(s: string, t: string, i: int)
    requires |s| > 0 && 0 <= i
    ensures OccursAt(s[1..], t, i) <==> OccursAt(s, t, i + 1)
  {
  }

  /** `s.indexOf(t)`: the leftmost index at which `t` occurs in `s`, if any. */
  function IndexOf(s: string, t: string): (r: Option<nat>)
    ensures r.Some? ==> OccursAt(s, t, r.value)
    ensures r.Some? ==> forall j :: 0 <= j < r.value ==> !OccursAt(s, t, j)
    ensures r.None? ==> forall j :: !OccursAt(s, t, j)
    decreases |s|
  {
    if |t| <= |s| && s[..|t|] == t then Some(0)
    else if |s| == 0 then None
    else
      var rest := IndexOf(s[1..], t);
      assert !OccursAt(s, t, 0) by {
        if |t| <= |s| {
          assert s[0..|t|] == s[..|t|];
        }
      }
      assert forall j :: 1 <= j ==> (OccursAt(s, t, j) <==> OccursAt(s[1..], t, j - 1)) by {
        forall j | 1 <= j
          ensures OccursAt(s, t, j) <==> OccursAt(s[1..], t, j - 1)
        {
          OccursAtTail(s, t, j - 1);
        }
      }
      match rest
      case None => None
      case Some(i) => Some(i + 1)
  }

  /** `s.includes(t)`. */
  function Contains(s: string, t: string): (r: bool)
    ensures r <==> exists i :: OccursAt(s, t, i)
  {
    IndexOf(s, t).Some?
  }

  /** `s.startsWith(t)`. */
  predicate StartsWith(s: string, t: string) {
    |t| <= |s| && s[..|t|] == t
  }

  /** `s.endsWith(t)`: `t` occurs in `s` flush with its end; an empty `t` ends every string. */
  function EndsWith(s: string, t: string): (r: bool)
    ensures r <==> OccursAt(s, t, |s| - |t|)
    ensures r ==> s == s[..|s| - |t|] + t
  {
    |t| <= |s| && s[|s| - |t|..] == t
  }

  /** `s.replace(pat, rep)` with a string pattern: only the leftmost occurrence of `pat` is replaced. */
  function ReplaceFirst(s: string, pat: string, rep: string): (r: string)
    ensures !Contains(s, pat) ==> r == s
    ensures StartsWith(s, pat) ==> r == rep + s[|pat|..]
    ensures Contains(s, pat) ==> |r| == |s| - |pat| + |rep|
    ensures Contains(s, pat) ==>
      exists i :: && OccursAt(s, pat, i)
                  && (forall j :: 0 <= j < i ==> !OccursAt(s, pat, j))
                  && r == s[..i] + rep + s[i + |pat|..]
  {
    match IndexOf(s, pat)
    case None => s
    case Some(i) => s[..i] + rep + s[i + |pat|..]
  }

  /** `parts.join([c])`. */
  function Join(parts: seq<string>, c: char): (r: string)
    requires |parts| >= 1
    decreases |parts|
  {
    if |parts| == 1 then parts[0] else parts[0] + [c] + Join(parts[1..], c)
  }

  /** Prepending to the first part prepends to the joined string. */
  lemma JoinPrepend(x: string, parts: seq<string>, c: char)
    requires |parts| >= 1
    ensures Join([x + parts[0]] + parts[1..], c) == x + Join(parts, c)
  {
  }

  /**
   `s.split(c)`: the maximal runs of `s` between occurrences of `c`, so a string with
   k separators has k + 1 parts, some of them possibly empty.
   */
  function Split(s: string, c: char): (r: seq<string>)
    ensures |r| >= 1
    ensures forall k :: 0 <= k < |r| ==> c !in r[k]
    ensures Join(r, c) == s
    decreases |s|
  {
    if |s| == 0 then [""]
    else
      var rest := Split(s[1..], c);
      if s[0] == c then
        var r := [""] + rest;
        assert r[1..] == rest;
        r
      else
        JoinPrepend([s[0]], rest, c);
        assert s == [s[0]] + s[1..];
        [[s[0]] + rest[0]] + rest[1..]
  }

  /** A string without the separator is a single part. */
  lemma SplitNoSeparator(s: string, c: char)
    requires c !in s
    ensures Split(s, c) == [s]
  {
  }

  /** Separator-free text in front of a string is absorbed into its first part. */
  lemma {:induction false} SplitPrefix(x: string, s: string, c: char)
    requires c !in x
    ensures Split(x + s, c) == [x + Split(s, c)[0]] + Split(s, c)[1..]
    decreases |x|
  {
    if |x| == 0 {
      assert x + s == s;
      assert x + Split(s, c)[0] == Split(s, c)[0];
      assert [Split(s, c)[0]] + Split(s, c)[1..] == Split(s, c);
    } else {
      var xs := x + s;
      assert xs[1..] == x[1..] + s;
      SplitPrefix(x[1..], s, c);
      assert [x[0]] + (x[1..] + Split(s, c)[0]) == x + Split(s, c)[0];
    }
  }

  /** A separator-free part followed by the separator splits off as the first part. */
  lemma {:induction false} SplitCons(a: string, s: string, c: char)
    requires c !in a
    ensures Split(a + [c] + s, c) == [a] + Split(s, c)
    decreases |a|
  {
    var t := a + [c] + s;
    if |a| == 0 {
      assert t == [c] + s;
      assert t[1..] == s;
    } else {
      assert t[1..] == a[1..] + [c] + s;
      SplitCons(a[1..], s, c);
      assert [a[0]] + a[1..] == a;
    }
  }

  /** Re-attaching the head of a non-empty sequence in front of an append. */
  lemma ConsTail<T>(xs: seq<T>, ys: seq<T>)
    requires |xs| >= 1
    ensures [xs[0]] + (xs[1..] + ys) == xs + ys
  {
  }

  /** Appending to a join of several parts appends to the join of all but the first. */
  lemma JoinThenSeparator(parts: seq<string>, s: string, c: char)
    requires |parts| >= 2
    ensures Join(parts, c) + [c] + s == parts[0] + [c] + (Join(parts[1..], c) + [c] + s)
  {
  }

  /** Splitting a joined prefix followed by the separator yields the prefix's parts first. */
  lemma {:induction false} SplitJoinAppend(parts: seq<string>, s: string, c: char)
    requires |parts| >= 1
    requires forall k :: 0 <= k < |parts| ==> c !in parts[k]
    ensures Split(Join(parts, c) + [c] + s, c) == parts + Split(s, c)
    decreases |parts|
  {
    if |parts| == 1 {
      SplitCons(parts[0], s, c);
    } else {
      var tail := Join(parts[1..], c);
      var rest := tail + [c] + s;
      var whole := Join(parts, c) + [c] + s;
      JoinThenSeparator(parts, s, c);
      SplitCons(parts[0], rest, c);
      assert Split(whole, c) == [parts[0]] + Split(rest, c);
      SplitJoinAppend(parts[1..], s, c);
      assert Split(rest, c) == parts[1..] + Split(s, c);
      ConsTail(parts, Split(s, c));
    }
  }

  /** Splitting undoes joining whenever no part contains the separator. */
  lemma {:induction false} SplitJoin(parts: seq<string>, c: char)
    requires |parts| >= 1
    requires forall k :: 0 <= k < |parts| ==> c !in parts[k]
    ensures Split(Join(parts, c), c) == parts
    decreases |parts|
  {
    if |parts| == 1 {
      SplitNoSeparator(parts[0], c);
    } else {
      SplitJoin(parts[1..], c);
      SplitCons(parts[0], Join(parts[1..], c), c);
      assert [parts[0]] + parts[1..] == parts;
    }
  }
}
