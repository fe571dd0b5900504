/** The few functions of Go's `strings` package that the core relies on:
    `strings.Index`, `strings.Replace`, `strings.ReplaceAll` and `strings.Join`. */
module GoStrings {
  import opened Wrappers

  /** True when `pat` occurs in `s` starting at index `k`. */
  predicate OccursAt(s: string, pat: string, k: nat)
  {
    k + |pat| <= |s| && s[k..k + |pat|] == pat
  }

  /** An occurrence in `s[1..]` is an occurrence in `s` one position later. */
  lemma OccursAtTail(s: string, pat: string, j: nat)
    requires |s| > 0
    ensures OccursAt(s[1..], pat, j) <==> OccursAt(s, pat, j + 1)
  {
    if j + 1 + |pat| <= |s| {
      assert s[1..][j..j + |pat|] == s[j + 1..j + 1 + |pat|];
    }
  }

  /** `strings.Index(s, pat)`: the least index at which `pat` occurs in `s`;
      `None` stands for Go's -1. */
  function IndexOf(s: string, pat: string): (r: Option<nat>)
    ensures r.Some? ==> OccursAt(s, pat, r.value)
    ensures r.Some? ==> forall j: nat :: j < r.value ==> !OccursAt(s, pat, j)
    ensures r.None? ==> forall j: nat :: !OccursAt(s, pat, j)
    decreases |s|
  {
    if OccursAt(s, pat, 0) then Some(0)
    else if |s| == 0 then None
    else
      var tail := IndexOf(s[1..], pat);
      assert forall j: nat :: OccursAt(s[1..], pat, j) <==> OccursAt(s, pat, j + 1) by {
        forall j: nat ensures OccursAt(s[1..], pat, j) <==> OccursAt(s, pat, j + 1) {
          OccursAtTail(s, pat, j);
        }
      }
      assert forall j: nat :: j > 0 ==> (OccursAt(s, pat, j) <==> OccursAt(s[1..], pat, j - 1)) by {
        forall j: nat | j > 0 ensures OccursAt(s, pat, j) <==> OccursAt(s[1..], pat, j - 1) {
          OccursAtTail(s, pat, j - 1);
        }
      }
      match tail
      case None => None
      case Some(k) => Some(k + 1)
  }

  /** `strings.Replace(s, pat, rep, n)` for a non-empty `pat`: scanning left to right,
      replaces the first `n` non-overlapping occurrences of `pat` by `rep`, and every
      occurrence when `n < 0`; `n == 0` leaves `s` as it is. */
  function Replace(s: string, pat: string, rep: string, n: int): string
    requires |pat| > 0
    decreases |s|
  {
    if n == 0 || |s| < |pat| then s
    else if s[..|pat|] == pat then rep + Replace(s[|pat|..], pat, rep, if n < 0 then n else n - 1)
    else [s[0]] + Replace(s[1..], pat, rep, n)
  }

  /** `strings.ReplaceAll(s, pat, rep)`, which Go defines as `Replace(s, pat, rep, -1)`. */
  function ReplaceAll(s: string, pat: string, rep: string): string
    requires |pat| > 0
  {
    Replace(s, pat, rep, -1)
  }

  /** The result of splicing `rep` over the first occurrence of `pat`, or `s` itself when
      `pat` does not occur: the reference meaning of `Replace(s, pat, rep, 1)`. */
  function SpliceFirst(s: string, pat: string, rep: string): string
  {
    match IndexOf(s, pat)
    case None => s
    case Some(k) => s[..k] + rep + s[k + |pat|..]
  }

  /** Where `pat` does not start `s`, the first occurrence in `s` is one past the first
      occurrence in `s[1..]`. */
  lemma IndexOfTail(s: string, pat: string)
    requires |s| > 0 && !OccursAt(s, pat, 0)
    ensures IndexOf(s[1..], pat).None? ==> IndexOf(s, pat).None?
    ensures IndexOf(s[1..], pat).Some? ==> IndexOf(s, pat) == Some(IndexOf(s[1..], pat).value + 1)
  {
  }

  /** Splicing over the first occurrence commutes with putting back a first character
      that does not start an occurrence. */
  lemma SpliceFirstTail(s: string, pat: string, rep: string)
    requires |s| > 0 && !OccursAt(s, pat, 0)
    ensures SpliceFirst(s, pat, rep) == [s[0]] + SpliceFirst(s[1..], pat, rep)
  {
    IndexOfTail(s, pat);
    if IndexOf(s[1..], pat).Some? {
      SpliceAt(s, pat, rep, IndexOf(s[1..], pat).value);
    } else {
      assert s == [s[0]] + s[1..];
    }
  }

  /** Splicing at `k + 1` in `s` is splicing at `k` in `s[1..]` behind `s[0]`. */
  lemma SpliceAt(s: string, pat: string, rep: string, k: nat)
    requires |s| > 0 && k + 1 + |pat| <= |s|
    ensures s[..k + 1] + rep + s[k + 1 + |pat|..] == [s[0]] + (s[1..][..k] + rep + s[1..][k + |pat|..])
  {
    assert s[..k + 1] == [s[0]] + s[1..][..k];
    assert s[k + 1 + |pat|..] == s[1..][k + |pat|..];
  }

  /** Replacing a single occurrence replaces exactly the first one. */
  lemma {:induction false} ReplaceOnce(s: string, pat: string, rep: string)
    requires |pat| > 0
    ensures Replace(s, pat, rep, 1) == SpliceFirst(s, pat, rep)
    decreases |s|
  {
    if |s| < |pat| {
      assert IndexOf(s, pat).None?;
    } else if s[..|pat|] == pat {
      assert OccursAt(s, pat, 0);
      assert Replace(s[|pat|..], pat, rep, 0) == s[|pat|..];
    } else {
      assert !OccursAt(s, pat, 0);
      ReplaceOnce(s[1..], pat, rep);
      SpliceFirstTail(s, pat, rep);
    }
  }

  /** A pattern that does not occur is never replaced, whatever the count. */
  lemma {:induction false} ReplaceWithoutOccurrence(s: string, pat: string, rep: string, n: int)
    requires |pat| > 0
    requires IndexOf(s, pat).None?
    ensures Replace(s, pat, rep, n) == s
    decreases |s|
  {
    if n != 0 && |s| >= |pat| {
      assert !OccursAt(s, pat, 0);
      assert s[..|pat|] != pat;
      assert IndexOf(s[1..], pat).None? by {
        forall j: nat ensures !OccursAt(s[1..], pat, j) {
          OccursAtTail(s, pat, j);
        }
      }
      ReplaceWithoutOccurrence(s[1..], pat, rep, n);
    }
  }

  /** Text without the first character of `pat` is copied unchanged in front of the
      replacements made in what follows it. */
  lemma {:induction false} ReplacePastPrefix(pre: string, s: string, pat: string, rep: string, n: int)
    requires |pat| > 0 && n != 0
    requires pat[0] !in pre
    ensures Replace(pre + s, pat, rep, n) == pre + Replace(s, pat, rep, n)
    decreases |pre|
  {
    if |pre| == 0 {
      assert pre + s == s;
    } else {
      var t := pre + s;
      assert t[0] == pre[0] && pre[0] in pre;
      assert t[1..] == pre[1..] + s;
      if |t| >= |pat| {
        assert t[..|pat|][0] == t[0];
      }
      ReplacePastPrefix(pre[1..], s, pat, rep, n);
    }
  }

  /** A text without the character is its own deletion. */
  lemma ReplaceWithoutOccurrenceOfChar(s: string, c: char)
    requires c !in s
    ensures ReplaceAll(s, [c], "") == s
  {
    assert IndexOf(s, [c]).None? by {
      forall j: nat ensures !OccursAt(s, [c], j) {
        if j + 1 <= |s| {
          assert s[j] in s;
          assert s[j..j + 1] == [s[j]];
        }
      }
    }
    ReplaceWithoutOccurrence(s, [c], "", -1);
  }

  /** Removing every occurrence of one character: none is left, every other character
      keeps its number of occurrences. */
  lemma {:induction false} DeleteAllOfChar(s: string, c: char)
    ensures c !in ReplaceAll(s, [c], "")
    ensures multiset(ReplaceAll(s, [c], "")) == multiset(s)[c := 0]
    decreases |s|
  {
    if |s| > 0 {
      DeleteAllOfChar(s[1..], c);
      assert s == [s[0]] + s[1..];
      assert multiset(s) == multiset{s[0]} + multiset(s[1..]);
      if s[..1] == [c] {
        assert s[0] == c;
        assert ReplaceAll(s, [c], "") == ReplaceAll(s[1..], [c], "");
      } else {
        assert s[0] != c;
        assert ReplaceAll(s, [c], "") == [s[0]] + ReplaceAll(s[1..], [c], "");
      }
    }
  }

  /** The characters of `s` other than `c`, in their order: a reference definition of
      deleting a character. */
  function WithoutChar(s: string, c: char): string
  {
    if |s| == 0 then "" else (if s[0] == c then "" else [s[0]]) + WithoutChar(s[1..], c)
  }

  /** Replacing every occurrence of a character by "" keeps the other characters in their
      order: it is exactly the filter `WithoutChar`. */
  lemma {:induction false} DeleteAllOfCharIsFilter(s: string, c: char)
    ensures ReplaceAll(s, [c], "") == WithoutChar(s, c)
    decreases |s|
  {
    if |s| > 0 {
      DeleteAllOfCharIsFilter(s[1..], c);
      if s[..1] == [c] {
        assert s[0] == c;
        assert ReplaceAll(s, [c], "") == ReplaceAll(s[1..], [c], "");
      } else {
        assert s[0] != c;
        assert ReplaceAll(s, [c], "") == [s[0]] + ReplaceAll(s[1..], [c], "");
      }
    }
  }

  /** Deleting a character distributes over concatenation. */
  lemma {:induction false} DeleteAllOfCharAppend(a: string, b: string, c: char)
    ensures ReplaceAll(a + b, [c], "") == ReplaceAll(a, [c], "") + ReplaceAll(b, [c], "")
    decreases |a|
  {
    if |a| == 0 {
      assert a + b == b;
    } else {
      assert (a + b)[1..] == a[1..] + b;
      assert (a + b)[..1] == a[..1];
      DeleteAllOfCharAppend(a[1..], b, c);
      if a[..1] == [c] {
        assert ReplaceAll(a, [c], "") == ReplaceAll(a[1..], [c], "");
        assert ReplaceAll(a + b, [c], "") == ReplaceAll(a[1..] + b, [c], "");
      } else {
        assert ReplaceAll(a, [c], "") == [a[0]] + ReplaceAll(a[1..], [c], "");
        assert ReplaceAll(a + b, [c], "") == [a[0]] + ReplaceAll(a[1..] + b, [c], "");
      }
    }
  }

  /** Deleting a character twice deletes nothing more. */
  lemma DeleteAllOfCharIdempotent(s: string, c: char)
    ensures ReplaceAll(ReplaceAll(s, [c], ""), [c], "") == ReplaceAll(s, [c], "")
  {
    DeleteAllOfChar(s, c);
    ReplaceWithoutOccurrenceOfChar(ReplaceAll(s, [c], ""), c);
  }

  /** `strings.Join(elems, sep)`. */
  function Join(elems: seq<string>, sep: string): string
  {
    if |elems| == 0 then ""
    else if |elems| == 1 then elems[0]
    else elems[0] + sep + Join(elems[1..], sep)
  }

  /** Joining one more element adds the separator and that element at the end. */
  lemma {:induction false} JoinSnoc(elems: seq<string>, x: string, sep: string)
    requires |elems| > 0
    ensures Join(elems + [x], sep) == Join(elems, sep) + sep + x
    decreases |elems|
  {
    if |elems| > 1 {
      assert (elems + [x])[1..] == elems[1..] + [x];
      JoinSnoc(elems[1..], x, sep);
    }
  }

  /** The sum of the lengths of `elems`. */
  function TotalLength(elems: seq<string>): nat
  {
    if |elems| == 0 then 0 else |elems[0]| + TotalLength(elems[1..])
  }

  /** A join holds every element and one separator between each adjacent pair. */
  lemma {:induction false} JoinLength(elems: seq<string>, sep: string)
    requires |elems| > 0
    ensures |Join(elems, sep)| == TotalLength(elems) + (|elems| - 1) * |sep|
    decreases |elems|
  {
    if |elems| > 1 {
      JoinLength(elems[1..], sep);
    }
  }
}
