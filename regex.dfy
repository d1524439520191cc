/** A backtracking matcher for the small regular-expression language the parser's patterns are
    written in, with the semantics of Python's `re`: `re.search` tries start positions from left to
    right, and at each one the alternatives are tried in priority order (a greedy repeat first takes
    as many characters as it can and gives them back one at a time, a lazy repeat does the opposite,
    an alternation tries its words from left to right); the first complete match wins. */
module Regex {
  import opened Common
  import opened Text

  datatype CharClass = Digit | Space | NotNewline | OneOf(chars: seq<char>)

  predicate InClass(c: char, cls: CharClass) {
    match cls
    case Digit => IsDigit(c)
    case Space => IsSpace(c)
    case NotNewline => c != '\n'
    case OneOf(cs) => c in cs
  }

  /** One element of a pattern. Groups are written as a pair of `Mark`s: group `g` spans from the
      position recorded by `Mark(2 g)` to the one recorded by `Mark(2 g + 1)`. */
  datatype Item =
    | Lit(word: string)
    | Alt(words: seq<string>)
    | Rep(cls: CharClass, min: nat, max: Option<nat>, greedy: bool)
    | Mark(slot: nat)
    | End

  type Marks = map<nat, nat>

  /** How many characters of class `cls` follow position `i`, at most `max`. */
  function RunLength(cls: CharClass, s: string, i: nat, max: Option<nat>): (n: nat)
    requires i <= |s|
    ensures i + n <= |s|
    ensures forall k :: i <= k < i + n ==> InClass(s[k], cls)
    ensures max.Some? ==> n <= max.value
    ensures i + n < |s| && (max.None? || n < max.value) ==> !InClass(s[i + n], cls)
    decreases |s| - i
  {
    if i < |s| && InClass(s[i], cls) && (max.None? || max.value > 0) then
      1 + RunLength(cls, s, i + 1, if max.Some? then Some(max.value - 1) else None)
    else 0
  }

  /** The first match of the items `p` starting exactly at position `i`, in backtracking order. */
  function MatchFrom(p: seq<Item>, s: string, i: nat, m: Marks): Option<Marks>
    requires i <= |s|
    decreases |p|, 2, 0
  {
    if p == [] then Some(m)
    else
      match p[0]
      case Lit(w) => if IsPrefix(w, s[i..]) then MatchFrom(p[1..], s, i + |w|, m) else None
      case Alt(ws) => TryWords(p, ws, s, i, m)
      case Rep(cls, lo, hi, greedy) =>
        var n := RunLength(cls, s, i, hi);
        if n < lo then None
        else if greedy then TryFewer(p, s, i, m, lo, n)
        else TryMore(p, s, i, m, n, lo)
      case Mark(k) => MatchFrom(p[1..], s, i, m[k := i])
      case End => if i == |s| || (i + 1 == |s| && s[i] == '\n') then MatchFrom(p[1..], s, i, m) else None
  }

  /** A greedy repeat: the rest of the pattern after `c`, `c - 1`, ..., `lo` repetitions. */
  function TryFewer(p: seq<Item>, s: string, i: nat, m: Marks, lo: nat, c: nat): Option<Marks>
    requires p != [] && i + c <= |s| && lo <= c
    decreases |p|, 1, c
  {
    var r := MatchFrom(p[1..], s, i + c, m);
    if r.Some? then r else if c == lo then None else TryFewer(p, s, i, m, lo, c - 1)
  }

  /** A lazy repeat: the rest of the pattern after `c`, `c + 1`, ..., `n` repetitions. */
  function TryMore(p: seq<Item>, s: string, i: nat, m: Marks, n: nat, c: nat): Option<Marks>
    requires p != [] && i + n <= |s| && c <= n
    decreases |p|, 1, n - c
  {
    var r := MatchFrom(p[1..], s, i + c, m);
    if r.Some? then r else if c == n then None else TryMore(p, s, i, m, n, c + 1)
  }

  /** An alternation of words: the rest of the pattern after each word in turn. */
  function TryWords(p: seq<Item>, ws: seq<string>, s: string, i: nat, m: Marks): Option<Marks>
    requires p != [] && i <= |s|
    decreases |p|, 1, |ws|
  {
    if ws == [] then None
    else
      var r := if IsPrefix(ws[0], s[i..]) then MatchFrom(p[1..], s, i + |ws[0]|, m) else None;
      if r.Some? then r else TryWords(p, ws[1..], s, i, m)
  }

  /** `re.search(p, s)`: the first start position, from the left, at which the pattern matches. */
  function SearchFrom(p: seq<Item>, s: string, i: nat): Option<Marks>
    requires i <= |s|
    decreases |s| - i
  {
    var r := MatchFrom(p, s, i, map[]);
    if r.Some? then r else if i == |s| then None else SearchFrom(p, s, i + 1)
  }

  function Search(p: seq<Item>, s: string): Option<Marks> {
    SearchFrom(p, s, 0)
  }

  /** The characters an item can consume. */
  predicate ItemAdmits(it: Item, c: char) {
    match it
    case Lit(w) => c in w
    case Alt(ws) => exists k :: 0 <= k < |ws| && c in ws[k]
    case Rep(cls, _, _, _) => InClass(c, cls)
    case _ => false
  }

  /** Some item of `p` can consume `c`. */
  predicate Admits(p: seq<Item>, c: char)
    decreases |p|
  {
    p != [] && (ItemAdmits(p[0], c) || Admits(p[1..], c))
  }

  lemma {:induction false} AdmitsTail(p: seq<Item>, c: char)
    requires p != [] && Admits(p[1..], c)
    ensures Admits(p, c)
  {
  }

  /** A greedy repeat that succeeds does so after some number of repetitions between `lo` and `c`. */
  lemma {:induction false} TryFewerPick(p: seq<Item>, s: string, i: nat, m: Marks, lo: nat, c: nat)
    requires p != [] && i + c <= |s| && lo <= c
    requires TryFewer(p, s, i, m, lo, c).Some?
    ensures exists e :: i + lo <= e <= i + c && MatchFrom(p[1..], s, e, m).Some?
    decreases c
  {
    if MatchFrom(p[1..], s, i + c, m).None? {
      TryFewerPick(p, s, i, m, lo, c - 1);
    } else {
      assert MatchFrom(p[1..], s, i + c, m).Some?;
    }
  }

  /** A lazy repeat that succeeds does so after some number of repetitions between `c` and `n`. */
  lemma {:induction false} TryMorePick(p: seq<Item>, s: string, i: nat, m: Marks, n: nat, c: nat)
    requires p != [] && i + n <= |s| && c <= n
    requires TryMore(p, s, i, m, n, c).Some?
    ensures exists e :: i + c <= e <= i + n && MatchFrom(p[1..], s, e, m).Some?
    decreases n - c
  {
    if MatchFrom(p[1..], s, i + c, m).None? {
      TryMorePick(p, s, i, m, n, c + 1);
    } else {
      assert MatchFrom(p[1..], s, i + c, m).Some?;
    }
  }

  /** An alternation that succeeds does so after one of its words. */
  lemma {:induction false} TryWordsPick(p: seq<Item>, ws: seq<string>, s: string, i: nat, m: Marks)
    requires p != [] && i <= |s|
    requires TryWords(p, ws, s, i, m).Some?
    ensures exists k :: 0 <= k < |ws| && IsPrefix(ws[k], s[i..]) && MatchFrom(p[1..], s, i + |ws[k]|, m).Some?
    decreases |ws|
  {
    if !(IsPrefix(ws[0], s[i..]) && MatchFrom(p[1..], s, i + |ws[0]|, m).Some?) {
      TryWordsPick(p, ws[1..], s, i, m);
      var k :| 0 <= k < |ws[1..]| && IsPrefix(ws[1..][k], s[i..]) && MatchFrom(p[1..], s, i + |ws[1..][k]|, m).Some?;
      assert ws[1..][k] == ws[k + 1];
    }
  }

  /** Soundness of the matcher for a pattern split as `p + r`: when the whole pattern matches from
      `i`, the part `r` matches from some later position `j`, and every character in between could
      be consumed by an item of `p`. */
  lemma {:induction false} Reaches(p: seq<Item>, r: seq<Item>, s: string, i: nat, m: Marks)
    requires i <= |s| && MatchFrom(p + r, s, i, m).Some?
    ensures exists j: nat, m': Marks ::
      i <= j <= |s| && MatchFrom(r, s, j, m').Some? && (forall k :: i <= k < j ==> Admits(p, s[k]))
    decreases |p|, 1
  {
    if p == [] {
      assert p + r == r;
      assert MatchFrom(r, s, i, m).Some?;
    } else {
      var q := p + r;
      assert q[0] == p[0] && q[1..] == p[1..] + r;
      match p[0]
      case Lit(w) =>
        forall k | i <= k < i + |w| ensures Admits(p, s[k]) {
          assert s[k] == s[i..][..|w|][k - i] == w[k - i];
        }
        ReachesAfter(p, r, s, i, i + |w|, m);
      case Alt(ws) =>
        TryWordsPick(q, ws, s, i, m);
        var n :| 0 <= n < |ws| && IsPrefix(ws[n], s[i..]) && MatchFrom(q[1..], s, i + |ws[n]|, m).Some?;
        forall k | i <= k < i + |ws[n]| ensures Admits(p, s[k]) {
          assert s[k] == s[i..][..|ws[n]|][k - i] == ws[n][k - i];
          assert ItemAdmits(p[0], s[k]);
        }
        ReachesAfter(p, r, s, i, i + |ws[n]|, m);
      case Rep(cls, lo, hi, greedy) =>
        var n := RunLength(cls, s, i, hi);
        if greedy {
          TryFewerPick(q, s, i, m, lo, n);
        } else {
          TryMorePick(q, s, i, m, n, lo);
        }
        var e :| i <= e <= i + n && MatchFrom(q[1..], s, e, m).Some?;
        forall k | i <= k < e ensures Admits(p, s[k]) {
        }
        ReachesAfter(p, r, s, i, e, m);
      case Mark(slot) =>
        ReachesAfter(p, r, s, i, i, m[slot := i]);
      case End =>
        ReachesAfter(p, r, s, i, i, m);
    }
  }

  /** The step shared by every kind of item: the first item took the pattern from `i` to `e`, and
      the rest of `p` is followed from there. */
  lemma {:induction false} ReachesAfter(p: seq<Item>, r: seq<Item>, s: string, i: nat, e: nat, m: Marks)
    requires p != [] && i <= e <= |s| && MatchFrom(p[1..] + r, s, e, m).Some?
    requires forall k :: i <= k < e ==> Admits(p, s[k])
    ensures exists j: nat, m': Marks ::
      i <= j <= |s| && MatchFrom(r, s, j, m').Some? && (forall k :: i <= k < j ==> Admits(p, s[k]))
    decreases |p|, 0
  {
    Reaches(p[1..], r, s, e, m);
    var j: nat, m': Marks :| e <= j <= |s| && MatchFrom(r, s, j, m').Some? &&
      forall k :: e <= k < j ==> Admits(p[1..], s[k]);
    forall k | i <= k < j ensures Admits(p, s[k]) {
      if k >= e {
        AdmitsTail(p, s[k]);
      }
    }
  }

  /** Positions at which the pattern does not match are skipped by the search. */
  lemma {:induction false} SearchSkips(p: seq<Item>, s: string, i: nat, j: nat)
    requires i <= j <= |s|
    requires forall k :: i <= k < j ==> MatchFrom(p, s, k, map[]).None?
    ensures SearchFrom(p, s, i) == SearchFrom(p, s, j)
    decreases j - i
  {
    if i < j {
      SearchSkips(p, s, i + 1, j);
    }
  }

  /** A search fails exactly when the pattern matches at no position. */
  lemma {:induction false} SearchNone(p: seq<Item>, s: string)
    ensures Search(p, s).None? <==> forall k :: 0 <= k <= |s| ==> MatchFrom(p, s, k, map[]).None?
  {
    if forall k :: 0 <= k <= |s| ==> MatchFrom(p, s, k, map[]).None? {
      SearchSkips(p, s, 0, |s|);
    } else {
      var k :| 0 <= k <= |s| && MatchFrom(p, s, k, map[]).Some?;
      SearchFirst(p, s, 0, k);
    }
  }

  lemma {:induction false} SearchFirst(p: seq<Item>, s: string, i: nat, k: nat)
    requires i <= k <= |s| && MatchFrom(p, s, k, map[]).Some?
    ensures SearchFrom(p, s, i).Some?
    decreases k - i
  {
    if i < k && MatchFrom(p, s, i, map[]).None? {
      SearchFirst(p, s, i + 1, k);
    }
  }

  /** `match.group(g + 1)`, the text of group `g` (numbered from 0 here). */
  function Group(s: string, m: Marks, g: nat): string {
    if 2 * g in m && 2 * g + 1 in m && m[2 * g] <= m[2 * g + 1] <= |s| then s[m[2 * g]..m[2 * g + 1]] else ""
  }
}
