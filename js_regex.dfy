/**
 * The fragment of JavaScript regular expressions that the intent table uses, with the
 * semantics `String.prototype.match` gives a non-global pattern: the leftmost start
 * position at which the pattern matches, found by backtracking in priority order, and
 * the capture groups of that match (`undefined` for a group that took no part).
 *
 * Every pattern of the table carries the `i` flag. Without the `u` flag two characters
 * are equal ignoring case when their upper-case forms are, except that no character
 * outside ASCII folds to one inside it; for patterns written in ASCII, as all of these
 * are, that is exactly ASCII case folding, which `Fold` implements.
 */
module JsRegex {
  import opened Wrappers

  /** One term of a pattern, in the order the pattern writes them. */
  datatype Term =
    | Lit(text: string)               // literal characters, matched ignoring case
    | AnyChar                         // `.`
    | AnyRun                          // `.*`, greedy
    | GroupAlt(options: seq<string>)  // `(a|b|c)`, capturing; options tried left to right
    | GroupOptional(text: string)     // `(text)?`, capturing, greedy
    | GroupWord                       // `([a-zA-Z\s]+)`, capturing, greedy

  type Pattern = seq<Term>

  /** Captures of one match: group 0 is the whole match, `None` is JavaScript's `undefined`. */
  type Groups = seq<Option<string>>

  /** The array `match` returns: the start `index` and the groups. */
  datatype Match = Match(index: nat, groups: Groups)

  /** The characters `.` does not match. */
  predicate IsLineTerminator(c: char) {
    c == '\n' || c == '\r' || c == '\U{2028}' || c == '\U{2029}'
  }

  /** The characters `\s` matches: white space and line terminators. */
  predicate IsWhiteSpace(c: char) {
    c == '\t' || c == '\U{000B}' || c == '\U{000C}' || c == ' ' || c == '\U{00A0}' ||
    c == '\U{1680}' || ('\U{2000}' <= c <= '\U{200A}') || c == '\U{202F}' ||
    c == '\U{205F}' || c == '\U{3000}' || c == '\U{FEFF}' || IsLineTerminator(c)
  }

  /** The characters `[a-zA-Z\s]` matches (the `i` flag adds none). */
  predicate InWordClass(c: char) {
    ('a' <= c <= 'z') || ('A' <= c <= 'Z') || IsWhiteSpace(c)
  }

  /** ASCII case folding. */
  function Fold(c: char): char {
    if 'A' <= c <= 'Z' then (c as int + 32) as char else c
  }

  /** Does `s` occur in `t` at position `i`, ignoring case? */
  predicate LitAt(t: string, i: nat, s: string)
    requires i <= |t|
    ensures LitAt(t, i, s) ==> i + |s| <= |t|
    decreases s
  {
    s == [] || (i < |t| && Fold(t[i]) == Fold(s[0]) && LitAt(t, i + 1, s[1..]))
  }

  /** `LitAt` is character-wise equality ignoring case of `s` and the text at `i`. */
  lemma {:induction false} LitAtFolds(t: string, i: nat, s: string)
    requires i <= |t|
    ensures LitAt(t, i, s) <==>
      i + |s| <= |t| && forall m :: 0 <= m < |s| ==> Fold(t[i + m]) == Fold(s[m])
    decreases s
  {
    if s != [] && i < |t| {
      LitAtFolds(t, i + 1, s[1..]);
      if i + |s| <= |t| && forall m :: 0 <= m < |s| ==> Fold(t[i + m]) == Fold(s[m]) {
        forall m | 0 <= m < |s| - 1
          ensures Fold(t[i + 1 + m]) == Fold(s[1..][m])
        {
          assert Fold(t[i + (m + 1)]) == Fold(s[m + 1]);
        }
      }
    }
  }

  /** A literal does not occur where the text cannot start it. */
  lemma HeadMismatch(t: string, i: nat, s: string)
    requires i <= |t| && s != [] && (i == |t| || Fold(t[i]) != Fold(s[0]))
    ensures !LitAt(t, i, s)
  {
  }

  /** A literal occurs at `i` when each of its characters equals the text's there, ignoring case. */
  lemma LitAtFrom(t: string, i: nat, s: string)
    requires i + |s| <= |t| && forall m :: 0 <= m < |s| ==> Fold(t[i + m]) == Fold(s[m])
    ensures LitAt(t, i, s)
  {
    LitAtFolds(t, i, s);
  }

  /** The text at `i` is exactly `s` when it agrees with `s` character by character. */
  lemma SliceIs(t: string, i: nat, s: string)
    requires i + |s| <= |t| && forall m :: 0 <= m < |s| ==> t[i + m] == s[m]
    ensures t[i..i + |s|] == s
  {
  }

  /** A literal does not occur at `i` if one of its characters differs from the text's there. */
  lemma MismatchAt(t: string, i: nat, s: string, m: nat)
    requires i <= |t| && m < |s| && (i + m < |t| ==> Fold(t[i + m]) != Fold(s[m]))
    ensures !LitAt(t, i, s)
  {
    LitAtFolds(t, i, s);
  }

  /** How many characters from `i` on `.` matches, one after another. */
  function DotRun(t: string, i: nat): (n: nat)
    requires i <= |t|
    ensures i + n <= |t|
    ensures forall k :: i <= k < i + n ==> !IsLineTerminator(t[k])
    ensures i + n < |t| ==> IsLineTerminator(t[i + n])
    decreases |t| - i
  {
    if i < |t| && !IsLineTerminator(t[i]) then 1 + DotRun(t, i + 1) else 0
  }

  /** How many characters from `i` on `[a-zA-Z\s]` matches, one after another. */
  function WordRun(t: string, i: nat): (n: nat)
    requires i <= |t|
    ensures i + n <= |t|
    ensures forall k :: i <= k < i + n ==> InWordClass(t[k])
    ensures i + n < |t| ==> !InWordClass(t[i + n])
    decreases |t| - i
  {
    if i < |t| && InWordClass(t[i]) then 1 + WordRun(t, i + 1) else 0
  }

  /** The run lengths are the only ones their contracts allow. */
  lemma {:induction false} DotRunIs(t: string, i: nat, n: nat)
    requires i + n <= |t|
    requires forall k :: i <= k < i + n ==> !IsLineTerminator(t[k])
    requires i + n < |t| ==> IsLineTerminator(t[i + n])
    ensures DotRun(t, i) == n
    decreases n
  {
    if n > 0 {
      DotRunIs(t, i + 1, n - 1);
    }
  }

  lemma {:induction false} WordRunIs(t: string, i: nat, n: nat)
    requires i + n <= |t|
    requires forall k :: i <= k < i + n ==> InWordClass(t[k])
    requires i + n < |t| ==> !InWordClass(t[i + n])
    ensures WordRun(t, i) == n
    decreases n
  {
    if n > 0 {
      WordRunIs(t, i + 1, n - 1);
    }
  }

  /**
   * Match the terms `p[j..]` against `t` starting exactly at position `i`, with the
   * groups captured so far in `caps`; the first success in backtracking order gives the
   * end position and the groups.
   */
  function MatchAt(p: Pattern, j: nat, t: string, i: nat, caps: Groups): (r: Option<(nat, Groups)>)
    requires j <= |p| && i <= |t|
    ensures r.Some? ==> i <= r.value.0 <= |t|
    decreases |p| - j, 0
  {
    if j == |p| then Some((i, caps))
    else
      match p[j]
      case Lit(s) =>
        if LitAt(t, i, s) then MatchAt(p, j + 1, t, i + |s|, caps) else None
      case AnyChar =>
        if i < |t| && !IsLineTerminator(t[i]) then MatchAt(p, j + 1, t, i + 1, caps) else None
      case AnyRun =>
        Backtrack(p, j + 1, t, i, DotRun(t, i), 0, false, caps)
      case GroupWord =>
        Backtrack(p, j + 1, t, i, WordRun(t, i), 1, true, caps)
      case GroupOptional(s) =>
        var once := if LitAt(t, i, s) then MatchAt(p, j + 1, t, i + |s|, caps + [Some(t[i..i + |s|])]) else None;
        if once.Some? then once else MatchAt(p, j + 1, t, i, caps + [None])
      case GroupAlt(options) =>
        TryOptions(p, j + 1, t, i, options, 0, caps)
  }

  /**
   * A greedy quantifier that has consumed `k` characters from `i`: try `p[j..]` with `k`,
   * then with one fewer, down to `lo`; with `capture` the consumed text is a new group.
   */
  function Backtrack(p: Pattern, j: nat, t: string, i: nat, k: nat, lo: nat, capture: bool, caps: Groups)
    : (r: Option<(nat, Groups)>)
    requires j <= |p| && i + k <= |t|
    ensures r.Some? ==> i + lo <= r.value.0 <= |t|
    decreases |p| - j, k + 1
  {
    if k < lo then None
    else
      var r := MatchAt(p, j, t, i + k, if capture then caps + [Some(t[i..i + k])] else caps);
      if r.Some? then r
      else if k == 0 then None
      else Backtrack(p, j, t, i, k - 1, lo, capture, caps)
  }

  /**
   * An alternation group: the first of `options[n..]` that occurs at `i` and lets `p[j..]`
   * match after it.
   */
  function TryOptions(p: Pattern, j: nat, t: string, i: nat, options: seq<string>, n: nat, caps: Groups)
    : (r: Option<(nat, Groups)>)
    requires j <= |p| && i <= |t|
    ensures r.Some? ==> i <= r.value.0 <= |t|
    decreases |p| - j, |options| - n
  {
    if n >= |options| then None
    else
      var o := options[n];
      var r := if LitAt(t, i, o) then MatchAt(p, j, t, i + |o|, caps + [Some(t[i..i + |o|])]) else None;
      if r.Some? then r else TryOptions(p, j, t, i, options, n + 1, caps)
  }

  /** The groups after a greedy run from `i` to `e`: with `capture`, the run is a new group. */
  function RunGroups(t: string, i: nat, e: nat, capture: bool, caps: Groups): Groups
    requires i <= e <= |t|
  {
    if capture then caps + [Some(t[i..e])] else caps
  }

  /** What the rest `p[j..]` gives after a greedy run from `i` that stopped at `e`. */
  function AfterRun(p: Pattern, j: nat, t: string, i: nat, e: nat, capture: bool, caps: Groups): Option<(nat, Groups)>
    requires j <= |p| && i <= e <= |t|
  {
    MatchAt(p, j, t, e, RunGroups(t, i, e, capture, caps))
  }

  /** One back-off step of `Backtrack`. */
  lemma BacktrackUnfolds(p: Pattern, j: nat, t: string, i: nat, k: nat, lo: nat, capture: bool, caps: Groups)
    requires j <= |p| && i + k <= |t| && lo <= k
    ensures Backtrack(p, j, t, i, k, lo, capture, caps) ==
      if AfterRun(p, j, t, i, i + k, capture, caps).Some? then AfterRun(p, j, t, i, i + k, capture, caps)
      else if k == 0 then None else Backtrack(p, j, t, i, k - 1, lo, capture, caps)
  {
  }

  /** A greedy run fails exactly when the rest matches after none of the lengths from `k` down to `lo`. */
  lemma {:induction false} BacktrackFails(p: Pattern, j: nat, t: string, i: nat, k: nat, lo: nat,
                                          capture: bool, caps: Groups)
    requires j <= |p| && i + k <= |t|
    ensures Backtrack(p, j, t, i, k, lo, capture, caps).None? <==>
      forall e :: i + lo <= e <= i + k ==> AfterRun(p, j, t, i, e, capture, caps).None?
    decreases k
  {
    if k >= lo {
      BacktrackUnfolds(p, j, t, i, k, lo, capture, caps);
      if k > 0 {
        BacktrackFails(p, j, t, i, k - 1, lo, capture, caps);
      }
    }
  }

  /**
   * A greedy run backs off longest first: a result is what the rest gives after the longest
   * run, between `lo` and `k` characters, after which the rest matches.
   */
  lemma {:induction false} BacktrackLongestFirst(p: Pattern, j: nat, t: string, i: nat, k: nat, lo: nat,
                                                 capture: bool, caps: Groups)
    requires j <= |p| && i + k <= |t|
    requires Backtrack(p, j, t, i, k, lo, capture, caps).Some?
    ensures exists e :: (
      && i + lo <= e <= i + k
      && Backtrack(p, j, t, i, k, lo, capture, caps) == AfterRun(p, j, t, i, e, capture, caps)
      && forall e' :: e < e' <= i + k ==> AfterRun(p, j, t, i, e', capture, caps).None?)
    decreases k
  {
    var r := Backtrack(p, j, t, i, k, lo, capture, caps);
    BacktrackUnfolds(p, j, t, i, k, lo, capture, caps);
    if AfterRun(p, j, t, i, i + k, capture, caps).None? {
      BacktrackLongestFirst(p, j, t, i, k - 1, lo, capture, caps);
      var e :| i + lo <= e <= i + (k - 1) && r == AfterRun(p, j, t, i, e, capture, caps) &&
        forall e' :: e < e' <= i + (k - 1) ==> AfterRun(p, j, t, i, e', capture, caps).None?;
      assert forall e' :: e < e' <= i + k ==> AfterRun(p, j, t, i, e', capture, caps).None?;
    } else {
      assert r == AfterRun(p, j, t, i, i + k, capture, caps);
    }
  }

  /** What alternative `o` of a group at `i` gives: `o` occurs there, is captured, and the rest matches after it. */
  function OptionMatch(p: Pattern, j: nat, t: string, i: nat, o: string, caps: Groups): (r: Option<(nat, Groups)>)
    requires j <= |p| && i <= |t|
    ensures r.Some? ==> LitAt(t, i, o)
  {
    if LitAt(t, i, o) then MatchAt(p, j, t, i + |o|, caps + [Some(t[i..i + |o|])]) else None
  }

  /**
   * An alternation tries its options left to right: the result is what the first option
   * that fits gives, and `None` exactly when no option fits.
   */
  lemma {:induction false} TryOptionsInOrder(p: Pattern, j: nat, t: string, i: nat, options: seq<string>,
                                             n: nat, caps: Groups)
    requires j <= |p| && i <= |t|
    ensures var r := TryOptions(p, j, t, i, options, n, caps);
      && (r.None? <==> forall m :: n <= m < |options| ==> OptionMatch(p, j, t, i, options[m], caps).None?)
      && (r.Some? ==>
            exists m :: n <= m < |options| && r == OptionMatch(p, j, t, i, options[m], caps) &&
              forall m' :: n <= m' < m ==> OptionMatch(p, j, t, i, options[m'], caps).None?)
    decreases |options| - n
  {
    if n < |options| {
      var r := TryOptions(p, j, t, i, options, n, caps);
      if OptionMatch(p, j, t, i, options[n], caps).Some? {
        assert r == OptionMatch(p, j, t, i, options[n], caps);
      } else {
        TryOptionsInOrder(p, j, t, i, options, n + 1, caps);
        assert r == TryOptions(p, j, t, i, options, n + 1, caps);
      }
    }
  }

  /** Does `p` match `t` starting exactly at `i`? */
  predicate MatchesAt(p: Pattern, t: string, i: nat)
    requires i <= |t|
  {
    MatchAt(p, 0, t, i, []).Some?
  }

  /** The match array for a match of `p` found at `i`. */
  function MatchArray(p: Pattern, t: string, i: nat): Match
    requires i <= |t| && MatchesAt(p, t, i)
  {
    var (e, caps) := MatchAt(p, 0, t, i, []).value;
    Match(i, [Some(t[i..e])] + caps)
  }

  /** The leftmost match of `p` in `t` at or after `start`. */
  function SearchFrom(p: Pattern, t: string, start: nat): (r: Option<Match>)
    requires start <= |t|
    ensures r.Some? ==>
      && start <= r.value.index <= |t|
      && MatchesAt(p, t, r.value.index)
      && r.value == MatchArray(p, t, r.value.index)
      && forall i :: start <= i < r.value.index ==> !MatchesAt(p, t, i)
    ensures r.None? ==> forall i :: start <= i <= |t| ==> !MatchesAt(p, t, i)
    decreases |t| - start
  {
    if MatchesAt(p, t, start) then Some(MatchArray(p, t, start))
    else if start == |t| then None
    else SearchFrom(p, t, start + 1)
  }

  /** `t.match(p)` for a pattern without the `g` flag: `None` is `null`. */
  function Exec(p: Pattern, t: string): (r: Option<Match>)
    ensures r.Some? ==>
      && r.value.index <= |t| && MatchesAt(p, t, r.value.index)
      && forall i :: 0 <= i < r.value.index ==> !MatchesAt(p, t, i)
    ensures r.None? <==> forall i :: 0 <= i <= |t| ==> !MatchesAt(p, t, i)
  {
    SearchFrom(p, t, 0)
  }

  // ---------------------------------------------------------------------------------
  // Literal terms: a pattern can only match a text in which each of its literals occurs.

  /** Does `s` occur in `t` at some position from `from` on, ignoring case? */
  predicate OccursFrom(t: string, s: string, from: nat)
    requires from <= |t|
    decreases |t| - from
  {
    LitAt(t, from, s) || (from < |t| && OccursFrom(t, s, from + 1))
  }

  lemma {:induction false} OccursFromAt(t: string, s: string, from: nat, q: nat)
    requires from <= q <= |t| && LitAt(t, q, s)
    ensures OccursFrom(t, s, from)
    decreases q - from
  {
    if from < q {
      OccursFromAt(t, s, from + 1, q);
    }
  }

  /** Every literal term of `p[j..]` occurs in `t`. */
  predicate LiteralsOccur(p: Pattern, j: nat, t: string) {
    forall k :: j <= k < |p| && p[k].Lit? ==> OccursFrom(t, p[k].text, 0)
  }

  lemma {:induction false} LiteralsOccurInMatch(p: Pattern, j: nat, t: string, i: nat, caps: Groups)
    requires j <= |p| && i <= |t| && MatchAt(p, j, t, i, caps).Some?
    ensures LiteralsOccur(p, j, t)
    decreases |p| - j, 0
  {
    if j < |p| {
      match p[j]
      case Lit(s) =>
        OccursFromAt(t, s, 0, i);
        LiteralsOccurInMatch(p, j + 1, t, i + |s|, caps);
      case AnyChar =>
        LiteralsOccurInMatch(p, j + 1, t, i + 1, caps);
      case AnyRun =>
        LiteralsOccurInBacktrack(p, j + 1, t, i, DotRun(t, i), 0, false, caps);
      case GroupWord =>
        LiteralsOccurInBacktrack(p, j + 1, t, i, WordRun(t, i), 1, true, caps);
      case GroupOptional(s) =>
        if LitAt(t, i, s) && MatchAt(p, j + 1, t, i + |s|, caps + [Some(t[i..i + |s|])]).Some? {
          LiteralsOccurInMatch(p, j + 1, t, i + |s|, caps + [Some(t[i..i + |s|])]);
        } else {
          LiteralsOccurInMatch(p, j + 1, t, i, caps + [None]);
        }
      case GroupAlt(options) =>
        LiteralsOccurInOptions(p, j + 1, t, i, options, 0, caps);
    }
  }

  lemma {:induction false} LiteralsOccurInBacktrack(p: Pattern, j: nat, t: string, i: nat, k: nat, lo: nat,
                                                    capture: bool, caps: Groups)
    requires j <= |p| && i + k <= |t| && Backtrack(p, j, t, i, k, lo, capture, caps).Some?
    ensures LiteralsOccur(p, j, t)
    decreases |p| - j, k + 1
  {
    var c := if capture then caps + [Some(t[i..i + k])] else caps;
    if MatchAt(p, j, t, i + k, c).Some? {
      LiteralsOccurInMatch(p, j, t, i + k, c);
    } else {
      LiteralsOccurInBacktrack(p, j, t, i, k - 1, lo, capture, caps);
    }
  }

  lemma {:induction false} LiteralsOccurInOptions(p: Pattern, j: nat, t: string, i: nat, options: seq<string>,
                                                  n: nat, caps: Groups)
    requires j <= |p| && i <= |t| && TryOptions(p, j, t, i, options, n, caps).Some?
    ensures LiteralsOccur(p, j, t)
    decreases |p| - j, |options| - n
  {
    var o := options[n];
    if LitAt(t, i, o) && MatchAt(p, j, t, i + |o|, caps + [Some(t[i..i + |o|])]).Some? {
      LiteralsOccurInMatch(p, j, t, i + |o|, caps + [Some(t[i..i + |o|])]);
    } else {
      LiteralsOccurInOptions(p, j, t, i, options, n + 1, caps);
    }
  }

  lemma {:induction false} OccursFromWitness(t: string, s: string, from: nat)
    requires from <= |t| && OccursFrom(t, s, from)
    ensures exists q :: from <= q <= |t| && LitAt(t, q, s)
    decreases |t| - from
  {
    if !LitAt(t, from, s) {
      OccursFromWitness(t, s, from + 1);
    }
  }

  /** A pattern one of whose literals occurs nowhere in `t` does not match `t`. */
  lemma NoMatchWithoutLiteral(p: Pattern, t: string, k: nat)
    requires k < |p| && p[k].Lit?
    requires forall q :: 0 <= q <= |t| ==> !LitAt(t, q, p[k].text)
    ensures Exec(p, t).None?
  {
    if Exec(p, t).Some? {
      LiteralsOccurInMatch(p, 0, t, Exec(p, t).value.index, []);
      OccursFromWitness(t, p[k].text, 0);
    }
  }

  /** In particular, a pattern with a literal one of whose characters occurs nowhere in `t`, ignoring case. */
  lemma NoMatchWithoutChar(p: Pattern, t: string, k: nat, m: nat)
    requires k < |p| && p[k].Lit? && m < |p[k].text|
    requires forall n :: 0 <= n < |t| ==> Fold(t[n]) != Fold(p[k].text[m])
    ensures Exec(p, t).None?
  {
    forall q | 0 <= q <= |t|
      ensures !LitAt(t, q, p[k].text)
    {
      MismatchAt(t, q, p[k].text, m);
    }
    NoMatchWithoutLiteral(p, t, k);
  }

  /** Or with a literal two adjacent characters of which never occur together in `t`, ignoring case. */
  lemma NoMatchWithoutPair(p: Pattern, t: string, k: nat, m: nat)
    requires k < |p| && p[k].Lit? && m + 1 < |p[k].text|
    requires forall n :: 0 <= n < |t| - 1 ==>
      Fold(t[n]) != Fold(p[k].text[m]) || Fold(t[n + 1]) != Fold(p[k].text[m + 1])
    ensures Exec(p, t).None?
  {
    var s := p[k].text;
    forall q | 0 <= q <= |t|
      ensures !LitAt(t, q, s)
    {
      if q + m + 1 < |t| && Fold(t[q + m]) != Fold(s[m]) {
        MismatchAt(t, q, s, m);
      } else {
        MismatchAt(t, q, s, m + 1);
      }
    }
    NoMatchWithoutLiteral(p, t, k);
  }

  /** A match at any position means `match` succeeds, at that position or further left. */
  lemma ExecFindsMatch(p: Pattern, t: string, i: nat)
    requires i <= |t| && MatchesAt(p, t, i)
    ensures Exec(p, t).Some? && Exec(p, t).value.index <= i
  {
  }

  // ---------------------------------------------------------------------------------
  // Skipping positions: a literal or an alternation that cannot start at a position
  // fails there at once, which is what backtracking and the leftmost search rely on.

  /** `x` cannot match anything starting at `i`. */
  predicate Blocked(x: Term, t: string, i: nat)
    requires i <= |t|
  {
    match x
    case Lit(s) => !LitAt(t, i, s)
    case GroupAlt(options) => forall n :: 0 <= n < |options| ==> !LitAt(t, i, options[n])
    case _ => false
  }

  lemma {:induction false} BlockedOptionsFail(p: Pattern, j: nat, t: string, i: nat, options: seq<string>,
                                              n: nat, caps: Groups)
    requires j <= |p| && i <= |t|
    requires forall m :: 0 <= m < |options| ==> !LitAt(t, i, options[m])
    ensures TryOptions(p, j, t, i, options, n, caps).None?
    decreases |options| - n
  {
    if n < |options| {
      BlockedOptionsFail(p, j, t, i, options, n + 1, caps);
    }
  }

  lemma BlockedFails(p: Pattern, j: nat, t: string, i: nat, caps: Groups)
    requires j < |p| && i <= |t| && Blocked(p[j], t, i)
    ensures MatchAt(p, j, t, i, caps).None?
  {
    if p[j].GroupAlt? {
      BlockedOptionsFail(p, j + 1, t, i, p[j].options, 0, caps);
    }
  }

  /** A greedy run backs off over every length at whose end the rest is blocked. */
  lemma {:induction false} BacktrackSkips(p: Pattern, j: nat, t: string, i: nat, k: nat, k0: nat, lo: nat,
                                          capture: bool, caps: Groups)
    requires j < |p| && i + k <= |t| && lo <= k0 <= k
    requires forall n :: i + k0 < n <= i + k ==> Blocked(p[j], t, n)
    ensures Backtrack(p, j, t, i, k, lo, capture, caps) == Backtrack(p, j, t, i, k0, lo, capture, caps)
    decreases k - k0
  {
    if k0 < k {
      BlockedFails(p, j, t, i + k, if capture then caps + [Some(t[i..i + k])] else caps);
      BacktrackSkips(p, j, t, i, k - 1, k0, lo, capture, caps);
    }
  }

  /** The leftmost search passes over every position where the first term is blocked. */
  lemma {:induction false} SearchSkips(p: Pattern, t: string, from: nat, start: nat)
    requires 0 < |p| && from <= start <= |t|
    requires forall i :: from <= i < start ==> Blocked(p[0], t, i)
    ensures SearchFrom(p, t, from) == SearchFrom(p, t, start)
    decreases start - from
  {
    if from < start {
      BlockedFails(p, 0, t, from, []);
      SearchSkips(p, t, from + 1, start);
    }
  }

  // ---------------------------------------------------------------------------------
  // City patterns: plain terms followed by one final `([a-zA-Z\s]+)` group.

  /** A term that captures nothing. */
  predicate IsPlain(x: Term) {
    x.Lit? || x.AnyChar? || x.AnyRun?
  }

  /** The shape of every pattern of the weather and forecast rules. */
  predicate EndsInWordGroup(p: Pattern) {
    |p| > 0 && p[|p| - 1] == GroupWord && forall k :: 0 <= k < |p| - 1 ==> IsPlain(p[k])
  }

  /** A non-empty run of `[a-zA-Z\s]` characters. */
  predicate IsWord(w: string) {
    w != [] && forall k :: 0 <= k < |w| ==> InWordClass(w[k])
  }

  lemma {:induction false} WordGroupMatchShape(p: Pattern, j: nat, t: string, i: nat, caps: Groups)
    requires EndsInWordGroup(p) && j < |p| && i <= |t| && MatchAt(p, j, t, i, caps).Some?
    ensures var c := MatchAt(p, j, t, i, caps).value.1;
      |c| == |caps| + 1 && c[..|caps|] == caps && c[|caps|].Some? && IsWord(c[|caps|].value)
    decreases |p| - j, 0
  {
    match p[j]
    case Lit(s) =>
      WordGroupMatchShape(p, j + 1, t, i + |s|, caps);
    case AnyChar =>
      WordGroupMatchShape(p, j + 1, t, i + 1, caps);
    case AnyRun =>
      WordGroupBacktrackShape(p, j + 1, t, i, DotRun(t, i), caps);
    case GroupWord =>
      assert j == |p| - 1;
      var k := WordRun(t, i);
      assert MatchAt(p, j + 1, t, i + k, caps + [Some(t[i..i + k])]) == Some((i + k, caps + [Some(t[i..i + k])]));
  }

  lemma {:induction false} WordGroupBacktrackShape(p: Pattern, j: nat, t: string, i: nat, k: nat, caps: Groups)
    requires EndsInWordGroup(p) && j < |p| && i + k <= |t| && Backtrack(p, j, t, i, k, 0, false, caps).Some?
    ensures var c := Backtrack(p, j, t, i, k, 0, false, caps).value.1;
      |c| == |caps| + 1 && c[..|caps|] == caps && c[|caps|].Some? && IsWord(c[|caps|].value)
    decreases |p| - j, k + 1
  {
    if MatchAt(p, j, t, i + k, caps).Some? {
      WordGroupMatchShape(p, j, t, i + k, caps);
    } else {
      WordGroupBacktrackShape(p, j, t, i, k - 1, caps);
    }
  }

  /** A match of such a pattern has exactly one group, and it holds a word. */
  lemma WordGroupCaptured(p: Pattern, t: string)
    requires EndsInWordGroup(p) && Exec(p, t).Some?
    ensures var m := Exec(p, t).value;
      |m.groups| == 2 && m.groups[1].Some? && IsWord(m.groups[1].value)
  {
    var i := Exec(p, t).value.index;
    WordGroupMatchShape(p, 0, t, i, []);
  }
}
