/**
 * The few operations of Go's `strings` package that the adapter uses:
 * `strings.HasPrefix`, `strings.Join`, and `strings.Split` (as the partner
 * of `Join`, to state what a joined namespace list means).
 */
module Strings {

  /** `strings.HasPrefix(s, prefix)`. */
  predicate HasPrefix(s: string, prefix: string)
  {
    |prefix| <= |s| && s[..|prefix|] == prefix
  }

  /** `strings.Join(parts, sep)`: the parts with `sep` between neighbours; "" for no parts. */
  function Join(parts: seq<string>, sep: string): string
  {
    if |parts| == 0 then ""
    else if |parts| == 1 then parts[0]
    else parts[0] + sep + Join(parts[1..], sep)
  }

  /** The position of the first `c` in `s`. */
  function IndexOf(s: string, c: char): (i: nat)
    requires c in s
    ensures i < |s| && s[i] == c && c !in s[..i]
  {
    if s[0] == c then 0 else 1 + IndexOf(s[1..], c)
  }

  /** `strings.Split(s, [sep])`: the maximal pieces of `s` between occurrences of `sep`. */
  function Split(s: string, sep: char): (pieces: seq<string>)
    ensures |pieces| >= 1
    ensures forall i :: 0 <= i < |pieces| ==> sep !in pieces[i]
    decreases |s|
  {
    if sep !in s then [s]
    else
      var i := IndexOf(s, sep);
      [s[..i]] + Split(s[i + 1..], sep)
  }

  /** The first occurrence of a separator is found right after a separator-free head. */
  lemma {:induction false} IndexOfAfterHead(head: string, sep: char, tail: string)
    requires sep !in head
    ensures sep in head + [sep] + tail
    ensures IndexOf(head + [sep] + tail, sep) == |head|
  {
    var s := head + [sep] + tail;
    assert s[|head|] == sep;
    if head != [] {
      assert s[0] == head[0] != sep;
      assert s[1..] == head[1..] + [sep] + tail;
      IndexOfAfterHead(head[1..], sep, tail);
    }
  }

  /**
   * Splitting a joined list on the separator gives the list back, provided
   * the list is non-empty and no part contains the separator.
   */
  lemma {:induction false} SplitJoin(parts: seq<string>, sep: char)
    requires |parts| >= 1
    requires forall i :: 0 <= i < |parts| ==> sep !in parts[i]
    ensures Split(Join(parts, [sep]), sep) == parts
  {
    if |parts| > 1 {
      var head, tail := parts[0], parts[1..];
      var rest := Join(tail, [sep]);
      var s := head + [sep] + rest;
      assert Join(parts, [sep]) == s;
      IndexOfAfterHead(head, sep, rest);
      assert s[..|head|] == head;
      assert s[|head| + 1..] == rest;
      assert Split(s, sep) == [head] + Split(rest, sep);
      SplitJoin(tail, sep);
      assert parts == [head] + tail;
    }
  }

  /** Two or more parts joined with a separator always contain the separator. */
  lemma JoinContainsSeparator(parts: seq<string>, sep: char)
    requires |parts| >= 2
    ensures sep in Join(parts, [sep])
  {
    var s := Join(parts, [sep]);
    assert s == parts[0] + [sep] + Join(parts[1..], [sep]);
    assert s[|parts[0]|] == sep;
  }

  /**
   * A text that starts with a piece free of `q`, followed by `q`, determines
   * that piece: two such decompositions of one text are the same.
   */
  lemma DelimitedHeadUnique(x: string, r1: string, y: string, r2: string, q: char)
    requires q !in x && q !in y
    requires |r1| > 0 && r1[0] == q && |r2| > 0 && r2[0] == q
    requires x + r1 == y + r2
    ensures x == y && r1 == r2
  {
    var s := x + r1;
    assert x == s[..|x|] && y == s[..|y|];
    assert r1 == s[|x|..] && r2 == s[|y|..];
  }
}
