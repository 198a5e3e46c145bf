/** Splitting strings around a separator character: the tokenizing a reader
    of a rendered server line performs. */
module Text {
  import opened Wrappers

  /** A string cut in two around one separator character. */
  datatype Split = Split(head: string, rest: string)

  /** Cuts `s` at the first occurrence of `c`; `None` when `c` does not occur. */
  function SplitFirst(s: string, c: char): (r: Option<Split>)
    ensures r.Some? ==> s == r.value.head + [c] + r.value.rest && c !in r.value.head
    ensures r.None? ==> c !in s
  {
    if s == [] then None
    else if s[0] == c then Some(Split([], s[1..]))
    else match SplitFirst(s[1..], c)
      case None => None
      case Some(t) => Some(Split([s[0]] + t.head, t.rest))
  }

  /** Cuts `s` at the last occurrence of `c`; `None` when `c` does not occur. */
  function SplitLast(s: string, c: char): (r: Option<Split>)
    ensures r.Some? ==> s == r.value.head + [c] + r.value.rest && c !in r.value.rest
    ensures r.None? ==> c !in s
  {
    if s == [] then None
    else if s[|s| - 1] == c then Some(Split(s[..|s| - 1], []))
    else match SplitLast(s[..|s| - 1], c)
      case None => None
      case Some(t) => Some(Split(t.head, t.rest + [s[|s| - 1]]))
  }

  /** What follows `prefix` in `s`, when `s` starts with it. */
  function DropPrefix(s: string, prefix: string): (r: Option<string>)
    ensures r.Some? <==> prefix <= s
    ensures r.Some? ==> s == prefix + r.value
  {
    if prefix <= s then Some(s[|prefix|..]) else None
  }

  /** The first separator of `x + [c] + y` is the one after `x` when `x` has none. */
  lemma {:induction false} SplitFirstAt(x: string, y: string, c: char)
    requires c !in x
    ensures SplitFirst(x + [c] + y, c) == Some(Split(x, y))
  {
    var s := x + [c] + y;
    if x == [] {
      assert s[0] == c && s[1..] == y;
    } else {
      assert s[0] == x[0] && x[0] != c;
      assert s[1..] == x[1..] + [c] + y;
      SplitFirstAt(x[1..], y, c);
      assert [x[0]] + x[1..] == x;
    }
  }

  /** The last separator of `x + [c] + y` is the one before `y` when `y` has none. */
  lemma {:induction false} SplitLastAt(x: string, y: string, c: char)
    requires c !in y
    ensures SplitLast(x + [c] + y, c) == Some(Split(x, y))
  {
    var s := x + [c] + y;
    if y == [] {
      assert s[|s| - 1] == c && s[..|s| - 1] == x;
    } else {
      var last := y[|y| - 1];
      assert s[|s| - 1] == last && last != c;
      assert s[..|s| - 1] == x + [c] + y[..|y| - 1];
      SplitLastAt(x, y[..|y| - 1], c);
      assert y[..|y| - 1] + [last] == y;
    }
  }
}
