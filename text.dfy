/**
 * The string operations of Python that the pipeline relies on: `str.join`,
 * `str.rfind` and `str.lower` (restricted to ASCII letters, see README).
 */
module Text {

  /** Total number of characters in a list of strings. */
  function TotalLength(xs: seq<string>): nat
  {
    if xs == [] then 0 else |xs[0]| + TotalLength(xs[1..])
  }

  /** `sep.join(xs)`: the items in order with `sep` between neighbours. */
  function Join(sep: string, xs: seq<string>): string
  {
    if |xs| == 0 then ""
    else if |xs| == 1 then xs[0]
    else xs[0] + sep + Join(sep, xs[1..])
  }

  /** Where item `i` starts inside `Join(sep, xs)`: past every earlier item and its separator. */
  function JoinOffset(sep: string, xs: seq<string>, i: nat): nat
    requires i <= |xs|
  {
    if i == 0 then 0 else JoinOffset(sep, xs, i - 1) + |xs[i - 1]| + |sep|
  }

  /** n items joined give their characters plus n - 1 separators. */
  lemma {:induction false} JoinLength(sep: string, xs: seq<string>)
    requires |xs| > 0
    ensures |Join(sep, xs)| == TotalLength(xs) + (|xs| - 1) * |sep|
  {
    if |xs| > 1 {
      JoinLength(sep, xs[1..]);
    }
  }

  /** Appending an item to a non-empty list appends one separator and the item. */
  lemma {:induction false} JoinSnoc(sep: string, xs: seq<string>, x: string)
    requires |xs| > 0
    ensures Join(sep, xs + [x]) == Join(sep, xs) + sep + x
  {
    if |xs| == 1 {
      assert xs + [x] == [xs[0], x];
      assert (xs + [x])[1..] == [x];
    } else {
      assert (xs + [x])[1..] == xs[1..] + [x];
      JoinSnoc(sep, xs[1..], x);
    }
  }

  /** Offsets in `xs` are those in `xs[1..]` shifted past the first item and its separator. */
  lemma {:induction false} OffsetTail(sep: string, xs: seq<string>, i: nat)
    requires 0 < i <= |xs|
    ensures JoinOffset(sep, xs, i) == |xs[0]| + |sep| + JoinOffset(sep, xs[1..], i - 1)
  {
    if i > 1 {
      OffsetTail(sep, xs, i - 1);
      assert xs[1..][i - 2] == xs[i - 1];
    }
  }

  /** A slice of the part after a prefix is the same slice of the whole, shifted by the prefix. */
  lemma ShiftedSlice(p: string, r: string, a: nat, b: nat)
    requires a <= b <= |r|
    ensures (p + r)[|p| + a..|p| + b] == r[a..b]
  {
    assert forall k :: a <= k < b ==> (p + r)[|p| + k] == r[k];
  }

  /** With two or more items, the join is the first item and a separator before the join of the rest. */
  lemma JoinCons(sep: string, xs: seq<string>)
    requires |xs| > 1
    ensures Join(sep, xs) == (xs[0] + sep) + Join(sep, xs[1..])
  {
  }

  /** The joined string starts with the first item. */
  lemma JoinFirst(sep: string, xs: seq<string>)
    requires |xs| > 0
    ensures |xs[0]| <= |Join(sep, xs)| && Join(sep, xs)[..|xs[0]|] == xs[0]
  {
    if |xs| > 1 {
      JoinCons(sep, xs);
      assert Join(sep, xs) == xs[0] + (sep + Join(sep, xs[1..]));
    }
  }

  /** Item `i` sits unchanged at `JoinOffset(sep, xs, i)` inside the joined string. */
  lemma {:induction false} JoinItemAt(sep: string, xs: seq<string>, i: nat)
    requires i < |xs|
    ensures JoinOffset(sep, xs, i) + |xs[i]| <= |Join(sep, xs)|
    ensures Join(sep, xs)[JoinOffset(sep, xs, i)..JoinOffset(sep, xs, i) + |xs[i]|] == xs[i]
  {
    if i == 0 {
      JoinFirst(sep, xs);
    } else {
      var rest := Join(sep, xs[1..]);
      JoinCons(sep, xs);
      assert xs[1..][i - 1] == xs[i];
      JoinItemAt(sep, xs[1..], i - 1);
      OffsetTail(sep, xs, i);
      var a := JoinOffset(sep, xs[1..], i - 1);
      ShiftedSlice(xs[0] + sep, rest, a, a + |xs[i]|);
    }
  }

  /** Between item `i` and item `i + 1` there is exactly one copy of the separator. */
  lemma {:induction false} JoinSeparatorAt(sep: string, xs: seq<string>, i: nat)
    requires i + 1 < |xs|
    ensures JoinOffset(sep, xs, i + 1) == JoinOffset(sep, xs, i) + |xs[i]| + |sep|
    ensures JoinOffset(sep, xs, i + 1) <= |Join(sep, xs)|
    ensures Join(sep, xs)[JoinOffset(sep, xs, i) + |xs[i]|..JoinOffset(sep, xs, i + 1)] == sep
  {
    var rest := Join(sep, xs[1..]);
    JoinCons(sep, xs);
    if i == 0 {
      assert (xs[0] + sep + rest)[|xs[0]|..|xs[0]| + |sep|] == sep;
    } else {
      assert xs[1..][i - 1] == xs[i];
      JoinSeparatorAt(sep, xs[1..], i - 1);
      OffsetTail(sep, xs, i);
      OffsetTail(sep, xs, i + 1);
      var a := JoinOffset(sep, xs[1..], i - 1) + |xs[i]|;
      var b := JoinOffset(sep, xs[1..], i);
      ShiftedSlice(xs[0] + sep, rest, a, b);
    }
  }

  function LowerChar(c: char): char
  {
    if 'A' <= c <= 'Z' then (c as int + 32) as char else c
  }

  function UpperChar(c: char): char
  {
    if 'a' <= c <= 'z' then (c as int - 32) as char else c
  }

  /** `s.lower()` on ASCII letters: every character is mapped on its own. */
  function Lower(s: string): (r: string)
    ensures |r| == |s|
    ensures forall i :: 0 <= i < |s| ==> r[i] == LowerChar(s[i])
  {
    if s == [] then [] else [LowerChar(s[0])] + Lower(s[1..])
  }

  function Upper(s: string): (r: string)
    ensures |r| == |s|
    ensures forall i :: 0 <= i < |s| ==> r[i] == UpperChar(s[i])
  {
    if s == [] then [] else [UpperChar(s[0])] + Upper(s[1..])
  }

  /** Lower-casing forgets case: a string and its upper-cased form lower to the same string. */
  lemma LowerUpper(s: string)
    ensures Lower(Upper(s)) == Lower(s)
  {
    assert forall i :: 0 <= i < |s| ==> LowerChar(UpperChar(s[i])) == LowerChar(s[i]);
  }

  /** `s.rfind(c)`: the last position of `c` in `s`, or -1 when there is none. */
  function RFind(s: string, c: char): (r: int)
    ensures -1 <= r < |s|
    ensures r >= 0 ==> s[r] == c
    ensures forall i :: r < i < |s| ==> s[i] != c
  {
    if |s| == 0 then -1
    else if s[|s| - 1] == c then |s| - 1
    else RFind(s[..|s| - 1], c)
  }
}
