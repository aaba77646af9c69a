/**
 * The parts of Go's `strings` package that the proxy relies on, over strings of
 * Unicode scalar values: SplitN(s, sep, 2) through IndexOf, Split, Join and TrimSpace.
 */
module Text {
  import opened Wrappers

  /** Index of the first occurrence of `c` in `s`, if any. */
  function IndexOf(s: string, c: char): (r: Option<nat>)
    ensures r.None? <==> c !in s
    ensures r.Some? ==> r.value < |s| && s[r.value] == c && c !in s[..r.value]
  {
    if s == [] then None
    else if s[0] == c then Some(0)
    else
      match IndexOf(s[1..], c)
      case None => None
      case Some(i) =>
        assert s[..i + 1] == [s[0]] + s[1..][..i];
        Some(i + 1)
  }

  /**
   * strings.Split(s, string(c)): the pieces of `s` between the occurrences of `c`.
   * There is always at least one piece ("" splits into [""]), and no piece holds `c`.
   */
  function Split(s: string, c: char): (fields: seq<string>)
    ensures |fields| >= 1
    ensures forall i :: 0 <= i < |fields| ==> c !in fields[i]
    decreases |s|
  {
    match IndexOf(s, c)
    case None => [s]
    case Some(i) => [s[..i]] + Split(s[i + 1..], c)
  }

  /** strings.Join: the elements of `xs` with `sep` between consecutive ones. */
  function Join(xs: seq<string>, sep: string): string
  {
    if |xs| == 0 then ""
    else if |xs| == 1 then xs[0]
    else xs[0] + sep + Join(xs[1..], sep)
  }

  /** Joining one more element adds the separator and that element at the end. */
  lemma {:induction false} JoinAppend(xs: seq<string>, y: string, sep: string)
    requires xs != []
    ensures Join(xs + [y], sep) == Join(xs, sep) + sep + y
  {
    if |xs| == 1 {
      assert xs + [y] == [xs[0], y];
    } else {
      assert (xs + [y])[1..] == xs[1..] + [y];
      JoinAppend(xs[1..], y, sep);
    }
  }

  /** Split and Join with the same separator are inverse: joining the pieces restores the string. */
  lemma {:induction false} SplitJoin(s: string, c: char)
    ensures Join(Split(s, c), [c]) == s
    decreases |s|
  {
    match IndexOf(s, c)
    case None =>
    case Some(i) =>
      var rest := Split(s[i + 1..], c);
      SplitJoin(s[i + 1..], c);
      assert Split(s, c) == [s[..i]] + rest;
      assert s == s[..i] + [c] + s[i + 1..];
  }

  /** Split yields exactly one more piece than there are separators in the string. */
  lemma {:induction false} SplitCount(s: string, c: char)
    ensures |Split(s, c)| == multiset(s)[c] + 1
    decreases |s|
  {
    match IndexOf(s, c)
    case None =>
    case Some(i) =>
      SplitCount(s[i + 1..], c);
      assert s == s[..i] + [c] + s[i + 1..];
      assert multiset(s) == multiset(s[..i]) + multiset([c]) + multiset(s[i + 1..]);
  }

  /** Splitting `a + [c] + b` where `a` has no `c` gives `a` and then the pieces of `b`. */
  lemma SplitAtFirst(a: string, c: char, b: string)
    requires c !in a
    ensures Split(a + [c] + b, c) == [a] + Split(b, c)
  {
    var s := a + [c] + b;
    assert s[|a|] == c && s[..|a|] == a;
    assert s[..|a|] == a && s[|a| + 1..] == b;
  }

  /** A string separated into two parts by one `c` splits into pieces that concatenate back. */
  lemma {:induction false} SplitConcat(a: string, c: char, b: string)
    ensures Split(a + [c] + b, c) == Split(a, c) + Split(b, c)
    decreases |a|
  {
    match IndexOf(a, c)
    case None =>
      SplitAtFirst(a, c, b);
    case Some(i) =>
      SplitConcat(a[i + 1..], c, b);
      SplitConcatStep(a, c, b, i);
  }

  /** The inductive step of SplitConcat: the piece before the first `c` of `a` comes off both sides. */
  lemma SplitConcatStep(a: string, c: char, b: string, i: nat)
    requires IndexOf(a, c) == Some(i)
    requires Split(a[i + 1..] + [c] + b, c) == Split(a[i + 1..], c) + Split(b, c)
    ensures Split(a + [c] + b, c) == Split(a, c) + Split(b, c)
  {
    SplitFirstPiece(a, c, b, i);
    PrependAssociates(Split(a + [c] + b, c), Split(a, c), a[..i], Split(a[i + 1..], c), Split(b, c));
  }

  /** Prepending a piece commutes with appending pieces. */
  lemma PrependAssociates(whole: seq<string>, front: seq<string>, p: string, x: seq<string>, y: seq<string>)
    requires whole == [p] + (x + y) && front == [p] + x
    ensures whole == front + y
  {
  }

  /** When `a` holds a `c` at `i`, appending to `a` does not change the first piece. */
  lemma SplitFirstPiece(a: string, c: char, b: string, i: nat)
    requires IndexOf(a, c) == Some(i)
    ensures Split(a + [c] + b, c) == [a[..i]] + Split(a[i + 1..] + [c] + b, c)
  {
    var s := a + [c] + b;
    assert s[..i] == a[..i];
    assert s[i + 1..] == a[i + 1..] + [c] + b;
    IndexOfFirst(s, c, i);
  }

  /** A `c` with no `c` before it is the first one. */
  lemma IndexOfFirst(s: string, c: char, i: nat)
    requires i < |s| && s[i] == c && c !in s[..i]
    ensures IndexOf(s, c) == Some(i)
  {
  }

  /** unicode.IsSpace: the characters strings.TrimSpace removes. */
  predicate IsSpace(ch: char)
  {
    || ch == ' '
    || '\t' <= ch <= '\r'
    || ch == '\U{85}' || ch == '\U{A0}' || ch == '\U{1680}'
    || '\U{2000}' <= ch <= '\U{200A}'
    || ch == '\U{2028}' || ch == '\U{2029}' || ch == '\U{202F}' || ch == '\U{205F}' || ch == '\U{3000}'
  }

  /** How many white-space characters `s` starts with. */
  function LeadingSpaces(s: string): (n: nat)
    ensures n <= |s|
    ensures forall k :: 0 <= k < n ==> IsSpace(s[k])
    ensures n == |s| || !IsSpace(s[n])
  {
    if s != [] && IsSpace(s[0]) then 1 + LeadingSpaces(s[1..]) else 0
  }

  /** How many white-space characters `s` ends with. */
  function TrailingSpaces(s: string): (n: nat)
    ensures n <= |s|
    ensures forall k :: |s| - n <= k < |s| ==> IsSpace(s[k])
    ensures n == |s| || !IsSpace(s[|s| - n - 1])
  {
    if s != [] && IsSpace(s[|s| - 1]) then 1 + TrailingSpaces(s[..|s| - 1]) else 0
  }

  /**
   * strings.TrimSpace: `s` with white space removed at both ends. What is left is
   * a slice of `s` with only white space cut away, and it neither starts nor ends
   * with white space.
   */
  function TrimSpace(s: string): (r: string)
    ensures r == [] || (!IsSpace(r[0]) && !IsSpace(r[|r| - 1]))
    ensures exists i, j :: 0 <= i <= j <= |s| && r == s[i..j] && forall k :: 0 <= k < i || j <= k < |s| ==> IsSpace(s[k])
  {
    var t := s[LeadingSpaces(s)..];
    TrimmedSlice(s, LeadingSpaces(s), TrailingSpaces(t));
    t[..|t| - TrailingSpaces(t)]
  }

  /** Cutting `n` characters of white space off the end of `s[i..]`, where `s[..i]` is white space, leaves a slice of `s` surrounded by white space. */
  lemma TrimmedSlice(s: string, i: nat, n: nat)
    requires i <= |s| && n <= |s| - i
    requires forall k :: 0 <= k < i ==> IsSpace(s[k])
    requires forall k :: |s[i..]| - n <= k < |s[i..]| ==> IsSpace(s[i..][k])
    ensures exists i', j :: 0 <= i' <= j <= |s| && s[i..][..|s| - i - n] == s[i'..j] && forall k :: 0 <= k < i' || j <= k < |s| ==> IsSpace(s[k])
  {
    var j := |s| - n;
    assert s[i..][..|s| - i - n] == s[i..j];
    forall k | j <= k < |s|
      ensures IsSpace(s[k])
    {
      assert s[k] == s[i..][k - i];
    }
  }

  /** TrimSpace drops only white space: it yields "" exactly when `s` is all white space. */
  lemma TrimSpaceEmpty(s: string)
    ensures TrimSpace(s) == [] <==> forall k :: 0 <= k < |s| ==> IsSpace(s[k])
  {
  }
}
