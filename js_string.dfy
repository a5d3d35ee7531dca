/** The JavaScript string operations the proxy relies on: `indexOf`,
    `startsWith`, `split` on a non-empty separator, first-occurrence `replace`
    and `padStart`, and `Array.prototype.indexOf` on a list of strings. */
module JsString {
  import opened Wrappers

  /** `pat` occurs in `s` starting at index `i`. */
  predicate OccursAt(s: string, pat: string, i: nat)
  {
    i + |pat| <= |s| && s[i..i + |pat|] == pat
  }

  /** `s.startsWith(prefix)`. */
  predicate StartsWith(s: string, prefix: string)
  {
    |prefix| <= |s| && s[..|prefix|] == prefix
  }

  /** `s.indexOf(pat, from)` for `from <= |s|`: the first index at or after
      `from` where `pat` occurs, `None` standing for JavaScript's -1. (For an
      empty `pat` and `from > |s|` JavaScript answers `|s|`; only `from = 0`
      is ever asked for.) */
  function IndexOfFrom(s: string, pat: string, from: nat): (r: Option<nat>)
    decreases |s| - from
    ensures r.Some? ==> from <= r.value && OccursAt(s, pat, r.value)
    ensures r.Some? ==> forall j :: from <= j < r.value ==> !OccursAt(s, pat, j)
    ensures r.None? ==> forall j :: from <= j ==> !OccursAt(s, pat, j)
  {
    if from + |pat| > |s| then None
    else if s[from..from + |pat|] == pat then Some(from)
    else IndexOfFrom(s, pat, from + 1)
  }

  /** `s.indexOf(pat)`. */
  function IndexOf(s: string, pat: string): Option<nat>
  {
    IndexOfFrom(s, pat, 0)
  }

  /** An occurrence with none before it is the one `indexOf` finds. */
  lemma IndexOfIsFirst(s: string, pat: string, i: nat)
    requires OccursAt(s, pat, i)
    requires forall j :: 0 <= j < i ==> !OccursAt(s, pat, j)
    ensures IndexOf(s, pat) == Some(i)
  {
  }

  /** Text added after the first occurrence does not move it. */
  lemma {:induction false} IndexOfExtend(a: string, b: string, pat: string)
    requires IndexOf(a, pat).Some?
    ensures IndexOf(a + b, pat) == IndexOf(a, pat)
  {
    var i := IndexOf(a, pat).value;
    assert (a + b)[i..i + |pat|] == a[i..i + |pat|];
    forall j | 0 <= j < i
      ensures !OccursAt(a + b, pat, j)
    {
      assert !OccursAt(a, pat, j);
      assert (a + b)[j..j + |pat|] == a[j..j + |pat|];
    }
    IndexOfIsFirst(a + b, pat, i);
  }

  /** Nothing occurs in a prefix of `s` that does not occur in `s`. */
  lemma NoneInPrefix(s: string, pat: string, i: nat)
    requires pat != [] && i <= |s|
    requires forall j :: 0 <= j < i ==> !OccursAt(s, pat, j)
    ensures IndexOf(s[..i], pat).None?
  {
    if IndexOf(s[..i], pat).Some? {
      var k := IndexOf(s[..i], pat).value;
      assert k < i;
      assert s[..i][k..k + |pat|] == s[k..k + |pat|];
      assert OccursAt(s, pat, k);
      assert false;
    }
  }

  /** The pieces of `s` between separators, joined back by `sep`. */
  function Join(parts: seq<string>, sep: string): string
  {
    if |parts| == 0 then ""
    else if |parts| == 1 then parts[0]
    else parts[0] + sep + Join(parts[1..], sep)
  }

  /** `s.split(sep)` for a non-empty separator: the pieces between the
      non-overlapping occurrences of `sep` found from the left, keeping empty
      pieces (a trailing separator yields a trailing ""). */
  function Split(s: string, sep: string): (parts: seq<string>)
    requires sep != []
    decreases |s|
    ensures |parts| >= 1
    ensures forall k :: 0 <= k < |parts| ==> IndexOf(parts[k], sep).None?
    ensures Join(parts, sep) == s
  {
    match IndexOf(s, sep)
    case None => [s]
    case Some(i) =>
      NoneInPrefix(s, sep, i);
      var rest := Split(s[i + |sep|..], sep);
      var parts := [s[..i]] + rest;
      assert parts[0] == s[..i] && parts[1..] == rest;
      assert Join(parts, sep) == s[..i] + sep + Join(rest, sep);
      assert s == s[..i] + sep + s[i + |sep|..];
      parts
  }

  /** Every piece but the last, followed by one separator, has its first
      occurrence of the separator exactly there. */
  predicate Separable(parts: seq<string>, sep: string)
  {
    && (forall k :: 0 <= k < |parts| - 1 ==> SeparatorFirstAtEnd(parts[k], sep))
    && (|parts| > 0 ==> IndexOf(parts[|parts| - 1], sep).None?)
  }

  /** The first occurrence of `sep` in `p + sep` is the appended one. */
  predicate SeparatorFirstAtEnd(p: string, sep: string)
  {
    IndexOf(p + sep, sep) == Some(|p|)
  }

  /** Splitting undoes joining whenever no separator hides inside or across a
      piece: the inverse direction of the `Join(Split(s, sep), sep) == s`
      guarantee of `Split`. */
  lemma {:induction false} SplitJoin(parts: seq<string>, sep: string)
    requires sep != [] && |parts| >= 1
    requires Separable(parts, sep)
    ensures Split(Join(parts, sep), sep) == parts
  {
    if |parts| > 1 {
      var rest := parts[1..];
      SeparableTail(parts, sep);
      SplitJoin(rest, sep);
      assert Join(parts, sep) == (parts[0] + sep) + Join(rest, sep);
      SplitCons(parts[0], Join(rest, sep), sep);
      assert parts == [parts[0]] + rest;
    }
  }

  /** Dropping the first piece keeps the pieces separable. */
  lemma SeparableTail(parts: seq<string>, sep: string)
    requires |parts| > 1 && Separable(parts, sep)
    ensures Separable(parts[1..], sep) && SeparatorFirstAtEnd(parts[0], sep)
  {
    var rest := parts[1..];
    assert forall k :: 0 <= k < |rest| - 1 ==> rest[k] == parts[k + 1];
  }

  /** A piece whose first separator is the one after it splits off first. */
  lemma SplitCons(a: string, tail: string, sep: string)
    requires sep != [] && SeparatorFirstAtEnd(a, sep)
    ensures Split((a + sep) + tail, sep) == [a] + Split(tail, sep)
  {
    var s := (a + sep) + tail;
    IndexOfExtend(a + sep, tail, sep);
    SplitAt(s, sep, |a|);
    assert s[..|a|] == a;
    assert s[|a| + |sep|..] == tail;
  }

  /** One step of `Split`: the piece before the first separator, then the rest. */
  lemma SplitAt(s: string, sep: string, i: nat)
    requires sep != [] && IndexOf(s, sep) == Some(i)
    ensures Split(s, sep) == [s[..i]] + Split(s[i + |sep|..], sep)
  {
  }

  /** `s.replace(pat, rep)` with a plain string pattern: only the first
      occurrence is replaced; without one, `s` is returned as it is. */
  function ReplaceFirst(s: string, pat: string, rep: string): (r: string)
    ensures IndexOf(s, pat).None? ==> r == s
    ensures IndexOf(s, pat).Some? ==>
      var i := IndexOf(s, pat).value;
      && |r| == |s| - |pat| + |rep|
      && r[..i] == s[..i] && r[i..i + |rep|] == rep && r[i + |rep|..] == s[i + |pat|..]
  {
    match IndexOf(s, pat)
    case None => s
    case Some(i) => s[..i] + rep + s[i + |pat|..]
  }

  /** Removing a leading marker with `replace(marker, "")` leaves what followed it. */
  lemma StripLeading(marker: string, rest: string)
    ensures ReplaceFirst(marker + rest, marker, "") == rest
  {
    var s := marker + rest;
    assert OccursAt(s, marker, 0);
    IndexOfIsFirst(s, marker, 0);
  }

  /** `s.padStart(width, c)` for a one-character pad string. */
  function PadStart(s: string, width: nat, c: char): (r: string)
    ensures |r| == if |s| >= width then |s| else width
    ensures r[|r| - |s|..] == s
    ensures forall k :: 0 <= k < |r| - |s| ==> r[k] == c
  {
    if |s| >= width then s else seq(width - |s|, _ => c) + s
  }

  /** `xs.indexOf(x)` on an array of strings. */
  function IndexOfItem(xs: seq<string>, x: string): (r: Option<nat>)
    ensures r.Some? ==> r.value < |xs| && xs[r.value] == x
    ensures r.Some? ==> forall j :: 0 <= j < r.value ==> xs[j] != x
    ensures r.None? ==> x !in xs
  {
    if |xs| == 0 then None
    else if xs[0] == x then Some(0)
    else match IndexOfItem(xs[1..], x)
      case None => None
      case Some(j) => Some(j + 1)
  }
}
