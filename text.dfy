/**
 * The string operations topic handling uses: `sub in s`, `s.strip(c)` and
 * `s.split(c)` for a single-character separator, with `sep.join(parts)` as
 * the inverse of splitting.
 */
module Text {

  /** `sub in s`: `sub` occurs somewhere in `s`. */
  predicate Contains(s: string, sub: string)
    decreases |s|
  {
    |sub| <= |s| && (s[..|sub|] == sub || Contains(s[1..], sub))
  }

  /** `sub` occurring at position `i` of `s` is found by `sub in s`. */
  lemma {:induction false} ContainsAt(s: string, sub: string, i: nat)
    requires i + |sub| <= |s| && s[i..i + |sub|] == sub
    ensures Contains(s, sub)
    decreases i
  {
    if i > 0 && s[..|sub|] != sub {
      assert s[1..][i - 1..i - 1 + |sub|] == s[i..i + |sub|];
      ContainsAt(s[1..], sub, i - 1);
    }
  }

  /** `sub in s` only when `sub` occurs at some position of `s`. */
  lemma {:induction false} ContainsSomewhere(s: string, sub: string) returns (i: nat)
    requires Contains(s, sub)
    ensures i + |sub| <= |s| && s[i..i + |sub|] == sub
    decreases |s|
  {
    if s[..|sub|] == sub {
      i := 0;
    } else {
      var k := ContainsSomewhere(s[1..], sub);
      assert s[1..][k..k + |sub|] == s[k + 1..k + 1 + |sub|];
      i := k + 1;
    }
  }

  /** Position of the first `c` in `s`, or `|s|` when there is none. */
  function IndexOf(s: string, c: char): (i: nat)
    ensures i <= |s|
    ensures i < |s| ==> s[i] == c
  {
    if s == [] then 0
    else if s[0] == c then 0
    else 1 + IndexOf(s[1..], c)
  }

  /** No `c` comes before the position `IndexOf` reports, so it is the first. */
  lemma {:induction false} IndexOfFirst(s: string, c: char)
    ensures c !in s[..IndexOf(s, c)]
  {
    if s != [] && s[0] != c {
      IndexOfFirst(s[1..], c);
      assert s[..IndexOf(s, c)] == [s[0]] + s[1..][..IndexOf(s[1..], c)];
    }
  }

  /** `s.lstrip(c)` */
  function StripLeading(s: string, c: char): string
  {
    if s != [] && s[0] == c then StripLeading(s[1..], c) else s
  }

  /** `s.rstrip(c)` */
  function StripTrailing(s: string, c: char): string
  {
    if s != [] && s[|s| - 1] == c then StripTrailing(s[..|s| - 1], c) else s
  }

  /** `s.strip(c)` */
  function Strip(s: string, c: char): string
  {
    StripTrailing(StripLeading(s, c), c)
  }

  /** The number of `c` that `s` starts with. */
  function LeadingRun(s: string, c: char): (n: nat)
    ensures n <= |s|
  {
    if s != [] && s[0] == c then 1 + LeadingRun(s[1..], c) else 0
  }

  /** The number of `c` that `s` ends with. */
  function TrailingRun(s: string, c: char): (n: nat)
    ensures n <= |s|
    decreases |s|
  {
    if s != [] && s[|s| - 1] == c then 1 + TrailingRun(s[..|s| - 1], c) else 0
  }

  /** `s.lstrip(c)` drops the leading run of `c`: all of it, and nothing after it. */
  lemma {:induction false} StripLeadingSlice(s: string, c: char)
    ensures StripLeading(s, c) == s[LeadingRun(s, c)..]
    ensures forall k :: 0 <= k < LeadingRun(s, c) ==> s[k] == c
    ensures LeadingRun(s, c) < |s| ==> s[LeadingRun(s, c)] != c
  {
    if s != [] && s[0] == c {
      StripLeadingSlice(s[1..], c);
      var n := LeadingRun(s[1..], c);
      assert s[1..][n..] == s[n + 1..];
      forall k | 0 <= k < n + 1 ensures s[k] == c {
        if k > 0 { assert s[k] == s[1..][k - 1]; }
      }
      if n < |s[1..]| { assert s[n + 1] == s[1..][n]; }
    }
  }

  /** `s.rstrip(c)` drops the trailing run of `c`: all of it, and nothing before it. */
  lemma {:induction false} StripTrailingSlice(s: string, c: char)
    ensures StripTrailing(s, c) == s[..|s| - TrailingRun(s, c)]
    ensures forall k :: |s| - TrailingRun(s, c) <= k < |s| ==> s[k] == c
    ensures TrailingRun(s, c) < |s| ==> s[|s| - TrailingRun(s, c) - 1] != c
    decreases |s|
  {
    if s != [] && s[|s| - 1] == c {
      var s' := s[..|s| - 1];
      StripTrailingSlice(s', c);
      var j := |s'| - TrailingRun(s', c);
      assert s'[..j] == s[..j];
      forall k | j <= k < |s| ensures s[k] == c {
        if k < |s| - 1 { assert s[k] == s'[k]; }
      }
      if j > 0 { assert s[j - 1] == s'[j - 1]; }
    }
  }

  /**
   * `s.strip(c)` is the middle of `s` once every leading and every trailing
   * `c` is removed: a slice of `s`, with only `c` around it, that neither
   * starts nor ends with `c`.
   */
  lemma StripIsMaximal(s: string, c: char)
    ensures exists i, j :: 0 <= i <= j <= |s| && Strip(s, c) == s[i..j]
                           && (forall k :: 0 <= k < i ==> s[k] == c)
                           && (forall k :: j <= k < |s| ==> s[k] == c)
    ensures Strip(s, c) != [] ==> Strip(s, c)[0] != c && Strip(s, c)[|Strip(s, c)| - 1] != c
  {
    StripLeadingSlice(s, c);
    var i := LeadingRun(s, c);
    var l := s[i..];
    StripTrailingSlice(l, c);
    var j := |s| - TrailingRun(l, c);
    assert Strip(s, c) == s[i..j];
    forall k | j <= k < |s| ensures s[k] == c {
      assert s[k] == l[k - i];
    }
    assert 0 <= i <= j <= |s| && Strip(s, c) == s[i..j]
           && (forall k :: 0 <= k < i ==> s[k] == c)
           && (forall k :: j <= k < |s| ==> s[k] == c);
    if i < j {
      assert Strip(s, c)[0] == s[i];
      assert Strip(s, c)[|Strip(s, c)| - 1] == l[j - i - 1];
    }
  }

  /** `s.split(c)`: the pieces between the separators; never empty, `[""]` for `""`. */
  function Split(s: string, c: char): (parts: seq<string>)
    ensures |parts| >= 1
    decreases |s|
  {
    var i := IndexOf(s, c);
    if i == |s| then [s] else [s[..i]] + Split(s[i + 1..], c)
  }

  /** `c.join(parts)` */
  function Join(parts: seq<string>, c: char): string
  {
    if parts == [] then ""
    else if |parts| == 1 then parts[0]
    else parts[0] + [c] + Join(parts[1..], c)
  }

  /** Joining the pieces of a split gives the string back. */
  lemma {:induction false} SplitThenJoin(s: string, c: char)
    ensures Join(Split(s, c), c) == s
    decreases |s|
  {
    var i := IndexOf(s, c);
    if i < |s| {
      var head, rest := s[..i], s[i + 1..];
      calc {
        Join(Split(s, c), c);
        { assert Split(s, c) == [head] + Split(rest, c); }
        Join([head] + Split(rest, c), c);
        { JoinCons(head, Split(rest, c), c); }
        head + [c] + Join(Split(rest, c), c);
        { SplitThenJoin(rest, c); }
        head + [c] + rest;
        { CutAt(s, i); }
        s;
      }
    } else {
      assert Split(s, c) == [s];
    }
  }

  /** A string is what comes before position `i`, the character there and what comes after. */
  lemma CutAt(s: string, i: nat)
    requires i < |s|
    ensures s == s[..i] + [s[i]] + s[i + 1..]
  {
  }

  /** Joining a piece in front of a non-empty list puts one separator between them. */
  lemma JoinCons(head: string, rest: seq<string>, c: char)
    requires rest != []
    ensures Join([head] + rest, c) == head + [c] + Join(rest, c)
  {
    assert ([head] + rest)[1..] == rest;
  }

  /** No piece of a split contains the separator. */
  lemma {:induction false} SplitPiecesAreFree(s: string, c: char)
    ensures forall p | p in Split(s, c) :: c !in p
    decreases |s|
  {
    var i := IndexOf(s, c);
    IndexOfFirst(s, c);
    if i == |s| {
      assert s[..i] == s;
      assert Split(s, c) == [s];
    } else {
      SplitPiecesAreFree(s[i + 1..], c);
      assert Split(s, c) == [s[..i]] + Split(s[i + 1..], c);
    }
  }

  /** Splitting a join of separator-free pieces gives the pieces back. */
  lemma {:induction false} JoinThenSplit(parts: seq<string>, c: char)
    requires parts != []
    requires forall p | p in parts :: c !in p
    ensures Split(Join(parts, c), c) == parts
  {
    if |parts| == 1 {
      assert parts[0] in parts;
      assert IndexOf(parts[0], c) == |parts[0]|;
    } else {
      assert parts[0] in parts;
      assert forall p | p in parts[1..] :: p in parts;
      JoinThenSplit(parts[1..], c);
      SplitAtFirst(parts[0], c, Join(parts[1..], c));
      assert parts == [parts[0]] + parts[1..];
    }
  }

  /** A separator-free head followed by the separator is the first piece of the split. */
  lemma SplitAtFirst(head: string, c: char, rest: string)
    requires c !in head
    ensures Split(head + [c] + rest, c) == [head] + Split(rest, c)
  {
    var s := head + [c] + rest;
    assert s == head + ([c] + rest);
    IndexOfAfterFree(head, c, [c] + rest);
    assert s[..|head|] == head && s[|head| + 1..] == rest;
  }

  /** A separator-free prefix is skipped when looking for the separator. */
  lemma {:induction false} IndexOfAfterFree(a: string, c: char, b: string)
    requires c !in a && b != [] && b[0] == c
    ensures IndexOf(a + b, c) == |a|
  {
    if a != [] {
      assert (a + b)[1..] == a[1..] + b;
      IndexOfAfterFree(a[1..], c, b);
    }
  }
}
