/**
 The Python string built-ins the relay bot relies on when it reads a channel
 link, written over `string` (= `seq<char>`): the substring test (`p in s`),
 `str.split(sep)` and `int(s)`. `str(n)` and `sep.join` are not used by the
 bot; they are here as the inverses that `int` and `split` are proved
 against.
 */
module Strings {

  datatype Option<+T> = None | Some(value: T)

  /** `p` occurs in `s` starting at index `i`. */
  predicate OccursAt(s: string, p: string, i: int)
  {
    0 <= i && i + |p| <= |s| && s[i..i + |p|] == p
  }

  /** Python's `p in s` for two strings: the empty string is in every string,
      and a longer string is in none. */
  predicate Contains(s: string, p: string)
    ensures p == [] ==> Contains(s, p)
    ensures Contains(s, p) ==> |p| <= |s|
  {
    assert p == [] ==> OccursAt(s, p, 0);
    exists i | 0 <= i <= |s| - |p| :: OccursAt(s, p, i)
  }

  /** Index of the first occurrence of `p` in `s` at or after `k`, if any. */
  function FindFrom(s: string, p: string, k: nat): (r: Option<nat>)
    requires p != []
    requires k <= |s|
    ensures r.Some? ==> k <= r.value && OccursAt(s, p, r.value)
    ensures r.Some? ==> forall j :: k <= j < r.value ==> !OccursAt(s, p, j)
    ensures r.None? ==> forall j :: k <= j ==> !OccursAt(s, p, j)
    decreases |s| - k
  {
    if k + |p| > |s| then None
    else if s[k..k + |p|] == p then Some(k)
    else FindFrom(s, p, k + 1)
  }

  /** Python's `s.split(sep)`: cut at each occurrence of `sep`, scanning left to
      right and resuming after each cut, so occurrences never overlap.
      The first cut is written out at each use rather than bound by a `match`
      or `var`, because the binding makes every unfolding of `Split` in the
      lemmas much costlier to verify. */
  function Split(s: string, sep: string): (parts: seq<string>)
    requires sep != []
    ensures |parts| >= 1
    decreases |s|
  {
    if FindFrom(s, sep, 0).None? then [s]
    else [s[..FindFrom(s, sep, 0).value]] + Split(s[FindFrom(s, sep, 0).value + |sep|..], sep)
  }

  /** Python's `sep.join(parts)`, the inverse of `Split`. */
  function Join(parts: seq<string>, sep: string): string
  {
    if parts == [] then ""
    else if |parts| == 1 then parts[0]
    else parts[0] + sep + Join(parts[1..], sep)
  }

  /** Python's `xs[-1]`. */
  function Last<T>(xs: seq<T>): T
    requires xs != []
  {
    xs[|xs| - 1]
  }

  /** Joining the pieces back with the separator gives the original string. */
  lemma {:induction false} SplitJoin(s: string, sep: string)
    requires sep != []
    ensures Join(Split(s, sep), sep) == s
    decreases |s|
  {
    match FindFrom(s, sep, 0)
    case None =>
    case Some(i) =>
      var head, tail := s[..i], s[i + |sep|..];
      var rest := Split(tail, sep);
      var parts := [head] + rest;
      assert Split(s, sep) == parts;
      assert parts[0] == head && parts[1..] == rest;
      calc {
        Join(parts, sep);
        head + sep + Join(rest, sep);
        { SplitJoin(tail, sep); }
        head + sep + tail;
        { assert s[i..i + |sep|] == sep; }
        s;
      }
  }

  /** A string splits into a single piece, itself, exactly when the separator
      does not occur in it. */
  lemma SplitSingle(s: string, sep: string)
    requires sep != []
    ensures |Split(s, sep)| == 1 <==> !Contains(s, sep)
    ensures !Contains(s, sep) ==> Split(s, sep) == [s]
  {
    match FindFrom(s, sep, 0)
    case None =>
    case Some(i) =>
      assert OccursAt(s, sep, i);
  }

  /** The first occurrence from `k` on is the one with no occurrence between
      `k` and it. */
  lemma FirstOccurrence(s: string, p: string, k: nat, i: nat)
    requires p != []
    requires k <= i && OccursAt(s, p, i)
    requires forall j :: k <= j < i ==> !OccursAt(s, p, j)
    ensures FindFrom(s, p, k).Some? && FindFrom(s, p, k).value == i
  {
  }

  /** An occurrence found in `u` is still the first one once text is appended. */
  lemma FirstOccurrenceExtends(u: string, sep: string, x: string)
    requires sep != []
    requires FindFrom(u, sep, 0).Some?
    ensures FindFrom(u + x, sep, 0) == FindFrom(u, sep, 0)
  {
    var s, i := u + x, FindFrom(u, sep, 0).value;
    assert s[i..i + |sep|] == u[i..i + |sep|];
    forall j | 0 <= j < i
      ensures !OccursAt(s, sep, j)
    {
      assert s[j..j + |sep|] == u[j..j + |sep|];
      assert !OccursAt(u, sep, j);
    }
    FirstOccurrence(s, sep, 0, i);
  }

  /** When `sep` does not occur in `u`, nor straddles the end of `u`, the first
      cut of `u + sep + b` falls right after `u`. */
  lemma SplitAfterPlain(u: string, sep: string, b: string)
    requires sep != []
    requires !Contains(u + sep[..|sep| - 1], sep)
    ensures Split(u + sep + b, sep) == [u] + Split(b, sep)
  {
    var s, w := u + sep + b, u + sep[..|sep| - 1];
    assert w == s[..|u| + |sep| - 1];
    assert s[|u|..|u| + |sep|] == sep;
    forall j | 0 <= j < |u|
      ensures !OccursAt(s, sep, j)
    {
      assert w[j..j + |sep|] == s[j..j + |sep|];
      assert !OccursAt(w, sep, j);
    }
    FirstOccurrence(s, sep, 0, |u|);
    assert s[..|u|] == u;
    assert s[|u| + |sep|..] == b;
  }

  /** Appending `sep + b` to `u` appends the pieces of `b` to those of `u`,
      unless the last piece of `u` and the separator overlap into an earlier
      occurrence of the separator. */
  lemma {:induction false} SplitAppend(u: string, sep: string, b: string)
    requires sep != []
    requires !Contains(Last(Split(u, sep)) + sep[..|sep| - 1], sep)
    ensures Split(u + sep + b, sep) == Split(u, sep) + Split(b, sep)
    decreases |u|
  {
    if FindFrom(u, sep, 0).None? {
      SplitAfterPlain(u, sep, b);
    } else {
      var i := FindFrom(u, sep, 0).value;
      var head, tail := u[..i], u[i + |sep|..];
      var rest := Split(tail, sep);
      assert Split(u + sep + b, sep) == [head] + Split(tail + sep + b, sep) by {
        SplitExtends(u, sep + b, sep, i);
        AppendAssoc(u, sep, b);
        AppendAssoc(tail, sep, b);
      }
      assert Split(u, sep) == [head] + rest && Last(Split(u, sep)) == Last(rest) by {
        SplitAt(u, sep, i);
        assert ([head] + rest)[|rest|] == rest[|rest| - 1];
      }
      SplitAppend(tail, sep, b);
      AppendAssoc([head], rest, Split(b, sep));
    }
  }

  lemma AppendAssoc<T>(a: seq<T>, b: seq<T>, c: seq<T>)
    ensures a + b + c == a + (b + c)
  {
  }

  /** Unfolds `Split` at its first cut. */
  lemma SplitAt(s: string, sep: string, i: nat)
    requires sep != []
    requires FindFrom(s, sep, 0).Some? && FindFrom(s, sep, 0).value == i
    ensures i + |sep| <= |s| && Split(s, sep) == [s[..i]] + Split(s[i + |sep|..], sep)
  {
    assert OccursAt(s, sep, i);
  }

  /** A cut found in `u` stays the first cut once `x` is appended. */
  lemma SplitExtends(u: string, x: string, sep: string, i: nat)
    requires sep != []
    requires FindFrom(u, sep, 0).Some? && FindFrom(u, sep, 0).value == i
    ensures i + |sep| <= |u|
    ensures Split(u + x, sep) == [u[..i]] + Split(u[i + |sep|..] + x, sep)
  {
    FirstOccurrenceExtends(u, sep, x);
    SplitAt(u + x, sep, i);
    assert (u + x)[..i] == u[..i];
    assert (u + x)[i + |sep|..] == u[i + |sep|..] + x;
  }

  predicate IsDigit(c: char)
  {
    '0' <= c <= '9'
  }

  /** A non-empty run of decimal digits. */
  predicate IsDigits(t: string)
  {
    |t| > 0 && forall k :: 0 <= k < |t| ==> IsDigit(t[k])
  }

  /** Value of a run of decimal digits, most significant first. */
  function DigitsValue(t: string): int
  {
    if t == [] then 0
    else DigitsValue(t[..|t| - 1]) * 10 + ((t[|t| - 1] as int) - ('0' as int))
  }

  /** Python's `int(s)`, restricted to an optional sign followed by decimal
      digits; `None` stands for the `ValueError` it raises otherwise. */
  function ParseInt(s: string): (r: Option<int>)
    ensures r.Some? <==>
              && |s| > 0 && IsDigit(s[|s| - 1])
              && forall k :: 0 <= k < |s| ==> IsDigit(s[k]) || (k == 0 && (s[k] == '-' || s[k] == '+'))
  {
    if |s| > 0 && (s[0] == '-' || s[0] == '+') then
      if IsDigits(s[1..]) then
        Some(if s[0] == '-' then -DigitsValue(s[1..]) else DigitsValue(s[1..]))
      else None
    else if IsDigits(s) then Some(DigitsValue(s))
    else None
  }

  function DigitChar(d: nat): (c: char)
    requires d < 10
    ensures IsDigit(c)
  {
    (('0' as int) + d) as char
  }

  /** Python's `str(n)` for a natural number. */
  function NatToString(n: nat): (t: string)
    ensures IsDigits(t)
  {
    if n < 10 then [DigitChar(n)] else NatToString(n / 10) + [DigitChar(n % 10)]
  }

  /** Python's `str(n)` for an integer: digits, with a leading minus sign when
      negative. */
  function IntToString(n: int): (t: string)
    ensures |t| >= 1
    ensures forall k :: 0 <= k < |t| ==> IsDigit(t[k]) || (k == 0 && t[k] == '-')
  {
    if n < 0 then "-" + NatToString(-n) else NatToString(n)
  }

  lemma {:induction false} DigitsValueOfNatToString(n: nat)
    ensures DigitsValue(NatToString(n)) == n
  {
    var t := NatToString(n);
    if n >= 10 {
      DigitsValueOfNatToString(n / 10);
      assert t[..|t| - 1] == NatToString(n / 10);
    }
  }

  /** `int(str(n)) == n`: the integer parser reads back what `str` prints. */
  lemma ParseIntRoundTrip(n: int)
    ensures ParseInt(IntToString(n)) == Some(n)
  {
    var t := IntToString(n);
    if n < 0 {
      DigitsValueOfNatToString(-n);
      assert t[1..] == NatToString(-n);
    } else {
      DigitsValueOfNatToString(n);
    }
  }

  /** The printed form of an integer holds no `/`. */
  lemma NoSlashInInt(n: int)
    ensures !Contains(IntToString(n), "/")
  {
    var t := IntToString(n);
    forall j | 0 <= j < |t|
      ensures !OccursAt(t, "/", j)
    {
      assert t[j..j + 1] == [t[j]];
    }
  }
}
