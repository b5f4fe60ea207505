/** Sequence and string helpers shared by the model: prefix and substring
    tests, JavaScript's `split`/`join` for a non-empty separator, ASCII
    upper-casing, and decimal rendering of integers (template literals). */
module Text {
  import opened Wrappers

  predicate IsPrefix<T(==)>(p: seq<T>, s: seq<T>) {
    |p| <= |s| && s[..|p|] == p
  }

  /** `s.includes(sub)` / Rust's `contains`: `sub` occurs somewhere in `s`. */
  predicate Contains<T(==)>(s: seq<T>, sub: seq<T>)
    decreases |s|
  {
    IsPrefix(sub, s) || (|s| > 0 && Contains(s[1..], sub))
  }

  /** An occurrence of `sub` starts at index `i` of `s`. */
  predicate OccursAt<T(==)>(s: seq<T>, sub: seq<T>, i: int) {
    0 <= i && i + |sub| <= |s| && s[i..i + |sub|] == sub
  }

  /** The recursive substring test agrees with the positional one. */
  lemma {:induction false} ContainsIffOccurs<T>(s: seq<T>, sub: seq<T>)
    ensures Contains(s, sub) <==> exists i :: OccursAt(s, sub, i)
    decreases |s|
  {
    if IsPrefix(sub, s) {
      assert OccursAt(s, sub, 0);
    } else if |s| == 0 {
    } else {
      ContainsIffOccurs(s[1..], sub);
      if Contains(s[1..], sub) {
        var i :| OccursAt(s[1..], sub, i);
        assert s[1..][i..i + |sub|] == s[i + 1..i + 1 + |sub|];
        assert OccursAt(s, sub, i + 1);
      } else {
        assert !OccursAt(s, sub, 0) by { if |sub| <= |s| { assert s[0..|sub|] == s[..|sub|]; } }
        forall i | 0 < i && i + |sub| <= |s| ensures !OccursAt(s, sub, i) {
          assert s[1..][i - 1..i - 1 + |sub|] == s[i..i + |sub|];
          assert !OccursAt(s[1..], sub, i - 1);
        }
      }
    }
  }

  /** The first index at or after `from` where `sep` occurs in `s`. */
  function IndexOfFrom<T(==)>(s: seq<T>, sep: seq<T>, from: nat): (r: Option<nat>)
    requires |sep| > 0
    ensures r.Some? ==> from <= r.value && OccursAt(s, sep, r.value)
    ensures r.Some? ==> forall j :: from <= j < r.value ==> !OccursAt(s, sep, j)
    ensures r.None? ==> forall j :: from <= j ==> !OccursAt(s, sep, j)
    decreases |s| - from
  {
    if from + |sep| > |s| then None
    else if s[from..from + |sep|] == sep then Some(from)
    else IndexOfFrom(s, sep, from + 1)
  }

  /** JavaScript's `s.split(sep)` for a non-empty string separator: cut at
      every occurrence of `sep`, scanning left to right. */
  function Split<T(==)>(s: seq<T>, sep: seq<T>): (parts: seq<seq<T>>)
    requires |sep| > 0
    ensures |parts| >= 1
    decreases |s|
  {
    match IndexOfFrom(s, sep, 0)
    case None => [s]
    case Some(i) => [s[..i]] + Split(s[i + |sep|..], sep)
  }

  /** JavaScript's `parts.join(sep)`. */
  function Join<T>(parts: seq<seq<T>>, sep: seq<T>): seq<T> {
    if |parts| == 0 then []
    else if |parts| == 1 then parts[0]
    else parts[0] + sep + Join(parts[1..], sep)
  }

  /** Joining the pieces of a split with the same separator gives back the
      original text. */
  lemma {:induction false} JoinSplit<T>(s: seq<T>, sep: seq<T>)
    requires |sep| > 0
    ensures Join(Split(s, sep), sep) == s
    decreases |s|
  {
    var found := IndexOfFrom(s, sep, 0);
    if found.Some? {
      var i := found.value;
      var rest := s[i + |sep|..];
      var tail := Split(rest, sep);
      JoinSplit(rest, sep);
      var parts := [s[..i]] + tail;
      assert Split(s, sep) == parts;
      assert parts[0] == s[..i] && parts[1..] == tail && |parts| >= 2;
      assert Join(parts, sep) == s[..i] + sep + rest;
      assert s[i..i + |sep|] == sep;
      assert s == s[..i] + s[i..i + |sep|] + rest;
    }
  }

  /** The pieces of a split: the text before the first occurrence of the
      separator, then the pieces of the rest after it. */
  lemma SplitStep<T>(s: seq<T>, sep: seq<T>, i: nat)
    requires |sep| > 0 && IndexOfFrom(s, sep, 0) == Some(i)
    ensures Split(s, sep)[0] == s[..i]
    ensures |Split(s, sep)| == 1 + |Split(s[i + |sep|..], sep)|
    ensures forall k :: 1 <= k < |Split(s, sep)| ==> Split(s, sep)[k] == Split(s[i + |sep|..], sep)[k - 1]
  {
    var parts, rest := Split(s, sep), Split(s[i + |sep|..], sep);
    assert parts == [s[..i]] + rest;
    forall k | 1 <= k < |parts| ensures parts[k] == rest[k - 1] {
      assert ([s[..i]] + rest)[k] == rest[k - 1];
    }
  }

  /** No piece of a split holds the separator. */
  lemma {:induction false} SplitPiecesAvoidSeparator<T>(s: seq<T>, sep: seq<T>, k: nat)
    requires |sep| > 0 && k < |Split(s, sep)|
    ensures !Contains(Split(s, sep)[k], sep)
    decreases |s|
  {
    var piece := Split(s, sep)[k];
    match IndexOfFrom(s, sep, 0)
    case None =>
      assert piece == s;
      ContainsIffOccurs(s, sep);
    case Some(i) =>
      SplitStep(s, sep, i);
      if k == 0 {
        forall j: int | 0 <= j ensures !OccursAt(piece, sep, j) {
          if j + |sep| <= i {
            assert !OccursAt(s, sep, j);
            assert s[..i][j..j + |sep|] == s[j..j + |sep|];
          }
        }
        ContainsIffOccurs(piece, sep);
      } else {
        SplitPiecesAvoidSeparator(s[i + |sep|..], sep, k - 1);
      }
  }

  /** A slice containing `sub` makes the whole sequence contain it. */
  lemma ContainsInSlice<T>(s: seq<T>, sub: seq<T>, a: nat, b: nat)
    requires a <= b <= |s|
    ensures Contains(s[a..b], sub) ==> Contains(s, sub)
  {
    ContainsIffOccurs(s[a..b], sub);
    ContainsIffOccurs(s, sub);
    forall j | OccursAt(s[a..b], sub, j) ensures OccursAt(s, sub, a + j) {
      assert s[a + j..a + j + |sub|] == sub by {
        forall t | 0 <= t < |sub| ensures s[a + j..a + j + |sub|][t] == sub[t] {
          assert sub[t] == s[a..b][j..j + |sub|][t];
        }
      }
    }
  }

  /** A pattern absent from a sequence is absent from each of its pieces. */
  lemma {:induction false} SplitPiecesAvoidOthers<T>(s: seq<T>, sep: seq<T>, bad: seq<T>, k: nat)
    requires |sep| > 0 && k < |Split(s, sep)| && !Contains(s, bad)
    ensures !Contains(Split(s, sep)[k], bad)
    decreases |s|
  {
    match IndexOfFrom(s, sep, 0)
    case None =>
    case Some(i) =>
      SplitStep(s, sep, i);
      if k == 0 {
        assert s[..i] == s[0..i];
        ContainsInSlice(s, bad, 0, i);
      } else {
        var rest := s[i + |sep|..];
        assert rest == s[i + |sep|..|s|];
        ContainsInSlice(s, bad, i + |sep|, |s|);
        SplitPiecesAvoidOthers(rest, sep, bad, k - 1);
      }
  }

  /** A sequence none of whose elements is the first element of `sub` does
      not contain `sub`. */
  lemma LeadAbsentNotContained<T>(s: seq<T>, sub: seq<T>)
    requires |sub| > 0 && forall i :: 0 <= i < |s| ==> s[i] != sub[0]
    ensures !Contains(s, sub)
  {
    ContainsIffOccurs(s, sub);
    forall i: int | 0 <= i ensures !OccursAt(s, sub, i) {
      if i + |sub| <= |s| {
        assert s[i..i + |sub|][0] == s[i];
      }
    }
  }

  /** Two sequences that differ at a position inside both are not prefix
      and whole. */
  lemma NotPrefixAt<T>(p: seq<T>, s: seq<T>, i: nat)
    requires i < |p| && i < |s| && p[i] != s[i]
    ensures !IsPrefix(p, s)
  {
    if |p| <= |s| {
      assert s[..|p|][i] == s[i];
    }
  }

  function UpperChar(c: char): char {
    if 'a' <= c <= 'z' then (c as int - 32) as char else c
  }

  /** `toUpperCase()` restricted to the ASCII letters. */
  function ToUpper(s: string): (r: string)
    ensures |r| == |s|
    ensures forall i :: 0 <= i < |s| ==> r[i] == UpperChar(s[i])
  {
    if |s| == 0 then [] else [UpperChar(s[0])] + ToUpper(s[1..])
  }

  /** Text without lower-case ASCII letters is its own upper case. */
  lemma UpperIdentity(s: string)
    requires forall i :: 0 <= i < |s| ==> !('a' <= s[i] <= 'z')
    ensures ToUpper(s) == s
  {
  }

  function DigitChar(d: nat): (c: char)
    requires d < 10
    ensures '0' <= c <= '9' && c as int - '0' as int == d
  {
    ('0' as int + d) as char
  }

  /** Decimal rendering of a natural number, as a template literal prints it. */
  function NatToString(n: nat): (r: string)
    ensures |r| >= 1
    ensures forall i :: 0 <= i < |r| ==> '0' <= r[i] <= '9'
  {
    if n < 10 then [DigitChar(n)] else NatToString(n / 10) + [DigitChar(n % 10)]
  }

  function IntToString(i: int): string {
    if i < 0 then "-" + NatToString(-i) else NatToString(i)
  }

  /** The value of a string of decimal digits. */
  function DecimalValue(s: string): nat
    requires forall i :: 0 <= i < |s| ==> '0' <= s[i] <= '9'
  {
    if |s| == 0 then 0
    else DecimalValue(s[..|s| - 1]) * 10 + (s[|s| - 1] as int - '0' as int)
  }

  /** Reading back the decimal rendering gives the number. */
  lemma {:induction false} DecimalRoundTrip(n: nat)
    ensures DecimalValue(NatToString(n)) == n
  {
    if n >= 10 {
      DecimalRoundTrip(n / 10);
      var r := NatToString(n);
      assert r == NatToString(n / 10) + [DigitChar(n % 10)];
      assert r[..|r| - 1] == NatToString(n / 10);
      assert DecimalValue(r) == DecimalValue(NatToString(n / 10)) * 10 + n % 10;
    }
  }

  /** Distinct numbers render differently. */
  lemma NatToStringInjective(m: nat, n: nat)
    requires NatToString(m) == NatToString(n)
    ensures m == n
  {
    DecimalRoundTrip(m);
    DecimalRoundTrip(n);
  }
}
