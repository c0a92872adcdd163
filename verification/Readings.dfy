/** How the CrmProvider reads the ids and texts of a CRM record. */
module Readings {
  import opened Wrappers
  import opened Text
  import opened Json
  import opened Contracts

  // ----- ids -----

  predicate AllDigits(s: string) {
    s != [] && forall i :: 0 <= i < |s| ==> IsDigit(s[i])
  }

  /** Position of the first dot, or the length. */
  function DotPosition(s: string): (p: nat)
    ensures p <= |s| && '.' !in s[..p] && (p < |s| ==> s[p] == '.')
  {
    if s == [] || s[0] == '.' then 0 else
      var p := DotPosition(s[1..]);
      assert s[..p + 1] == [s[0]] + s[1..][..p];
      p + 1
  }

  /** `_id`: a positive integer, its decimal text or, for source ids, a number with an empty fraction. */
  function ParseId(value: Json, source: bool): Option<PositiveInt> {
    match value
    case JInt(n) => if n > 0 then Some(n) else None
    case JString(s) =>
      var p := DotPosition(s);
      if !AllDigits(s[..p]) then None
      else if p < |s| && !(source && p + 1 < |s| && forall i :: p < i < |s| ==> s[i] == '0') then None
      else if ParseDecimal(s[..p]) > 0 then Some(ParseDecimal(s[..p])) else None
    case JFloat(r) =>
      if source && r.Floor as real == r && 0.0 < r < 9007199254740992.0 then Some(r.Floor) else None
    case _ => None
  }

  /** `record.get(name)` read as an id. */
  function RecordId(record: Fields, name: string): Option<PositiveInt> {
    if name in record then ParseId(record[name], false) else None
  }

  /** The text is the number's decimal form, perhaps with zeros before it. */
  ghost predicate IsNumeral(s: string, n: nat) {
    exists zeros: nat :: zeros <= |s| && s[zeros..] == Decimal(n) && forall i :: 0 <= i < zeros ==> s[i] == '0'
  }

  /** A dot and zeros. */
  predicate IsEmptyFraction(s: string) {
    |s| >= 2 && s[0] == '.' && forall i :: 0 < i < |s| ==> s[i] == '0'
  }

  /** `s` is a numeral of `n`, for a source id perhaps with an empty fraction. */
  ghost predicate TextReadsAs(s: string, n: nat, source: bool) {
    exists p: nat :: p <= |s| && IsNumeral(s[..p], n) && (p == |s| || (source && IsEmptyFraction(s[p..])))
  }

  /** The value stands for the id `n`. */
  ghost predicate ReadsAs(value: Json, n: int, source: bool) {
    && n > 0
    && match value
       case JInt(k) => k == n
       case JString(s) => TextReadsAs(s, n, source)
       case JFloat(r) => source && r == n as real && n < 0x20_0000_0000_0000
       case _ => false
  }

  ghost predicate FieldReadsAs(record: Fields, name: string, n: int) {
    name in record && ReadsAs(record[name], n, false)
  }

  ghost predicate HasId(record: Fields, name: string) {
    exists n :: FieldReadsAs(record, name, n)
  }

  lemma {:induction false} ParseNumeral(s: string, zeros: nat)
    requires zeros <= |s| && forall i :: 0 <= i < |s| ==> IsDigit(s[i])
    requires forall i :: 0 <= i < zeros ==> s[i] == '0'
    ensures ParseDecimal(s) == ParseDecimal(s[zeros..])
  {
    if zeros < |s| {
      ParseNumeral(s[..|s| - 1], zeros);
      assert s[zeros..][..|s| - zeros - 1] == s[..|s| - 1][zeros..];
    } else if s != [] {
      ParseNumeral(s[..|s| - 1], |s| - 1);
      assert s[..|s| - 1][|s| - 1..] == [] && s[zeros..] == [];
    }
  }

  /** Digits of a positive number are its decimal form after zeros. */
  lemma {:induction false} DigitsAreNumeral(s: string)
    requires (forall i :: 0 <= i < |s| ==> IsDigit(s[i])) && ParseDecimal(s) > 0
    ensures IsNumeral(s, ParseDecimal(s))
  {
    var head, last := s[..|s| - 1], s[|s| - 1];
    assert s == head + [last];
    if ParseDecimal(head) > 0 {
      DigitsAreNumeral(head);
      NumeralGrows(head, ParseDecimal(head), DigitValue(last));
    } else {
      ZeroIsZeros(head);
      assert s[|head|..] == [last] == Decimal(DigitValue(last));
    }
  }

  lemma {:induction false} NumeralGrows(s: string, n: nat, d: nat)
    requires IsNumeral(s, n) && n > 0 && d < 10
    ensures IsNumeral(s + [Digit(d)], n * 10 + d)
  {
    var zeros: nat :| zeros <= |s| && s[zeros..] == Decimal(n) && forall i :: 0 <= i < zeros ==> s[i] == '0';
    assert (s + [Digit(d)])[zeros..] == Decimal(n) + [Digit(d)];
    assert (n * 10 + d) / 10 == n && (n * 10 + d) % 10 == d;
  }

  lemma {:induction false} ZeroIsZeros(s: string)
    requires (forall i :: 0 <= i < |s| ==> IsDigit(s[i])) && ParseDecimal(s) == 0
    ensures forall i :: 0 <= i < |s| ==> s[i] == '0'
  {
    if s != [] {
      ZeroIsZeros(s[..|s| - 1]);
    }
  }

  lemma {:induction false} NumeralMeaning(s: string, n: nat)
    requires n > 0
    ensures IsNumeral(s, n) <==> AllDigits(s) && ParseDecimal(s) == n
  {
    if zeros: nat :| zeros <= |s| && s[zeros..] == Decimal(n) && forall i :: 0 <= i < zeros ==> s[i] == '0' {
      forall i | 0 <= i < |s|
        ensures IsDigit(s[i])
      {
        assert i >= zeros ==> s[i] == s[zeros..][i - zeros];
      }
      ParseNumeral(s, zeros);
      ParseInvertsDecimal(n);
    }
    if AllDigits(s) && ParseDecimal(s) == n {
      DigitsAreNumeral(s);
    }
  }

  lemma {:induction false} DotFollowsDigits(s: string, p: nat)
    requires p <= |s| && AllDigits(s[..p]) && (p < |s| ==> s[p] == '.')
    ensures DotPosition(s) == p
  {
    var q := DotPosition(s);
    assert forall i :: 0 <= i < p ==> s[i] == s[..p][i];
    assert forall i :: 0 <= i < q ==> s[i] == s[..q][i];
  }

  lemma {:induction false} TextReading(s: string, n: nat, source: bool)
    requires n > 0
    ensures ParseId(JString(s), source) == Some(n) <==> TextReadsAs(s, n, source)
  {
    var q := DotPosition(s);
    if p: nat :| p <= |s| && IsNumeral(s[..p], n) && (p == |s| || (source && IsEmptyFraction(s[p..]))) {
      NumeralMeaning(s[..p], n);
      assert p < |s| ==> s[p] == s[p..][0];
      DotFollowsDigits(s, p);
      assert forall i :: p < i < |s| ==> s[i] == s[p..][i - p];
    }
    if ParseId(JString(s), source) == Some(n) {
      NumeralMeaning(s[..q], n);
    }
  }

  /** An id is read exactly as the number the value stands for. */
  lemma {:induction false} IdReading(value: Json, n: int, source: bool)
    ensures ParseId(value, source) == Some(n) <==> ReadsAs(value, n, source)
  {
    if n > 0 && value.JString? {
      TextReading(value.text, n, source);
    }
  }

  lemma {:induction false} RecordIdReading(record: Fields, name: string)
    ensures forall n :: RecordId(record, name) == Some(n) <==> FieldReadsAs(record, name, n)
    ensures RecordId(record, name).Some? <==> HasId(record, name)
  {
    forall n
      ensures RecordId(record, name) == Some(n) <==> FieldReadsAs(record, name, n)
    {
      if name in record {
        IdReading(record[name], n, false);
      }
    }
    if RecordId(record, name).Some? {
      assert FieldReadsAs(record, name, RecordId(record, name).value);
    }
  }

  // ----- texts -----

  /** `s.strip()`. */
  function Strip(s: string): string {
    if s == [] then [] else if IsSpace(s[0]) then Strip(s[1..]) else StripRight(s)
  }

  function StripRight(s: string): string {
    if s != [] && IsSpace(s[|s| - 1]) then StripRight(s[..|s| - 1]) else s
  }

  ghost predicate AllSpace(s: string) {
    forall i :: 0 <= i < |s| ==> IsSpace(s[i])
  }

  /** The text is `r` between spaces, and `r` neither begins nor ends with one. */
  ghost predicate StripsTo(s: string, r: string) {
    && r != [] && !IsSpace(r[0]) && !IsSpace(r[|r| - 1])
    && exists i: nat, j: nat :: IsBetween(s, i, j, r)
  }

  ghost predicate IsBetween(s: string, i: nat, j: nat, r: string) {
    i <= j <= |s| && s[i..j] == r && AllSpace(s[..i]) && AllSpace(s[j..])
  }

  lemma {:induction false} SpacesAround(s: string, i: nat, j: nat, r: string)
    requires IsBetween(s, i, j, r)
    ensures forall k :: 0 <= k < i || j <= k < |s| ==> IsSpace(s[k])
  {
    assert forall k :: 0 <= k < i ==> s[k] == s[..i][k];
    assert forall k :: j <= k < |s| ==> s[k] == s[j..][k - j];
  }

  lemma {:induction false} BetweenLeft(s: string, i: nat, j: nat, r: string)
    requires s != [] && IsSpace(s[0])
    ensures IsBetween(s[1..], i, j, r) ==> IsBetween(s, i + 1, j + 1, r)
    ensures r != [] && !IsSpace(r[0]) && IsBetween(s, i, j, r) ==> 0 < i && IsBetween(s[1..], i - 1, j - 1, r)
  {
    if IsBetween(s[1..], i, j, r) {
      assert s[..i + 1] == [s[0]] + s[1..][..i] && s[1..][j..] == s[j + 1..] && s[i + 1..j + 1] == r;
    }
    if r != [] && !IsSpace(r[0]) && IsBetween(s, i, j, r) {
      assert s[i..j][0] == s[i];
      assert s[1..][..i - 1] == s[..i][1..] && s[1..][j - 1..] == s[j..] && s[1..][i - 1..j - 1] == r;
    }
  }

  lemma {:induction false} BetweenRight(s: string, i: nat, j: nat, r: string)
    requires s != [] && IsSpace(s[|s| - 1])
    ensures IsBetween(s[..|s| - 1], i, j, r) ==> IsBetween(s, i, j, r)
    ensures r != [] && !IsSpace(r[|r| - 1]) && IsBetween(s, i, j, r) ==> IsBetween(s[..|s| - 1], i, j, r)
  {
    var n := |s| - 1;
    if IsBetween(s[..n], i, j, r) {
      assert s[..n][..i] == s[..i] && s[j..] == s[..n][j..] + [s[n]] && s[i..j] == r;
    }
    if r != [] && !IsSpace(r[|r| - 1]) && IsBetween(s, i, j, r) {
      assert s[i..j][j - i - 1] == s[j - 1];
      assert s[..n][..i] == s[..i] && s[..n][j..] == s[j..][..n - j] && s[..n][i..j] == r;
    }
  }

  lemma {:induction false} StripsLeft(s: string)
    requires s != [] && IsSpace(s[0])
    ensures forall r :: StripsTo(s, r) <==> StripsTo(s[1..], r)
  {
    forall r
      ensures StripsTo(s, r) <==> StripsTo(s[1..], r)
    {
      if StripsTo(s, r) {
        var i: nat, j: nat :| IsBetween(s, i, j, r);
        BetweenLeft(s, i, j, r);
      }
      if StripsTo(s[1..], r) {
        var i: nat, j: nat :| IsBetween(s[1..], i, j, r);
        BetweenLeft(s, i, j, r);
      }
    }
  }

  lemma {:induction false} StripsRight(s: string)
    requires s != [] && IsSpace(s[|s| - 1])
    ensures forall r :: StripsTo(s, r) <==> StripsTo(s[..|s| - 1], r)
  {
    forall r
      ensures StripsTo(s, r) <==> StripsTo(s[..|s| - 1], r)
    {
      if StripsTo(s, r) {
        var i: nat, j: nat :| IsBetween(s, i, j, r);
        BetweenRight(s, i, j, r);
      }
      if StripsTo(s[..|s| - 1], r) {
        var i: nat, j: nat :| IsBetween(s[..|s| - 1], i, j, r);
        BetweenRight(s, i, j, r);
      }
    }
  }

  lemma {:induction false} NothingToStrip(s: string)
    requires s != [] && !IsSpace(s[0]) && !IsSpace(s[|s| - 1])
    ensures forall r :: StripsTo(s, r) <==> r == s
  {
    forall r
      ensures StripsTo(s, r) <==> r == s
    {
      if r == s {
        assert IsBetween(s, 0, |s|, r);
      }
      if i: nat, j: nat :| r != [] && IsBetween(s, i, j, r) {
        SpacesAround(s, i, j, r);
      }
    }
  }

  lemma {:induction false} StripRightReading(s: string)
    requires s != [] && !IsSpace(s[0])
    ensures StripRight(s) != [] && forall r :: StripsTo(s, r) <==> StripRight(s) == r
    decreases |s|
  {
    if IsSpace(s[|s| - 1]) {
      StripsRight(s);
      StripRightReading(s[..|s| - 1]);
    } else {
      NothingToStrip(s);
    }
  }

  /** A text is stripped to what stands between the spaces around it, or to nothing. */
  lemma {:induction false} StripReading(s: string)
    ensures forall r :: StripsTo(s, r) <==> r != [] && Strip(s) == r
    ensures Strip(s) == [] <==> !HasText(s)
    decreases |s|
  {
    if s == [] {
    } else if IsSpace(s[0]) {
      StripsLeft(s);
      StripReading(s[1..]);
      assert forall i :: 0 < i < |s| ==> s[i] == s[1..][i - 1];
    } else {
      StripRightReading(s);
    }
  }
}
