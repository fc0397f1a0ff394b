/**
  The functions of Go's `strings` and `strconv` packages that the pipeline
  calls, over Dafny strings (sequences of characters), together with the
  facts about them that the pipeline's properties rest on.
*/
module GoStrings {
  import opened GoBase

  predicate HasPrefix(s: string, prefix: string) {
    |prefix| <= |s| && s[..|prefix|] == prefix
  }

  /** strings.Contains(s, sub) */
  predicate Contains(s: string, sub: string)
    decreases |s|
  {
    HasPrefix(s, sub) || (|s| > 0 && Contains(s[1..], sub))
  }

  /** `sub` occurs in `s` starting at index `i`. */
  predicate OccursAt(s: string, sub: string, i: int) {
    0 <= i <= |s| - |sub| && s[i..i + |sub|] == sub
  }

  /** strings.Contains holds exactly when `sub` occurs in `s` at some index. */
  lemma {:induction false} ContainsAt(s: string, sub: string)
    ensures Contains(s, sub) <==> exists i :: OccursAt(s, sub, i)
    decreases |s|
  {
    if HasPrefix(s, sub) {
      assert OccursAt(s, sub, 0);
    } else if |s| > 0 {
      ContainsAt(s[1..], sub);
      if exists i :: OccursAt(s, sub, i) {
        var i :| OccursAt(s, sub, i);
        assert i != 0;
        assert OccursAt(s[1..], sub, i - 1);
      }
      if Contains(s[1..], sub) {
        var j :| OccursAt(s[1..], sub, j);
        assert OccursAt(s, sub, j + 1);
      }
    }
  }

  /** strings.Join(parts, sep) */
  function Join(parts: seq<string>, sep: string): string
  {
    if |parts| == 0 then ""
    else if |parts| == 1 then parts[0]
    else parts[0] + sep + Join(parts[1..], sep)
  }

  /** strings.Split(s, string([c])): the pieces of `s` between occurrences of `c`. */
  function Split(s: string, c: char): (pieces: seq<string>)
    ensures |pieces| >= 1
    decreases |s|
  {
    if s == [] then [""]
    else
      var rest := Split(s[1..], c);
      if s[0] == c then [""] + rest else [[s[0]] + rest[0]] + rest[1..]
  }

  /** A join with a non-empty separator is empty exactly when there is
      nothing to join or only one empty piece. */
  lemma JoinEmpty(parts: seq<string>, sep: string)
    requires sep != ""
    ensures Join(parts, sep) == "" <==> |parts| == 0 || (|parts| == 1 && parts[0] == "")
  {
    if |parts| >= 2 {
      assert |Join(parts, sep)| >= |sep|;
    }
  }

  /** Splitting a piece free of `c` that is followed by more text. */
  lemma {:induction false} SplitFreePrefix(a: string, t: string, c: char)
    requires c !in a
    ensures Split(a + t, c) == [a + Split(t, c)[0]] + Split(t, c)[1..]
    decreases |a|
  {
    if a != [] {
      assert (a + t)[1..] == a[1..] + t;
      SplitFreePrefix(a[1..], t, c);
      assert [a[0]] + (a[1..] + Split(t, c)[0]) == a + Split(t, c)[0];
    } else {
      var r := Split(t, c);
      assert a + t == t && a + r[0] == r[0];
      assert [r[0]] + r[1..] == r;
    }
  }

  /** Join with a one-character separator is undone by Split, as long as no
      piece contains the separator: joined messages can be read back line by line. */
  lemma {:induction false} SplitJoin(parts: seq<string>, c: char)
    requires |parts| >= 1
    requires forall i :: 0 <= i < |parts| ==> c !in parts[i]
    ensures Split(Join(parts, [c]), c) == parts
    decreases |parts|
  {
    if |parts| == 1 {
      SplitFreePrefix(parts[0], "", c);
      assert parts[0] + "" == parts[0];
    } else {
      var rest := Join(parts[1..], [c]);
      SplitJoin(parts[1..], c);
      assert Join(parts, [c]) == parts[0] + ([c] + rest);
      SplitFreePrefix(parts[0], [c] + rest, c);
      assert ([c] + rest)[1..] == rest;
      assert Split([c] + rest, c) == [""] + parts[1..];
      assert parts[0] + "" == parts[0];
    }
  }

  /** strings.ReplaceAll(s, string([c]), ""): `s` with every `c` removed. */
  function RemoveChar(s: string, c: char): (r: string)
    ensures c !in r
    ensures |r| <= |s|
    ensures c !in s ==> r == s
    ensures forall x :: x != c ==> multiset(r)[x] == multiset(s)[x]
  {
    if s == [] then []
    else
      var rest := RemoveChar(s[1..], c);
      assert s == [s[0]] + s[1..];
      if s[0] == c then rest else [s[0]] + rest
  }

  // ---------------------------------------------------------------------
  // strconv.ParseInt(s, 10, 64) and strconv.FormatInt(n, 10)
  // ---------------------------------------------------------------------

  const MaxUint64: int := 0xFFFF_FFFF_FFFF_FFFF
  const MaxInt64: int := 0x7FFF_FFFF_FFFF_FFFF
  const MinInt64: int := -0x8000_0000_0000_0000

  predicate IsDigit(c: char) { '0' <= c <= '9' }

  function DigitValue(c: char): nat
    requires IsDigit(c)
  {
    c as int - '0' as int
  }

  /** The digit loop of strconv.ParseUint(s, 10, 64) after `n` has been
      accumulated; `s0` is the text reported in the error. A non-digit is a
      syntax error, and a value that leaves uint64 is a range error at the
      digit where it happens, before any later character is looked at. */
  function ParseDigits(s: string, n: nat, s0: string): (r: Result<nat>)
    ensures r.Ok? ==> n <= r.value <= MaxUint64
    ensures r.Err? ==> r.error.NumError? && r.error.num == s0
  {
    if s == [] then (if n <= MaxUint64 then Ok(n) else Err(NumError(s0, ErrRange)))
    else if !IsDigit(s[0]) then Err(NumError(s0, ErrSyntax))
    else
      var n1 := n * 10 + DigitValue(s[0]);
      if n1 > MaxUint64 then Err(NumError(s0, ErrRange))
      else ParseDigits(s[1..], n1, s0)
  }

  /** strconv.ParseInt(s, 10, 64): an optional sign, then decimal digits,
      within the int64 range. */
  function ParseInt(s: string): (r: Result<int>)
    ensures r.Ok? ==> MinInt64 <= r.value <= MaxInt64
    ensures r.Err? ==> r.error.NumError? && r.error.num == s
  {
    if s == [] then Err(NumError(s, ErrSyntax))
    else
      var neg := s[0] == '-';
      var digits := if s[0] == '+' || s[0] == '-' then s[1..] else s;
      if digits == [] then Err(NumError(s, ErrSyntax))
      else
        match ParseDigits(digits, 0, s)
        case Err(e) => Err(e)
        case Ok(un) =>
          if !neg && un > MaxInt64 then Err(NumError(s, ErrRange))
          else if neg && un > -MinInt64 then Err(NumError(s, ErrRange))
          else
            var v: int := if neg then -(un as int) else un as int;
            Ok(v)
  }

  /** A character other than a digit makes the digit loop fail. */
  lemma {:induction false} ParseDigitsRejectsNonDigit(s: string, n: nat, s0: string, i: nat)
    requires i < |s| && !IsDigit(s[i])
    ensures ParseDigits(s, n, s0).Err?
    decreases i
  {
    if IsDigit(s[0]) && n * 10 + DigitValue(s[0]) <= MaxUint64 {
      ParseDigitsRejectsNonDigit(s[1..], n * 10 + DigitValue(s[0]), s0, i - 1);
    }
  }

  /** A text with a character that is neither a digit nor a leading sign is
      not a number: ParseInt fails, with a syntax or a range error. */
  lemma ParseIntRejectsNonNumeric(s: string, i: nat)
    requires i < |s| && !IsDigit(s[i])
    requires i == 0 ==> s[0] != '+' && s[0] != '-'
    ensures ParseInt(s).Err?
  {
    var digits := if s[0] == '+' || s[0] == '-' then s[1..] else s;
    if digits != [] {
      if s[0] == '+' || s[0] == '-' {
        ParseDigitsRejectsNonDigit(digits, 0, s, i - 1);
      } else {
        ParseDigitsRejectsNonDigit(digits, 0, s, i);
      }
    }
  }

  /** The decimal digits of `n`, as strconv.FormatInt writes them. */
  function FormatNat(n: nat): (s: string)
    ensures |s| >= 1 && forall i :: 0 <= i < |s| ==> IsDigit(s[i])
  {
    var d := ['0' + (n % 10) as char];
    if n < 10 then d else FormatNat(n / 10) + d
  }

  /** strconv.FormatInt(n, 10) */
  function FormatInt(n: int): string
  {
    if n < 0 then "-" + FormatNat(-n) else FormatNat(n)
  }

  /** The value a digit string denotes after `n` has been accumulated. */
  function Accumulate(s: string, n: nat): nat
    requires forall i :: 0 <= i < |s| ==> IsDigit(s[i])
  {
    if s == [] then n else Accumulate(s[1..], n * 10 + DigitValue(s[0]))
  }

  lemma {:induction false} AccumulateGrows(s: string, n: nat)
    requires forall i :: 0 <= i < |s| ==> IsDigit(s[i])
    ensures Accumulate(s, n) >= n
    decreases |s|
  {
    if s != [] {
      AccumulateGrows(s[1..], n * 10 + DigitValue(s[0]));
    }
  }

  lemma {:induction false} AccumulateSnoc(s: string, d: char, n: nat)
    requires forall i :: 0 <= i < |s| ==> IsDigit(s[i])
    requires IsDigit(d)
    ensures forall i :: 0 <= i < |s + [d]| ==> IsDigit((s + [d])[i])
    ensures Accumulate(s + [d], n) == Accumulate(s, n) * 10 + DigitValue(d)
    decreases |s|
  {
    if s == [] {
      assert [] + [d] == [d];
    } else {
      assert (s + [d])[1..] == s[1..] + [d];
      AccumulateSnoc(s[1..], d, n * 10 + DigitValue(s[0]));
    }
  }

  /** The digit loop computes the denoted value when that value fits in uint64. */
  lemma {:induction false} ParseDigitsValue(s: string, n: nat, s0: string)
    requires forall i :: 0 <= i < |s| ==> IsDigit(s[i])
    requires Accumulate(s, n) <= MaxUint64
    ensures ParseDigits(s, n, s0) == Ok(Accumulate(s, n))
    decreases |s|
  {
    if s != [] {
      var n1 := n * 10 + DigitValue(s[0]);
      AccumulateGrows(s[1..], n1);
      ParseDigitsValue(s[1..], n1, s0);
    }
  }

  lemma {:induction false} AccumulateFormatNat(n: nat)
    ensures Accumulate(FormatNat(n), 0) == n
  {
    var d := '0' + (n % 10) as char;
    if n < 10 {
      assert FormatNat(n) == [d];
    } else {
      AccumulateFormatNat(n / 10);
      AccumulateSnoc(FormatNat(n / 10), d, 0);
    }
  }

  /** ParseInt reads back every int64 that FormatInt writes. */
  lemma ParseIntFormatInt(n: int)
    requires MinInt64 <= n <= MaxInt64
    ensures ParseInt(FormatInt(n)) == Ok(n)
  {
    var m: nat := if n < 0 then -n else n;
    var digits := FormatNat(m);
    AccumulateFormatNat(m);
    ParseDigitsValue(digits, 0, FormatInt(n));
    if n < 0 {
      assert FormatInt(n)[1..] == digits;
    } else {
      assert FormatInt(n)[0] == digits[0];
    }
  }
}
