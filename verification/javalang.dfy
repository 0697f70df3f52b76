/**
 * The few java.lang string and number behaviours the configuration client relies on:
 * `String.trim`, `String.contains`, `String.split(",")`, `Integer.valueOf`,
 * `Long.valueOf` and `Boolean.valueOf`, over ASCII digits.
 */
module JavaLang {
  import opened Wrappers

  /** The objects a conversion can produce. `Opaque` stands for a value built by a
      library parser the model does not look into (floating point, dates, JSON). */
  datatype Value =
    | Text(text: string)
    | Int(number: int)
    | Bool(truth: bool)
    | TextList(items: seq<string>)
    | Opaque(typeName: string, source: string)

  // ---------------------------------------------------------------- trim

  /** `String.trim` drops every leading and trailing char whose code is at most U+0020. */
  predicate IsTrimmed(c: char) {
    c <= ' '
  }

  predicate IsBlank(s: string) {
    forall i :: 0 <= i < |s| ==> IsTrimmed(s[i])
  }

  function DropLeading(s: string): (r: string)
    ensures |r| <= |s| && r == s[|s| - |r|..]
    ensures IsBlank(s[..|s| - |r|])
    ensures r != [] ==> !IsTrimmed(r[0])
  {
    if s != [] && IsTrimmed(s[0]) then DropLeading(s[1..]) else s
  }

  function DropTrailing(s: string): (r: string)
    ensures |r| <= |s| && r == s[..|r|]
    ensures IsBlank(s[|r|..])
    ensures r != [] ==> !IsTrimmed(r[|r| - 1])
  {
    if s != [] && IsTrimmed(s[|s| - 1]) then
      var r := DropTrailing(s[..|s| - 1]);
      assert s[..|s| - 1][..|r|] == s[..|r|];
      assert s[|r|..] == s[..|s| - 1][|r|..] + [s[|s| - 1]];
      r
    else s
  }

  /** `String.trim`: drop the blank chars at both ends. */
  function Trim(s: string): string {
    DropTrailing(DropLeading(s))
  }

  /** The trimmed string is the slice of `s` after its blank prefix and before its blank
      suffix. */
  lemma TrimSlice(s: string) returns (a: nat, b: nat)
    ensures a <= b <= |s| && Trim(s) == s[a..b]
    ensures IsBlank(s[..a]) && IsBlank(s[b..])
  {
    var left := DropLeading(s);
    var r := DropTrailing(left);
    a, b := |s| - |left|, |s| - |left| + |r|;
    SliceOfSuffix(s, a, |r|);
  }

  lemma SliceOfSuffix(s: string, a: nat, n: nat)
    requires a + n <= |s|
    ensures s[a..][..n] == s[a..a + n] && s[a..][n..] == s[a + n..]
  {
  }

  /** A non-empty trimmed string starts and ends with a non-blank char. */
  lemma TrimEnds(s: string)
    ensures var r := Trim(s); r != [] ==> !IsTrimmed(r[0]) && !IsTrimmed(r[|r| - 1])
  {
    var left := DropLeading(s);
    var r := DropTrailing(left);
    if r != [] {
      assert r[0] == left[0];
    }
  }

  /** Trimming leaves nothing exactly when the string is blank. */
  lemma TrimEmpty(s: string)
    ensures Trim(s) == [] <==> IsBlank(s)
  {
    var left := DropLeading(s);
    if left == [] {
      assert s[..|s|] == s;
    } else {
      assert left[0] == s[|s| - |left|];
      assert DropTrailing(left)[0] == left[0];
    }
  }

  /** A string with non-blank ends is its own trim. */
  lemma TrimKeepsTrimmed(s: string)
    requires s != [] ==> !IsTrimmed(s[0]) && !IsTrimmed(s[|s| - 1])
    ensures Trim(s) == s
  {
    assert DropLeading(s) == s;
  }

  /** Trimming twice is trimming once. */
  lemma TrimIdempotent(s: string)
    ensures Trim(Trim(s)) == Trim(s)
  {
    TrimEnds(s);
    TrimKeepsTrimmed(Trim(s));
  }

  // ------------------------------------------------------------- contains

  predicate OccursAt(s: string, sub: string, i: int) {
    0 <= i && i + |sub| <= |s| && s[i..i + |sub|] == sub
  }

  /** `String.contains`. */
  function Contains(s: string, sub: string): (b: bool)
    ensures b <==> exists i :: OccursAt(s, sub, i)
    decreases |s|
  {
    if |s| < |sub| then
      assert forall i :: !OccursAt(s, sub, i);
      false
    else if s[..|sub|] == sub then
      assert OccursAt(s, sub, 0);
      true
    else
      var b := Contains(s[1..], sub);
      assert !OccursAt(s, sub, 0);
      if b then
        var j :| OccursAt(s[1..], sub, j);
        assert s[j + 1..j + 1 + |sub|] == s[1..][j..j + |sub|];
        assert OccursAt(s, sub, j + 1);
        true
      else
        assert forall i :: OccursAt(s, sub, i) ==> OccursAt(s[1..], sub, i - 1) by {
          forall i | OccursAt(s, sub, i) ensures OccursAt(s[1..], sub, i - 1) {
            assert s[1..][i - 1..i - 1 + |sub|] == s[i..i + |sub|];
          }
        }
        false
  }

  // ---------------------------------------------------------------- split

  /** Every piece of `s` between occurrences of `sep`, empty pieces included. */
  function Fields(s: string, sep: char): (r: seq<string>)
    ensures |r| >= 1
    decreases |s|
  {
    if s == [] then [[]]
    else
      var rest := Fields(s[1..], sep);
      if s[0] == sep then [[]] + rest
      else [[s[0]] + rest[0]] + rest[1..]
  }

  /** Glues pieces back together with `sep` between them. */
  function Join(parts: seq<string>, sep: char): string
    requires |parts| >= 1
    decreases |parts|
  {
    if |parts| == 1 then parts[0] else parts[0] + [sep] + Join(parts[1..], sep)
  }

  /** Drops the empty strings at the end of `parts`. */
  function DropTrailingEmpty(parts: seq<string>): (r: seq<string>)
    ensures |r| <= |parts| && r == parts[..|r|]
    ensures r != [] ==> r[|r| - 1] != []
    ensures forall i :: |r| <= i < |parts| ==> parts[i] == []
  {
    if parts == [] then []
    else if parts[|parts| - 1] == [] then DropTrailingEmpty(parts[..|parts| - 1])
    else parts
  }

  /** `String.split` with a one-char separator and limit 0: a string without the
      separator yields itself; otherwise the pieces, with trailing empty pieces removed. */
  function JavaSplit(s: string, sep: char): seq<string> {
    if sep !in s then [s] else DropTrailingEmpty(Fields(s, sep))
  }

  lemma {:induction false} FieldsHaveNoSeparator(s: string, sep: char)
    ensures forall i :: 0 <= i < |Fields(s, sep)| ==> sep !in Fields(s, sep)[i]
    decreases |s|
  {
    if s != [] {
      FieldsHaveNoSeparator(s[1..], sep);
    }
  }

  /** Joining the fields with the separator gives back the original string. */
  lemma {:induction false} JoinFields(s: string, sep: char)
    ensures Join(Fields(s, sep), sep) == s
    decreases |s|
  {
    if s != [] {
      var rest := Fields(s[1..], sep);
      JoinFields(s[1..], sep);
      if s[0] != sep {
        var r := Fields(s, sep);
        assert r[1..] == rest[1..];
        if |rest| == 1 {
          assert Join(r, sep) == [s[0]] + rest[0];
        } else {
          assert Join(rest, sep) == rest[0] + [sep] + Join(rest[1..], sep);
          assert Join(r, sep) == ([s[0]] + rest[0]) + [sep] + Join(rest[1..], sep);
        }
      }
    }
  }

  /** A string free of the separator is its own single field. */
  lemma {:induction false} FieldsWithoutSeparator(s: string, sep: char)
    requires sep !in s
    ensures Fields(s, sep) == [s]
    decreases |s|
  {
    if s != [] {
      FieldsWithoutSeparator(s[1..], sep);
      assert [s[0]] + s[1..] == s;
    }
  }

  /** Cutting at the first separator: the part before it becomes the first field. */
  lemma {:induction false} FieldsOfCut(a: string, sep: char, b: string)
    requires sep !in a
    ensures Fields(a + [sep] + b, sep) == [a] + Fields(b, sep)
    decreases |a|
  {
    if a == [] {
      assert (a + [sep] + b)[1..] == b;
    } else {
      assert (a + [sep] + b)[1..] == a[1..] + [sep] + b;
      FieldsOfCut(a[1..], sep, b);
      assert [a[0]] + a[1..] == a;
    }
  }

  /** The last field is empty exactly when the string ends with the separator
      (or is empty). */
  lemma {:induction false} LastFieldEmpty(s: string, sep: char)
    ensures Fields(s, sep)[|Fields(s, sep)| - 1] == [] <==> (s == [] || s[|s| - 1] == sep)
    decreases |s|
  {
    if s != [] {
      LastFieldEmpty(s[1..], sep);
    }
  }

  /** `split(",")` loses nothing when the text does not end with a comma: joining the
      pieces with commas gives back the text, and no piece holds a comma. */
  lemma JavaSplitRoundTrip(s: string, sep: char)
    requires s != [] && s[|s| - 1] != sep
    ensures |JavaSplit(s, sep)| >= 1 && Join(JavaSplit(s, sep), sep) == s
    ensures forall i :: 0 <= i < |JavaSplit(s, sep)| ==> sep !in JavaSplit(s, sep)[i]
  {
    if sep in s {
      LastFieldEmpty(s, sep);
      JoinFields(s, sep);
      FieldsHaveNoSeparator(s, sep);
      var f := Fields(s, sep);
      assert DropTrailingEmpty(f) == f;
    }
  }

  /** `n` copies of `c`. */
  function Repeat(c: char, n: nat): string {
    seq(n, _ => c)
  }

  /** Appending one piece appends the separator and the piece. */
  lemma {:induction false} JoinSnoc(parts: seq<string>, q: string, sep: char)
    requires |parts| >= 1
    ensures Join(parts + [q], sep) == Join(parts, sep) + [sep] + q
    decreases |parts|
  {
    if |parts| == 1 {
      assert (parts + [q])[1..] == [q];
    } else {
      assert (parts + [q])[1..] == parts[1..] + [q];
      JoinSnoc(parts[1..], q, sep);
    }
  }

  /** Empty pieces at the end join as bare separators. */
  lemma {:induction false} JoinEmptyTail(parts: seq<string>, m: nat, sep: char)
    requires |parts| >= 1
    ensures Join(parts + seq(m, _ => ""), sep) == Join(parts, sep) + Repeat(sep, m)
    decreases m
  {
    if m == 0 {
      assert parts + seq(m, _ => "") == parts;
    } else {
      JoinEmptyTail(parts, m - 1, sep);
      assert parts + seq(m, _ => "") == (parts + seq(m - 1, _ => "")) + [""];
      JoinSnoc(parts + seq(m - 1, _ => ""), "", sep);
      assert Repeat(sep, m) == Repeat(sep, m - 1) + [sep];
    }
  }

  /** A string of separators only splits into empty pieces. */
  lemma {:induction false} FieldsOfSeparators(s: string, sep: char)
    requires forall i :: 0 <= i < |s| ==> s[i] == sep
    ensures forall i :: 0 <= i < |Fields(s, sep)| ==> Fields(s, sep)[i] == ""
    decreases |s|
  {
    if s != [] {
      FieldsOfSeparators(s[1..], sep);
    }
  }

  /** The pieces `split` keeps are the leading fields; the dropped ones are empty. */
  lemma KeptFields(s: string, sep: char)
    requires sep in s
    ensures Fields(s, sep) == JavaSplit(s, sep) + seq(|Fields(s, sep)| - |JavaSplit(s, sep)|, _ => "")
  {
    var f := Fields(s, sep);
    var r := JavaSplit(s, sep);
    assert f == r + seq(|f| - |r|, _ => "");
  }

  /** The pieces `split` keeps hold no separator. */
  lemma SplitPiecesFree(s: string, sep: char)
    requires sep in s
    ensures forall i :: 0 <= i < |JavaSplit(s, sep)| ==> sep !in JavaSplit(s, sep)[i]
  {
    FieldsHaveNoSeparator(s, sep);
  }

  /** When `split` keeps a piece, the text is the join of the kept pieces followed by
      one bare separator per dropped piece. */
  lemma SplitJoinsBack(s: string, sep: char)
    requires sep in s && JavaSplit(s, sep) != []
    ensures s == Join(JavaSplit(s, sep), sep) + Repeat(sep, |Fields(s, sep)| - |JavaSplit(s, sep)|)
  {
    JoinFields(s, sep);
    KeptFields(s, sep);
    JoinEmptyTail(JavaSplit(s, sep), |Fields(s, sep)| - |JavaSplit(s, sep)|, sep);
  }

  /** Empty pieces join into separators only. */
  lemma {:induction false} JoinOfEmpties(parts: seq<string>, sep: char)
    requires |parts| >= 1 && forall i :: 0 <= i < |parts| ==> parts[i] == ""
    ensures forall i :: 0 <= i < |Join(parts, sep)| ==> Join(parts, sep)[i] == sep
    decreases |parts|
  {
    if |parts| > 1 {
      JoinOfEmpties(parts[1..], sep);
    }
  }

  /** When `split` keeps nothing, the text is separators only. */
  lemma SplitEmptyOnlySeparators(s: string, sep: char)
    requires sep in s && JavaSplit(s, sep) == []
    ensures forall i :: 0 <= i < |s| ==> s[i] == sep
  {
    JoinFields(s, sep);
    JoinOfEmpties(Fields(s, sep), sep);
  }

  /** `split` keeps nothing exactly when the text is separators only. */
  lemma SplitEmptyIffSeparators(s: string, sep: char)
    requires sep in s
    ensures JavaSplit(s, sep) == [] <==> forall i :: 0 <= i < |s| ==> s[i] == sep
  {
    if JavaSplit(s, sep) == [] {
      SplitEmptyOnlySeparators(s, sep);
    } else if forall i :: 0 <= i < |s| ==> s[i] == sep {
      FieldsOfSeparators(s, sep);
    }
  }

  /** `split` with limit 0 drops the trailing empty pieces: when the text holds the
      separator, the pieces are separator-free, the last one is non-empty, and the text
      is their join followed by one bare separator per dropped piece; nothing is left
      exactly when the text is separators only. */
  lemma JavaSplitDropsTrailing(s: string, sep: char)
    requires sep in s
    ensures var r := JavaSplit(s, sep);
      && (forall i :: 0 <= i < |r| ==> sep !in r[i])
      && (r != [] ==> r[|r| - 1] != "" && s == Join(r, sep) + Repeat(sep, |Fields(s, sep)| - |r|))
      && (r == [] <==> forall i :: 0 <= i < |s| ==> s[i] == sep)
  {
    SplitPiecesFree(s, sep);
    if JavaSplit(s, sep) != [] {
      SplitJoinsBack(s, sep);
    }
    SplitEmptyIffSeparators(s, sep);
  }

  /** A text ending with the separator loses at least its last, empty, piece. */
  lemma SplitDropsLastPiece(s: string, sep: char)
    requires s != [] && s[|s| - 1] == sep
    ensures sep in s && |JavaSplit(s, sep)| < |Fields(s, sep)|
  {
    assert s[|s| - 1] in s;
    LastFieldEmpty(s, sep);
  }

  /** A text ending with the separator: the pieces left are separator-free, the last
      non-empty, and join back into the text less its trailing separators (at least one);
      none is left exactly when the text is separators only. */
  lemma SplitAtTrailingSeparators(s: string, sep: char)
    requires s != [] && s[|s| - 1] == sep
    ensures var r := JavaSplit(s, sep);
      && (forall i :: 0 <= i < |r| ==> sep !in r[i])
      && (r != [] ==>
            && r[|r| - 1] != ""
            && |Join(r, sep)| < |s|
            && s == Join(r, sep) + Repeat(sep, |s| - |Join(r, sep)|))
      && (r == [] <==> forall i :: 0 <= i < |s| ==> s[i] == sep)
  {
    SplitDropsLastPiece(s, sep);
    JavaSplitDropsTrailing(s, sep);
  }

  /** "a,b," splits into "a" and "b": the trailing empty piece is dropped. */
  lemma TrailingSeparatorDropped()
    ensures JavaSplit("a,b,", ',') == ["a", "b"]
  {
    FieldsOfCut("b", ',', "");
    assert "b" + [','] + "" == "b,";
    FieldsOfCut("a", ',', "b,");
    assert "a" + [','] + "b," == "a,b,";
  }

  /** "," splits into nothing at all. */
  lemma LoneSeparatorSplitsToNothing()
    ensures JavaSplit(",", ',') == []
  {
    assert Fields("", ',') == [""];
    assert Fields(",", ',') == ["", ""];
  }

  // -------------------------------------------------------------- numbers

  predicate IsDigit(c: char) {
    '0' <= c <= '9'
  }

  predicate AllDigits(s: string) {
    forall i :: 0 <= i < |s| ==> IsDigit(s[i])
  }

  function DigitValue(c: char): int {
    c as int - '0' as int
  }

  /** The value of a run of decimal digits, most significant first. */
  function NumeralValue(s: string): (n: nat)
    requires AllDigits(s)
    decreases |s|
  {
    if s == [] then 0 else NumeralValue(s[..|s| - 1]) * 10 + DigitValue(s[|s| - 1])
  }

  function Pow10(k: nat): (p: nat)
    ensures p >= 1
  {
    if k == 0 then 1 else 10 * Pow10(k - 1)
  }

  /** A run of `k` digits is worth less than 10^k; it is worth at least 10^(k-1)
      when it does not start with '0'. */
  lemma {:induction false} NumeralBounds(s: string)
    requires AllDigits(s)
    ensures NumeralValue(s) < Pow10(|s|)
    ensures s != [] && s[0] != '0' ==> NumeralValue(s) >= Pow10(|s| - 1)
    decreases |s|
  {
    if s != [] {
      NumeralBounds(s[..|s| - 1]);
      if |s| > 1 {
        assert s[..|s| - 1][0] == s[0];
      }
    }
  }

  /** `Integer.valueOf` / `Long.valueOf` (radix 10) with the type's range `lo..hi`:
      an optional '+' or '-', then at least one digit, and the value in range;
      anything else is a NumberFormatException (None). */
  function ParseInteger(s: string, lo: int, hi: int): (r: Option<int>)
    ensures r.Some? ==> lo <= r.value <= hi
  {
    if s == [] then None
    else
      var digits := if s[0] == '-' || s[0] == '+' then s[1..] else s;
      if digits == [] || !AllDigits(digits) then None
      else
        var v := if s[0] == '-' then -(NumeralValue(digits) as int) else NumeralValue(digits);
        if lo <= v <= hi then Some(v) else None
  }

  const IntMin := -0x8000_0000
  const IntMax := 0x7fff_ffff
  const LongMin := -0x8000_0000_0000_0000
  const LongMax := 0x7fff_ffff_ffff_ffff

  function ParseInt(s: string): Option<int> {
    ParseInteger(s, IntMin, IntMax)
  }

  function ParseLong(s: string): Option<int> {
    ParseInteger(s, LongMin, LongMax)
  }

  /** `Integer.toString` for non-negative numbers: the reference printer that
      `ParseInteger` inverts. */
  function Decimal(n: nat): (s: string)
    ensures s != [] && AllDigits(s)
    decreases n
  {
    if n < 10 then [('0' as int + n) as char]
    else Decimal(n / 10) + [('0' as int + n % 10) as char]
  }

  lemma {:induction false} DecimalValue(n: nat)
    ensures NumeralValue(Decimal(n)) == n
    decreases n
  {
    if n >= 10 {
      DecimalValue(n / 10);
      var s := Decimal(n);
      assert s[..|s| - 1] == Decimal(n / 10);
    }
  }

  /** `Integer.toString`: the digits, after a '-' for a negative number. */
  function IntegerText(n: int): (s: string)
    ensures s != [] && !IsTrimmed(s[0]) && !IsTrimmed(s[|s| - 1])
  {
    if n >= 0 then Decimal(n) else "-" + Decimal(-n)
  }

  /** Parsing inverts printing for every number in the type's range, in both signs. */
  lemma ParsePrintedInteger(n: int, lo: int, hi: int)
    requires lo <= n <= hi
    ensures n >= 0 ==> ParseInteger(Decimal(n), lo, hi) == Some(n)
    ensures n < 0 ==> ParseInteger("-" + Decimal(-n), lo, hi) == Some(n)
  {
    if n >= 0 {
      DecimalValue(n);
      assert Decimal(n)[0] != '-' && Decimal(n)[0] != '+';
    } else {
      DecimalValue(-n);
      assert ("-" + Decimal(-n))[1..] == Decimal(-n);
    }
  }

  /** `Boolean.valueOf`: true exactly for "true" in any letter case; never fails. */
  function ParseBoolean(s: string): bool {
    && |s| == 4
    && (s[0] == 't' || s[0] == 'T')
    && (s[1] == 'r' || s[1] == 'R')
    && (s[2] == 'u' || s[2] == 'U')
    && (s[3] == 'e' || s[3] == 'E')
  }
}
