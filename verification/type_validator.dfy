/** The converter and pattern registry of `ValidadorTipos`. Conversion looks the target
    type up among registered converters and applies the one found to the trimmed text;
    validation looks a pattern up by name. The library parsers for floating point,
    decimals, dates and durations and the regular-expression engine are parameters. */
module TypeValidator {
  import opened Wrappers
  import opened JavaLang

  /** A target class. The classes the constructor registers are named; any other class
      is known by its name. */
  datatype TypeName =
    | StringClass
    | IntegerClass | IntPrimitive
    | LongClass | LongPrimitive
    | DoubleClass | DoublePrimitive
    | FloatClass | FloatPrimitive
    | BooleanClass | BooleanPrimitive
    | BigDecimalClass
    | LocalDateClass | LocalDateTimeClass | DurationClass
    | ListClass
    | OtherClass(name: string)

  /** What `converter` hands back: null, a converted object, or a `ValidacaoException`. */
  datatype Conversion = NullResult | Converted(v: Value) | Failed

  /** A registered converter. `Library` is a library parser the model does not look
      into, named by the class it produces; `Custom` is a registered function, which may
      also return null or throw. */
  datatype Converter =
    | Identity
    | ToInteger
    | ToLong
    | ToBoolean
    | ToList
    | Library(produces: TypeName)
    | Custom(f: string -> Conversion)

  /** Runs a converter on its (already trimmed) input; a parser exception is `Failed`. */
  function Apply(c: Converter, library: (TypeName, string) -> Option<Value>, s: string): Conversion {
    match c
    case Identity => Converted(Text(s))
    case ToInteger => if ParseInt(s).Some? then Converted(Int(ParseInt(s).value)) else Failed
    case ToLong => if ParseLong(s).Some? then Converted(Int(ParseLong(s).value)) else Failed
    case ToBoolean => Converted(Bool(ParseBoolean(s)))
    case ToList => Converted(TextList(JavaSplit(s, ',')))
    case Library(t) => if library(t, s).Some? then Converted(library(t, s).value) else Failed
    case Custom(f) => f(s)
  }

  /** The converters the constructor registers. */
  function InitialConverters(): map<TypeName, Converter> {
    map[StringClass := Identity,
        IntegerClass := ToInteger, IntPrimitive := ToInteger,
        LongClass := ToLong, LongPrimitive := ToLong,
        DoubleClass := Library(DoubleClass), DoublePrimitive := Library(DoubleClass),
        FloatClass := Library(FloatClass), FloatPrimitive := Library(FloatClass),
        BooleanClass := ToBoolean, BooleanPrimitive := ToBoolean,
        BigDecimalClass := Library(BigDecimalClass),
        LocalDateClass := Library(LocalDateClass), LocalDateTimeClass := Library(LocalDateTimeClass),
        DurationClass := Library(DurationClass),
        ListClass := ToList]
  }

  /** `converter`: null or blank text converts to null for any type; a registered
      converter sees the trimmed text; an unregistered type gets the text back as it
      came, blanks included. */
  function Convert(converters: map<TypeName, Converter>, library: (TypeName, string) -> Option<Value>,
                   value: Option<string>, t: TypeName): (r: Conversion)
    ensures value.None? || Trim(value.value) == [] ==> r == NullResult
    ensures value.Some? && Trim(value.value) != [] && t !in converters ==> r == Converted(Text(value.value))
  {
    if value.None? || Trim(value.value) == [] then NullResult
    else if t in converters then Apply(converters[t], library, Trim(value.value))
    else Converted(Text(value.value))
  }

  // ------------------------------------------------------------- patterns

  /** A registered pattern: the two the model states exactly, or a regular expression
      left to the engine. */
  datatype Pattern = IpPattern | PortPattern | Regex(source: string)

  const EmailRegex := "^[A-Za-z0-9+_.-]+@([A-Za-z0-9.-]+\\.[A-Za-z]{2,})$"
  const UrlRegex := "^https?://[^\\s/$.?#].[^\\s]*$"

  /** The patterns the constructor registers. */
  function InitialPatterns(): map<string, Pattern> {
    map["email" := Regex(EmailRegex), "url" := Regex(UrlRegex), "ip" := IpPattern, "port" := PortPattern]
  }

  predicate InRange(c: char, lo: char, hi: char) {
    lo <= c <= hi
  }

  /** The port expression, alternative by alternative:
      [1-9][0-9]{0,3} | [1-5][0-9]{4} | 6[0-4][0-9]{3} | 65[0-4][0-9]{2} | 655[0-2][0-9] | 6553[0-5]. */
  predicate PortMatches(s: string) {
    || (1 <= |s| <= 4 && InRange(s[0], '1', '9') && AllDigits(s[1..]))
    || (|s| == 5 && InRange(s[0], '1', '5') && AllDigits(s[1..]))
    || (|s| == 5 && s[0] == '6' && InRange(s[1], '0', '4') && AllDigits(s[2..]))
    || (|s| == 5 && s[0] == '6' && s[1] == '5' && InRange(s[2], '0', '4') && AllDigits(s[3..]))
    || (|s| == 5 && s[0] == '6' && s[1] == '5' && s[2] == '5' && InRange(s[3], '0', '2') && IsDigit(s[4]))
    || (|s| == 5 && s[0] == '6' && s[1] == '5' && s[2] == '5' && s[3] == '3' && InRange(s[4], '0', '5'))
  }

  /** One octet of the ip expression: 25[0-5] | 2[0-4][0-9] | [01]?[0-9][0-9]?. */
  predicate OctetMatches(s: string) {
    || (|s| == 3 && s[0] == '2' && s[1] == '5' && InRange(s[2], '0', '5'))
    || (|s| == 3 && s[0] == '2' && InRange(s[1], '0', '4') && IsDigit(s[2]))
    || (1 <= |s| <= 2 && AllDigits(s))
    || (|s| == 3 && InRange(s[0], '0', '1') && IsDigit(s[1]) && IsDigit(s[2]))
  }

  /** The ip expression (octet\.){3}octet: an octet holds no '.', so the text splits at
      its dots into exactly four pieces, each an octet. */
  predicate IpMatches(s: string) {
    var parts := Fields(s, '.');
    |parts| == 4 && forall i :: 0 <= i < 4 ==> OctetMatches(parts[i])
  }

  /** Whether `value` matches `p`; `regex(source, value)` is the engine's full match. */
  predicate Matches(p: Pattern, regex: (string, string) -> bool, value: string) {
    match p
    case IpPattern => IpMatches(value)
    case PortPattern => PortMatches(value)
    case Regex(source) => regex(source, value)
  }

  /** `validar`: an unknown pattern name accepts every value. */
  function Validate(patterns: map<string, Pattern>, regex: (string, string) -> bool, value: string, name: string): (ok: bool)
    ensures name !in patterns ==> ok
  {
    name !in patterns || Matches(patterns[name], regex, value)
  }

  // ----------------------------------------------------------- the registry

  class Validator {
    /** `conversores`. */
    var converters: map<TypeName, Converter>
    /** `padroes`. */
    var patterns: map<string, Pattern>
    /** The engine's full match of a compiled expression against a value. */
    const regex: (string, string) -> bool
    /** Whether `Pattern.compile` accepts an expression. */
    const compiles: string -> bool

    constructor(regex: (string, string) -> bool, compiles: string -> bool)
      ensures converters == InitialConverters() && patterns == InitialPatterns()
      ensures this.regex == regex && this.compiles == compiles
    {
      converters := InitialConverters();
      patterns := InitialPatterns();
      this.regex := regex;
      this.compiles := compiles;
    }

    /** `registrarConversor`: later conversions to `t` use `f`. */
    method RegisterConverter(t: TypeName, f: string -> Conversion)
      modifies this
      ensures converters == old(converters)[t := Custom(f)] && patterns == old(patterns)
    {
      converters := converters[t := Custom(f)];
    }

    /** `registrarPadrao`: an expression that does not compile throws and registers
        nothing; otherwise later validations under `name` use it. */
    method RegisterPattern(name: string, source: string) returns (ok: bool)
      modifies this
      ensures ok == compiles(source)
      ensures converters == old(converters)
      ensures patterns == if ok then old(patterns)[name := Regex(source)] else old(patterns)
    {
      if !compiles(source) {
        return false;
      }
      patterns := patterns[name := Regex(source)];
      ok := true;
    }
  }

  // ------------------------------------------------- properties of conversion

  /** A registered converter only ever sees trimmed text: surrounding blanks make no
      difference. */
  lemma ConvertIgnoresSurroundingBlanks(converters: map<TypeName, Converter>, library: (TypeName, string) -> Option<Value>,
                                        s: string, t: TypeName)
    requires t in converters
    ensures Convert(converters, library, Some(s), t) == Convert(converters, library, Some(Trim(s)), t)
  {
    TrimIdempotent(s);
  }

  /** Text that is not blank converts with the registered converter, on its trim. */
  lemma ConvertRegistered(converters: map<TypeName, Converter>, library: (TypeName, string) -> Option<Value>,
                          s: string, t: TypeName)
    requires t in converters && Trim(s) != []
    ensures Convert(converters, library, Some(s), t) == Apply(converters[t], library, Trim(s))
  {
  }

  lemma IntegerConverters()
    ensures IntegerClass in InitialConverters() && InitialConverters()[IntegerClass] == ToInteger
    ensures IntPrimitive in InitialConverters() && InitialConverters()[IntPrimitive] == ToInteger
  {
  }

  lemma ListConverter()
    ensures ListClass in InitialConverters() && InitialConverters()[ListClass] == ToList
  {
  }

  /** Non-blank text converts to a List by splitting its trim at commas. */
  lemma ListConversion(library: (TypeName, string) -> Option<Value>, s: string)
    requires Trim(s) != []
    ensures Convert(InitialConverters(), library, Some(s), ListClass) == Converted(TextList(JavaSplit(Trim(s), ',')))
  {
    ListConverter();
    ConvertRegistered(InitialConverters(), library, s, ListClass);
  }

  /** Every printed int converts back to itself, as an Integer and as an int. */
  lemma IntegerRoundTrip(library: (TypeName, string) -> Option<Value>, n: int)
    requires IntMin <= n <= IntMax
    ensures Convert(InitialConverters(), library, Some(IntegerText(n)), IntegerClass) == Converted(Int(n))
    ensures Convert(InitialConverters(), library, Some(IntegerText(n)), IntPrimitive) == Converted(Int(n))
  {
    var s := IntegerText(n);
    TrimKeepsTrimmed(s);
    ParsePrintedInteger(n, IntMin, IntMax);
    assert ParseInt(s) == Some(n);
    IntegerConverters();
    ConvertRegistered(InitialConverters(), library, s, IntegerClass);
    ConvertRegistered(InitialConverters(), library, s, IntPrimitive);
  }

  /** Text whose trim is not an int fails to convert to Integer or int. */
  lemma NonIntegerFails(library: (TypeName, string) -> Option<Value>, s: string)
    requires Trim(s) != [] && ParseInt(Trim(s)).None?
    ensures Convert(InitialConverters(), library, Some(s), IntegerClass) == Failed
    ensures Convert(InitialConverters(), library, Some(s), IntPrimitive) == Failed
  {
    IntegerConverters();
    ConvertRegistered(InitialConverters(), library, s, IntegerClass);
    ConvertRegistered(InitialConverters(), library, s, IntPrimitive);
  }

  /** Text whose trim is an int converts to it, whatever blanks surround it. */
  lemma IntegerTextConverts(library: (TypeName, string) -> Option<Value>, s: string, n: int)
    requires Trim(s) != [] && ParseInt(Trim(s)) == Some(n)
    ensures Convert(InitialConverters(), library, Some(s), IntegerClass) == Converted(Int(n))
    ensures Convert(InitialConverters(), library, Some(s), IntPrimitive) == Converted(Int(n))
  {
    IntegerConverters();
    ConvertRegistered(InitialConverters(), library, s, IntegerClass);
    ConvertRegistered(InitialConverters(), library, s, IntPrimitive);
  }

  /** A List conversion splits the trimmed text at commas into comma-free pieces that
      join back into it, provided it does not end with a comma. */
  lemma ListConversionSplits(library: (TypeName, string) -> Option<Value>, s: string) returns (items: seq<string>)
    requires Trim(s) != [] && Trim(s)[|Trim(s)| - 1] != ','
    ensures Convert(InitialConverters(), library, Some(s), ListClass) == Converted(TextList(items))
    ensures |items| >= 1 && Join(items, ',') == Trim(s)
    ensures forall i :: 0 <= i < |items| ==> ',' !in items[i]
  {
    items := JavaSplit(Trim(s), ',');
    ListConversion(library, s);
    JavaSplitRoundTrip(Trim(s), ',');
  }

  /** A List conversion of text ending with a comma drops the empty pieces at the end:
      the comma-free pieces that remain, the last one non-empty, join back into the
      trimmed text less its trailing commas (at least one); nothing remains exactly
      when the trimmed text is commas only. */
  lemma ListConversionTrailingCommas(library: (TypeName, string) -> Option<Value>, s: string) returns (items: seq<string>)
    requires Trim(s) != [] && Trim(s)[|Trim(s)| - 1] == ','
    ensures Convert(InitialConverters(), library, Some(s), ListClass) == Converted(TextList(items))
    ensures forall i :: 0 <= i < |items| ==> ',' !in items[i]
    ensures items != [] ==>
      && items[|items| - 1] != ""
      && |Join(items, ',')| < |Trim(s)|
      && Trim(s) == Join(items, ',') + Repeat(',', |Trim(s)| - |Join(items, ',')|)
    ensures items == [] <==> forall i :: 0 <= i < |Trim(s)| ==> Trim(s)[i] == ','
  {
    items := JavaSplit(Trim(s), ',');
    ListConversion(library, s);
    SplitAtTrailingSeparators(Trim(s), ',');
  }

  /** "abc" is its own trim. */
  lemma LettersAreTrimmed()
    ensures Trim("abc") == "abc"
  {
    TrimKeepsTrimmed("abc");
  }

  /** "abc" is not an int: it does not start with a digit. */
  lemma LettersAreNoInteger()
    ensures ParseInt("abc") == None
  {
    assert !IsDigit("abc"[0]);
  }

  /** "  123  " trims to "123". */
  lemma PaddedNumberTrims()
    ensures Trim("  123  ") == "123"
  {
    LeadingBlanksDropped();
    TrailingBlanksDropped();
  }

  lemma LeadingBlanksDropped()
    ensures DropLeading("  123  ") == "123  "
  {
    var s, s1, t := "  123  ", " 123  ", "123  ";
    assert s[1..] == s1 && s1[1..] == t;
    assert DropLeading(t) == t;
    assert DropLeading(s1) == t;
  }

  lemma TrailingBlanksDropped()
    ensures DropTrailing("123  ") == "123"
  {
    var t := "123  ";
    assert t[..4] == "123 ";
    assert t[..4][..3] == "123";
  }

  /** "123" is the int 123. */
  lemma DigitsAreInteger()
    ensures ParseInt("123") == Some(123)
  {
    ThreeDigits("123");
  }

  /** The examples: "abc" fails to convert to Integer, "  123  " converts to 123. */
  lemma IntegerExamples(library: (TypeName, string) -> Option<Value>)
    ensures Convert(InitialConverters(), library, Some("abc"), IntegerClass) == Failed
    ensures Convert(InitialConverters(), library, Some("  123  "), IntegerClass) == Converted(Int(123))
  {
    LettersAreTrimmed();
    LettersAreNoInteger();
    NonIntegerFails(library, "abc");
    PaddedNumberTrims();
    DigitsAreInteger();
    IntegerTextConverts(library, "  123  ", 123);
  }

  /** A conversion registered for `t` takes over conversions to `t` (on the trimmed
      text) and leaves every other type as it was. */
  lemma RegisteredConverterTakesOver(converters: map<TypeName, Converter>, library: (TypeName, string) -> Option<Value>,
                                     t: TypeName, f: string -> Conversion, value: Option<string>, u: TypeName)
    ensures var after := Convert(converters[t := Custom(f)], library, value, u);
      after == if u != t then Convert(converters, library, value, u)
               else if value.None? || Trim(value.value) == [] then NullResult
               else f(Trim(value.value))
  {
  }

  // --------------------------------------------------- properties of patterns

  /** A port number as text: decimal digits without a leading zero, worth at most 65535. */
  predicate IsPortNumber(s: string) {
    s != [] && AllDigits(s) && s[0] != '0' && NumeralValue(s) <= 65535
  }

  /** An octet as text: one to three decimal digits worth at most 255. */
  predicate IsOctet(s: string) {
    1 <= |s| <= 3 && AllDigits(s) && NumeralValue(s) <= 255
  }

  /** The port expression accepts exactly the port numbers 1..65535 written without a
      leading zero. */
  lemma PortMatchesIffPortNumber(s: string)
    ensures PortMatches(s) <==> IsPortNumber(s)
    ensures IsPortNumber(s) ==> 1 <= NumeralValue(s) <= 65535
  {
    if s != [] && AllDigits(s) {
      NumeralBounds(s);
      if |s| == 5 {
        FiveDigitPorts(s);
      } else if |s| <= 4 {
        ShortPorts(s);
      } else {
        assert Pow10(5) == 100000;
        assert Pow10(|s| - 1) >= Pow10(5) by {
          PowMonotone(5, |s| - 1);
        }
      }
    } else if s != [] && PortMatches(s) {
      assert AllDigits(s) by {
        assert forall i :: 1 <= i < |s| ==> s[i] == s[1..][i - 1];
      }
    }
  }

  lemma ShortPorts(s: string)
    requires 1 <= |s| <= 4 && AllDigits(s)
    ensures PortMatches(s) <==> IsPortNumber(s)
    ensures IsPortNumber(s) ==> 1 <= NumeralValue(s)
  {
    NumeralBounds(s);
    assert AllDigits(s[1..]);
    if |s| == 4 {
      assert Pow10(4) == 10000;
    } else if |s| == 3 {
      assert Pow10(3) == 1000;
    } else if |s| == 2 {
      assert Pow10(2) == 100;
    }
  }

  lemma FiveDigitPorts(s: string)
    requires |s| == 5 && AllDigits(s)
    ensures PortMatches(s) <==> IsPortNumber(s)
    ensures IsPortNumber(s) ==> 1 <= NumeralValue(s)
  {
    NumeralBounds(s);
    FiveDigits(s);
    assert AllDigits(s[1..]) && AllDigits(s[2..]) && AllDigits(s[3..]);
  }

  /** The ip expression accepts exactly four dot-separated octets worth 0..255 each
      (leading zeros allowed, as in "010"). */
  lemma IpMatchesIffDottedQuad(s: string)
    ensures IpMatches(s) <==> |Fields(s, '.')| == 4 && forall i :: 0 <= i < 4 ==> IsOctet(Fields(s, '.')[i])
  {
    var parts := Fields(s, '.');
    if |parts| == 4 {
      forall i | 0 <= i < 4 ensures OctetMatches(parts[i]) <==> IsOctet(parts[i]) {
        OctetMatchesIffOctet(parts[i]);
      }
    }
  }

  /** The four octets written with dots between them are exactly the pieces the ip
      expression checks. */
  lemma DottedQuadFields(a: string, b: string, c: string, d: string)
    requires '.' !in a && '.' !in b && '.' !in c && '.' !in d
    ensures Fields(a + ['.'] + b + ['.'] + c + ['.'] + d, '.') == [a, b, c, d]
  {
    var cd := c + ['.'] + d;
    var bcd := b + ['.'] + cd;
    assert Fields(cd, '.') == [c, d] by {
      FieldsWithoutSeparator(d, '.');
      FieldsOfCut(c, '.', d);
    }
    assert Fields(bcd, '.') == [b, c, d] by {
      FieldsOfCut(b, '.', cd);
    }
    FieldsOfCut(a, '.', bcd);
    DotsAssociate(a, b, c, d);
  }

  lemma DotsAssociate(a: string, b: string, c: string, d: string)
    ensures a + ['.'] + b + ['.'] + c + ['.'] + d == a + ['.'] + (b + ['.'] + (c + ['.'] + d))
  {
  }

  lemma OctetMatchesIffOctet(s: string)
    ensures OctetMatches(s) <==> IsOctet(s)
  {
    if 1 <= |s| <= 3 && AllDigits(s) {
      if |s| == 3 {
        ThreeDigits(s);
      } else {
        NumeralBounds(s);
        assert Pow10(2) == 100;
      }
    }
  }

  /** The value of three digits, digit by digit. */
  lemma ThreeDigits(s: string)
    requires |s| == 3 && AllDigits(s)
    ensures NumeralValue(s) == 100 * DigitValue(s[0]) + 10 * DigitValue(s[1]) + DigitValue(s[2])
  {
    var p2, p1 := s[..2], s[..1];
    assert p2[..1] == p1 && p1[..0] == [];
    assert NumeralValue(p1) == DigitValue(s[0]);
    assert NumeralValue(p2) == NumeralValue(p1) * 10 + DigitValue(s[1]);
  }

  /** The value of five digits, digit by digit. */
  lemma FiveDigits(s: string)
    requires |s| == 5 && AllDigits(s)
    ensures NumeralValue(s) == 10000 * DigitValue(s[0]) + 1000 * DigitValue(s[1]) + 100 * DigitValue(s[2])
                               + 10 * DigitValue(s[3]) + DigitValue(s[4])
  {
    var p4, p3 := s[..4], s[..3];
    assert p4[..3] == p3;
    ThreeDigits(p3);
    assert NumeralValue(p4) == NumeralValue(p3) * 10 + DigitValue(s[3]);
  }

  lemma {:induction false} PowMonotone(a: nat, b: nat)
    requires a <= b
    ensures Pow10(a) <= Pow10(b)
    decreases b
  {
    if a < b {
      PowMonotone(a, b - 1);
    }
  }

  /** The ports of the examples: 80, 8080, 443 and 65535 are accepted; 0, 65536, 99999
      and "abc" are not. */
  lemma PortExamples()
    ensures PortMatches("80") && PortMatches("8080") && PortMatches("443") && PortMatches("65535")
    ensures !PortMatches("0") && !PortMatches("65536") && !PortMatches("99999") && !PortMatches("abc")
  {
    assert AllDigits("80"[1..]) && AllDigits("8080"[1..]) && AllDigits("443"[1..]);
  }

  /** A registered expression takes over validations under its name and leaves other
      names as they were; an unknown name accepts everything. */
  lemma RegisteredPatternTakesOver(patterns: map<string, Pattern>, regex: (string, string) -> bool,
                                   name: string, source: string, value: string, other: string)
    ensures Validate(patterns[name := Regex(source)], regex, value, name) == regex(source, value)
    ensures other != name ==> Validate(patterns[name := Regex(source)], regex, value, other) == Validate(patterns, regex, value, other)
    ensures other !in patterns ==> Validate(patterns, regex, value, other)
  {
  }
}
