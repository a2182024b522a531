/**
 * Interactive selection: the typed line is read as a Python `int`, 0 cancels, and any
 * other number is looked up among the catalog's indices.
 */
module Selection {
  import opened Wrappers
  import opened Registry

  /**
   * The whitespace `int()` strips: in ASCII only tab, line feed, vertical tab, form feed,
   * carriage return and space (not 0x1C-0x1F); beyond ASCII U+0085, U+00A0, U+1680,
   * U+2000-U+200A, U+2028, U+2029, U+202F, U+205F and U+3000.
   */
  predicate IsSpace(c: char)
  {
    var n := c as int;
    || 9 <= n <= 13 || n == 32
    || n == 0x85 || n == 0xA0 || n == 0x1680 || 0x2000 <= n <= 0x200A
    || n == 0x2028 || n == 0x2029 || n == 0x202F || n == 0x205F || n == 0x3000
  }

  predicate IsDigit(c: char)
  {
    '0' <= c <= '9'
  }

  predicate AllDigits(s: string)
  {
    forall i :: 0 <= i < |s| ==> IsDigit(s[i])
  }

  function TrimStart(s: string): string
  {
    if s != [] && IsSpace(s[0]) then TrimStart(s[1..]) else s
  }

  function TrimEnd(s: string): string
  {
    if s != [] && IsSpace(s[|s| - 1]) then TrimEnd(s[..|s| - 1]) else s
  }

  function Strip(s: string): string
  {
    TrimEnd(TrimStart(s))
  }

  /** The value of a string of decimal digits, most significant first. */
  function DigitsValue(s: string): nat
    requires AllDigits(s)
  {
    if s == [] then 0 else 10 * DigitsValue(s[..|s| - 1]) + (s[|s| - 1] as int - '0' as int)
  }

  /** The most digits `int` converts from a string; a longer numeral is a `ValueError`. */
  const MaxStrDigits: nat := 4300

  /** `int(line)` for a base-10 line: `None` is the `ValueError` that `select_object_interactively` catches. */
  function ParseInt(line: string): Option<int>
  {
    var t := Strip(line);
    if t == [] then None
    else if t[0] == '-' || t[0] == '+' then
      var body := t[1..];
      if body != [] && |body| <= MaxStrDigits && AllDigits(body) then
        var v: int := DigitsValue(body);
        Some(if t[0] == '-' then -v else v)
      else None
    else if |t| <= MaxStrDigits && AllDigits(t) then Some(DigitsValue(t))
    else None
  }

  function DigitChar(d: nat): (c: char)
    requires d < 10
    ensures IsDigit(c) && c as int - '0' as int == d
  {
    ('0' as int + d) as char
  }

  /** The decimal spelling of a natural number, without leading zeros. */
  function NatDigits(n: nat): (s: string)
    ensures |s| >= 1 && AllDigits(s)
  {
    if n < 10 then [DigitChar(n)] else NatDigits(n / 10) + [DigitChar(n % 10)]
  }

  /** What a user types to choose entry `n`. */
  function Decimal(n: int): string
  {
    if n < 0 then "-" + NatDigits(-n) else NatDigits(n)
  }

  lemma {:induction false} NatDigitsValue(n: nat)
    ensures DigitsValue(NatDigits(n)) == n
  {
    if n >= 10 {
      var s := NatDigits(n);
      assert s[..|s| - 1] == NatDigits(n / 10);
      NatDigitsValue(n / 10);
    }
  }

  lemma StripNoSpace(s: string)
    requires s != [] && !IsSpace(s[0]) && !IsSpace(s[|s| - 1])
    ensures Strip(s) == s
  {
  }

  /** Reading back the number a user typed gives that number, up to the digit limit. */
  lemma ParseDecimal(n: int)
    requires |NatDigits(if n < 0 then -n else n)| <= MaxStrDigits
    ensures ParseInt(Decimal(n)) == Some(n)
  {
    var s := Decimal(n);
    StripNoSpace(s);
    if n < 0 {
      assert s[1..] == NatDigits(-n);
      NatDigitsValue(-n);
    } else {
      NatDigitsValue(n);
    }
  }

  /** A numeral of more than `MaxStrDigits` digits, leading zeros included, is refused whatever its sign. */
  lemma OverlongNumeralRejected(sign: string, digits: string)
    requires sign == "" || sign == "-" || sign == "+"
    requires AllDigits(digits) && |digits| > MaxStrDigits
    ensures ParseInt(sign + digits) == None
  {
    var s := sign + digits;
    assert !IsSpace(s[0]) && !IsSpace(s[|s| - 1]) by {
      assert IsDigit(digits[|digits| - 1]) && s[|s| - 1] == digits[|digits| - 1];
      if sign == "" { assert s[0] == digits[0] && IsDigit(digits[0]); }
    }
    StripNoSpace(s);
    if sign != "" { assert s[1..] == digits; }
  }

  /** Leading and trailing whitespace does not change what is read. */
  lemma {:induction false} ParseIgnoresSurroundingSpace(line: string, c: char)
    requires IsSpace(c)
    ensures ParseInt([c] + line) == ParseInt(line)
    ensures ParseInt(line + [c]) == ParseInt(line)
  {
    assert ([c] + line)[1..] == line;
    assert TrimStart([c] + line) == TrimStart(line);
    TrimEndAfterTrimStart(line, c);
  }

  lemma {:induction false} TrimEndAfterTrimStart(line: string, c: char)
    requires IsSpace(c)
    ensures TrimEnd(TrimStart(line + [c])) == TrimEnd(TrimStart(line))
  {
    if line != [] && IsSpace(line[0]) {
      assert (line + [c])[1..] == line[1..] + [c];
      TrimEndAfterTrimStart(line[1..], c);
    } else if line == [] {
      assert TrimStart([c]) == TrimStart([]) by { assert [c][1..] == []; }
    } else {
      assert TrimStart(line + [c]) == line + [c];
      assert (line + [c])[..|line|] == line;
    }
  }

  /** Whatever is read is spelled in at most `MaxStrDigits` digits, with at most a sign in front. */
  lemma ParsedIsNumeral(line: string)
    requires ParseInt(line).Some?
    ensures var t := Strip(line);
      t != [] && ((|t| <= MaxStrDigits && AllDigits(t))
        || ((t[0] == '-' || t[0] == '+') && 1 < |t| <= MaxStrDigits + 1 && AllDigits(t[1..])))
  {
  }

  /** A line holding no digit at all is not a number. */
  lemma NoDigitNoNumber(line: string)
    requires forall i :: 0 <= i < |line| ==> !IsDigit(line[i])
    ensures ParseInt(line) == None
  {
    var t := Strip(line);
    var k := StripIsInfix(line);
    if t != [] {
      assert line[k] == t[0];
      if t[0] == '-' || t[0] == '+' {
        if |t| > 1 {
          assert line[k + 1] == t[1];
          assert !IsDigit(t[1..][0]);
        }
      } else {
        assert !IsDigit(t[0]);
      }
    }
  }

  lemma {:induction false} TrimStartIsSuffix(s: string)
    ensures |TrimStart(s)| <= |s| && TrimStart(s) == s[|s| - |TrimStart(s)|..]
  {
    if s != [] && IsSpace(s[0]) {
      TrimStartIsSuffix(s[1..]);
    }
  }

  lemma {:induction false} TrimEndIsPrefix(s: string)
    ensures |TrimEnd(s)| <= |s| && TrimEnd(s) == s[..|TrimEnd(s)|]
  {
    if s != [] && IsSpace(s[|s| - 1]) {
      TrimEndIsPrefix(s[..|s| - 1]);
    }
  }

  lemma StripIsInfix(s: string) returns (k: nat)
    ensures k + |Strip(s)| <= |s| && s[k..k + |Strip(s)|] == Strip(s)
  {
    TrimStartIsSuffix(s);
    var u := TrimStart(s);
    TrimEndIsPrefix(u);
    k := |s| - |u|;
    assert s[k..k + |Strip(s)|] == u[..|Strip(s)|];
  }

  /** The `next(...)` search: the first catalog entry carrying index `n`, if any. */
  function FindByIndex(objs: seq<ScannedObject>, n: int): (r: Option<ScannedObject>)
    ensures r.Some? ==> r.value in objs && r.value.index == n
    ensures r.Some? ==> exists i :: 0 <= i < |objs| && objs[i] == r.value && forall j :: 0 <= j < i ==> objs[j].index != n
    ensures r.None? <==> forall i :: 0 <= i < |objs| ==> objs[i].index != n
  {
    if objs == [] then None
    else if objs[0].index == n then Some(objs[0])
    else
      var r := FindByIndex(objs[1..], n);
      if r.Some? then
        var i :| 0 <= i < |objs[1..]| && objs[1..][i] == r.value && forall j :: 0 <= j < i ==> objs[1..][j].index != n;
        assert objs[i + 1] == r.value && forall j :: 0 <= j < i + 1 ==> objs[j].index != n by {
          forall j | 0 <= j < i + 1 ensures objs[j].index != n {
            if j > 0 { assert objs[j] == objs[1..][j - 1]; }
          }
        }
        r
      else r
  }

  /**
   * `select_object_interactively` after the listing: `None` stands for the `{}` it
   * returns on a cancel, an invalid number or an index no entry carries.
   */
  function Choose(objs: seq<ScannedObject>, line: string): (r: Option<ScannedObject>)
    ensures ParseInt(line).None? || ParseInt(line) == Some(0) ==> r.None?
    ensures r.Some? ==> r.value in objs && Some(r.value.index) == ParseInt(line)
    ensures (&& ParseInt(line).Some? && ParseInt(line).value != 0
             && exists i :: 0 <= i < |objs| && objs[i].index == ParseInt(line).value) ==> r.Some?
  {
    match ParseInt(line)
    case None => None
    case Some(n) => if n == 0 then None else FindByIndex(objs, n)
  }

  /** A file separator (0x1C) is not whitespace to `int()`: the line is invalid input. */
  lemma FileSeparatorIsNotStripped()
    ensures ParseInt([0x1C as char] + "5") == None
  {
    var t := [0x1C as char] + "5";
    assert TrimStart(t) == t;
    assert TrimEnd(t) == t;
    assert !AllDigits(t) by { assert !IsDigit(t[0]); }
  }

  /** A no-break space before the number is stripped like any other whitespace. */
  lemma NoBreakSpaceIsStripped()
    ensures ParseInt([0xA0 as char] + "5") == Some(5)
  {
    ParseIgnoresSurroundingSpace("5", 0xA0 as char);
    ParseDecimal(5);
    assert Decimal(5) == "5";
  }

  /**
   * On a finished catalog of n entries, a typed number k selects entry k exactly when
   * 1 <= k <= n; zero, a negative number or a number past the end selects nothing.
   */
  lemma ChooseFromCatalog(rs: seq<Record>, line: string, k: int)
    requires ParseInt(line) == Some(k)
    ensures Choose(Catalog(rs), line) == if 1 <= k <= |rs| then Some(Catalog(rs)[k - 1]) else None
  {
    if k != 0 {
      FindInCatalog(rs, k);
    }
  }

  lemma FindInCatalog(rs: seq<Record>, k: int)
    ensures FindByIndex(Catalog(rs), k) == if 1 <= k <= |rs| then Some(Catalog(rs)[k - 1]) else None
  {
    var c := Catalog(rs);
    var r := FindByIndex(c, k);
    if 1 <= k <= |rs| {
      assert c[k - 1].index == k;
      var j :| 0 <= j < |c| && c[j] == r.value;
      CatalogIndexNamesOneEntry(rs, j, k - 1);
    } else {
      assert forall i :: 0 <= i < |c| ==> c[i].index != k;
    }
  }

  /** Typing the decimal numeral of k selects entry k of the catalog, if there is one. */
  lemma ChooseTypedNumber(rs: seq<Record>, k: int)
    requires |NatDigits(if k < 0 then -k else k)| <= MaxStrDigits
    ensures Choose(Catalog(rs), Decimal(k)) == if 1 <= k <= |rs| then Some(Catalog(rs)[k - 1]) else None
  {
    ParseDecimal(k);
    ChooseFromCatalog(rs, Decimal(k), k);
  }
}
