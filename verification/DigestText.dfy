/** Digests as text: `<hash>/<size>`. */
module DigestText {
  import opened Names
  import opened Messages

  // ---------------------------------------------------------------- decimal numerals

  predicate IsDigit(ch: char) { '0' <= ch <= '9' }

  function DigitOf(n: nat): (ch: char)
    requires n < 10
    ensures IsDigit(ch) && ValueOfDigit(ch) == n
  {
    '0' + n as char
  }

  function ValueOfDigit(ch: char): nat
    requires IsDigit(ch)
  {
    ch as int - '0' as int
  }

  /** A non-empty sequence of digits. */
  predicate Digits(s: string) { s != "" && forall i :: 0 <= i < |s| ==> IsDigit(s[i]) }

  function Print(n: nat): (s: string)
    ensures Digits(s)
  {
    if n < 10 then [DigitOf(n)] else Print(n / 10) + [DigitOf(n % 10)]
  }

  function Value(s: string): nat
    requires Digits(s)
  {
    var low := ValueOfDigit(s[|s| - 1]);
    if |s| == 1 then low else Value(s[..|s| - 1]) * 10 + low
  }

  lemma {:induction false} ValueOfPrint(n: nat)
    ensures Value(Print(n)) == n
  {
    if n >= 10 {
      var s := Print(n);
      ValueOfPrint(n / 10);
      assert s[..|s| - 1] == Print(n / 10);
    }
  }

  /** A numeral is printed back unchanged exactly when it has no leading zero. */
  lemma {:induction false} PrintOfValue(s: string)
    requires Digits(s)
    ensures Print(Value(s)) == s <==> |s| == 1 || s[0] != '0'
    ensures s[0] != '0' ==> Value(s) > 0
  {
    var front := s[..|s| - 1];
    assert s == front + [s[|s| - 1]];
    if |s| > 1 {
      PrintOfValue(front);
      var v, low := Value(front), ValueOfDigit(s[|s| - 1]);
      assert Value(s) == v * 10 + low && Value(s) / 10 == v && Value(s) % 10 == low;
      assert DigitOf(low) == s[|s| - 1];
      if s[0] != '0' {
        assert Print(Value(s)) == Print(v) + [DigitOf(low)];
      } else if v > 0 {
        assert Print(Value(s)) == Print(v) + [DigitOf(low)];
        PrintHead(v);
        assert Print(Value(s))[0] == Print(v)[0];
      } else {
        assert |Print(Value(s))| == 1;
      }
    }
  }

  lemma {:induction false} PrintHead(n: nat)
    ensures n > 0 ==> Print(n)[0] != '0'
  {
    if n >= 10 { PrintHead(n / 10); }
  }

  ghost function PowerOfTen(n: nat): nat { if n == 0 then 1 else 10 * PowerOfTen(n - 1) }

  /** What digits mean, the first one first: each counts for the power of ten of its place. */
  ghost function Decimal(s: string): int {
    if s == "" then 0 else (s[0] as int - 48) * PowerOfTen(|s| - 1) + Decimal(s[1..])
  }

  lemma {:induction false} DecimalOfMore(s: string, ch: char)
    ensures Decimal(s + [ch]) == 10 * Decimal(s) + (ch as int - 48)
  {
    if s == "" {
      assert Decimal([ch]) == (ch as int - 48) * PowerOfTen(0) + Decimal([ch][1..]);
    } else {
      assert (s + [ch])[1..] == s[1..] + [ch];
      DecimalOfMore(s[1..], ch);
      var first := s[0] as int - 48;
      assert first * PowerOfTen(|s|) == 10 * (first * PowerOfTen(|s| - 1));
    }
  }

  lemma {:induction false} ValueIsDecimal(s: string)
    requires Digits(s)
    ensures Value(s) == Decimal(s)
  {
    var n := |s| - 1;
    assert s == s[..n] + [s[n]];
    DecimalOfMore(s[..n], s[n]);
    if n > 0 { ValueIsDecimal(s[..n]); }
  }

  // ---------------------------------------------------------------- signed 64-bit numbers

  predicate InI64(n: int) { -0x8000_0000_0000_0000 <= n < 0x8000_0000_0000_0000 }

  function PrintI64(n: int): string { if n < 0 then "-" + Print(-n) else Print(n) }

  /** An optional sign and at least one digit. */
  predicate Numeral(s: string) {
    Digits(s) || (s != "" && s[0] in {'+', '-'} && Digits(s[1..]))
  }

  function NumeralValue(s: string): int
    requires Numeral(s)
  {
    if Digits(s) then Value(s) else if s[0] == '-' then 0 - Value(s[1..]) else Value(s[1..])
  }

  function ParseI64(s: string): Option<int> {
    if Numeral(s) && InI64(NumeralValue(s)) then Some(NumeralValue(s)) else None
  }

  lemma ParseOfPrintI64(n: int)
    requires InI64(n)
    ensures ParseI64(PrintI64(n)) == Some(n)
  {
    if n < 0 {
      ValueOfPrint(-n);
      assert ("-" + Print(-n))[1..] == Print(-n);
    } else {
      ValueOfPrint(n);
    }
  }

  /** How numbers are printed: no plus sign, no leading zeros, and no negative zero. */
  predicate Canonical(s: string) {
    s == "0" || (s != "" && '1' <= s[0] <= '9') || (|s| > 1 && s[0] == '-' && '1' <= s[1] <= '9')
  }

  lemma PrintOfParseI64(s: string)
    requires Numeral(s)
    ensures PrintI64(NumeralValue(s)) == s <==> Canonical(s)
  {
    if Digits(s) {
      PrintOfValue(s);
      if |s| == 1 && s[0] == '0' { assert s == "0"; }
    } else {
      var t := s[1..];
      PrintOfValue(t);
      assert s == [s[0]] + t;
      PrintHead(Value(t));
      if s[0] == '-' && Value(t) > 0 {
        assert PrintI64(NumeralValue(s))[1..] == Print(Value(t));
      }
    }
  }

  // ---------------------------------------------------------------- digests

  predicate HexDigit(ch: char) { '0' <= ch <= '9' || 'a' <= ch <= 'f' || 'A' <= ch <= 'F' }

  predicate ValidHash(s: string) { |s| == 64 && forall i :: 0 <= i < |s| ==> HexDigit(s[i]) }

  function FormatDigest(d: Digest): string { d.hash + "/" + PrintI64(d.size) }

  /** The parts before and after the last occurrence. */
  function RSplitOnce(s: string, sep: char): (r: Option<(string, string)>)
    ensures r.Some? ==> s == r.value.0 + [sep] + r.value.1 && sep !in r.value.1
    ensures r.None? ==> sep !in s
  {
    if s == "" then None
    else
      var n := |s| - 1;
      if s[n] == sep then Some((s[..n], ""))
      else
        match RSplitOnce(s[..n], sep)
        case None => None
        case Some((before, after)) => Some((before, after + [s[n]]))
  }

  lemma {:induction false} RSplitAt(before: string, after: string, sep: char)
    requires sep !in after
    ensures RSplitOnce(before + [sep] + after, sep) == Some((before, after))
  {
    var s := before + [sep] + after;
    var n := |s| - 1;
    if after == "" {
      assert s[..n] == before;
    } else {
      var front := after[..|after| - 1];
      RSplitAt(before, front, sep);
      assert s[..n] == before + [sep] + front;
      assert front + [after[|after| - 1]] == after;
    }
  }

  /** `None` stands for the one error, `InvalidDigest`. */
  function ParseDigest(s: string): Option<Digest> {
    match RSplitOnce(s, '/')
    case None => None
    case Some((hash, size)) =>
      if !ValidHash(hash) then None
      else
        match ParseI64(size)
        case None => None
        case Some(n) => Some(Digest(hash, n))
  }

  lemma NumeralsHaveNoSlash(s: string)
    requires Numeral(s)
    ensures '/' !in s
  {
    if !Digits(s) { assert s == [s[0]] + s[1..]; }
  }

  lemma PrintIsNumeral(n: int)
    ensures Numeral(PrintI64(n))
  {
    if n < 0 { assert ("-" + Print(-n))[1..] == Print(-n); }
  }

  /** The text is a sign or none, and at least one digit, and means the number. */
  ghost predicate Means(text: string, n: int) {
    exists sign: string, digits: string :: text == sign + digits && Signed(sign, digits, n)
  }

  ghost predicate Signed(sign: string, digits: string, n: int) {
    && sign in {"", "+", "-"}
    && digits != "" && (forall i :: 0 <= i < |digits| ==> '0' <= digits[i] <= '9')
    && n == if sign == "-" then 0 - Decimal(digits) else Decimal(digits)
  }

  lemma NumeralMeans(text: string, n: int)
    ensures Means(text, n) <==> Numeral(text) && NumeralValue(text) == n
  {
    hide Signed, Numeral, NumeralValue;
    if Means(text, n) {
      var sign, digits :| text == sign + digits && Signed(sign, digits, n);
      SignedIsNumeral(sign, digits, n);
    }
    if Numeral(text) && NumeralValue(text) == n {
      var sign, digits := NumeralIsSigned(text);
      assert text == sign + digits;
    }
  }

  lemma SignedIsNumeral(sign: string, digits: string, n: int)
    requires Signed(sign, digits, n)
    ensures Numeral(sign + digits) && NumeralValue(sign + digits) == n
  {
    hide Value, Decimal;
    ValueIsDecimal(digits);
    if sign == "" {
      assert sign + digits == digits;
    } else {
      assert (sign + digits)[0] == sign[0] && (sign + digits)[1..] == digits;
    }
  }

  lemma NumeralIsSigned(text: string) returns (sign: string, digits: string)
    requires Numeral(text)
    ensures text == sign + digits && Signed(sign, digits, NumeralValue(text))
  {
    hide Value, Decimal;
    sign, digits := if Digits(text) then "" else [text[0]], if Digits(text) then text else text[1..];
    ValueIsDecimal(digits);
    assert Digits(text) ==> text == "" + text;
    assert !Digits(text) ==> text == [text[0]] + text[1..] && [text[0]] in {"", "+", "-"};
  }

  /** What is accepted: 64 hexadecimal digits of either case, a slash, and a numeral that fits into 64 bits;
      and it is read as just that. */
  lemma ParsesExactly(s: string, d: Digest)
    ensures ParseDigest(s) == Some(d) <==>
      && |d.hash| == 64
      && (forall i :: 0 <= i < 64 ==>
           '0' <= d.hash[i] <= '9' || 'a' <= d.hash[i] <= 'f' || 'A' <= d.hash[i] <= 'F')
      && -0x8000_0000_0000_0000 <= d.size < 0x8000_0000_0000_0000
      && exists text :: s == d.hash + "/" + text && Means(text, d.size)
  {
    hide Means;
    ParsesNumerals(s, d);
    forall text ensures Means(text, d.size) <==> Numeral(text) && NumeralValue(text) == d.size {
      NumeralMeans(text, d.size);
    }
  }

  /** A digest is printed as its hash, a slash, and the numeral of its size without plus sign or leading zeros. */
  lemma FormatsExactly(s: string, d: Digest)
    ensures s == FormatDigest(d) <==>
      exists text: string ::
        && s == d.hash + "/" + text && Means(text, d.size)
        && (text == "0" || (text != "" && '1' <= text[0] <= '9') ||
            (|text| > 1 && text[0] == '-' && '1' <= text[1] <= '9'))
  {
    hide Means;
    var own := PrintI64(d.size);
    PrintIsNumeral(d.size);
    PrintedValue(d.size);
    NumeralMeans(own, d.size);
    PrintOfParseI64(own);
    if text: string :|
      && s == d.hash + "/" + text && Means(text, d.size)
      && (text == "0" || (text != "" && '1' <= text[0] <= '9') ||
          (|text| > 1 && text[0] == '-' && '1' <= text[1] <= '9'))
    {
      NumeralMeans(text, d.size);
      PrintOfParseI64(text);
    }
    if s == FormatDigest(d) { assert s == d.hash + "/" + own; }
  }

  lemma PrintedValue(n: int)
    ensures Numeral(PrintI64(n)) && NumeralValue(PrintI64(n)) == n
  {
    if n < 0 {
      ValueOfPrint(-n);
      assert ("-" + Print(-n))[1..] == Print(-n);
    } else {
      ValueOfPrint(n);
    }
  }

  lemma ParsesNumerals(s: string, d: Digest)
    ensures ParseDigest(s) == Some(d) <==>
      exists text ::
        s == d.hash + "/" + text && ValidHash(d.hash) && Numeral(text) && InI64(d.size) && NumeralValue(text) == d.size
  {
    if ParseDigest(s) == Some(d) {
      var parts := RSplitOnce(s, '/').value;
      assert s == d.hash + "/" + parts.1;
    }
    if text :|
      && s == d.hash + "/" + text && ValidHash(d.hash)
      && Numeral(text) && InI64(d.size) && NumeralValue(text) == d.size
    {
      NumeralsHaveNoSlash(text);
      RSplitAt(d.hash, text, '/');
    }
  }

  /** Parsing undoes printing. */
  lemma ParseUndoesFormat(d: Digest)
    requires ValidHash(d.hash) && InI64(d.size)
    ensures ParseDigest(FormatDigest(d)) == Some(d)
  {
    PrintIsNumeral(d.size);
    NumeralsHaveNoSlash(PrintI64(d.size));
    RSplitAt(d.hash, PrintI64(d.size), '/');
    ParseOfPrintI64(d.size);
  }

  /** Whatever was accepted survives printing and parsing again. */
  lemma ParseIsStable(s: string)
    requires ParseDigest(s).Some?
    ensures ParseDigest(FormatDigest(ParseDigest(s).value)) == ParseDigest(s)
  {
    ParseUndoesFormat(ParseDigest(s).value);
  }

  /** Printing does not always undo parsing: it does exactly for sizes spelled canonically. */
  lemma FormatUndoesParseExactly(s: string)
    requires ParseDigest(s).Some?
    ensures FormatDigest(ParseDigest(s).value) == s <==> Canonical(RSplitOnce(s, '/').value.1)
  {
    var parts, d := RSplitOnce(s, '/').value, ParseDigest(s).value;
    PrintOfParseI64(parts.1);
    assert s == d.hash + "/" + parts.1;
    assert s[65..] == parts.1 && FormatDigest(d)[65..] == PrintI64(d.size);
  }

  /** For instance, a size with leading zeros or a plus sign is printed without them. */
  lemma LeadingZerosAreLost(hash: string)
    requires ValidHash(hash)
    ensures ParseDigest(hash + "/007") == Some(Digest(hash, 7)) && FormatDigest(Digest(hash, 7)) == hash + "/7"
    ensures ParseDigest(hash + "/+7") == Some(Digest(hash, 7))
  {
    ReadAsSeven();
    hide ParseI64, RSplitOnce, ValidHash, Print;
    assert Print(7) == "7" by { PrintsSeven(); }
    RSplitAt(hash, "007", '/');
    RSplitAt(hash, "+7", '/');
    assert hash + "/" + "007" == hash + "/007" && hash + "/" + "+7" == hash + "/+7";
  }

  lemma ReadAsSeven()
    ensures ParseI64("007") == Some(7) && ParseI64("+7") == Some(7)
  {
    assert "007"[..2] == "00" && "00"[..1] == "0";
    assert Value("007") == 7;
    assert "+7"[1..] == "7";
  }

  lemma PrintsSeven()
    ensures Print(7) == "7"
  {
  }
}
