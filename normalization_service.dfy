/**
 * The normaliser that turns the scraped strings into numbers and dates: the
 * federation writes amounts in Colombian style ("$2.780.000", "343,60"), and
 * the parsers keep only the characters they expect before calling `parseInt`
 * or `parseFloat`. A NaN result becomes 0, and no sign survives the cleaning.
 */
module Normalization {
  import opened Wrappers
  import opened JsRuntime
  import opened AppErrors
  import opened CoffeePriceEntity

  /** The value a field of the scraped record may hold: `!value` holds for an absent or empty string. */
  predicate Falsy(value: Option<string>) {
    value.None? || value.value == ""
  }

  predicate DigitOrComma(c: char) { IsDigit(c) || c == ',' }

  predicate DigitOrDot(c: char) { IsDigit(c) || c == '.' }

  /** The number the leading run of decimal digits of `u` denotes (0 when there is none). */
  function LeadingInteger(u: string): nat {
    DigitsValue(u[..DigitRun(u)])
  }

  /**
   * The number the longest prefix `digits[.digits]` of `u` denotes, where `u`
   * holds only digits and dots (0 when the prefix is empty).
   */
  function LeadingDecimal(u: string): real {
    var n := DigitRun(u);
    if n < |u| then
      var fraction := u[n + 1..];
      DigitsValue(u[..n]) as real + FractionValue(fraction[..DigitRun(fraction)])
    else DigitsValue(u) as real
  }

  /**
   * `extractNumericValue`: removes every character other than a digit or a
   * comma, turns the first comma into a dot, removes that dot, and parses the
   * rest with `parseInt(…, 10) || 0`. The first comma thus vanishes and the
   * number stops at the next one.
   */
  function ExtractNumericValue(value: Option<string>): (n: int)
    ensures n >= 0
    ensures Falsy(value) ==> n == 0
    ensures !Falsy(value) ==> n == LeadingInteger(ReplaceFirst(Keep(value.value, DigitOrComma), ',', ""))
  {
    if Falsy(value) then 0
    else
      var clean := Keep(value.value, DigitOrComma);
      var normalized := ReplaceFirst(clean, ',', ".");
      DotlessCommaSwap(clean);
      var parsed := ParseInt(ReplaceFirst(normalized, '.', ""));
      ReplaceFirstPreserves(clean, ',', "", DigitOrComma);
      UnsignedParseInt(ReplaceFirst(clean, ',', ""));
      if parsed.Some? && parsed.value != 0 then parsed.value else 0
  }

  /**
   * `extractDecimalValue`: turns the first comma into a dot, removes every
   * character other than a digit or a dot, and parses the rest with
   * `parseFloat(…) || 0`.
   */
  function ExtractDecimalValue(value: Option<string>): (r: real)
    ensures r >= 0.0
    ensures Falsy(value) ==> r == 0.0
    ensures !Falsy(value) ==> r == LeadingDecimal(Keep(ReplaceFirst(value.value, ',', "."), DigitOrDot))
  {
    if Falsy(value) then 0.0
    else
      var kept := Keep(ReplaceFirst(value.value, ',', "."), DigitOrDot);
      var parsed := ParseFloat(kept);
      UnsignedParseFloat(kept);
      if parsed.Some? && parsed.value != 0.0 then parsed.value else 0.0
  }

  /**
   * `formatDate`: the `YYYY-MM-DD` part of the parsed date, or today's date when
   * the string is empty or does not parse. `parseDate` stands for `new Date(s)`.
   */
  function FormatDate(dateStr: Option<string>, today: Date, parseDate: string -> Option<Date>): (s: string)
    ensures IsIsoDateShape(s)
    ensures Falsy(dateStr) ==> s == IsoDate(today)
    ensures !Falsy(dateStr) && parseDate(dateStr.value).None? ==> s == IsoDate(today)
    ensures !Falsy(dateStr) && parseDate(dateStr.value).Some? ==> s == IsoDate(parseDate(dateStr.value).value)
  {
    if Falsy(dateStr) then IsoDate(today)
    else
      match parseDate(dateStr.value)
      case None => IsoDate(today)
      case Some(d) => IsoDate(d)
  }

  /** What `normalizeCoffeePrice` can be handed: the scraped record, or null or undefined. */
  datatype RawScraped = NullValue | UndefinedValue | Scraped(data: ScrapedData)

  const FederationUrl: string := "https://federaciondecafeteros.org"
  const NormalizationFailure: string := "Error normalizing scraped data"
  /** The TypeError messages for reading the first field of null and of undefined. */
  const NullFieldRead: string := "Cannot read properties of null (reading 'precioInternoReferencia')"
  const UndefinedFieldRead: string := "Cannot read properties of undefined (reading 'precioInternoReferencia')"

  /**
   * `normalizeCoffeePrice`: parses the four amounts, formats the four dates and
   * attaches the fixed units and source. Reading a field of null or undefined
   * throws a TypeError, which the `catch` turns into a ScrapingError carrying
   * that error's message.
   */
  function NormalizeCoffeePrice(raw: RawScraped, today: Date, parseDate: string -> Option<Date>): (r: Result<CoffeePriceIndicator, AppError>)
    ensures r.Failure? <==> !raw.Scraped?
    ensures r.Failure? ==> r.error.kind.Scraping? && r.error.message == NormalizationFailure
    ensures raw.NullValue? ==> r.error.detail == Some(NullFieldRead)
    ensures raw.UndefinedValue? ==> r.error.detail == Some(UndefinedFieldRead)
    ensures r.Success? ==> WellFormed(r.value) && r.value.fuente.pdfPrecio == raw.data.pdfUrl
    ensures r.Success? ==>
              r.value.precioInternoReferencia == PriceInCurrency(ExtractNumericValue(raw.data.precioInternoReferencia) as real, "COP", FormatDate(raw.data.precioInternoFecha, today, parseDate))
    ensures r.Success? ==>
              r.value.bolsaNY == PriceInUnit(ExtractDecimalValue(raw.data.bolsaNY), "cents/lb", FormatDate(raw.data.bolsaFecha, today, parseDate))
    ensures r.Success? ==>
              r.value.tasaCambio == PriceInCurrency(ExtractNumericValue(raw.data.tasaCambio) as real, "COP/USD", FormatDate(raw.data.tasaFecha, today, parseDate))
    ensures r.Success? ==>
              r.value.mecic == DatedValue(ExtractNumericValue(raw.data.mecic) as real, FormatDate(raw.data.mecicFecha, today, parseDate))
  {
    match raw
    case NullValue =>
      Failure(NewScrapingError(NormalizationFailure, Some(NullFieldRead)))
    case UndefinedValue =>
      Failure(NewScrapingError(NormalizationFailure, Some(UndefinedFieldRead)))
    case Scraped(d) =>
      Success(CoffeePriceIndicator(
        PriceInCurrency(ExtractNumericValue(d.precioInternoReferencia) as real, "COP", FormatDate(d.precioInternoFecha, today, parseDate)),
        PriceInUnit(ExtractDecimalValue(d.bolsaNY), "cents/lb", FormatDate(d.bolsaFecha, today, parseDate)),
        PriceInCurrency(ExtractNumericValue(d.tasaCambio) as real, "COP/USD", FormatDate(d.tasaFecha, today, parseDate)),
        DatedValue(ExtractNumericValue(d.mecic) as real, FormatDate(d.mecicFecha, today, parseDate)),
        PriceSource(FederationUrl, d.pdfUrl)))
  }

  /** A normalised indicator: fixed units and source, non-negative amounts, `YYYY-MM-DD` dates. */
  predicate WellFormed(c: CoffeePriceIndicator) {
    && c.precioInternoReferencia.moneda == "COP"
    && c.bolsaNY.unidad == "cents/lb"
    && c.tasaCambio.moneda == "COP/USD"
    && c.fuente.url == FederationUrl
    && c.precioInternoReferencia.valor >= 0.0 && c.bolsaNY.valor >= 0.0
    && c.tasaCambio.valor >= 0.0 && c.mecic.valor >= 0.0
    && IsIsoDateShape(c.precioInternoReferencia.fecha) && IsIsoDateShape(c.bolsaNY.fecha)
    && IsIsoDateShape(c.tasaCambio.fecha) && IsIsoDateShape(c.mecic.fecha)
  }

  // ---------------------------------------------------------------------------
  // Why the parsers see no sign
  // ---------------------------------------------------------------------------

  /** Replacing the first comma by a dot and then removing the first dot deletes the first comma, when there was no dot. */
  lemma {:induction false} DotlessCommaSwap(s: string)
    requires forall i :: 0 <= i < |s| ==> DigitOrComma(s[i])
    ensures ReplaceFirst(ReplaceFirst(s, ',', "."), '.', "") == ReplaceFirst(s, ',', "")
  {
    if s != [] && s[0] != ',' {
      DotlessCommaSwap(s[1..]);
      assert ReplaceFirst(s, ',', ".") == [s[0]] + ReplaceFirst(s[1..], ',', ".");
    }
  }

  /** `parseInt` of a string of digits and commas is the value of its leading digits. */
  lemma UnsignedParseInt(u: string)
    requires forall i :: 0 <= i < |u| ==> DigitOrComma(u[i])
    ensures DigitRun(u) == 0 ==> ParseInt(u).None?
    ensures DigitRun(u) > 0 ==> ParseInt(u) == Some(LeadingInteger(u))
  {
    UnsignedSplit(u);
    assert SplitSign(u).0 == u && !SplitSign(u).1;
  }

  /** `parseFloat` of a string of digits and dots is the value of its leading `digits[.digits]`; no exponent can follow. */
  lemma UnsignedParseFloat(u: string)
    requires forall i :: 0 <= i < |u| ==> DigitOrDot(u[i])
    ensures ParseFloat(u).None? ==> LeadingDecimal(u) == 0.0
    ensures ParseFloat(u).Some? ==> ParseFloat(u).value == LeadingDecimal(u)
  {
    UnsignedSplit(u);
    assert SplitSign(u).0 == u && !SplitSign(u).1;
    var n := DigitRun(u);
    if n < |u| {
      assert u[n] == '.';
      var fraction := u[n + 1..];
      var m := DigitRun(fraction);
      var rest := u[n + 1 + m..];
      assert rest == fraction[m..];
      assert ExponentRun(rest) == 0 by {
        if rest != [] { assert rest[0] == u[n + 1 + m]; }
      }
      if n == 0 && m == 0 {
        assert u[..0] == [] && fraction[..0] == [];
      }
    } else {
      assert u[..n] == u;
      assert ExponentRun(u[n..]) == 0 by { assert u[n..] == []; }
    }
  }

  // ---------------------------------------------------------------------------
  // Properties
  // ---------------------------------------------------------------------------

  /** `extractNumericValue` drops a leading character that is neither a digit nor a comma: a sign, a currency symbol. */
  lemma NumericIgnoresSymbol(c: char, s: string)
    requires !DigitOrComma(c) && s != []
    ensures ExtractNumericValue(Some([c] + s)) == ExtractNumericValue(Some(s))
  {
    assert ([c] + s)[1..] == s;
  }

  /** `extractDecimalValue` drops a leading character that is not a digit, a dot or a comma: a sign, a currency symbol. */
  lemma DecimalIgnoresSymbol(c: char, s: string)
    requires !DigitOrDot(c) && c != ',' && s != []
    ensures ExtractDecimalValue(Some([c] + s)) == ExtractDecimalValue(Some(s))
  {
    assert ([c] + s)[1..] == s;
    assert ReplaceFirst([c] + s, ',', ".") == [c] + ReplaceFirst(s, ',', ".");
    var t := ReplaceFirst(s, ',', ".");
    assert ([c] + t)[1..] == t;
  }

  lemma DigitsStep(d: string, c: char)
    requires AllDigits(d) && IsDigit(c)
    ensures AllDigits(d + [c]) && DigitsValue(d + [c]) == DigitsValue(d) * 10 + DigitValue(c)
  {
    assert (d + [c])[..|d|] == d;
  }

  /** `extractNumericValue` of a string whose cleaned form has no comma is the value of that form's leading digits. */
  lemma NumericValueOf(s: string, clean: string)
    requires s != [] && Keep(s, DigitOrComma) == clean && ',' !in clean
    ensures ExtractNumericValue(Some(s)) == LeadingInteger(clean)
  {
    ReplaceFirstSpec(clean, ',', "");
  }

  lemma ExchangeRateCleaned()
    ensures Keep("$4.015", DigitOrComma) == "4015"
  {
    assert Keep("5", DigitOrComma) == "5";
    assert Keep("15", DigitOrComma) == "15";
    assert Keep("015", DigitOrComma) == "015";
    assert Keep(".015", DigitOrComma) == "015";
    assert Keep("4.015", DigitOrComma) == "4015";
  }

  lemma ExchangeRateDigits()
    ensures LeadingInteger("4015") == 4015
  {
    assert DigitRun("5") == 1 && DigitRun("15") == 2 && DigitRun("015") == 3 && DigitRun("4015") == 4;
    assert "4015"[..4] == "4015";
    DigitsStep("", '4');
    assert "" + ['4'] == "4";
    DigitsStep("4", '0');
    assert "4" + ['0'] == "40";
    DigitsStep("40", '1');
    assert "40" + ['1'] == "401";
    DigitsStep("401", '5');
    assert "401" + ['5'] == "4015";
  }

  /** The thousands separator of the exchange rate is dropped: "$4.015" is 4015, not 4.015. */
  lemma ExchangeRateRead()
    ensures ExtractNumericValue(Some("$4.015")) == 4015
  {
    ExchangeRateCleaned();
    ExchangeRateDigits();
    NumericValueOf("$4.015", "4015");
  }

  /** A leading minus is dropped with the other symbols: "-$4.015" is 4015, not -4015. */
  lemma NegativeExchangeRateRead()
    ensures ExtractNumericValue(Some("-$4.015")) == 4015
  {
    var s := "$4.015";
    assert ['-'] + s == "-$4.015" by { }
    ExchangeRateRead();
    NumericIgnoresSymbol('-', s);
  }

  lemma QuoteCommaReplaced()
    ensures ReplaceFirst("343,60", ',', ".") == "343.60"
  {
    assert ReplaceFirst("43,60", ',', ".") == "43.60" by {
      assert ReplaceFirst("3,60", ',', ".") == "3.60" by {
        assert ReplaceFirst(",60", ',', ".") == ".60";
      }
    }
  }

  lemma QuoteCleaned()
    ensures Keep("343.60", DigitOrDot) == "343.60"
  {
    assert Keep("0", DigitOrDot) == "0";
    assert Keep("60", DigitOrDot) == "60";
    assert Keep(".60", DigitOrDot) == ".60";
    assert Keep("3.60", DigitOrDot) == "3.60";
    assert Keep("43.60", DigitOrDot) == "43.60";
  }

  lemma QuoteRuns()
    ensures DigitRun("343.60") == 3 && "343.60"[..3] == "343" && "343.60"[4..] == "60"
    ensures DigitRun("60") == 2 && "60"[..2] == "60"
  {
    assert DigitRun(".60") == 0 && DigitRun("3.60") == 1 && DigitRun("43.60") == 2;
    assert DigitRun("0") == 1;
  }

  lemma QuoteDigitValues()
    ensures AllDigits("343") && DigitsValue("343") == 343
    ensures AllDigits("60") && DigitsValue("60") == 60
  {
    DigitsStep("", '3');
    assert "" + ['3'] == "3";
    DigitsStep("3", '4');
    assert "3" + ['4'] == "34";
    DigitsStep("34", '3');
    assert "34" + ['3'] == "343";
    DigitsStep("", '6');
    assert "" + ['6'] == "6";
    DigitsStep("6", '0');
    assert "6" + ['0'] == "60";
  }

  lemma QuoteDigits()
    ensures LeadingDecimal("343.60") == 343.6
  {
    QuoteRuns();
    QuoteDigitValues();
    assert Pow10(2) == 100;
  }

  /** `extractDecimalValue` of a string is the leading decimal of its normalised form. */
  lemma DecimalValueOf(s: string, normalized: string, kept: string)
    requires s != [] && ReplaceFirst(s, ',', ".") == normalized && Keep(normalized, DigitOrDot) == kept
    ensures ExtractDecimalValue(Some(s)) == LeadingDecimal(kept)
  {
  }

  /** The decimal comma of the New York quote becomes a decimal point: "343,60" is 343.6. */
  lemma DecimalCommaRead()
    ensures ExtractDecimalValue(Some("343,60")) == 343.6
  {
    QuoteCommaReplaced();
    QuoteCleaned();
    QuoteDigits();
    DecimalValueOf("343,60", "343.60", "343.60");
  }

  /** The sign of the quote is dropped too: "-343,60" is 343.6. */
  lemma NegativeQuoteRead()
    ensures ExtractDecimalValue(Some("-343,60")) == 343.6
  {
    var s := "343,60";
    assert ['-'] + s == "-343,60" by { }
    DecimalCommaRead();
    DecimalIgnoresSymbol('-', s);
  }
}
