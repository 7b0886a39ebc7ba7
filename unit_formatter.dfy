/**
 * `com.kraken.panel.UnitFormatter` and `UnitFormatterFactory`: the text
 * formatter of a numeric spinner whose values carry a unit suffix ("ms",
 * "px", ...), and the per-field cache of such formatters.
 */
module UnitFormatting {
  import opened Wrappers
  import opened JavaStrings

  /** `stringToValue`'s outcome: the parsed value, or a `ParseException(message, errorOffset)`. */
  datatype ParseResult = Parsed(value: Int32) | ParseError(message: string, errorOffset: nat)

  const NOT_AN_INTEGER: string := " is not an integer."

  /** The text with one trailing copy of `units` removed, if it ends with one. */
  function TrimUnits(text: string, units: string): (trimmed: string)
    ensures EndsWith(text, units) ==> trimmed + units == text
    ensures !EndsWith(text, units) ==> trimmed == text
  {
    if EndsWith(text, units) then text[..|text| - |units|] else text
  }

  class UnitFormatter {
    const units: string

    constructor (units: string)
      ensures this.units == units
    {
      this.units := units;
    }

    /**
     * Strips the unit suffix once and parses the rest as a signed decimal
     * `int`; a remainder that is not one is reported with its own text.
     */
    function StringToValue(text: string): (r: ParseResult)
      ensures r.Parsed? <==> ParseInt(TrimUnits(text, units)).Some?
      ensures r.Parsed? ==> ParseInt(TrimUnits(text, units)) == Some(r.value)
      ensures r.ParseError? ==> r.message == TrimUnits(text, units) + NOT_AN_INTEGER && r.errorOffset == 0
    {
      var trimmedText := TrimUnits(text, units);
      match ParseInt(trimmedText)
      case Some(v) => Parsed(v)
      case None => ParseError(trimmedText + NOT_AN_INTEGER, 0)
    }

    /** The value's decimal form followed by the units. */
    function ValueToString(value: Int32): (s: string)
      ensures EndsWith(s, units)
      ensures TrimUnits(s, units) == IntToString(value)
    {
      var s := IntToString(value) + units;
      assert s[|s| - |units|..] == units;
      assert s[..|s| - |units|] == IntToString(value);
      s
    }

    /** Formatting a value and reading the text back gives the value. */
    lemma RoundTrip(value: Int32)
      ensures StringToValue(ValueToString(value)) == Parsed(value)
    {
      IntToStringParses(value);
    }

    /**
     * A value typed without its unit, sign included, is read as itself, for
     * any unit that does not end in a digit.
     */
    lemma UnitIsOptional(value: Int32)
      requires units == [] || !IsDigit(units[|units| - 1])
      ensures StringToValue(IntToString(value)) == Parsed(value)
    {
      NumberKeepsItsText(value, units);
      IntToStringParses(value);
    }
  }

  /** A number's text ends in a digit, so trimming a unit that does not leaves it whole. */
  lemma NumberKeepsItsText(value: int, units: string)
    requires units == [] || !IsDigit(units[|units| - 1])
    ensures TrimUnits(IntToString(value), units) == IntToString(value)
  {
    var text := IntToString(value);
    var digits := NatToString(if value < 0 then -value else value);
    assert text[|text| - 1] == digits[|digits| - 1];
    if units != [] && EndsWith(text, units) {
      assert false;
    }
  }

  /** Only one copy of the unit is removed: "5msms" with unit "ms" is rejected as "5ms". */
  lemma OneSuffixRemoved()
    ensures TrimUnits("5msms", "ms") == "5ms"
    ensures ParseInt("5ms") == None
  {
    assert "5msms"[3..] == "ms";
    assert "5msms"[..3] == "5ms";
    assert !IsDigit("5ms"[1]);
  }

  /** The factory keeps one formatter per text field; `F` stands for field identity. */
  class UnitFormatterFactory<F(==)> {
    const units: string
    var formatters: map<F, UnitFormatter>

    /** Every cached formatter uses the factory's units. */
    ghost predicate Valid()
      reads this
    {
      forall tf :: tf in formatters ==> formatters[tf].units == units
    }

    constructor (units: string)
      ensures this.units == units && formatters == map[] && Valid()
    {
      this.units := units;
      formatters := map[];
    }

    /** `computeIfAbsent`: the cached formatter, or a new one stored for that field. */
    method GetFormatter(tf: F) returns (formatter: UnitFormatter)
      requires Valid()
      modifies this`formatters
      ensures Valid() && formatter.units == units
      ensures tf in old(formatters) ==> formatter == old(formatters)[tf] && formatters == old(formatters)
      ensures tf !in old(formatters) ==> fresh(formatter) && formatters == old(formatters)[tf := formatter]
    {
      if tf in formatters {
        formatter := formatters[tf];
      } else {
        formatter := new UnitFormatter(units);
        formatters := formatters[tf := formatter];
      }
    }
  }
}
