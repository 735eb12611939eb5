/** The FY2027 budget-sheet converter: the currency-cell parser and the loop that turns the
    sheet's rows into (section, line item, fiscal year, budgeted, actual) records, moving the
    flood-debt line from Public Works to General Government. */
module ParseFy2027 {
  import opened Wrappers
  import opened Seqs
  import opened Text

  /** An exact decimal `units / 10^scale`, standing for the `float` the source computes. */
  datatype Decimal = Decimal(units: int, scale: nat)

  function Pow10(n: nat): (r: nat)
    ensures r >= 1
  {
    if n == 0 then 1 else 10 * Pow10(n - 1)
  }

  predicate AllDigits(s: string)
  {
    forall i :: 0 <= i < |s| ==> IsDigit(s[i])
  }

  /** The number a string of decimal digits denotes. */
  function DigitsValue(s: string): nat
    requires AllDigits(s)
    decreases |s|
  {
    if s == [] then 0 else 10 * DigitsValue(s[..|s| - 1]) + (s[|s| - 1] as int - '0' as int)
  }

  /** The position of the first `c` in `s`. */
  function IndexOf(s: string, c: char): (r: Option<nat>)
    ensures r.Some? ==> r.value < |s| && s[r.value] == c && forall j :: 0 <= j < r.value ==> s[j] != c
    ensures r.None? ==> forall j :: 0 <= j < |s| ==> s[j] != c
    decreases |s|
  {
    if s == [] then None
    else if s[0] == c then Some(0)
    else match IndexOf(s[1..], c)
      case None => None
      case Some(k) => Some(k + 1)
  }

  /** `digits`, `digits.`, `digits.digits` or `.digits`, as `float()` reads them. */
  function ParseUnsigned(s: string): Option<Decimal>
  {
    match IndexOf(s, '.')
    case None => if s != [] && AllDigits(s) then Some(Decimal(DigitsValue(s), 0)) else None
    case Some(dot) =>
      var whole := s[..dot];
      var fraction := s[dot + 1..];
      if AllDigits(whole) && AllDigits(fraction) && |whole| + |fraction| > 0
      then Some(Decimal(DigitsValue(whole) * Pow10(|fraction|) + DigitsValue(fraction), |fraction|))
      else None
  }

  function Negate(d: Decimal): Decimal { Decimal(-d.units, d.scale) }

  /** `float(s)` for a decimal literal with an optional sign; anything else is the `ValueError`. */
  function ParseFloat(s: string): Option<Decimal>
  {
    if s != [] && s[0] == '-' then
      match ParseUnsigned(s[1..])
      case None => None
      case Some(d) => Some(Negate(d))
    else if s != [] && s[0] == '+' then ParseUnsigned(s[1..])
    else ParseUnsigned(s)
  }

  predicate Kept(c: char) { !(c == '$' || c == ',' || IsWhitespace(c)) }

  /** `re.sub(r'[\$,\s]', '', value.strip())`. */
  function Clean(value: string): string
  {
    Filter(Trim(value), Kept)
  }

  /** What `parse_currency` does once the cell is known not to be blank: the cleaned text. */
  function ParseCleaned(cleaned: string): Option<Decimal>
  {
    if cleaned == "" || cleaned == "-" then Some(Decimal(0, 0))
    else
      var unbracketed :=
        if StartsWith(cleaned, "(") && EndsWith(cleaned, ")") then "-" + cleaned[1..|cleaned| - 1] else cleaned;
      ParseFloat(unbracketed)
  }

  /** `parse_currency(value)`. */
  function ParseCurrency(value: Option<string>): Option<Decimal>
  {
    if value.None? || value.value == "" || Trim(value.value) == "" then None
    else ParseCleaned(Clean(value.value))
  }

  /** A missing cell, an empty one or one of white space only is no amount at all. */
  lemma BlankIsNone(value: Option<string>)
    requires value.None? || forall i :: 0 <= i < |value.value| ==> IsWhitespace(value.value[i])
    ensures ParseCurrency(value) == None
  {
    if value.Some? {
      TrimEmpty(value.value);
    }
  }

  /** A cell that is not blank but holds nothing, or only a dash, once `$`, commas and white space
      are removed is zero. */
  lemma DashIsZero(value: string)
    requires exists i :: 0 <= i < |value| && !IsWhitespace(value[i])
    requires Clean(value) == "" || Clean(value) == "-"
    ensures ParseCurrency(Some(value)) == Some(Decimal(0, 0))
  {
    TrimEmpty(value);
  }

  /** An amount in parentheses, once cleaned, is read as the same text with a leading minus sign:
      the negation of an unsigned amount, and no amount when the text inside does not parse. */
  lemma ParenthesesNegate(value: string, inner: string)
    requires exists i :: 0 <= i < |value| && !IsWhitespace(value[i])
    requires Clean(value) == "(" + inner + ")"
    ensures ParseCurrency(Some(value)) == ParseFloat("-" + inner)
    ensures ParseUnsigned(inner).Some? ==> ParseCurrency(Some(value)) == Some(Negate(ParseUnsigned(inner).value))
    ensures ParseUnsigned(inner).None? ==> ParseCurrency(Some(value)) == None
  {
    NotBlank(value);
    Unbracket(inner);
    MinusText(inner);
  }

  lemma Unbracket(inner: string)
    ensures ParseCleaned("(" + inner + ")") == ParseFloat("-" + inner)
  {
    var cleaned := "(" + inner + ")";
    assert cleaned[1..|cleaned| - 1] == inner;
    assert StartsWith(cleaned, "(") && EndsWith(cleaned, ")");
  }

  lemma MinusText(inner: string)
    ensures ParseUnsigned(inner).Some? ==> ParseFloat("-" + inner) == Some(Negate(ParseUnsigned(inner).value))
    ensures ParseUnsigned(inner).None? ==> ParseFloat("-" + inner) == None
  {
    assert ("-" + inner)[1..] == inner;
  }

  function DigitChar(d: nat): char
    requires d < 10
  {
    ('0' as int + d) as char
  }

  /** `str(n)` for a natural number. */
  function FormatNat(n: nat): (s: string)
    ensures s != [] && AllDigits(s)
    decreases n
  {
    if n < 10 then [DigitChar(n)] else FormatNat(n / 10) + [DigitChar(n % 10)]
  }

  /** Reading the digits of `n` back gives `n`. */
  lemma {:induction false} FormatNatValue(n: nat)
    ensures DigitsValue(FormatNat(n)) == n
    decreases n
  {
    var s := FormatNat(n);
    if n >= 10 {
      FormatNatValue(n / 10);
      assert s[..|s| - 1] == FormatNat(n / 10);
    }
  }

  lemma NoDot(s: string)
    requires AllDigits(s)
    ensures IndexOf(s, '.') == None
  {
    if IndexOf(s, '.').Some? {
      assert IsDigit(s[IndexOf(s, '.').value]);
    }
  }

  /** `float(str(n)) == n`. */
  lemma ParseFormatNat(n: nat)
    ensures ParseFloat(FormatNat(n)) == Some(Decimal(n, 0))
  {
    FormatNatValue(n);
    NoDot(FormatNat(n));
    assert IsDigit(FormatNat(n)[0]);
  }

  lemma KeepsDigits(digits: string)
    requires AllDigits(digits)
    ensures Filter(digits, Kept) == digits
    ensures forall i :: 0 <= i < |digits| ==> !IsWhitespace(digits[i])
  {
    assert forall i :: 0 <= i < |digits| ==> Kept(digits[i]) && !IsWhitespace(digits[i]) by {
      forall i | 0 <= i < |digits| ensures Kept(digits[i]) && !IsWhitespace(digits[i]) {
        assert IsDigit(digits[i]);
      }
    }
    FilterAll(digits, Kept);
  }

  /** A string with no white space at either end trims to itself. */
  lemma TrimKeeps(s: string)
    requires s != [] && !IsWhitespace(s[0]) && !IsWhitespace(s[|s| - 1])
    ensures Trim(s) == s
  {
    TrimStartKeeps(s);
  }

  lemma NotBlank(value: string)
    requires exists i :: 0 <= i < |value| && !IsWhitespace(value[i])
    ensures ParseCurrency(Some(value)) == ParseCleaned(Clean(value))
  {
    TrimEmpty(value);
  }

  /** Dollar amounts round-trip: `"$" + str(n)` parses as `n`. */
  lemma ParseDollars(n: nat)
    ensures ParseCurrency(Some("$" + FormatNat(n))) == Some(Decimal(n, 0))
  {
    var digits := FormatNat(n);
    KeepsDigits(digits);
    var dollars := "$" + digits;
    TrimKeeps(dollars);
    FilterAppend("$", digits, Kept);
    assert Filter("$", Kept) == [];
    assert Clean(dollars) == digits;
    assert !IsWhitespace(dollars[0]);
    NotBlank(dollars);
    CleanedDigits(digits);
    ParseFormatNat(n);
  }

  lemma CleanedDigits(digits: string)
    requires digits != [] && AllDigits(digits)
    ensures ParseCleaned(digits) == ParseFloat(digits)
  {
    assert IsDigit(digits[0]);
    assert digits != "-";
    assert !StartsWith(digits, "(");
  }

  lemma PointAt(whole: string, fraction: string)
    requires AllDigits(whole)
    ensures IndexOf(whole + "." + fraction, '.') == Some(|whole|)
  {
    var text := whole + "." + fraction;
    assert text[|whole|] == '.';
    assert forall j :: 0 <= j < |whole| ==> text[j] == whole[j];
  }

  lemma StartsWithDigit(text: string)
    requires text != [] && IsDigit(text[0])
    ensures ParseCleaned(text) == ParseUnsigned(text)
  {
    assert text != "-";
    assert !StartsWith(text, "(");
  }

  /** Cleaned text with a decimal point, digits on both sides, is read exactly: `whole.fraction`
      is `whole * 10^|fraction| + fraction` units at scale `|fraction|`. */
  lemma ParsePointed(whole: string, fraction: string)
    requires whole != [] && AllDigits(whole) && AllDigits(fraction)
    ensures ParseCleaned(whole + "." + fraction)
         == Some(Decimal(DigitsValue(whole) * Pow10(|fraction|) + DigitsValue(fraction), |fraction|))
  {
    var text := whole + "." + fraction;
    assert text[0] == whole[0];
    StartsWithDigit(text);
    PointAt(whole, fraction);
    assert text[..|whole|] == whole;
    assert text[|whole| + 1..] == fraction;
    UnsignedAt(text, |whole|, whole, fraction);
  }

  lemma UnsignedAt(text: string, dot: nat, whole: string, fraction: string)
    requires IndexOf(text, '.') == Some(dot)
    requires whole == text[..dot] && fraction == text[dot + 1..]
    requires AllDigits(whole) && AllDigits(fraction) && whole != []
    ensures ParseUnsigned(text) == Some(Decimal(DigitsValue(whole) * Pow10(|fraction|) + DigitsValue(fraction), |fraction|))
  {
  }

  /** `"(" + str(n) + ")"` parses as `-n`. */
  lemma ParseBracketed(n: nat)
    ensures ParseCurrency(Some("(" + FormatNat(n) + ")")) == Some(Negate(Decimal(n, 0)))
  {
    var digits := FormatNat(n);
    KeepsDigits(digits);
    var paren := "(" + digits + ")";
    TrimKeeps(paren);
    FilterAppend("(" + digits, ")", Kept);
    FilterAppend("(", digits, Kept);
    assert Filter("(", Kept) == "(";
    assert Filter(")", Kept) == ")";
    assert Clean(paren) == paren;
    assert !IsWhitespace(paren[0]);
    ParenthesesNegate(paren, digits);
    FormatNatValue(n);
    NoDot(digits);
  }

  /** `SECTION_MAPPING`, in its key order: sheet section label, standard section name. */
  const SectionMapping: seq<(string, string)> := [
    ("GENERAL GOVERNMENT", "General Government"),
    ("ADMINISTRATION", "Administration"),
    ("LISTERS", "Administration"),
    ("TOWN HALL BUILDING", "Town Hall"),
    ("TOWN HALL", "Town Hall"),
    ("PUBLIC SAFETY", "Public Safety"),
    ("FIRE DEPARTMENT", "Fire Department"),
    ("FIRE DEPARTMENT DEBT SERVICE", "Fire Department Debt Service"),
    ("PUBLIC WORKS", "Public Works"),
    ("Winter Maintenance", "Winter Maintenance"),
    ("Summer Maintenance", "Summer Maintenance"),
    ("Equipment Maintenance", "Equipment Maintenance"),
    ("Specialized Services", "Specialized Services"),
    ("Garage Maintenance", "Garage Maintenance"),
    ("Utilities", "Utilities"),
    ("Gas & Diesel", "Gas & Diesel"),
    ("Wages & Benefits", "Wages & Benefits"),
    ("HWY/MISC", "HWY/MISC"),
    ("CONSTRUCTION", "Construction"),
    ("Flood Disaster-Unbudgeted", "Flood Disaster-Unbudgeted"),
    ("PUBLIC WORKS DEBT SERVICE", "Public Works Debt Service"),
    ("CEMETERY", "Cemetery"),
    ("RECREATION", "Recreation"),
    ("ZONING/DRB", "Zoning/DRB"),
    ("PLANNING COMMISSION", "Planning Commission"),
    ("CIP FUNDING(Capital Improvement Planning)", "CIP"),
    ("SPECIAL ARTICLES", "Special Articles")
  ]

  /** The subsection labels that only ever emit nothing. */
  const Subsections: seq<string> := [
    "Winter Maintenance",
    "Summer Maintenance",
    "Equipment Maintenance",
    "Specialized Services",
    "Garage Maintenance",
    "Utilities",
    "Gas & Diesel",
    "Wages & Benefits",
    "HWY/MISC",
    "CONSTRUCTION",
    "Flood Disaster-Unbudgeted",
    "GeneralGovernment",
    "Highway:",
    "Public Safety/Fire Deparment",
    "Recreation:"
  ]

  predicate IsMappedSection(section: string)
  {
    exists k :: 0 <= k < |SectionMapping| && SectionMapping[k].1 == section
  }

  /** The test `key.upper() == line_item.upper()` on one mapping entry. */
  function HeaderMatch(lineItem: string): ((string, string)) -> bool
  {
    (e: (string, string)) => Upper(e.0) == Upper(lineItem)
  }

  /** The test `key == line_item` on one mapping entry. */
  function KeyMatch(lineItem: string): ((string, string)) -> bool
  {
    (e: (string, string)) => e.0 == lineItem
  }

  /** The section the first key matching `lineItem` case-insensitively maps to. */
  function SectionHeader(lineItem: string): Option<string>
  {
    match Find(SectionMapping, HeaderMatch(lineItem))
    case None => None
    case Some(e) => Some(e.1)
  }

  /** `SECTION_MAPPING[line_item]`, or nothing when `line_item` is not a key. */
  function Lookup(lineItem: string): Option<string>
  {
    match Find(SectionMapping, KeyMatch(lineItem))
    case None => None
    case Some(e) => Some(e.1)
  }

  /** A total or subtotal line, which would count its items twice (`current_section` is set). */
  predicate IsTotalLine(lineItem: string, currentSection: string)
  {
    var lower := Lower(lineItem);
    || StartsWith(lower, "total")
    || Contains(lower, "sub total")
    || Contains(lower, "sub-total")
    || Contains(lower, "subtotal")
    || EndsWith(lower, "subtotal")
    || StartsWith(lower, "total:")
    || (Contains(lower, " total") && EndsWith(lineItem, currentSection))
  }

  /** One output record: section, line item, fiscal year, budgeted amount, actual amount. */
  datatype Record = Record(section: string, lineItem: string, fiscalYear: int,
                           budgeted: Option<Decimal>, actual: Option<Decimal>)

  predicate NoneOrZero(v: Option<Decimal>) { v.None? || v.value.units == 0 }

  const FloodSection: string := "General Government"
  const FloodLineItem: string := "Flood Debt: Principal & Interest"

  /** The flood-debt line, restated under General Government for each of the three years. */
  function FloodRecords(budget2025: Option<Decimal>, actual2025: Option<Decimal>, budget2026: Option<Decimal>,
                        budget2027: Option<Decimal>): seq<Record>
  {
    [Record(FloodSection, FloodLineItem, 2025, budget2025, actual2025),
     Record(FloodSection, FloodLineItem, 2026, budget2026, None),
     Record(FloodSection, FloodLineItem, 2027, budget2027, None)]
  }

  /** The records of an ordinary line: one per year with an amount. */
  function YearRecords(section: string, lineItem: string, budget2025: Option<Decimal>, actual2025: Option<Decimal>,
                       budget2026: Option<Decimal>, budget2027: Option<Decimal>): seq<Record>
  {
    (if budget2025.Some? || actual2025.Some? then [Record(section, lineItem, 2025, budget2025, actual2025)] else [])
    + (if budget2026.Some? then [Record(section, lineItem, 2026, budget2026, None)] else [])
    + (if budget2027.Some? then [Record(section, lineItem, 2027, budget2027, None)] else [])
  }

  /** What one row does: the section current after it and the records it emits. */
  datatype Step = Step(section: Option<string>, emitted: seq<Record>)

  /** One turn of `main`'s `for row in reader` loop, with the section current before the row. */
  function RowStep(row: seq<string>, currentSection: Option<string>): Step
  {
    if |row| < 5 then Step(currentSection, [])
    else
      var lineItem := Trim(row[0]);
      if lineItem == "" || StartsWith(lineItem, "2026/2027Budget") then Step(currentSection, [])
      else if Contains(lineItem, "July 1") then Step(currentSection, [])
      else if SectionHeader(lineItem).Some? then Step(SectionHeader(lineItem), [])
      else if lineItem in Subsections then
        Step(if Lookup(lineItem).Some? then Lookup(lineItem) else currentSection, [])
      else if currentSection.None? || currentSection.value == "" then Step(currentSection, [])
      else if IsTotalLine(lineItem, currentSection.value) then Step(currentSection, [])
      else Step(currentSection, DataRecords(lineItem, currentSection.value, ParseCurrency(Some(row[1])),
                                            ParseCurrency(Some(row[2])), ParseCurrency(Some(row[3])),
                                            ParseCurrency(Some(row[4]))))
  }

  /** The records of a line that is not a header, a subsection or a total, under `section`,
      from its four parsed amounts: nothing when none is nonzero, the flood-debt records for the
      flood line, and its own yearly records otherwise. */
  function DataRecords(lineItem: string, section: string, budget2025: Option<Decimal>, actual2025: Option<Decimal>,
                       budget2026: Option<Decimal>, budget2027: Option<Decimal>): seq<Record>
  {
    if NoneOrZero(budget2025) && NoneOrZero(actual2025) && NoneOrZero(budget2026) && NoneOrZero(budget2027)
    then []
    else if IsFloodLine(lineItem)
    then FloodRecords(budget2025, actual2025, budget2026, budget2027)
    else YearRecords(section, lineItem, budget2025, actual2025, budget2026, budget2027)
  }

  /** The flood-disaster debt line, booked under Public Works in the sheet. */
  predicate IsFloodLine(lineItem: string)
  {
    Contains(lineItem, "Flood Disaster") && Contains(lineItem, "Principal")
  }

  /** The state after the whole loop: the section current at the end and all records, in order. */
  function Run(rows: seq<seq<string>>): Step
    decreases |rows|
  {
    if rows == [] then Step(None, [])
    else
      var before := Run(rows[..|rows| - 1]);
      var step := RowStep(rows[|rows| - 1], before.section);
      Step(step.section, before.emitted + step.emitted)
  }

  /** `main`'s loop body on one row, given the section current before it. */
  method ProcessRow(row: seq<string>, currentSection: Option<string>) returns (section: Option<string>, emitted: seq<Record>)
    ensures Step(section, emitted) == RowStep(row, currentSection)
  {
    section, emitted := currentSection, [];
    if |row| < 5 {
      return;
    }
    var lineItem := Trim(row[0]);
    if lineItem == "" || StartsWith(lineItem, "2026/2027Budget") || Contains(lineItem, "July 1") {
      return;
    }
    var header := FindHeader(SectionMapping, lineItem);
    if header.Some? {
      section := Some(header.value.1);
      return;
    }
    if lineItem in Subsections {
      var exact := Lookup(lineItem);
      if exact.Some? {
        section := exact;
      }
      return;
    }
    if currentSection.None? || currentSection.value == "" || IsTotalLine(lineItem, currentSection.value) {
      return;
    }
    var budget2025 := ParseCurrency(Some(row[1]));
    var actual2025 := ParseCurrency(Some(row[2]));
    var budget2026 := ParseCurrency(Some(row[3]));
    var budget2027 := ParseCurrency(Some(row[4]));
    if NoneOrZero(budget2025) && NoneOrZero(actual2025) && NoneOrZero(budget2026) && NoneOrZero(budget2027) {
      return;
    }
    if IsFloodLine(lineItem) {
      emitted := FloodRecords(budget2025, actual2025, budget2026, budget2027);
    } else {
      emitted := YearRecords(currentSection.value, lineItem, budget2025, actual2025, budget2026, budget2027);
    }
  }

  /** The section-header test and the `for key in SECTION_MAPPING.keys()` loop with its `break`,
      over the mapping's entries in key order: the first entry whose key equals `lineItem` up to case. */
  method FindHeader(mapping: seq<(string, string)>, lineItem: string) returns (entry: Option<(string, string)>)
    ensures entry == Find(mapping, HeaderMatch(lineItem))
  {
    var k := 0;
    while k < |mapping| && Upper(mapping[k].0) != Upper(lineItem)
      invariant 0 <= k <= |mapping|
      invariant Find(mapping[k..], HeaderMatch(lineItem)) == Find(mapping, HeaderMatch(lineItem))
    {
      assert mapping[k..][1..] == mapping[k + 1..];
      k := k + 1;
    }
    if k < |mapping| {
      entry := Some(mapping[k]);
    } else {
      entry := None;
    }
  }

  /** The `for row in reader` loop of `main`: the records it collects, in order. */
  method ProcessRows(rows: seq<seq<string>>) returns (out: seq<Record>)
    ensures out == Run(rows).emitted
  {
    var section: Option<string> := None;
    out := [];
    for i := 0 to |rows|
      invariant Run(rows[..i]) == Step(section, out)
    {
      assert rows[..i + 1][..i] == rows[..i];
      var next, emitted := ProcessRow(rows[i], section);
      section := next;
      out := out + emitted;
    }
    assert rows[..|rows|] == rows;
  }

  /** Both lookups yield standard section names: values of the mapping. */
  lemma SectionsMapped(lineItem: string)
    ensures SectionHeader(lineItem).Some? ==> IsMappedSection(SectionHeader(lineItem).value)
    ensures Lookup(lineItem).Some? ==> IsMappedSection(Lookup(lineItem).value)
  {
    FindSpec(SectionMapping, HeaderMatch(lineItem));
    FindSpec(SectionMapping, KeyMatch(lineItem));
  }

  /** Section headers are recognised whatever their case. */
  lemma HeaderIgnoresCase(a: string, b: string)
    requires Upper(a) == Upper(b)
    ensures SectionHeader(a) == SectionHeader(b)
  {
    FindCongruent(SectionMapping, HeaderMatch(a), HeaderMatch(b));
  }

  /** A line that is a key of the mapping exactly is also a header up to case. */
  lemma ExactKeyIsHeader(lineItem: string)
    ensures Lookup(lineItem).Some? ==> SectionHeader(lineItem).Some?
  {
    FindSpec(SectionMapping, KeyMatch(lineItem));
    FindSpec(SectionMapping, HeaderMatch(lineItem));
    if Lookup(lineItem).Some? {
      var i :| 0 <= i < |SectionMapping| && KeyMatch(lineItem)(SectionMapping[i]);
      assert HeaderMatch(lineItem)(SectionMapping[i]);
    }
  }

  /** The subsection branch never changes the section: every subsection label that is a key
      of the mapping has already been taken as a section header, so a subsection row that
      reaches the branch leaves the current section as it was and emits nothing. */
  lemma SubsectionRowKeepsSection(row: seq<string>, currentSection: Option<string>)
    requires |row| >= 1 && Trim(row[0]) in Subsections && SectionHeader(Trim(row[0])).None?
    ensures RowStep(row, currentSection) == Step(currentSection, [])
  {
    ExactKeyIsHeader(Trim(row[0]));
  }

  /** An emitted record: a standard section, one of the three fiscal years, and an actual
      amount only for 2025. */
  predicate WellFormed(r: Record)
  {
    && IsMappedSection(r.section)
    && 2025 <= r.fiscalYear <= 2027
    && (r.fiscalYear != 2025 ==> r.actual.None?)
  }

  /** The yearly records of an ordinary line stay under its own section and name and come in
      year order, one per fiscal year. */
  lemma YearRecordsOrder(section: string, lineItem: string, budget2025: Option<Decimal>, actual2025: Option<Decimal>,
                         budget2026: Option<Decimal>, budget2027: Option<Decimal>)
    ensures var out := YearRecords(section, lineItem, budget2025, actual2025, budget2026, budget2027);
      && (forall r | r in out :: r.section == section && r.lineItem == lineItem)
      && (forall r | r in out :: 2025 <= r.fiscalYear <= 2027 && (r.fiscalYear != 2025 ==> r.actual.None?))
      && (forall i, j :: 0 <= i < j < |out| ==> out[i].fiscalYear < out[j].fiscalYear)
  {
  }

  /** There is a record for a year exactly when that year has an amount, and it carries that
      year's amounts. */
  lemma YearRecordsCover(section: string, lineItem: string, budget2025: Option<Decimal>, actual2025: Option<Decimal>,
                         budget2026: Option<Decimal>, budget2027: Option<Decimal>)
    ensures var out := YearRecords(section, lineItem, budget2025, actual2025, budget2026, budget2027);
      && (Record(section, lineItem, 2025, budget2025, actual2025) in out <==> budget2025.Some? || actual2025.Some?)
      && (Record(section, lineItem, 2026, budget2026, None) in out <==> budget2026.Some?)
      && (Record(section, lineItem, 2027, budget2027, None) in out <==> budget2027.Some?)
      && (forall r | r in out :: r == Record(section, lineItem, 2025, budget2025, actual2025)
                             || r == Record(section, lineItem, 2026, budget2026, None)
                             || r == Record(section, lineItem, 2027, budget2027, None))
  {
  }

  /** A data line emits nothing exactly when all four amounts are missing or zero; the flood
      line becomes the three General Government flood-debt records whatever section it is in;
      any other line yields its own yearly records under the current section. */
  lemma DataRecordsSpec(lineItem: string, section: string, budget2025: Option<Decimal>, actual2025: Option<Decimal>,
                        budget2026: Option<Decimal>, budget2027: Option<Decimal>)
    ensures var out := DataRecords(lineItem, section, budget2025, actual2025, budget2026, budget2027);
      && (out == [] <==> NoneOrZero(budget2025) && NoneOrZero(actual2025) && NoneOrZero(budget2026) && NoneOrZero(budget2027))
      && (out != [] && IsFloodLine(lineItem) ==> out == FloodRecords(budget2025, actual2025, budget2026, budget2027))
      && (out != [] && !IsFloodLine(lineItem) ==>
            out == YearRecords(section, lineItem, budget2025, actual2025, budget2026, budget2027))
  {
    if !(NoneOrZero(budget2025) && NoneOrZero(actual2025) && NoneOrZero(budget2026) && NoneOrZero(budget2027)) {
      YearRecordsCover(section, lineItem, budget2025, actual2025, budget2026, budget2027);
    }
  }

  lemma FloodSectionMapped()
    ensures IsMappedSection(FloodSection)
  {
    assert SectionMapping[0].1 == FloodSection;
  }

  /** Under a standard section, every record a data line emits is well formed. */
  lemma DataRecordsWellFormed(lineItem: string, section: string, budget2025: Option<Decimal>, actual2025: Option<Decimal>,
                              budget2026: Option<Decimal>, budget2027: Option<Decimal>)
    requires IsMappedSection(section)
    ensures forall r | r in DataRecords(lineItem, section, budget2025, actual2025, budget2026, budget2027) :: WellFormed(r)
  {
    if !(NoneOrZero(budget2025) && NoneOrZero(actual2025) && NoneOrZero(budget2026) && NoneOrZero(budget2027)) {
      if IsFloodLine(lineItem) {
        FloodSectionMapped();
        FloodRecordsWellFormed(budget2025, actual2025, budget2026, budget2027);
      } else {
        YearRecordsOrder(section, lineItem, budget2025, actual2025, budget2026, budget2027);
      }
    }
  }

  lemma FloodRecordsWellFormed(budget2025: Option<Decimal>, actual2025: Option<Decimal>, budget2026: Option<Decimal>,
                               budget2027: Option<Decimal>)
    requires IsMappedSection(FloodSection)
    ensures forall r | r in FloodRecords(budget2025, actual2025, budget2026, budget2027) :: WellFormed(r)
  {
  }

  /** Which rows emit: only a data row under a current section, one that is not a header, a
      subsection or a total line; such a row keeps the section and emits its data records. */
  lemma EmittingRow(row: seq<string>, currentSection: Option<string>)
    requires RowStep(row, currentSection).emitted != []
    ensures |row| >= 5
    ensures var lineItem := Trim(row[0]);
      && lineItem != "" && !StartsWith(lineItem, "2026/2027Budget") && !Contains(lineItem, "July 1")
      && SectionHeader(lineItem).None? && lineItem !in Subsections
      && currentSection.Some? && currentSection.value != ""
      && !IsTotalLine(lineItem, currentSection.value)
      && RowStep(row, currentSection).section == currentSection
      && RowStep(row, currentSection).emitted
         == DataRecords(lineItem, currentSection.value, ParseCurrency(Some(row[1])), ParseCurrency(Some(row[2])),
                        ParseCurrency(Some(row[3])), ParseCurrency(Some(row[4])))
  {
  }

  /** A section once set stays set and standard, and nothing is emitted before a section is set. */
  lemma RowStepSection(row: seq<string>, currentSection: Option<string>)
    requires currentSection.Some? ==> IsMappedSection(currentSection.value)
    ensures var step := RowStep(row, currentSection);
      && (step.section.Some? ==> IsMappedSection(step.section.value))
      && (step.section.None? ==> currentSection.None?)
      && (currentSection.None? ==> step.emitted == [])
  {
    if |row| >= 5 {
      var lineItem := Trim(row[0]);
      SectionsMapped(lineItem);
      if lineItem == "" || StartsWith(lineItem, "2026/2027Budget") || Contains(lineItem, "July 1") {
        assert RowStep(row, currentSection) == Step(currentSection, []);
      } else if SectionHeader(lineItem).Some? {
        assert RowStep(row, currentSection) == Step(SectionHeader(lineItem), []);
      } else if lineItem in Subsections {
        assert RowStep(row, currentSection).section in {currentSection, Lookup(lineItem)};
      } else {
        assert RowStep(row, currentSection).section == currentSection;
        assert currentSection.None? ==> RowStep(row, currentSection).emitted == [];
      }
    }
  }

  /** A row too short to hold the four amounts, a blank line, the sheet's title line and its date
      line leave the section as it was and emit nothing. */
  lemma SkippedRowKeepsSection(row: seq<string>, currentSection: Option<string>)
    requires |row| < 5 || Trim(row[0]) == "" || StartsWith(Trim(row[0]), "2026/2027Budget")
             || Contains(Trim(row[0]), "July 1")
    ensures RowStep(row, currentSection) == Step(currentSection, [])
  {
  }

  /** A section header that is not skipped as above switches to its standard section, whatever
      the section was, and emits nothing. */
  lemma HeaderRowSetsSection(row: seq<string>, currentSection: Option<string>)
    requires |row| >= 5
    requires var lineItem := Trim(row[0]);
      && lineItem != "" && !StartsWith(lineItem, "2026/2027Budget") && !Contains(lineItem, "July 1")
      && SectionHeader(lineItem).Some?
    ensures var step := RowStep(row, currentSection);
      && step.section == SectionHeader(Trim(row[0])) && step.emitted == []
      && IsMappedSection(step.section.value)
  {
    SectionsMapped(Trim(row[0]));
  }

  /** Under a standard section, every record a row emits is well formed. */
  lemma RowStepWellFormed(row: seq<string>, currentSection: Option<string>)
    requires currentSection.Some? ==> IsMappedSection(currentSection.value)
    ensures forall r | r in RowStep(row, currentSection).emitted :: WellFormed(r)
  {
    if RowStep(row, currentSection).emitted != [] {
      EmittingRow(row, currentSection);
      DataRecordsWellFormed(Trim(row[0]), currentSection.value, ParseCurrency(Some(row[1])),
                            ParseCurrency(Some(row[2])), ParseCurrency(Some(row[3])), ParseCurrency(Some(row[4])));
    }
  }

  /** Over the whole input: the section is standard once set, nothing is emitted before the
      first section header, and every record is well formed. */
  lemma {:induction false} RunInvariant(rows: seq<seq<string>>)
    ensures Run(rows).section.Some? ==> IsMappedSection(Run(rows).section.value)
    ensures Run(rows).section.None? ==> Run(rows).emitted == []
    ensures forall r | r in Run(rows).emitted :: WellFormed(r)
    decreases |rows|
  {
    if rows != [] {
      var before := Run(rows[..|rows| - 1]);
      RunInvariant(rows[..|rows| - 1]);
      RowStepSection(rows[|rows| - 1], before.section);
      RowStepWellFormed(rows[|rows| - 1], before.section);
    }
  }
}

