/** Comma-separated export rows: every field is quoted, with embedded
    quotes doubled, and fields are joined by commas. A reader for such rows
    is given alongside to state what the writer preserves. */
module Csv {
  import opened Options

  const Quote: char := '"'

  /** `value` with every quote doubled. */
  function DoubleQuotes(value: string): (r: string)
    ensures |r| >= |value|
    ensures Quote !in value ==> r == value
  {
    if value == [] then []
    else (if value[0] == Quote then [Quote, Quote] else [value[0]]) + DoubleQuotes(value[1..])
  }

  /** A field as written to the export: quoted, with embedded quotes
      doubled. */
  function CsvEscaped(value: string): (r: string)
    ensures |r| >= |value| + 2
    ensures r[0] == Quote && r[|r| - 1] == Quote
    ensures Quote !in value ==> r == [Quote] + value + [Quote]
  {
    [Quote] + DoubleQuotes(value) + [Quote]
  }

  /** Fields joined by commas. */
  function Join(fields: seq<string>): string {
    if fields == [] then []
    else if |fields| == 1 then fields[0]
    else fields[0] + [','] + Join(fields[1..])
  }

  /** One export row: every value escaped, joined by commas. */
  function CsvRow(values: seq<string>): string {
    Join(seq(|values|, i requires 0 <= i < |values| => CsvEscaped(values[i])))
  }

  /** Reads the inside of a quoted field up to its closing quote, where a
      doubled quote stands for one quote; gives the field and what follows
      the closing quote. */
  function ReadQuoted(s: string): Option<(string, string)> {
    if s == [] then None
    else if s[0] != Quote then
      match ReadQuoted(s[1..])
      case None => None
      case Some((field, rest)) => Some(([s[0]] + field, rest))
    else if |s| >= 2 && s[1] == Quote then
      match ReadQuoted(s[2..])
      case None => None
      case Some((field, rest)) => Some(([Quote] + field, rest))
    else Some(([], s[1..]))
  }

  /** Reads comma-separated quoted fields up to the end of the text. */
  function ReadFields(s: string): Option<seq<string>>
    decreases |s|
  {
    if s == [] || s[0] != Quote then None
    else
      match ReadQuoted(s[1..])
      case None => None
      case Some((field, rest)) =>
        if rest == [] then Some([field])
        else if rest[0] != ',' || |rest| >= |s| then None
        else
          match ReadFields(rest[1..])
          case None => None
          case Some(fields) => Some([field] + fields)
  }

  /** Reads a row; the empty text is the row with no fields. */
  function ReadRow(s: string): Option<seq<string>> {
    if s == [] then Some([]) else ReadFields(s)
  }

  /** The reader recovers a field from its doubled-quote form followed by
      the closing quote, whatever comes after that does not start with a
      quote. */
  lemma {:induction false} ReadQuotedDoubled(value: string, rest: string)
    requires rest == [] || rest[0] != Quote
    ensures ReadQuoted(DoubleQuotes(value) + [Quote] + rest) == Some((value, rest))
  {
    if value == [] {
      assert ([Quote] + rest)[1..] == rest;
    } else {
      var t := DoubleQuotes(value[1..]) + [Quote] + rest;
      ReadQuotedDoubled(value[1..], rest);
      assert value == [value[0]] + value[1..];
      DoubledStep(value, rest);
      if value[0] == Quote {
        ReadEscapedQuote(t, value[1..], rest);
      } else {
        ReadPlainChar(value[0], t, value[1..], rest);
      }
    }
  }

  lemma DoubledStep(value: string, rest: string)
    requires value != []
    ensures DoubleQuotes(value) + [Quote] + rest
         == (if value[0] == Quote then [Quote, Quote] else [value[0]]) + (DoubleQuotes(value[1..]) + [Quote] + rest)
  {
  }

  lemma ReadEscapedQuote(t: string, field: string, rest: string)
    requires ReadQuoted(t) == Some((field, rest))
    ensures ReadQuoted([Quote, Quote] + t) == Some(([Quote] + field, rest))
  {
    assert ([Quote, Quote] + t)[2..] == t;
  }

  lemma ReadPlainChar(c: char, t: string, field: string, rest: string)
    requires c != Quote && ReadQuoted(t) == Some((field, rest))
    ensures ReadQuoted([c] + t) == Some(([c] + field, rest))
  {
    assert ([c] + t)[1..] == t;
  }

  /** Every field of a written row is read back as it was. */
  lemma {:induction false} ReadRowWritten(values: seq<string>)
    ensures ReadRow(CsvRow(values)) == Some(values)
  {
    if values != [] {
      ReadFieldsWritten(values);
    }
  }

  lemma {:induction false} ReadFieldsWritten(values: seq<string>)
    requires values != []
    ensures ReadFields(CsvRow(values)) == Some(values)
  {
    var head := values[0];
    if |values| == 1 {
      var s := CsvRow(values);
      assert s == CsvEscaped(head) + [];
      ReadFieldThen(head, []);
      assert s[0] == Quote && ReadQuoted(s[1..]) == Some((head, []));
      assert values == [head];
    } else {
      var rest := [','] + CsvRow(values[1..]);
      CsvRowCons(values);
      var s := CsvRow(values);
      assert s == CsvEscaped(head) + rest;
      ReadFieldThen(head, rest);
      assert s[0] == Quote && ReadQuoted(s[1..]) == Some((head, rest));
      ReadFieldsWritten(values[1..]);
      assert rest[0] == ',' && rest[1..] == CsvRow(values[1..]);
      assert values == [head] + values[1..];
    }
  }

  /** A written field is read back, and the reader stops right after it. */
  lemma ReadFieldThen(value: string, rest: string)
    requires rest == [] || rest[0] != Quote
    ensures var s := CsvEscaped(value) + rest;
      |s| > |rest| && s[0] == Quote && ReadQuoted(s[1..]) == Some((value, rest))
  {
    var s := CsvEscaped(value) + rest;
    assert s[1..] == DoubleQuotes(value) + [Quote] + rest;
    ReadQuotedDoubled(value, rest);
  }

  /** A row of two or more values is the first escaped field, a comma, and
      the row of the others. */
  lemma CsvRowCons(values: seq<string>)
    requires |values| >= 2
    ensures CsvRow(values) == CsvEscaped(values[0]) + [','] + CsvRow(values[1..])
  {
    var escaped := seq(|values|, i requires 0 <= i < |values| => CsvEscaped(values[i]));
    assert escaped[1..] == seq(|values| - 1, i requires 0 <= i < |values| - 1 => CsvEscaped(values[1..][i]));
  }
}
