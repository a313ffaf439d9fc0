/** The two kinds of value-carrying line the record is made of: a keyword
    followed by a quoted text, and a keyword followed by a count. Both are
    lossless: the text and the count read back from the line. */
module RecordText {
  import opened Numerals

  function Quoted(s: string): string { "\"" + s + "\"" }

  /** A count line: `keyword` followed by a numeral that reads back as `n`. */
  predicate CountLine(line: string, keyword: string, n: int)
  {
    |keyword| <= |line| && line[..|keyword|] == keyword &&
    IsNumeral(line[|keyword|..]) && ParseInt(line[|keyword|..]) == n
  }

  /** A quoted line: `keyword`, then `text` between double quotes. */
  predicate QuotedLine(line: string, keyword: string, text: string)
  {
    |line| == |keyword| + |text| + 2 && line[..|keyword|] == keyword &&
    line[|keyword|] == '"' && line[|keyword| + 1..|line| - 1] == text && line[|line| - 1] == '"'
  }

  lemma QuotedLineReadsBack(keyword: string, text: string)
    ensures QuotedLine(keyword + Quoted(text), keyword, text)
  {
    var line := keyword + Quoted(text);
    assert line[..|keyword|] == keyword;
    assert line[|keyword| + 1..|line| - 1] == text;
  }

  lemma CountLineReadsBack(keyword: string, n: int)
    ensures CountLine(keyword + IntToString(n), keyword, n)
  {
    var line := keyword + IntToString(n);
    assert line[..|keyword|] == keyword;
    assert line[|keyword|..] == IntToString(n);
    IntToStringRoundTrip(n);
  }
}
