/**
 * The dashboard's two text helpers: the company name shown for a data folder
 * (`Acme_corp` is shown as `Acme Corp`) and the body of its CSV reader, which
 * turns the text of a file into rows keyed by the trimmed header names.
 */
module DashboardText {
  import opened Wrappers
  import opened JsText
  import opened JsValues
  import opened Core

  // ---------------------------------------------------------------------------
  // Company names
  // ---------------------------------------------------------------------------

  /** `word.charAt(0).toUpperCase() + word.slice(1)`: an empty word stays empty. */
  function Capitalize(word: string): (r: string)
    ensures |r| == |word|
  {
    if word == [] then [] else [UpperChar(word[0])] + word[1..]
  }

  /** `words.map(Capitalize)`. */
  function CapitalizeAll(words: seq<string>): (r: seq<string>)
    ensures |r| == |words|
  {
    if words == [] then [] else [Capitalize(words[0])] + CapitalizeAll(words[1..])
  }

  /** `folderName.split('_').map(Capitalize).join(' ')`. */
  function FormatCompanyName(folderName: string): string {
    Join(CapitalizeAll(Split(folderName, '_')), ' ')
  }

  /** What the displayed name holds at position i of the folder name: a space for `_`, an upper-cased first letter of a word, or the character itself. */
  function NameChar(folderName: string, i: int): char
    requires 0 <= i < |folderName|
  {
    if folderName[i] == '_' then ' '
    else if i == 0 || folderName[i - 1] == '_' then UpperChar(folderName[i])
    else folderName[i]
  }

  /**
   * The displayed name has the folder name's length; every `_` becomes a
   * space, the first character of every word is upper-cased, and every other
   * character is kept.
   */
  lemma FormatCompanyNameMeaning(folderName: string)
    ensures |FormatCompanyName(folderName)| == |folderName|
    ensures forall i :: 0 <= i < |folderName| ==> FormatCompanyName(folderName)[i] == NameChar(folderName, i)
  {
    FormatLength(folderName);
    forall i | 0 <= i < |folderName|
      ensures FormatCompanyName(folderName)[i] == NameChar(folderName, i)
    {
      FormatCharAt(folderName, i);
    }
  }

  /** The displayed name is as long as the folder name. */
  lemma {:induction false} FormatLength(folderName: string)
    ensures |FormatCompanyName(folderName)| == |folderName|
    decreases |folderName|
  {
    if '_' !in folderName {
      FormatOneWord(folderName);
    } else {
      var j := FirstIndex(folderName, '_');
      var a, b := folderName[..j], folderName[j + 1..];
      assert folderName == a + ['_'] + b;
      FormatFirstWord(a, b);
      FormatLength(b);
    }
  }

  /** Position i of the displayed name. */
  lemma {:induction false} FormatCharAt(folderName: string, i: int)
    requires 0 <= i < |folderName|
    ensures |FormatCompanyName(folderName)| == |folderName|
    ensures FormatCompanyName(folderName)[i] == NameChar(folderName, i)
    decreases |folderName|
  {
    FormatLength(folderName);
    if '_' !in folderName {
      FormatOneWord(folderName);
      CapitalizeAt(folderName, i);
    } else {
      var j := FirstIndex(folderName, '_');
      var a, b := folderName[..j], folderName[j + 1..];
      assert folderName == a + ['_'] + b;
      FormatFirstWord(a, b);
      var r := Capitalize(a) + [' '] + FormatCompanyName(b);
      if i < j {
        CapitalizeAt(a, i);
        assert r[i] == Capitalize(a)[i];
      } else if i > j {
        FormatCharAt(b, i - j - 1);
        assert r[i] == FormatCompanyName(b)[i - j - 1];
        assert NameChar(b, i - j - 1) == NameChar(folderName, i);
      }
    }
  }

  /** Inside a word, capitalizing keeps every character but the first, which is upper-cased. */
  lemma CapitalizeAt(word: string, i: int)
    requires '_' !in word && 0 <= i < |word|
    ensures Capitalize(word)[i] == NameChar(word, i)
  {
    assert word[i] != '_';
  }

  /** A folder name without `_` is one word, capitalized. */
  lemma FormatOneWord(word: string)
    requires '_' !in word
    ensures FormatCompanyName(word) == Capitalize(word)
  {
    SplitFree(word, '_');
  }

  /** The first word is capitalized and followed by a space and the rest of the name. */
  lemma FormatFirstWord(a: string, b: string)
    requires '_' !in a
    ensures FormatCompanyName(a + ['_'] + b) == Capitalize(a) + [' '] + FormatCompanyName(b)
  {
    SplitPrefix(a, b, '_');
    var rest := Split(b, '_');
    assert ([a] + rest)[1..] == rest;
    assert CapitalizeAll([a] + rest) == [Capitalize(a)] + CapitalizeAll(rest);
    JoinAppend([Capitalize(a)], CapitalizeAll(rest), ' ');
  }

  /** The position of the first occurrence of a character. */
  function FirstIndex(s: string, ch: char): (j: nat)
    requires ch in s
    ensures j < |s| && s[j] == ch && ch !in s[..j]
  {
    if s[0] == ch then 0 else 1 + FirstIndex(s[1..], ch)
  }

  // ---------------------------------------------------------------------------
  // The CSV reader's text body
  // ---------------------------------------------------------------------------

  /** `lines.filter(Boolean)`: the lines that are not empty, in order. */
  function NonEmpty(lines: seq<string>): (r: seq<string>)
    ensures |r| <= |lines|
  {
    if lines == [] then []
    else if lines[0] == "" then NonEmpty(lines[1..])
    else [lines[0]] + NonEmpty(lines[1..])
  }

  /** The filter keeps every non-empty line and nothing else. */
  lemma {:induction false} NonEmptyMeaning(lines: seq<string>)
    ensures forall k :: 0 <= k < |NonEmpty(lines)| ==> NonEmpty(lines)[k] != ""
    ensures forall line :: line in NonEmpty(lines) <==> line in lines && line != ""
  {
    if lines != [] {
      NonEmptyMeaning(lines[1..]);
      assert lines == [lines[0]] + lines[1..];
    }
  }

  /** The cell for column k: the trimmed k-th value, or `undefined` past the last value. */
  function CellAt(values: seq<string>, k: nat): Cell {
    if k < |values| then Str(Trim(values[k])) else Missing
  }

  /** The cells `values[i]?.trim()` for the first n positions. */
  function Cells(values: seq<string>, n: nat): (cells: seq<Cell>)
    ensures |cells| == n
  {
    seq(n, k requires 0 <= k < n => CellAt(values, k))
  }

  /** `headers.forEach((h, i) => row[h] = cells[i])`: a later duplicate header overwrites an earlier one. */
  function Assign(headers: seq<string>, cells: seq<Cell>): Row
    requires |cells| == |headers|
    decreases |headers|
  {
    if headers == [] then map[]
    else
      var n := |headers| - 1;
      Assign(headers[..n], cells[..n])[headers[n] := cells[n]]
  }

  /** The row of one line of values under the headers. */
  function RowFrom(headers: seq<string>, values: seq<string>): Row {
    Assign(headers, Cells(values, |headers|))
  }

  /** Position k holds the last occurrence of its header. */
  predicate LastAt(headers: seq<string>, k: int)
    requires 0 <= k < |headers|
  {
    forall m :: k < m < |headers| ==> headers[m] != headers[k]
  }

  /** The row's columns are exactly the headers. */
  lemma {:induction false} AssignKeys(headers: seq<string>, cells: seq<Cell>, h: string)
    requires |cells| == |headers|
    ensures h in Assign(headers, cells) <==> h in headers
    decreases |headers|
  {
    if headers != [] {
      var n := |headers| - 1;
      AssignKeys(headers[..n], cells[..n], h);
      assert headers == headers[..n] + [headers[n]];
    }
  }

  /** The column of a header holds the cell of the header's last position. */
  lemma {:induction false} AssignValue(headers: seq<string>, cells: seq<Cell>, k: int)
    requires |cells| == |headers| && 0 <= k < |headers| && LastAt(headers, k)
    ensures headers[k] in Assign(headers, cells) && Assign(headers, cells)[headers[k]] == cells[k]
    decreases |headers|
  {
    var n := |headers| - 1;
    if k < n {
      assert headers[n] != headers[k];
      assert LastAt(headers[..n], k);
      AssignValue(headers[..n], cells[..n], k);
    }
  }

  /** `line.split(",").map(h => h.trim())`: the header names of the first line. */
  function Headers(line: string): (headers: seq<string>)
    ensures |headers| == |Split(line, ',')|
  {
    var cells := Split(line, ',');
    seq(|cells|, k requires 0 <= k < |cells| => Trim(cells[k]))
  }

  /** The comma-separated values of every line. */
  function LineValues(lines: seq<string>): (r: seq<seq<string>>)
    ensures |r| == |lines|
  {
    seq(|lines|, j requires 0 <= j < |lines| => Split(lines[j], ','))
  }

  /** One row per line of values, all under the same headers. */
  function RowsOf(headers: seq<string>, valueLists: seq<seq<string>>): (rows: seq<Row>)
    ensures |rows| == |valueLists|
  {
    seq(|valueLists|, j requires 0 <= j < |valueLists| => RowFrom(headers, valueLists[j]))
  }

  /**
   * The rows of the non-empty lines of a CSV text: the first names the
   * columns and every later line is one row. With no line the reader fails
   * (`lines[0]` is `undefined`), which is `None`.
   */
  function ParseLines(lines: seq<string>): (r: Option<seq<Row>>)
    ensures r.Some? ==> |r.value| == |lines| - 1
  {
    if lines == [] then None else Some(RowsOf(Headers(lines[0]), LineValues(lines[1..])))
  }

  /** The body of the CSV reader: split the text into lines, drop the empty ones, and read the rest. */
  function ParseCsvText(text: string): Option<seq<Row>> {
    ParseLines(NonEmpty(Split(text, '\n')))
  }

  /**
   * The reader fails exactly when the text has no non-empty line, and
   * otherwise gives one row per non-empty line after the header line.
   */
  lemma ParseCsvTextMeaning(text: string)
    ensures ParseCsvText(text).None? <==> forall line :: line in Split(text, '\n') ==> line == ""
    ensures ParseCsvText(text).Some? ==> |ParseCsvText(text).value| + 1 == |NonEmpty(Split(text, '\n'))|
  {
    var lines := NonEmpty(Split(text, '\n'));
    NonEmptyMeaning(Split(text, '\n'));
    if lines != [] {
      assert lines[0] in lines;
      assert lines[0] in Split(text, '\n') && lines[0] != "";
    }
  }

  /** Every row has exactly the headers as columns. */
  lemma ParsedRowKeys(headers: seq<string>, valueLists: seq<seq<string>>, j: int, h: string)
    requires 0 <= j < |valueLists|
    ensures h in RowsOf(headers, valueLists)[j] <==> h in headers
  {
    AssignKeys(headers, Cells(valueLists[j], |headers|), h);
  }

  /**
   * The column of a header at its last position holds the trimmed value at
   * that position on the row's line, or `undefined` when the line is
   * shorter (values past the last header are dropped).
   */
  lemma ParsedCell(headers: seq<string>, valueLists: seq<seq<string>>, j: int, k: int)
    requires 0 <= j < |valueLists| && 0 <= k < |headers| && LastAt(headers, k)
    ensures var row := RowsOf(headers, valueLists)[j]; var values := valueLists[j];
      headers[k] in row && row[headers[k]] == if k < |values| then Str(Trim(values[k])) else Missing
  {
    var cells := Cells(valueLists[j], |headers|);
    AssignValue(headers, cells, k);
    assert cells[k] == CellAt(valueLists[j], k);
  }
}
