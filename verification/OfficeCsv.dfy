/** The office list as delimited text: its printer, its parser, and exactly when one undoes the other. */
module OfficeCsv {
  import opened Results
  import opened Text
  import opened Numbers

  // ---------------------------------------------------------------- characters

  /** White space and line ends as they are trimmed. */
  predicate IsSpace(c: char) {
    || '\t' <= c <= '\r' || c == ' ' || c == '\U{00A0}' || c == '\U{1680}' || '\U{2000}' <= c <= '\U{200A}'
    || c in {'\U{2028}', '\U{2029}', '\U{202F}', '\U{205F}', '\U{3000}', '\U{FEFF}'}
  }

  predicate Trimmed(s: string) {
    s == [] || (!IsSpace(s[0]) && !IsSpace(s[|s| - 1]))
  }

  function TrimEnd(s: string): (r: string)
    ensures r == [] || !IsSpace(r[|r| - 1])
    ensures r <= s
  {
    if s == [] || !IsSpace(s[|s| - 1]) then s else TrimEnd(s[..|s| - 1])
  }

  function Trim(s: string): (r: string)
    ensures Trimmed(r) && (Trimmed(s) ==> r == s)
    ensures forall c :: c in r ==> c in s
  {
    if s != [] && IsSpace(s[0]) then Trim(s[1..]) else TrimEnd(s)
  }

  /** Lower case of the Latin letters of ASCII and of the Cyrillic block. */
  function LowerChar(c: char): (l: char)
    ensures !IsUpper(l) && (IsSpace(l) <==> IsSpace(c)) && (l == '\n' ==> c == '\n')
  {
    if 'A' <= c <= 'Z' || '\U{0410}' <= c <= '\U{042F}' then (c as int + 32) as char
    else if '\U{0400}' <= c <= '\U{040F}' then (c as int + 80) as char
    else c
  }

  predicate IsUpper(c: char) {
    'A' <= c <= 'Z' || '\U{0400}' <= c <= '\U{042F}'
  }

  function Lower(s: string): (r: string)
    ensures |r| == |s| && forall i :: 0 <= i < |s| ==> r[i] == LowerChar(s[i])
  {
    if s == [] then [] else [LowerChar(s[0])] + Lower(s[1..])
  }

  predicate Contains(s: string, part: string) {
    part <= s || (s != [] && Contains(s[1..], part))
  }

  function Count(s: string, c: char): nat {
    if s == [] then 0 else (if s[0] == c then 1 else 0) + Count(s[1..], c)
  }

  lemma {:induction false} CountZero(s: string, c: char)
    requires c !in s
    ensures Count(s, c) == 0
  {
    if s != [] {
      CountZero(s[1..], c);
    }
  }

  // ---------------------------------------------------------------- one line

  function DetectDelimiter(header: string): char {
    if Count(header, ';') >= Count(header, ',') then ';' else ','
  }

  function Doubled(s: string): string {
    if s == [] then [] else (if s[0] == '"' then ['"', '"'] else [s[0]]) + Doubled(s[1..])
  }

  predicate Special(c: char) {
    c in {';', '"', '\n', '\r', ','}
  }

  function EscapeCsvCell(value: string): string {
    if exists i :: 0 <= i < |value| && Special(value[i]) then ['"'] + Doubled(value) + ['"'] else value
  }

  /** The cells of the rest of a line, when `current` has been read of the present cell. */
  function CellsFrom(rest: string, delimiter: char, current: string, inQuotes: bool): (cells: seq<string>)
    ensures cells != []
    decreases |rest|
  {
    if rest == [] then [Trim(current)]
    else if rest[0] == '"' then
      if inQuotes && |rest| > 1 && rest[1] == '"' then CellsFrom(rest[2..], delimiter, current + ['"'], inQuotes)
      else CellsFrom(rest[1..], delimiter, current, !inQuotes)
    else if rest[0] == delimiter && !inQuotes then [Trim(current)] + CellsFrom(rest[1..], delimiter, [], inQuotes)
    else CellsFrom(rest[1..], delimiter, current + [rest[0]], inQuotes)
  }

  method ParseCsvLine(line: string, delimiter: char) returns (cells: seq<string>)
    ensures cells == CellsFrom(line, delimiter, [], false)
  {
    cells := [];
    var current: string := [];
    var inQuotes := false;
    var i := 0;
    assert line[0..] == line;
    while i < |line|
      invariant 0 <= i <= |line|
      invariant cells + CellsFrom(line[i..], delimiter, current, inQuotes) == CellsFrom(line, delimiter, [], false)
    {
      var ch := line[i];
      assert line[i..][1..] == line[i + 1..];
      if ch == '"' {
        if inQuotes && i + 1 < |line| && line[i + 1] == '"' {
          assert line[i..][2..] == line[i + 2..];
          current := current + ['"'];
          i := i + 1;
        } else {
          inQuotes := !inQuotes;
        }
      } else if ch == delimiter && !inQuotes {
        cells := cells + [Trim(current)];
        current := [];
      } else {
        current := current + [ch];
      }
      i := i + 1;
    }
    cells := cells + [Trim(current)];
  }

  function Joined(cells: seq<string>, separator: char): string {
    if cells == [] then []
    else if |cells| == 1 then cells[0]
    else cells[0] + [separator] + Joined(cells[1..], separator)
  }

  function Escaped(cells: seq<string>): (r: seq<string>)
    ensures |r| == |cells| && forall i :: 0 <= i < |cells| ==> r[i] == EscapeCsvCell(cells[i])
  {
    if cells == [] then [] else [EscapeCsvCell(cells[0])] + Escaped(cells[1..])
  }

  function AllTrimmed(cells: seq<string>): (r: seq<string>)
    ensures |r| == |cells| && forall i :: 0 <= i < |cells| ==> r[i] == Trim(cells[i])
  {
    if cells == [] then [] else [Trim(cells[0])] + AllTrimmed(cells[1..])
  }

  lemma {:induction false} ReadPlain(v: string, rest: string, current: string)
    requires forall i :: 0 <= i < |v| ==> !Special(v[i])
    ensures CellsFrom(v + rest, ';', current, false) == CellsFrom(rest, ';', current + v, false)
    decreases |v|
  {
    if v == [] {
      assert v + rest == rest && current + v == current;
    } else {
      assert (v + rest)[1..] == v[1..] + rest && (v + rest)[0] == v[0] && Special(';') && Special('"');
      ReadPlain(v[1..], rest, current + [v[0]]);
      assert current + [v[0]] + v[1..] == current + v;
    }
  }

  lemma {:induction false} ReadQuoted(v: string, rest: string, current: string)
    requires rest == [] || rest[0] != '"'
    ensures CellsFrom(Doubled(v) + ['"'] + rest, ';', current, true) == CellsFrom(rest, ';', current + v, false)
    decreases |v|
  {
    var line := Doubled(v) + ['"'] + rest;
    if v == [] {
      assert line == ['"'] + rest && line[1..] == rest && current + v == current;
    } else {
      var tail := Doubled(v[1..]) + ['"'] + rest;
      if v[0] == '"' {
        assert line == ['"', '"'] + tail;
        assert line[2..] == tail;
      } else {
        assert line == [v[0]] + tail;
        assert line[1..] == tail;
      }
      ReadQuoted(v[1..], rest, current + [v[0]]);
      assert current + [v[0]] + v[1..] == current + v;
    }
  }

  lemma ReadEscaped(v: string, rest: string)
    requires rest == [] || rest[0] == ';'
    ensures CellsFrom(EscapeCsvCell(v) + rest, ';', [], false) == CellsFrom(rest, ';', v, false)
  {
    assert [] + v == v;
    if exists i :: 0 <= i < |v| && Special(v[i]) {
      var line := ['"'] + Doubled(v) + ['"'] + rest;
      assert line[1..] == Doubled(v) + ['"'] + rest;
      ReadQuoted(v, rest, []);
    } else {
      ReadPlain(v, rest, []);
    }
  }

  /** Whatever the cells hold, the parser reads back what was printed, up to the white space around it. */
  lemma {:induction false} LineRoundTrip(cells: seq<string>)
    requires cells != []
    ensures CellsFrom(Joined(Escaped(cells), ';'), ';', [], false) == AllTrimmed(cells)
    decreases |cells|
  {
    var printed := Escaped(cells);
    if |cells| == 1 {
      assert EscapeCsvCell(cells[0]) + [] == EscapeCsvCell(cells[0]);
      ReadEscaped(cells[0], []);
    } else {
      var rest := Joined(printed[1..], ';');
      assert printed[1..] == Escaped(cells[1..]);
      assert Joined(printed, ';') == EscapeCsvCell(cells[0]) + ([';'] + rest);
      ReadEscaped(cells[0], [';'] + rest);
      assert ([';'] + rest)[1..] == rest;
      LineRoundTrip(cells[1..]);
    }
  }

  // ---------------------------------------------------------------- values

  lemma AreaIsPlain(a: Number)
    requires IsNumber(a)
    ensures NumberText(a) != [] && Trimmed(NumberText(a))
    ensures forall i :: 0 <= i < |NumberText(a)| ==> !Special(NumberText(a)[i])
  {
    hide NumberText;
    TextChars(a);
    forall i | 0 <= i < |NumberText(a)| ensures !Special(NumberText(a)[i]) {
      assert NumberChar(NumberText(a)[i]);
    }
  }

  const YES := "да"
  const NO := "нет"

  function ParseBoolRu(value: string, byDefault: bool): bool {
    var v := Lower(Trim(value));
    if v == [] then byDefault
    else if v in {YES, "yes", "y", "1", "true", "активен"} then true
    else if v in {NO, "no", "n", "0", "false", "неактивен"} then false
    else byDefault
  }

  // ---------------------------------------------------------------- rows

  datatype OfficeRow = OfficeRow(
    center: string, number: string, floor: Option<string>, area: Option<Number>, company: Option<string>,
    tenantEmail: Option<string>, active: bool)

  datatype RowError = EmptyFile | KeyMissing(row: nat) | AreaInvalid(row: nat)

  datatype Parsed = Parsed(rows: seq<OfficeRow>, errors: seq<RowError>)

  datatype LineResult = Skip | Bad(error: RowError) | Good(row: OfficeRow)

  function CellAt(cells: seq<string>, k: nat): string {
    if k < |cells| then Trim(cells[k]) else []
  }

  function Given(s: string): Option<string> {
    if s == [] then None else Some(s)
  }

  function OrEmpty(s: Option<string>): string {
    match s case None => [] case Some(v) => v
  }

  /** Replaces the first comma of a number by a point. */
  function PointForComma(s: string): string {
    var n := Position(s, ',');
    if n < |s| then s[..n] + ['.'] + s[n + 1..] else s
  }

  /** The areas that the parser accepts. */
  predicate GoodArea(area: Number) {
    area.Finite? && !area.negative
  }

  function ParseRow(cells: seq<string>, rowNum: nat): LineResult {
    var areaRaw := PointForComma(CellAt(cells, 3));
    if forall i :: 0 <= i < |cells| ==> cells[i] == [] then Skip
    else if CellAt(cells, 0) == [] || CellAt(cells, 1) == [] then Bad(KeyMissing(rowNum))
    else if areaRaw != [] && !GoodArea(ReadNumber(areaRaw)) then Bad(AreaInvalid(rowNum))
    else
      Good(OfficeRow(CellAt(cells, 0), CellAt(cells, 1), Given(CellAt(cells, 2)),
                     if areaRaw == [] then None else Some(ReadNumber(areaRaw)), Given(CellAt(cells, 4)),
                     Given(Lower(CellAt(cells, 5))),
                     ParseBoolRu(if 6 < |cells| then cells[6] else [], true)))
  }

  /** The rows and errors of the first lines of a file; `first` is the number of its first line. */
  function ParseLines(lines: seq<string>, delimiter: char, first: nat): Parsed {
    if lines == [] then Parsed([], [])
    else
      var n := |lines| - 1;
      var before := ParseLines(lines[..n], delimiter, first);
      match ParseRow(CellsFrom(lines[n], delimiter, [], false), first + n)
      case Skip => before
      case Bad(error) => before.(errors := before.errors + [error])
      case Good(row) => before.(rows := before.rows + [row])
  }

  /** Trimmed lines that are not empty. Trimming also takes the carriage return before a line feed. */
  function Lines(text: string): seq<string>
    decreases |text|
  {
    var n := Position(text, '\n');
    var line := Trim(text[..n]);
    (if line == [] then [] else [line]) + if n < |text| then Lines(text[n + 1..]) else []
  }

  function Unmarked(text: string): string {
    if text != [] && text[0] == '\U{FEFF}' then text[1..] else text
  }

  predicate IsHeader(cells: seq<string>) {
    exists i :: 0 <= i < |cells| && (Contains(Lower(cells[i]), "бц") || Contains(Lower(cells[i]), "номер"))
  }

  function ParseText(text: string): Parsed {
    var lines := Lines(Trim(Unmarked(text)));
    if lines == [] then Parsed([], [EmptyFile])
    else
      var delimiter := DetectDelimiter(lines[0]);
      if IsHeader(CellsFrom(lines[0], delimiter, [], false)) then ParseLines(lines[1..], delimiter, 2)
      else ParseLines(lines, delimiter, 1)
  }

  method ParseOfficeCsv(text: string) returns (rows: seq<OfficeRow>, errors: seq<RowError>)
    ensures Parsed(rows, errors) == ParseText(text)
  {
    hide Lines, Trim, Unmarked, CellsFrom, IsHeader, DetectDelimiter, ParseRow;
    rows, errors := [], [];
    var lines := Lines(Trim(Unmarked(text)));
    if lines == [] {
      return [], [EmptyFile];
    }
    var delimiter := DetectDelimiter(lines[0]);
    var headerCells := ParseCsvLine(lines[0], delimiter);
    var hasHeader := IsHeader(headerCells);
    var dataLines := if hasHeader then lines[1..] else lines;
    var first := if hasHeader then 2 else 1;
    var index := 0;
    assert dataLines[..0] == [];
    while index < |dataLines|
      invariant 0 <= index <= |dataLines|
      invariant Parsed(rows, errors) == ParseLines(dataLines[..index], delimiter, first)
    {
      assert dataLines[..index + 1][..index] == dataLines[..index];
      var cells := ParseCsvLine(dataLines[index], delimiter);
      match ParseRow(cells, first + index) {
        case Skip =>
        case Bad(error) => errors := errors + [error];
        case Good(row) => rows := rows + [row];
      }
      index := index + 1;
    }
    assert dataLines[..index] == dataLines;
  }

  /** The words for yes and no, in any case and with white space around them; anything else is the default. */
  lemma YesAndNo(value: string, byDefault: bool)
    ensures var v := Lower(Trim(value));
      && (v in {"да", "yes", "y", "1", "true", "активен"} ==> ParseBoolRu(value, byDefault))
      && (v in {"нет", "no", "n", "0", "false", "неактивен"} ==> !ParseBoolRu(value, byDefault))
      && (v !in {"да", "yes", "y", "1", "true", "активен"} && v !in {"нет", "no", "n", "0", "false", "неактивен"} ==>
            ParseBoolRu(value, byDefault) == byDefault)
  {
    hide Lower, Trim;
    WordsDiffer();
  }

  lemma WordsDiffer()
    ensures "" !in {"да", "yes", "y", "1", "true", "активен"} && "" !in {"нет", "no", "n", "0", "false", "неактивен"}
    ensures {"да", "yes", "y", "1", "true", "активен"} !! {"нет", "no", "n", "0", "false", "неактивен"}
  {
    assert "да"[0] == 'д' && "yes"[0] == 'y' && "y"[0] == 'y' && "1"[0] == '1' && "true"[0] == 't' && "активен"[0] == 'а';
    assert "нет"[0] == 'н' && "no"[0] == 'n' && "n"[0] == 'n' && "0"[0] == '0' && "false"[0] == 'f' && "неактивен"[0] == 'н';
  }

  /**
   What becomes of the cells of a line: nothing of an empty one; an error without a centre and a number, or for an
   area that is no number, is infinite or below zero, a comma standing for the point; else a row of the cells,
   with what is empty left out, the email in lower case, and active unless it says no.
   */
  lemma CellsAnswer(cells: seq<string>, rowNum: nat)
    requires |cells| == 7 && forall i :: 0 <= i < 7 ==> Trimmed(cells[i])
    ensures var answer, area := ParseRow(cells, rowNum), PointForComma(cells[3]);
      if cells == ["", "", "", "", "", "", ""] then answer == Skip
      else if cells[0] == "" || cells[1] == "" then answer == Bad(KeyMissing(rowNum))
      else if area != "" && !(ReadNumber(area).Finite? && !ReadNumber(area).negative)
      then answer == Bad(AreaInvalid(rowNum))
      else
        && answer.Good?
        && var row := answer.row;
           && row.center == cells[0] && row.number == cells[1]
           && row.floor == (if cells[2] == "" then None else Some(cells[2]))
           && row.area == (if area == "" then None else Some(ReadNumber(area)))
           && row.company == (if cells[4] == "" then None else Some(cells[4]))
           && row.tenantEmail == (if cells[5] == "" then None else Some(Lower(cells[5])))
           && row.active == ParseBoolRu(cells[6], true)
  {
    hide ReadNumber, PointForComma, ParseBoolRu;
    CellsAsTheyAre(cells);
    assert Lower(cells[5]) == "" <==> cells[5] == "";
    if forall i :: 0 <= i < |cells| ==> cells[i] == [] {
      assert cells == ["", "", "", "", "", "", ""];
    }
  }

  /** The first comma of an area is its point. */
  lemma CommaIsPoint(whole: string, fraction: string)
    requires ',' !in whole
    ensures PointForComma(whole + "," + fraction) == whole + "." + fraction
  {
    var s := whole + "," + fraction;
    assert forall i :: 0 <= i < |whole| ==> s[i] == whole[i];
    assert s[|whole|] == ',' && Position(s, ',') == |whole|;
    assert s[..|whole|] == whole && s[|whole| + 1..] == fraction;
  }

  // ---------------------------------------------------------------- printing

  const HEADERS := ["БЦ", "Номер офиса", "Этаж", "Площадь", "Компания", "Email арендатора", "Активен"]

  function RowCells(row: OfficeRow): seq<string> {
    [row.center, row.number, OrEmpty(row.floor), if row.area.Some? then NumberText(row.area.value) else [],
     OrEmpty(row.company), OrEmpty(row.tenantEmail), if row.active then YES else NO]
  }

  function RowText(row: OfficeRow): string {
    Joined([EscapeCsvCell(row.center), EscapeCsvCell(row.number), EscapeCsvCell(OrEmpty(row.floor)),
            if row.area.Some? then NumberText(row.area.value) else [],
            EscapeCsvCell(OrEmpty(row.company)), EscapeCsvCell(OrEmpty(row.tenantEmail)),
            if row.active then YES else NO], ';')
  }

  function RowTexts(rows: seq<OfficeRow>): (r: seq<string>)
    ensures |r| == |rows| && forall i :: 0 <= i < |rows| ==> r[i] == RowText(rows[i])
  {
    seq(|rows|, i requires 0 <= i < |rows| => RowText(rows[i]))
  }

  function BuildOfficeCsv(rows: seq<OfficeRow>): string {
    Joined([Joined(HEADERS, ';')] + RowTexts(rows), '\n')
  }

  // ---------------------------------------------------------------- the round trip

  predicate CleanText(s: string) {
    s != [] && Trimmed(s) && '\n' !in s
  }

  predicate CleanOption(s: Option<string>) {
    s.Some? ==> CleanText(s.value)
  }

  /** The cells of the row read back as they are, its area as some number. */
  predicate CleanCells(row: OfficeRow) {
    && CleanText(row.center) && CleanText(row.number) && CleanOption(row.floor) && CleanOption(row.company)
    && CleanOption(row.tenantEmail) && Lower(OrEmpty(row.tenantEmail)) == OrEmpty(row.tenantEmail)
    && (row.area.Some? ==> IsNumber(row.area.value))
  }

  predicate AreaAccepted(row: OfficeRow) {
    row.area.Some? ==> GoodArea(row.area.value)
  }

  /** What a row must be like to survive being printed and read: a caller can check it before printing. */
  predicate Clean(row: OfficeRow) {
    CleanCells(row) && AreaAccepted(row)
  }

  lemma {:induction false} DoubledChars(s: string, c: char)
    requires c !in s
    ensures c !in Doubled(s)
  {
    if s != [] {
      DoubledChars(s[1..], c);
    }
  }

  /** Printing a cell adds quotes at most; it begins with a quote or as the cell does. */
  lemma EscapedChars(s: string)
    requires CleanText(s)
    ensures var e := EscapeCsvCell(s); e != [] && '\n' !in e && !IsSpace(e[0])
  {
    DoubledChars(s, '\n');
  }

  lemma EscapedEmpty()
    ensures EscapeCsvCell([]) == []
  {
  }

  lemma {:induction false} JoinedChars(cells: seq<string>, separator: char, c: char)
    requires c != separator && forall i :: 0 <= i < |cells| ==> c !in cells[i]
    ensures c !in Joined(cells, separator)
  {
    if |cells| > 1 {
      JoinedChars(cells[1..], separator, c);
    }
  }

  /** A joined list begins as its first part does and ends as its last part does. */
  lemma {:induction false} JoinedEnds(cells: seq<string>, separator: char)
    requires cells != [] && cells[0] != [] && cells[|cells| - 1] != []
    ensures var s := Joined(cells, separator);
      s != [] && s[0] == cells[0][0] && s[|s| - 1] == cells[|cells| - 1][|cells[|cells| - 1]| - 1]
    decreases |cells|
  {
    var s, n := Joined(cells, separator), |cells|;
    if n > 1 {
      var rest := Joined(cells[1..], separator);
      assert cells[1..][n - 2] == cells[n - 1];
      LastOfJoined(cells[1..], separator);
      assert s == cells[0] + [separator] + rest;
    }
  }

  lemma {:induction false} LastOfJoined(cells: seq<string>, separator: char)
    requires cells != [] && cells[|cells| - 1] != []
    ensures var s := Joined(cells, separator);
      s != [] && s[|s| - 1] == cells[|cells| - 1][|cells[|cells| - 1]| - 1]
    decreases |cells|
  {
    var s, n := Joined(cells, separator), |cells|;
    if n > 1 {
      var rest := Joined(cells[1..], separator);
      assert cells[1..][n - 2] == cells[n - 1];
      LastOfJoined(cells[1..], separator);
      assert s == cells[0] + [separator] + rest;
    }
  }

  lemma LastWords()
    ensures YES != [] && NO != [] && Trimmed(YES) && Trimmed(NO)
    ensures ParseBoolRu(YES, true) && !ParseBoolRu(NO, true)
    ensures EscapeCsvCell(YES) == YES && EscapeCsvCell(NO) == NO && '\n' !in YES && '\n' !in NO
  {
    assert Lower(YES) == YES;
    assert Lower(NO) == NO;
  }

  /** The cells of a clean row are printed as the row's text. */
  lemma RowIsEscaped(row: OfficeRow)
    requires CleanCells(row)
    ensures RowText(row) == Joined(Escaped(RowCells(row)), ';')
  {
    hide Joined, Escaped, EscapeCsvCell, NumberText, CleanText, Decimal;
    LastWords();
    EscapedEmpty();
    if row.area.Some? {
      AreaIsPlain(row.area.value);
      PlainEscaped(NumberText(row.area.value));
    }
    assert Escaped(RowCells(row)) ==
      [EscapeCsvCell(row.center), EscapeCsvCell(row.number), EscapeCsvCell(OrEmpty(row.floor)),
       if row.area.Some? then NumberText(row.area.value) else [],
       EscapeCsvCell(OrEmpty(row.company)), EscapeCsvCell(OrEmpty(row.tenantEmail)), if row.active then YES else NO];
  }

  lemma PlainEscaped(s: string)
    requires forall i :: 0 <= i < |s| ==> !Special(s[i])
    ensures EscapeCsvCell(s) == s
  {
  }

  lemma CellsTrimmed(row: OfficeRow)
    requires CleanCells(row)
    ensures forall i :: 0 <= i < |RowCells(row)| ==> Trimmed(RowCells(row)[i])
  {
    hide NumberText;
    LastWords();
    if row.area.Some? {
      AreaIsPlain(row.area.value);
    }
  }

  /** A clean row is printed on one line, without white space at its ends. */
  lemma RowLine(row: OfficeRow)
    requires CleanCells(row)
    ensures '\n' !in RowText(row) && RowText(row) != [] && Trimmed(RowText(row))
  {
    RowIsEscaped(row);
    var printed := Escaped(RowCells(row));
    hide Joined, Escaped, NumberText, RowText, Special;
    forall i | 0 <= i < |printed| ensures '\n' !in printed[i] {
      CellLine(row, i);
    }
    EscapedChars(row.center);
    LastWords();
    assert printed[0] == EscapeCsvCell(row.center);
    assert printed[6] == if row.active then YES else NO;
    hide EscapeCsvCell, CleanCells;
    JoinedChars(printed, ';', '\n');
    JoinedEnds(printed, ';');
  }

  lemma CellLine(row: OfficeRow, i: nat)
    requires CleanCells(row) && i < |RowCells(row)|
    ensures '\n' !in EscapeCsvCell(RowCells(row)[i])
  {
    hide NumberText, EscapeCsvCell;
    var cell := RowCells(row)[i];
    LastWords();
    EscapedEmpty();
    if i == 3 && row.area.Some? {
      AreaIsPlain(row.area.value);
      PlainEscaped(cell);
      PlainNoBreak(cell);
    } else if cell != [] && i < 6 {
      EscapedChars(cell);
    }
  }

  lemma PlainNoBreak(s: string)
    requires forall i :: 0 <= i < |s| ==> !Special(s[i])
    ensures '\n' !in s && ',' !in s
  {
    assert Special('\n') && Special(',');
  }

  /** What becomes of a row whose cells are clean: it comes back, or its area is refused. */
  function ReadBack(row: OfficeRow, rowNum: nat): LineResult {
    if AreaAccepted(row) then Good(row) else Bad(AreaInvalid(rowNum))
  }

  /** Reading the printed cells gives the row, or refuses its area. */
  lemma RowRoundTrip(row: OfficeRow, rowNum: nat)
    requires CleanCells(row)
    ensures ParseRow(CellsFrom(RowText(row), ';', [], false), rowNum) == ReadBack(row, rowNum)
  {
    RowIsEscaped(row);
    var cells := RowCells(row);
    LineRoundTrip(cells);
    CellsTrimmed(row);
    assert AllTrimmed(cells) == cells;
    hide RowText, CellsFrom, Joined, Escaped, AllTrimmed;
    ParseCleanCells(row, rowNum);
  }

  lemma NoComma(s: string)
    requires ',' !in s
    ensures PointForComma(s) == s
  {
    assert Position(s, ',') == |s|;
  }

  lemma CellsAsTheyAre(cells: seq<string>)
    requires forall i :: 0 <= i < |cells| ==> Trimmed(cells[i])
    ensures forall k :: 0 <= k < |cells| ==> CellAt(cells, k) == cells[k]
  {
  }

  lemma GivenBack(s: Option<string>)
    requires CleanOption(s)
    ensures Given(OrEmpty(s)) == s
  {
  }

  lemma CellsOfRow(row: OfficeRow)
    requires CleanCells(row)
    ensures var c := RowCells(row);
      && |c| == 7 && CellAt(c, 0) == row.center != [] && CellAt(c, 1) == row.number != []
      && c[0] != [] && CellAt(c, 2) == OrEmpty(row.floor)
      && CellAt(c, 3) == (if row.area.Some? then NumberText(row.area.value) else [])
      && CellAt(c, 4) == OrEmpty(row.company) && CellAt(c, 5) == OrEmpty(row.tenantEmail)
      && ParseBoolRu(c[6], true) == row.active
  {
    CellsTrimmed(row);
    LastWords();
    hide ParseBoolRu, NumberText, CellAt;
    CellsAsTheyAre(RowCells(row));
  }

  lemma AreaBack(row: OfficeRow)
    requires CleanCells(row)
    ensures var raw := PointForComma(if row.area.Some? then NumberText(row.area.value) else []);
      && (raw == [] <==> row.area.None?) && (row.area.Some? ==> ReadNumber(raw) == row.area.value)
  {
    if row.area.Some? {
      hide NumberText, ReadNumber, PointForComma;
      var text := NumberText(row.area.value);
      NumberRoundTrip(row.area.value);
      AreaIsPlain(row.area.value);
      PlainNoBreak(text);
      NoComma(text);
    }
  }

  lemma ParseCleanCells(row: OfficeRow, rowNum: nat)
    requires CleanCells(row)
    ensures ParseRow(RowCells(row), rowNum) == ReadBack(row, rowNum)
  {
    hide RowCells, CellAt, ParseBoolRu, ReadNumber, NumberText, PointForComma, Given, OrEmpty, Lower, CleanText, IsNumber;
    CellsOfRow(row);
    AreaBack(row);
    GivenBack(row.floor);
    GivenBack(row.company);
    GivenBack(row.tenantEmail);
  }

  lemma {:induction false} LinesOfJoined(lines: seq<string>)
    requires lines != []
    requires forall i :: 0 <= i < |lines| ==> lines[i] != [] && Trimmed(lines[i]) && '\n' !in lines[i]
    ensures Lines(Joined(lines, '\n')) == lines
    decreases |lines|
  {
    var text := Joined(lines, '\n');
    if |lines| == 1 {
      assert Position(text, '\n') == |text|;
      assert text[..|text|] == text;
    } else {
      var rest := Joined(lines[1..], '\n');
      assert text == lines[0] + [';'][..0] + ['\n'] + rest;
      var n := |lines[0]|;
      assert text[..n] == lines[0] && text[n] == '\n' && text[n + 1..] == rest;
      FirstBreak(lines[0], text);
      LinesOfJoined(lines[1..]);
    }
  }

  lemma FirstBreak(line: string, text: string)
    requires '\n' !in line && |line| < |text| && text[..|line|] == line && text[|line|] == '\n'
    ensures Position(text, '\n') == |line|
  {
    assert forall i :: 0 <= i < |line| ==> text[i] == line[i];
  }

  lemma HeaderWord(i: nat)
    requires i < |HEADERS|
    ensures EscapeCsvCell(HEADERS[i]) == HEADERS[i] && HEADERS[i] != [] && Trimmed(HEADERS[i])
    ensures '\n' !in HEADERS[i] && ',' !in HEADERS[i]
  {
    var word := HEADERS[i];
    assert forall k :: 0 <= k < |word| ==> !Special(word[k]);
    PlainNoBreak(word);
  }

  lemma FirstHeader()
    ensures |HEADERS| == 7 && HEADERS[0] != [] && HEADERS[0][0] != '\U{FEFF}' && Lower(HEADERS[0]) == "бц"
    ensures Contains(Lower(HEADERS[0]), "бц")
  {
  }

  lemma HeaderCells()
    ensures CellsFrom(Joined(HEADERS, ';'), ';', [], false) == HEADERS
  {
    FirstHeader();
    hide HEADERS, CellsFrom, EscapeCsvCell, Joined, Escaped, AllTrimmed, Trim;
    forall i | 0 <= i < |HEADERS| ensures EscapeCsvCell(HEADERS[i]) == HEADERS[i] && Trim(HEADERS[i]) == HEADERS[i] {
      HeaderWord(i);
    }
    assert Escaped(HEADERS) == HEADERS;
    LineRoundTrip(HEADERS);
    assert AllTrimmed(HEADERS) == HEADERS;
  }

  lemma HeaderLine()
    ensures var header := Joined(HEADERS, ';');
      && header != [] && Trimmed(header) && '\n' !in header && header[0] != '\U{FEFF}'
      && DetectDelimiter(header) == ';' && IsHeader(CellsFrom(header, ';', [], false))
  {
    FirstHeader();
    hide HEADERS, Joined, CellsFrom, EscapeCsvCell, Contains, Lower;
    var header := Joined(HEADERS, ';');
    HeaderCells();
    forall i | 0 <= i < |HEADERS| ensures '\n' !in HEADERS[i] && ',' !in HEADERS[i] {
      HeaderWord(i);
    }
    HeaderWord(0);
    HeaderWord(6);
    JoinedEnds(HEADERS, ';');
    JoinedChars(HEADERS, ';', '\n');
    JoinedChars(HEADERS, ';', ',');
    CountZero(header, ',');
  }

  /** What one more line adds. */
  lemma LastLine(lines: seq<string>, delimiter: char, first: nat)
    requires lines != []
    ensures var n := |lines| - 1;
      var before := ParseLines(lines[..n], delimiter, first);
      ParseLines(lines, delimiter, first) ==
        match ParseRow(CellsFrom(lines[n], delimiter, [], false), first + n)
        case Skip => before
        case Bad(error) => before.(errors := before.errors + [error])
        case Good(row) => before.(rows := before.rows + [row])
  {
    hide ParseRow, CellsFrom;
  }

  /** What becomes of rows whose cells are clean: those with a good area come back, each other one is an error. */
  function ReadBackAll(rows: seq<OfficeRow>, first: nat): Parsed {
    if rows == [] then Parsed([], [])
    else
      var n := |rows| - 1;
      var before := ReadBackAll(rows[..n], first);
      if AreaAccepted(rows[n]) then before.(rows := before.rows + [rows[n]])
      else before.(errors := before.errors + [AreaInvalid(first + n)])
  }

  lemma {:induction false} RowsReadBack(rows: seq<OfficeRow>, first: nat)
    requires forall i :: 0 <= i < |rows| ==> CleanCells(rows[i])
    ensures ParseLines(RowTexts(rows), ';', first) == ReadBackAll(rows, first)
  {
    hide CellsFrom, CleanCells, RowText, ParseRow, RowTexts, ParseLines, AreaAccepted;
    var lines := RowTexts(rows);
    if rows == [] {
      NoLines(';', first);
    } else {
      var n := |rows| - 1;
      assert lines[..n] == RowTexts(rows[..n]);
      RowsReadBack(rows[..n], first);
      RowRoundTrip(rows[n], first + n);
      LastLine(lines, ';', first);
    }
  }

  lemma {:induction false} AllReadBack(rows: seq<OfficeRow>, first: nat)
    requires forall i :: 0 <= i < |rows| ==> AreaAccepted(rows[i])
    ensures ReadBackAll(rows, first) == Parsed(rows, [])
  {
    hide AreaAccepted;
    if rows != [] {
      AllReadBack(rows[..|rows| - 1], first);
      assert rows == rows[..|rows| - 1] + [rows[|rows| - 1]];
    }
  }

  lemma NoLines(delimiter: char, first: nat)
    ensures ParseLines([], delimiter, first) == Parsed([], [])
  {
  }

  /**
   Printed rows whose cells are clean are read back in order, but for those whose area is below zero or not
   finite: each of them is an error on its line.
   */
  lemma PrintedReadBack(rows: seq<OfficeRow>)
    requires forall i :: 0 <= i < |rows| ==> CleanCells(rows[i])
    ensures ParseText(BuildOfficeCsv(rows)) == ReadBackAll(rows, 2)
  {
    hide HEADERS, CleanCells, RowTexts, Joined, CellsFrom, DetectDelimiter, IsHeader, Lines, ParseLines, ReadBackAll, Trim,
      BuildOfficeCsv;
    var header := Joined(HEADERS, ';');
    HeaderLine();
    PrintedLines(rows);
    RowsReadBack(rows, 2);
    assert ([header] + RowTexts(rows))[1..] == RowTexts(rows);
  }

  lemma PrintedLines(rows: seq<OfficeRow>)
    requires forall i :: 0 <= i < |rows| ==> CleanCells(rows[i])
    ensures Lines(Trim(Unmarked(BuildOfficeCsv(rows)))) == [Joined(HEADERS, ';')] + RowTexts(rows)
  {
    hide HEADERS, CleanCells, RowText, Lines, CellsFrom, DetectDelimiter, IsHeader;
    var header := Joined(HEADERS, ';');
    var lines := [header] + RowTexts(rows);
    HeaderLine();
    forall i | 0 <= i < |rows| ensures RowTexts(rows)[i] != [] && Trimmed(RowTexts(rows)[i]) && '\n' !in RowTexts(rows)[i] {
      RowLine(rows[i]);
    }
    LinesOfJoined(lines);
    var text := Joined(lines, '\n');
    JoinedEnds(lines, '\n');
    assert Trimmed(text) && Unmarked(text) == text;
  }

  /** An office of minus five square metres: clean cells, printed, and refused. */
  lemma NegativeAreaRefused()
    ensures var row := OfficeRow("A", "1", None, Some(Finite(true, Size(5, 0))), None, None, true);
      && CleanCells(row) && NumberText(row.area.value) == "-5"
      && ParseText(BuildOfficeCsv([row])) == Parsed([], [AreaInvalid(2)])
  {
    hide BuildOfficeCsv, ParseText;
    var row := OfficeRow("A", "1", None, Some(Finite(true, Size(5, 0))), None, None, true);
    assert IsNumber(Finite(true, Size(5, 0)));
    assert Decimal(5) == "5";
    PrintedReadBack([row]);
  }

  // ---------------------------------------------------------------- what the parser gives out

  predicate OneLine(s: string) {
    '\n' !in s
  }

  lemma {:induction false} CellsOneLine(rest: string, delimiter: char, current: string, inQuotes: bool)
    requires OneLine(rest) && OneLine(current)
    ensures forall i :: 0 <= i < |CellsFrom(rest, delimiter, current, inQuotes)| ==>
              OneLine(CellsFrom(rest, delimiter, current, inQuotes)[i])
    decreases |rest|
  {
    if rest == [] {
    } else if rest[0] == '"' {
      if inQuotes && |rest| > 1 && rest[1] == '"' {
        CellsOneLine(rest[2..], delimiter, current + ['"'], inQuotes);
      } else {
        CellsOneLine(rest[1..], delimiter, current, !inQuotes);
      }
    } else if rest[0] == delimiter && !inQuotes {
      CellsOneLine(rest[1..], delimiter, [], inQuotes);
    } else {
      CellsOneLine(rest[1..], delimiter, current + [rest[0]], inQuotes);
    }
  }

  lemma LowerTwice(s: string)
    requires Trimmed(s) && OneLine(s)
    ensures Lower(Lower(s)) == Lower(s) && Trimmed(Lower(s)) && OneLine(Lower(s))
  {
  }

  lemma RowComesOutClean(cells: seq<string>, rowNum: nat)
    requires ParseRow(cells, rowNum).Good? && forall i :: 0 <= i < |cells| ==> OneLine(cells[i])
    ensures Clean(ParseRow(cells, rowNum).row)
  {
    hide ParseBoolRu, ReadNumber, Lower, Trim;
    LowerTwice(CellAt(cells, 5));
  }

  lemma {:induction false} RowsComeOutClean(lines: seq<string>, delimiter: char, first: nat)
    requires forall i :: 0 <= i < |lines| ==> OneLine(lines[i])
    ensures var rows := ParseLines(lines, delimiter, first).rows; forall i :: 0 <= i < |rows| ==> Clean(rows[i])
  {
    hide CellsFrom, Clean, ParseRow, ParseLines, OneLine;
    if lines == [] {
      NoLines(delimiter, first);
    } else {
      var n := |lines| - 1;
      RowsComeOutClean(lines[..n], delimiter, first);
      LineComesOutClean(lines[n], delimiter, first + n);
      LastLine(lines, delimiter, first);
    }
  }

  lemma LineComesOutClean(line: string, delimiter: char, rowNum: nat)
    requires OneLine(line)
    ensures var r := ParseRow(CellsFrom(line, delimiter, [], false), rowNum); r.Good? ==> Clean(r.row)
  {
    hide CellsFrom, Clean, ParseRow;
    CellsOneLine(line, delimiter, [], false);
    var cells := CellsFrom(line, delimiter, [], false);
    if ParseRow(cells, rowNum).Good? {
      RowComesOutClean(cells, rowNum);
    }
  }

  lemma {:induction false} LinesOneLine(text: string)
    ensures forall i :: 0 <= i < |Lines(text)| ==> OneLine(Lines(text)[i])
    decreases |text|
  {
    var n := Position(text, '\n');
    assert OneLine(text[..n]);
    if n < |text| {
      LinesOneLine(text[n + 1..]);
    }
  }

  /** Every row the parser gives out is clean, whatever the file. */
  lemma ParsedRowsClean(text: string)
    ensures var rows := ParseText(text).rows; forall i :: 0 <= i < |rows| ==> Clean(rows[i])
  {
    var lines := Lines(Trim(Unmarked(text)));
    LinesOneLine(Trim(Unmarked(text)));
    hide Clean, OneLine, CellsFrom, ParseLines, ParseText;
    LinesParsed(text, lines);
    if lines != [] {
      var delimiter := DetectDelimiter(lines[0]);
      assert forall i :: 0 <= i < |lines[1..]| ==> lines[1..][i] == lines[i + 1];
      RowsComeOutClean(lines, delimiter, 1);
      RowsComeOutClean(lines[1..], delimiter, 2);
    }
  }

  lemma LinesParsed(text: string, lines: seq<string>)
    requires lines == Lines(Trim(Unmarked(text)))
    ensures lines == [] ==> ParseText(text).rows == []
    ensures lines != [] ==>
              || ParseText(text) == ParseLines(lines, DetectDelimiter(lines[0]), 1)
              || ParseText(text) == ParseLines(lines[1..], DetectDelimiter(lines[0]), 2)
  {
    hide Lines, Trim, Unmarked, CellsFrom, ParseLines, IsHeader, DetectDelimiter;
  }

  /** Printing rows and reading them back gives the same rows and no error exactly when every row is clean. */
  lemma RoundTripIff(rows: seq<OfficeRow>)
    ensures ParseText(BuildOfficeCsv(rows)) == Parsed(rows, []) <==> forall i :: 0 <= i < |rows| ==> Clean(rows[i])
  {
    ParsedRowsClean(BuildOfficeCsv(rows));
    hide ParseText, BuildOfficeCsv, CleanCells, AreaAccepted;
    if forall i :: 0 <= i < |rows| ==> Clean(rows[i]) {
      PrintedReadBack(rows);
      AllReadBack(rows, 2);
    }
  }
}
