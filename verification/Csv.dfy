/**
 * The CSV reader of the waitlist import (platform/src/admin/waitlist.ts,
 * csvRecords). `Read` is the scan as a function of the text still to come; the
 * method is the loop as written, over an index. Two independent accounts of
 * what it must produce follow: the text cut at its unquoted line breaks, and a
 * printer after section 2 of RFC 4180.
 */
module Csv {

  datatype Record = Record(line: nat, raw: string, fields: seq<string>)

  // ----- String.prototype.trim ------------------------------------------------------

  predicate White(c: char) {
    || '\t' <= c <= '\r' || c == ' ' || c == '\U{00A0}' || c == '\U{1680}' || '\U{2000}' <= c <= '\U{200A}'
    || c == '\U{2028}' || c == '\U{2029}' || c == '\U{202F}' || c == '\U{205F}' || c == '\U{3000}' || c == '\U{FEFF}'
  }

  function TrimStart(s: string): string {
    if s != "" && White(s[0]) then TrimStart(s[1..]) else s
  }

  function TrimEnd(s: string): string {
    if s != "" && White(s[|s| - 1]) then TrimEnd(s[..|s| - 1]) else s
  }

  function Trim(s: string): string { TrimEnd(TrimStart(s)) }

  function TrimAll(fields: seq<string>): (r: seq<string>)
    ensures |r| == |fields|
  {
    seq(|fields|, i requires 0 <= i < |fields| => Trim(fields[i]))
  }

  /** Nothing to trim: empty, or no white space at either end. */
  predicate Tight(s: string) { s == "" || (!White(s[0]) && !White(s[|s| - 1])) }

  /** The white space and line terminators of ECMAScript, one by one. */
  lemma WhiteAre(c: char)
    ensures White(c) <==> c as int in {0x9, 0xA, 0xB, 0xC, 0xD, 0x20, 0xA0, 0x1680, 0x2000, 0x2001, 0x2002, 0x2003,
                                       0x2004, 0x2005, 0x2006, 0x2007, 0x2008, 0x2009, 0x200A, 0x2028, 0x2029, 0x202F,
                                       0x205F, 0x3000, 0xFEFF}
  {
  }

  predicate AllWhite(s: string) { forall c | c in s :: White(c) }

  lemma {:induction false} StartTrimmed(s: string) returns (cut: string)
    ensures s == cut + TrimStart(s) && AllWhite(cut) && (TrimStart(s) == "" || !White(TrimStart(s)[0]))
    decreases |s|
  {
    cut := "";
    if s != "" && White(s[0]) {
      cut := StartTrimmed(s[1..]);
      cut := [s[0]] + cut;
      assert s == [s[0]] + s[1..];
    }
  }

  lemma {:induction false} EndTrimmed(s: string) returns (cut: string)
    ensures s == TrimEnd(s) + cut && AllWhite(cut) && (TrimEnd(s) == "" || !White(TrimEnd(s)[|TrimEnd(s)| - 1]))
    decreases |s|
  {
    cut := "";
    if s != "" && White(s[|s| - 1]) {
      cut := EndTrimmed(s[..|s| - 1]);
      cut := cut + [s[|s| - 1]];
      assert s == s[..|s| - 1] + [s[|s| - 1]];
    }
  }

  /** Trimming takes white space off both ends, and nothing else, and leaves none there. */
  lemma TrimIs(s: string) returns (before: string, after: string)
    ensures s == before + Trim(s) + after && AllWhite(before) && AllWhite(after) && Tight(Trim(s))
  {
    before := StartTrimmed(s);
    after := EndTrimmed(TrimStart(s));
    assert s == before + (Trim(s) + after) == before + Trim(s) + after;
    if Trim(s) != "" { assert TrimStart(s)[0] == Trim(s)[0]; }
  }

  // ----- the scan ---------------------------------------------------------------------

  /**
   * What is known mid-record: the fields so far, the field being read, the raw
   * text, inside quotes or not, and the lines.
   */
  datatype Scan = Scan(fields: seq<string>, field: string, raw: string, quoted: bool, line: nat, startLine: nat)

  function Fresh(line: nat): Scan { Scan([], "", "", false, line, line) }

  function Closed(s: Scan): Record { Record(s.startLine, s.raw, TrimAll(s.fields + [s.field])) }

  predicate Breaks(c: char) { c == '\r' || c == '\n' }

  predicate Begins(text: string, c: char) { text != "" && text[0] == c }

  /** The line break at the start of the text: CRLF, CR or LF; 0 when there is none. */
  function BreakWidth(text: string): (w: nat)
    ensures w <= |text|
  {
    if Begins(text, '\r') && Begins(text[1..], '\n') then 2
    else if Begins(text, '\r') || Begins(text, '\n') then 1
    else 0
  }

  /** Does its first character end a line: LF, or a CR that is not half of a CRLF? */
  predicate EndsLine(text: string) {
    Begins(text, '\n') || (Begins(text, '\r') && !Begins(text[1..], '\n'))
  }

  /** How much of the text one step takes: a doubled quote inside quotes is taken whole. */
  function Taken(rest: string, s: Scan): (n: nat)
    requires rest != ""
    ensures 1 <= n <= |rest|
  {
    if s.quoted && rest[0] == '"' && Begins(rest[1..], '"') then 2 else 1
  }

  /** One step inside a record. */
  function Next(rest: string, s: Scan): Scan
    requires rest != ""
  {
    var t := s.(raw := s.raw + rest[..Taken(rest, s)]);
    if s.quoted then
      if rest[0] == '"' && Taken(rest, s) == 2 then t.(field := s.field + rest[..1])
      else if rest[0] == '"' then t.(quoted := false)
      else t.(field := s.field + rest[..1], line := s.line + if EndsLine(rest) then 1 else 0)
    else if rest[0] == '"' then t.(quoted := true)
    else if rest[0] == ',' then t.(fields := s.fields + [s.field], field := "")
    else t.(field := s.field + rest[..1])
  }

  function Read(rest: string, s: Scan): seq<Record>
    decreases |rest|
  {
    if rest == "" then (if s.raw == "" then [] else [Closed(s)])
    else if !s.quoted && BreakWidth(rest) > 0 then [Closed(s)] + Read(rest[BreakWidth(rest)..], Fresh(s.line + 1))
    else Read(rest[Taken(rest, s)..], Next(rest, s))
  }

  function Records(text: string): seq<Record> { Read(text, Fresh(1)) }

  lemma Sliced(text: string, start: nat, i: nat, n: nat)
    requires start <= i && i + n <= |text|
    ensures text[i..][n..] == text[i + n..] && text[start..i] + text[i..][..n] == text[start..i + n]
  {
  }

  /** The scan from a position on. */
  function ReadAt(text: string, i: nat, s: Scan): seq<Record>
    requires i <= |text|
  {
    Read(text[i..], s)
  }

  /** One step inside a record, by position; the raw text stays the slice it was. */
  lemma StepOn(text: string, start: nat, i: nat, s: Scan)
    requires start <= i < |text| && s.raw == text[start..i] && (s.quoted || BreakWidth(text[i..]) == 0)
    ensures var n := i + Taken(text[i..], s);
            ReadAt(text, i, s) == ReadAt(text, n, Next(text[i..], s)) && Next(text[i..], s).raw == text[start..n]
  {
    Sliced(text, start, i, Taken(text[i..], s));
  }

  lemma ReadBreak(rest: string, s: Scan)
    requires !s.quoted && BreakWidth(rest) > 0
    ensures Read(rest, s) == [Closed(s)] + Read(rest[BreakWidth(rest)..], Fresh(s.line + 1))
  {
  }

  /** One step at an unquoted line break. */
  lemma StepCut(text: string, i: nat, s: Scan)
    requires i < |text| && !s.quoted && BreakWidth(text[i..]) > 0
    ensures ReadAt(text, i, s) == [Closed(s)] + ReadAt(text, i + BreakWidth(text[i..]), Fresh(s.line + 1))
  {
    ReadBreak(text[i..], s);
    assert text[i..][BreakWidth(text[i..])..] == text[i + BreakWidth(text[i..])..];
  }

  predicate Char(text: string, i: nat, c: char) { i < |text| && text[i] == c }

  /** The records so far and what is left to read make up the whole. */
  predicate Reading(text: string, records: seq<Record>, i: nat, s: Scan)
    requires i <= |text|
  {
    records + ReadAt(text, i, s) == Records(text)
  }

  lemma InQuotes(records: seq<Record>, text: string, start: nat, i: nat, fields: seq<string>, field: string,
                 line: nat, startLine: nat)
    requires start <= i < |text| && Reading(text, records, i,
             Scan(fields, field, text[start..i], true, line, startLine))
    ensures if text[i] == '"' && Char(text, i + 1, '"') then
              Reading(text, records, i + 2, Scan(fields, field + "\"", text[start..i + 2], true, line, startLine))
            else if text[i] == '"' then
              Reading(text, records, i + 1, Scan(fields, field, text[start..i + 1], false, line, startLine))
            else if text[i] == '\n' || (text[i] == '\r' && !Char(text, i + 1, '\n')) then
              Reading(text, records, i + 1,
                  Scan(fields, field + [text[i]], text[start..i + 1], true, line + 1, startLine))
            else
              Reading(text, records, i + 1, Scan(fields, field + [text[i]], text[start..i + 1], true, line, startLine))
  {
    StepOn(text, start, i, Scan(fields, field, text[start..i], true, line, startLine));
    assert text[i..][..1] == [text[i]];
  }

  lemma OutsideQuotes(records: seq<Record>, text: string, start: nat, i: nat, fields: seq<string>, field: string,
                      line: nat, startLine: nat)
    requires start <= i < |text| && !Breaks(text[i])
             && Reading(text, records, i, Scan(fields, field, text[start..i], false, line, startLine))
    ensures if text[i] == '"' then
              Reading(text, records, i + 1, Scan(fields, field, text[start..i + 1], true, line, startLine))
            else if text[i] == ',' then
              Reading(text, records, i + 1, Scan(fields + [field], "", text[start..i + 1], false, line, startLine))
            else
              Reading(text, records, i + 1, Scan(fields, field + [text[i]], text[start..i + 1], false, line, startLine))
  {
    StepOn(text, start, i, Scan(fields, field, text[start..i], false, line, startLine));
    assert text[i..][..1] == [text[i]];
  }

  lemma AtBreak(records: seq<Record>, text: string, start: nat, i: nat, fields: seq<string>, field: string,
                line: nat, startLine: nat)
    requires start <= i < |text| && Breaks(text[i])
             && Reading(text, records, i, Scan(fields, field, text[start..i], false, line, startLine))
    ensures var n := i + if text[i] == '\r' && Char(text, i + 1, '\n') then 2 else 1;
            var r := Record(startLine, text[start..i], TrimAll(fields + [field]));
            Reading(text, records + [r], n, Scan([], "", text[n..n], false, line + 1, line + 1))
  {
    var s := Scan(fields, field, text[start..i], false, line, startLine);
    var n := i + if text[i] == '\r' && Char(text, i + 1, '\n') then 2 else 1;
    StepCut(text, i, s);
    assert text[n..n] == "";
    assert records + ([Closed(s)] + ReadAt(text, n, Fresh(line + 1))) == records + [Closed(s)]
        + ReadAt(text, n, Fresh(line + 1));
  }

  lemma AtEnd(records: seq<Record>, text: string, start: nat, fields: seq<string>, field: string, quoted: bool,
              line: nat, startLine: nat)
    requires start <= |text| && Reading(text, records, |text|,
             Scan(fields, field, text[start..|text|], quoted, line, startLine))
    ensures Records(text) == records + if start < |text|
            then [Record(startLine, text[start..], TrimAll(fields + [field]))] else []
  {
    assert text[|text|..] == "" && text[start..|text|] == text[start..];
  }

  method CsvRecords(text: string) returns (records: seq<Record>)
    ensures records == Records(text)
  {
    records := [];
    var fields: seq<string>, field, quoted := [], "", false;
    var line: nat, startLine: nat, start := 1, 1, 0;
    var i := 0;
    assert text[0..] == text && text[0..0] == "";
    while i < |text|
      invariant start <= i <= |text|
      invariant Reading(text, records, i, Scan(fields, field, text[start..i], quoted, line, startLine))
    {
      var ch := text[i];
      if quoted {
        InQuotes(records, text, start, i, fields, field, line, startLine);
        if ch == '"' && Char(text, i + 1, '"') {
          field := field + "\"";
          i := i + 1;
        } else if ch == '"' {
          quoted := false;
        } else {
          if ch == '\n' || (ch == '\r' && !Char(text, i + 1, '\n')) {
            line := line + 1;
          }
          field := field + [ch];
        }
      } else if ch == '"' {
        OutsideQuotes(records, text, start, i, fields, field, line, startLine);
        quoted := true;
      } else if ch == ',' {
        OutsideQuotes(records, text, start, i, fields, field, line, startLine);
        fields := fields + [field];
        field := "";
      } else if ch == '\r' || ch == '\n' {
        AtBreak(records, text, start, i, fields, field, line, startLine);
        records := records + [Record(startLine, text[start..i], TrimAll(fields + [field]))];
        fields, field := [], "";
        if ch == '\r' && Char(text, i + 1, '\n') {
          i := i + 1;
        }
        line := line + 1;
        startLine := line;
        start := i + 1;
      } else {
        OutsideQuotes(records, text, start, i, fields, field, line, startLine);
        field := field + [ch];
      }
      i := i + 1;
    }
    AtEnd(records, text, start, fields, field, quoted, line, startLine);
    if start < |text| {
      records := records + [Record(startLine, text[start..], TrimAll(fields + [field]))];
    }
  }

  // ----- every text is cut exactly at its unquoted line breaks --------------------------

  /** Inside quotes after this text: an odd number of double quotes. */
  predicate Open(text: string) {
    text != "" && (Open(text[..|text| - 1]) != (text[|text| - 1] == '"'))
  }

  /** Every line break in it is inside quotes. */
  predicate Whole(raw: string) {
    forall k | 0 <= k < |raw| && Breaks(raw[k]) :: Open(raw[..k])
  }

  /** The line breaks (CRLF, CR or LF) among the first n characters. */
  function LinesBefore(text: string, n: nat): nat
    requires n <= |text|
  {
    if n == 0 then 0 else LinesBefore(text, n - 1) + if EndsLine(text[n - 1..]) then 1 else 0
  }

  /**
   * The records' raw texts and one line break after each are exactly the text from
   * here on, cut at the unquoted breaks, each on the line it says.
   */
  predicate Tiles(text: string, from: nat, records: seq<Record>)
    requires from <= |text|
    decreases |records|
  {
    if records == [] then from == |text|
    else
      var r := records[0];
      var end := from + |r.raw|;
      && end <= |text|
      && r.raw == text[from..end]
      && r.line == 1 + LinesBefore(text, from)
      && Whole(r.raw)
      && if end == |text| then r.raw != "" && |records| == 1
         else !Open(r.raw) && BreakWidth(text[end..]) > 0 && Tiles(text, end + BreakWidth(text[end..]), records[1..])
  }

  lemma OpenAfter(raw: string, c: char)
    ensures Open(raw + [c]) == (Open(raw) != (c == '"'))
    ensures Whole(raw) && (Breaks(c) ==> Open(raw)) ==> Whole(raw + [c])
  {
    var more := raw + [c];
    assert more[..|more| - 1] == raw;
    if Whole(raw) && (Breaks(c) ==> Open(raw)) {
      forall k | 0 <= k < |more| && Breaks(more[k]) ensures Open(more[..k]) {
        assert more[..k] == raw[..k];
      }
    }
  }

  /** The scan at `i` of a record that began at `from`. */
  predicate At(text: string, from: nat, i: nat, s: Scan)
    requires from <= i <= |text|
  {
    && s.raw == text[from..i] && s.quoted == Open(s.raw) && Whole(s.raw)
    && s.line == 1 + LinesBefore(text, i) && s.startLine == 1 + LinesBefore(text, from)
  }

  lemma LineAfter(text: string, i: nat)
    requires i < |text|
    ensures LinesBefore(text, i + 1) == LinesBefore(text, i) + if EndsLine(text[i..]) then 1 else 0
  {
  }

  lemma DoubledQuote(raw: string)
    requires Whole(raw)
    ensures Open(raw + "\"\"") == Open(raw) && Whole(raw + "\"\"")
  {
    OpenAfter(raw, '"');
    OpenAfter(raw + ['"'], '"');
    assert raw + ['"'] + ['"'] == raw + "\"\"";
  }

  lemma NextAt(text: string, from: nat, i: nat, s: Scan)
    requires from <= i < |text| && At(text, from, i, s) && (s.quoted || BreakWidth(text[i..]) == 0)
    ensures At(text, from, i + Taken(text[i..], s), Next(text[i..], s))
  {
    StepOn(text, from, i, s);
    LineAfter(text, i);
    if Taken(text[i..], s) == 2 {
      NextDoubledAt(text, from, i, s);
    } else {
      assert text[i..][..1] == [text[i]];
      OpenAfter(s.raw, text[i]);
    }
  }

  lemma NextDoubledAt(text: string, from: nat, i: nat, s: Scan)
    requires from <= i < |text| && At(text, from, i, s) && Taken(text[i..], s) == 2
    ensures At(text, from, i + 2, Next(text[i..], s))
  {
    StepOn(text, from, i, s);
    LineAfter(text, i);
    LineAfter(text, i + 1);
    assert text[i..][..2] == "\"\"" && text[i..][1..] == text[i + 1..];
    DoubledQuote(s.raw);
  }

  lemma LinesAfterBreak(text: string, i: nat)
    requires i < |text| && BreakWidth(text[i..]) > 0
    ensures LinesBefore(text, i + BreakWidth(text[i..])) == LinesBefore(text, i) + 1
  {
    assert text[i..][1..] == text[i + 1..];
    assert LinesBefore(text, i + 1) == LinesBefore(text, i) + if EndsLine(text[i..]) then 1 else 0;
  }

  lemma CutTiles(text: string, from: nat, i: nat, s: Scan, tail: seq<Record>)
    requires from <= i < |text| && At(text, from, i, s) && !s.quoted && BreakWidth(text[i..]) > 0
    requires Tiles(text, i + BreakWidth(text[i..]), tail)
    ensures Tiles(text, from, [Closed(s)] + tail)
  {
    assert ([Closed(s)] + tail)[1..] == tail;
  }

  lemma FreshAt(text: string, i: nat, s: Scan)
    requires i < |text| && s.line == 1 + LinesBefore(text, i) && BreakWidth(text[i..]) > 0
    ensures var next := i + BreakWidth(text[i..]); At(text, next, next, Fresh(s.line + 1))
  {
    LinesAfterBreak(text, i);
  }

  lemma EndTiles(text: string, from: nat, s: Scan)
    requires from <= |text| && At(text, from, |text|, s)
    ensures Tiles(text, from, ReadAt(text, |text|, s))
  {
    assert text[from..] == s.raw;
  }

  lemma CutHere(text: string, from: nat, i: nat, s: Scan)
    requires from <= i < |text| && At(text, from, i, s) && !s.quoted && BreakWidth(text[i..]) > 0
    requires var next := i + BreakWidth(text[i..]); Tiles(text, next, ReadAt(text, next, Fresh(s.line + 1)))
    ensures Tiles(text, from, ReadAt(text, i, s))
  {
    CutTiles(text, from, i, s, ReadAt(text, i + BreakWidth(text[i..]), Fresh(s.line + 1)));
    StepCut(text, i, s);
  }

  /** The scan from here on reads what the text is cut into. */
  predicate TilesOn(text: string, from: nat, i: nat, s: Scan) {
    from <= i <= |text| && Tiles(text, from, ReadAt(text, i, s))
  }

  predicate AtPlace(text: string, from: nat, i: nat, s: Scan) { from <= i <= |text| && At(text, from, i, s) }

  lemma {:induction false} CutTilesOn(text: string, from: nat, i: nat, s: Scan)
    requires AtPlace(text, from, i, s) && i < |text| && !s.quoted && BreakWidth(text[i..]) > 0
    ensures TilesOn(text, from, i, s)
    decreases |text| - i, 0
  {
    FreshAt(text, i, s);
    ReadTiles(text, i + BreakWidth(text[i..]), i + BreakWidth(text[i..]), Fresh(s.line + 1));
    CutHere(text, from, i, s);
  }

  lemma {:induction false} StepTilesOn(text: string, from: nat, i: nat, s: Scan)
    requires AtPlace(text, from, i, s) && i < |text| && (s.quoted || BreakWidth(text[i..]) == 0)
    ensures TilesOn(text, from, i, s)
    decreases |text| - i, 0
  {
    NextAt(text, from, i, s);
    ReadTiles(text, from, i + Taken(text[i..], s), Next(text[i..], s));
    StepOn(text, from, i, s);
  }

  lemma {:induction false} ReadTiles(text: string, from: nat, i: nat, s: Scan)
    requires AtPlace(text, from, i, s)
    ensures TilesOn(text, from, i, s)
    decreases |text| - i, 1
  {
    if i == |text| {
      EndTiles(text, from, s);
    } else if !s.quoted && BreakWidth(text[i..]) > 0 {
      CutTilesOn(text, from, i, s);
    } else {
      StepTilesOn(text, from, i, s);
    }
  }

  /**
   * For every text at all: the raw texts and the breaks between them are the text,
   * and every line number counts the breaks before it.
   */
  lemma RecordsTile(text: string)
    ensures IsCut(text, 0, Records(text))
  {
    ReadTiles(text, 0, 0, Fresh(1));
    assert text[0..] == text;
  }

  /** The same raw texts on the same lines. */
  predicate SameCut(a: seq<Record>, b: seq<Record>) {
    |a| == |b| && forall k | 0 <= k < |a| :: a[k].raw == b[k].raw && a[k].line == b[k].line
  }

  lemma SameCutFirst(a: seq<Record>, b: seq<Record>)
    requires a != [] && b != [] && a[0].raw == b[0].raw && a[0].line == b[0].line && SameCut(a[1..], b[1..])
    ensures SameCut(a, b)
  {
    forall k | 0 <= k < |a| ensures a[k].raw == b[k].raw && a[k].line == b[k].line {
      if k > 0 {
        assert a[1..][k - 1] == a[k] && b[1..][k - 1] == b[k];
      }
    }
  }

  /** A cut of the text from here on. */
  predicate IsCut(text: string, from: nat, records: seq<Record>) { from <= |text| && Tiles(text, from, records) }

  /** Where the record after this one begins. */
  function NextStart(text: string, end: nat): nat
    requires end <= |text|
  {
    end + BreakWidth(text[end..])
  }

  lemma RestIsCut(text: string, from: nat, a: seq<Record>)
    requires a != [] && IsCut(text, from, a)
    ensures from + |a[0].raw| <= |text| && a[0].line == 1 + LinesBefore(text, from)
    ensures IsCut(text, NextStart(text, from + |a[0].raw|), a[1..])
  {
  }

  /** A cut is empty exactly at the end of the text. */
  lemma EmptyAtEnd(text: string, from: nat, a: seq<Record>)
    requires IsCut(text, from, a)
    ensures a == [] <==> from == |text|
  {
  }

  /** And there is only one such cut, so the raw texts and lines are settled by it. */
  lemma {:induction false} OneTiling(text: string, from: nat, a: seq<Record>, b: seq<Record>)
    requires IsCut(text, from, a) && IsCut(text, from, b)
    ensures SameCut(a, b)
    decreases |a|
  {
    EmptyAtEnd(text, from, a);
    EmptyAtEnd(text, from, b);
    if a != [] {
      SameFirst(text, from, a, b);
      RestIsCut(text, from, a);
      RestIsCut(text, from, b);
      OneTiling(text, NextStart(text, from + |a[0].raw|), a[1..], b[1..]);
      SameCutFirst(a, b);
    }
  }

  lemma SameFirst(text: string, from: nat, a: seq<Record>, b: seq<Record>)
    requires a != [] && b != [] && IsCut(text, from, a) && IsCut(text, from, b)
    ensures a[0].raw == b[0].raw
  {
    NotLonger(text, from, a, b);
    NotLonger(text, from, b, a);
  }

  lemma Within(text: string, from: nat, m: nat, n: nat)
    requires from + m <= |text|
    ensures n < m ==> text[from..from + m][..n] == text[from..from + n]
    ensures n < m ==> text[from..from + m][n] == text[from + n..][0]
  {
  }

  lemma WholeAt(raw: string, n: nat)
    requires Whole(raw)
    ensures n < |raw| && Breaks(raw[n]) ==> Open(raw[..n])
  {
  }

  /** No whole text runs past an unquoted break. */
  lemma StopsAtBreak(text: string, from: nat, n: nat, raw: string)
    requires from + n < |text| && BreakWidth(text[from + n..]) > 0 && !Open(text[from..from + n])
    requires from + |raw| <= |text| && raw == text[from..from + |raw|] && Whole(raw)
    ensures |raw| <= n
  {
    Within(text, from, |raw|, n);
    WholeAt(raw, n);
  }

  lemma NotLonger(text: string, from: nat, a: seq<Record>, b: seq<Record>)
    requires a != [] && b != [] && IsCut(text, from, a) && IsCut(text, from, b)
    ensures |a[0].raw| >= |b[0].raw|
  {
    if from + |a[0].raw| < |text| {
      StopsAtBreak(text, from, |a[0].raw|, b[0].raw);
    }
  }

  // ----- the printer: section 2 of RFC 4180 -----------------------------------------------

  /** One field, and whether it is printed in quotes. */
  datatype Cell = Cell(text: string, quoted: bool)

  predicate Special(c: char) { c == ',' || c == '"' || Breaks(c) }

  /** A field holding a comma, a double quote or a line break has to be quoted; any other may be. */
  predicate Printable(c: Cell) { c.quoted || forall k | 0 <= k < |c.text| :: !Special(c.text[k]) }

  function Escaped(f: string): string {
    if f == "" then "" else (if f[0] == '"' then "\"\"" else [f[0]]) + Escaped(f[1..])
  }

  function PrintCell(c: Cell): string { if c.quoted then "\"" + Escaped(c.text) + "\"" else c.text }

  function PrintRow(row: seq<Cell>): string {
    if row == [] then "" else if |row| == 1 then PrintCell(row[0]) else PrintCell(row[0]) + "," + PrintRow(row[1..])
  }

  predicate PrintableRow(row: seq<Cell>) { row != [] && forall k | 0 <= k < |row| :: Printable(row[k]) }

  /** The rows with a line break between them, and one after the last or not. */
  function PrintRows(rows: seq<seq<Cell>>, eol: string, lastBreak: bool): string {
    if rows == [] then ""
    else PrintRow(rows[0]) + (if |rows| > 1 || lastBreak then eol else "") + PrintRows(rows[1..], eol, lastBreak)
  }

  predicate Eol(s: string) { s == "\r\n" || s == "\n" || s == "\r" }

  function Texts(row: seq<Cell>): seq<string> { seq(|row|, i requires 0 <= i < |row| => row[i].text) }

  lemma {:induction false} ReadPlain(f: string, rest: string, s: Scan)
    requires !s.quoted && forall k | 0 <= k < |f| :: !Special(f[k])
    ensures Read(f + rest, s) == Read(rest, s.(field := s.field + f, raw := s.raw + f))
    decreases |f|
  {
    if f == "" {
      assert f + rest == rest && s.field + f == s.field && s.raw + f == s.raw;
    } else {
      var all := f + rest;
      assert all[0] == f[0] && all[..1] == f[..1] && all[1..] == f[1..] + rest;
      ReadPlain(f[1..], rest, s.(field := s.field + f[..1], raw := s.raw + f[..1]));
      assert s.field + f[..1] + f[1..] == s.field + f && s.raw + f[..1] + f[1..] == s.raw + f;
    }
  }

  /** One piece read after another. */
  lemma ReadsOn(a: string, b: string, rest: string, s: Scan, t: Scan, u: Scan)
    requires Read(a + (b + rest), s) == Read(b + rest, t) && Read(b + rest, t) == Read(rest, u)
    ensures Read((a + b) + rest, s) == Read(rest, u)
  {
    assert (a + b) + rest == a + (b + rest);
  }

  /** A quoted field's text read so far, and its raw text. */
  function InField(s: Scan, field: string, raw: string, line: nat): Scan {
    s.(field := s.field + field, raw := s.raw + raw, line := line)
  }

  lemma InFieldJoins(s: Scan, field: string, raw: string, line: nat, field': string, raw': string, line': nat)
    ensures InField(InField(s, field, raw, line), field', raw', line') == InField(s, field + field', raw + raw', line')
  {
    assert s.field + field + field' == s.field + (field + field') && s.raw + raw + raw' == s.raw + (raw + raw');
  }

  /** One character of a quoted field, as the printer writes it. */
  lemma ReadOneEscaped(c: char, rest: string, s: Scan) returns (line: nat)
    requires s.quoted
    ensures Read(Escaped([c]) + rest, s) == Read(rest, InField(s, [c], Escaped([c]), line))
  {
    var one := Escaped([c]);
    var all := one + rest;
    assert [c][1..] == "" && Escaped("") == "";
    if c == '"' {
      assert one == "\"\"";
    } else {
      assert one == [c];
    }
    assert all[..|one|] == one && all[|one|..] == rest && all[..1] == [c];
    assert Taken(all, s) == |one|;
    line := Next(all, s).line;
  }

  lemma EscapedSplits(f: string)
    requires f != ""
    ensures Escaped(f) == Escaped([f[0]]) + Escaped(f[1..])
  {
    EscapedOne(f[0]);
  }

  lemma EscapedOne(c: char)
    ensures Escaped([c]) == if c == '"' then "\"\"" else [c]
  {
    assert [c][1..] == "";
  }

  lemma {:induction false} ReadEscaped(f: string, rest: string, s: Scan) returns (line: nat)
    requires s.quoted
    ensures Read(Escaped(f) + rest, s) == Read(rest, InField(s, f, Escaped(f), line))
    decreases |f|
  {
    line := s.line;
    if f == "" {
      assert Escaped(f) + rest == rest && s.field + f == s.field && s.raw + Escaped(f) == s.raw;
    } else {
      var one, more := Escaped([f[0]]), Escaped(f[1..]);
      EscapedSplits(f);
      var first := ReadOneEscaped(f[0], more + rest, s);
      var t := InField(s, [f[0]], one, first);
      line := ReadEscaped(f[1..], rest, t);
      ReadsOn(one, more, rest, s, t, InField(t, f[1..], more, line));
      InFieldJoins(s, [f[0]], one, first, f[1..], more, line);
      assert [f[0]] + f[1..] == f;
    }
  }

  lemma ReadQuote(rest: string, s: Scan)
    requires s.quoted ==> !Begins(rest, '"')
    ensures Read("\"" + rest, s) == Read(rest, s.(quoted := !s.quoted, raw := s.raw + "\""))
  {
    var all := "\"" + rest;
    assert all[..1] == "\"" && all[1..] == rest;
  }

  lemma ReadQuoted(text: string, rest: string, s: Scan) returns (line: nat)
    requires !s.quoted && s.field == "" && !Begins(rest, '"')
    ensures Read("\"" + (Escaped(text) + ("\"" + rest)), s)
            == Read(rest, s.(field := text, raw := s.raw + "\"" + Escaped(text) + "\"", line := line))
  {
    ReadQuote(Escaped(text) + ("\"" + rest), s);
    var t := s.(quoted := true, raw := s.raw + "\"");
    line := ReadEscaped(text, "\"" + rest, t);
    assert t.field + text == text;
    ReadQuote(rest, InField(t, text, Escaped(text), line));
  }

  lemma ReadCell(c: Cell, rest: string, s: Scan) returns (line: nat)
    requires Printable(c) && !s.quoted && s.field == "" && !Begins(rest, '"')
    ensures Read(PrintCell(c) + rest, s) == Read(rest, s.(field := c.text, raw := s.raw + PrintCell(c), line := line))
  {
    line := s.line;
    if c.quoted {
      assert PrintCell(c) + rest == "\"" + (Escaped(c.text) + ("\"" + rest));
      line := ReadQuoted(c.text, rest, s);
      assert s.raw + "\"" + Escaped(c.text) + "\"" == s.raw + PrintCell(c);
    } else {
      ReadPlain(c.text, rest, s);
      assert s.field + c.text == c.text;
    }
  }

  lemma ReadComma(rest: string, s: Scan)
    requires !s.quoted
    ensures Read("," + rest, s) == Read(rest, s.(fields := s.fields + [s.field], field := "", raw := s.raw + ","))
  {
    var all := "," + rest;
    assert all[..1] == "," && all[1..] == rest;
  }

  /** The fields a row leaves behind it, and the one being read at its end. */
  function AfterRow(row: seq<Cell>, s: Scan, line: nat): Scan
    requires row != []
  {
    s.(fields := s.fields + Texts(row[..|row| - 1]), field := row[|row| - 1].text, raw := s.raw + PrintRow(row),
        line := line)
  }

  lemma AfterFirstCell(row: seq<Cell>, s: Scan, t: Scan, line: nat)
    requires |row| > 1 && t == s.(fields := s.fields + [row[0].text], field := "", raw := s.raw + PrintCell(row[0])
             + ",", line := t.line)
    ensures AfterRow(row[1..], t, line) == AfterRow(row, s, line)
  {
    var n := |row| - 1;
    assert row[1..][n - 1] == row[n];
    assert s.fields + [row[0].text] + Texts(row[1..][..n - 1]) == s.fields + Texts(row[..n]);
    assert s.raw + PrintCell(row[0]) + "," + PrintRow(row[1..]) == s.raw + PrintRow(row);
  }

  lemma ReadFirstCell(row: seq<Cell>, rest: string, s: Scan) returns (t: Scan)
    requires PrintableRow(row) && |row| > 1 && !s.quoted && s.field == ""
    ensures Read(PrintRow(row) + rest, s) == Read(PrintRow(row[1..]) + rest, t)
    ensures t == s.(fields := s.fields + [row[0].text], field := "", raw := s.raw + PrintCell(row[0]) + ",",
            line := t.line)
  {
    var tail := PrintRow(row[1..]) + rest;
    assert PrintRow(row) + rest == PrintCell(row[0]) + ("," + tail);
    var line := ReadCell(row[0], "," + tail, s);
    t := s.(field := row[0].text, raw := s.raw + PrintCell(row[0]), line := line);
    ReadComma(tail, t);
    t := t.(fields := s.fields + [row[0].text], field := "", raw := s.raw + PrintCell(row[0]) + ",");
  }

  lemma {:induction false} ReadRow(row: seq<Cell>, rest: string, s: Scan) returns (line: nat)
    requires PrintableRow(row) && !s.quoted && s.field == "" && !Begins(rest, '"')
    ensures Read(PrintRow(row) + rest, s) == Read(rest, AfterRow(row, s, line))
    decreases |row|
  {
    if |row| == 1 {
      line := ReadCell(row[0], rest, s);
      assert s.fields + Texts(row[..0]) == s.fields;
    } else {
      var t := ReadFirstCell(row, rest, s);
      line := ReadRow(row[1..], rest, t);
      AfterFirstCell(row, s, t, line);
    }
  }

  /** One record for each row: its text, and its fields trimmed. */
  predicate Undone(records: seq<Record>, rows: seq<seq<Cell>>) {
    && |records| == |rows|
    && forall k | 0 <= k < |rows| :: records[k].raw == PrintRow(rows[k]) && records[k].fields == TrimAll(Texts(rows[k]))
  }

  /** A whole row, from the start of a record to its break or the end of the text. */
  lemma ReadRecord(row: seq<Cell>, after: string, line: nat) returns (s: Scan)
    requires PrintableRow(row) && !Begins(after, '"')
    ensures Read(PrintRow(row) + after, Fresh(line)) == Read(after, s) && !s.quoted
    ensures Closed(s).raw == s.raw == PrintRow(row) && Closed(s).fields == TrimAll(Texts(row))
  {
    var l := ReadRow(row, after, Fresh(line));
    s := AfterRow(row, Fresh(line), l);
    assert s.raw == PrintRow(row);
    assert s.fields + [s.field] == Texts(row);
  }

  lemma {:induction false} ReadRows(rows: seq<seq<Cell>>, eol: string, lastBreak: bool, line: nat)
    requires Eol(eol) && forall k | 0 <= k < |rows| :: PrintableRow(rows[k])
    requires rows != [] && !lastBreak ==> PrintRow(rows[|rows| - 1]) != ""
    ensures Undone(Read(PrintRows(rows, eol, lastBreak), Fresh(line)), rows)
    decreases |rows|
  {
    if rows != [] {
      var rest := PrintRows(rows[1..], eol, lastBreak);
      var text := PrintRows(rows, eol, lastBreak);
      if |rows| > 1 || lastBreak {
        assert text == PrintRow(rows[0]) + (eol + rest);
        BreakTaken(rows[1..], eol, lastBreak);
        var s := ReadRecord(rows[0], eol + rest, line);
        assert (eol + rest)[|eol|..] == rest;
        ReadRows(rows[1..], eol, lastBreak, s.line + 1);
        var tail := Read(rest, Fresh(s.line + 1));
        assert Read(text, Fresh(line)) == [Closed(s)] + tail;
        UndoneFirst(Closed(s), tail, rows);
      } else {
        LastRow(rows, eol, line);
      }
    }
  }

  /** The last row, with no break after it. */
  lemma LastRow(rows: seq<seq<Cell>>, eol: string, line: nat)
    requires |rows| == 1 && PrintableRow(rows[0]) && PrintRow(rows[0]) != ""
    ensures Undone(Read(PrintRows(rows, eol, false), Fresh(line)), rows)
  {
    assert rows[1..] == [] && PrintRows(rows, eol, false) == PrintRow(rows[0]) + "";
    var s := ReadRecord(rows[0], "", line);
  }

  lemma UndoneFirst(first: Record, tail: seq<Record>, rows: seq<seq<Cell>>)
    requires rows != [] && first.raw == PrintRow(rows[0]) && first.fields == TrimAll(Texts(rows[0]))
             && Undone(tail, rows[1..])
    ensures Undone([first] + tail, rows)
  {
    var all := [first] + tail;
    forall k | 0 <= k < |rows| ensures all[k].raw == PrintRow(rows[k]) && all[k].fields == TrimAll(Texts(rows[k])) {
      if k > 0 {
        assert rows[1..][k - 1] == rows[k];
      }
    }
  }

  /** A break in front of printed rows is read as one break: after a lone CR, no row text begins with LF. */
  lemma BreakTaken(rows: seq<seq<Cell>>, eol: string, lastBreak: bool)
    requires Eol(eol) && forall k | 0 <= k < |rows| :: PrintableRow(rows[k])
    ensures var all := eol + PrintRows(rows, eol, lastBreak);
            BreakWidth(all) == |eol| && !Begins(all, '"') && !Begins(all, ',')
  {
    var rest := PrintRows(rows, eol, lastBreak);
    assert (eol + rest)[1..] == eol[1..] + rest;
    if eol == "\r" { RowsStart(rows, lastBreak); }
  }

  lemma RowsStart(rows: seq<seq<Cell>>, lastBreak: bool)
    requires forall k | 0 <= k < |rows| :: PrintableRow(rows[k])
    ensures !Begins(PrintRows(rows, "\r", lastBreak), '\n')
  {
    if rows != [] && PrintRow(rows[0]) != "" {
      RowStart(rows[0]);
      assert PrintRows(rows, "\r", lastBreak)[0] == PrintRow(rows[0])[0];
    }
  }

  lemma RowStart(row: seq<Cell>)
    requires PrintableRow(row)
    ensures !Begins(PrintRow(row), '\n')
  {
    var first := PrintCell(row[0]);
    if first != "" {
      assert Printable(row[0]);
      assert PrintRow(row)[0] == first[0];
    }
  }

  /**
   * The reader undoes the printer, up to trimming: any rows, any choice of
   * quoting, any one kind of line break, the last break or none (without it the
   * last row must print as something).
   */
  lemma RoundTrip(rows: seq<seq<Cell>>, eol: string, lastBreak: bool)
    requires Eol(eol) && forall k | 0 <= k < |rows| :: PrintableRow(rows[k])
    requires rows != [] && !lastBreak ==> PrintRow(rows[|rows| - 1]) != ""
    ensures Undone(Records(PrintRows(rows, eol, lastBreak)), rows)
  {
    ReadRows(rows, eol, lastBreak, 1);
  }

  predicate TightRow(row: seq<Cell>) { forall k | 0 <= k < |row| :: Tight(row[k].text) }

  /** So fields with nothing to trim come back exactly. */
  lemma TightFieldsComeBack(rows: seq<seq<Cell>>, eol: string, lastBreak: bool)
    requires Eol(eol) && forall k | 0 <= k < |rows| :: PrintableRow(rows[k]) && TightRow(rows[k])
    requires rows != [] && !lastBreak ==> PrintRow(rows[|rows| - 1]) != ""
    ensures var records := Records(PrintRows(rows, eol, lastBreak));
            |records| == |rows| && forall k | 0 <= k < |rows| :: records[k].fields == Texts(rows[k])
  {
    RoundTrip(rows, eol, lastBreak);
    forall k | 0 <= k < |rows| ensures TrimAll(Texts(rows[k])) == Texts(rows[k]) {
      assert PrintableRow(rows[k]) && TightRow(rows[k]);
    }
  }

  /** A row prints as nothing exactly when it is one empty field without quotes. */
  lemma PrintsNothing(row: seq<Cell>)
    requires PrintableRow(row)
    ensures PrintRow(row) == "" <==> row == [Cell("", false)]
  {
    if |row| == 1 { assert row == [row[0]]; }
  }

  /** Such a last row, without a break after it, leaves no trace in the text. */
  lemma {:induction false} PrintsLikeTheOthers(rows: seq<seq<Cell>>, eol: string)
    requires rows != [] && PrintRow(rows[|rows| - 1]) == ""
    ensures PrintRows(rows, eol, false) == PrintRows(rows[..|rows| - 1], eol, true)
    decreases |rows|
  {
    if |rows| == 1 {
      assert rows[1..] == [] && rows[..0] == [];
    } else {
      PrintsLikeTheOthers(rows[1..], eol);
      assert rows[1..][..|rows| - 2] == rows[..|rows| - 1][1..];
    }
  }

  /** So it is lost, and the rows before it come back. */
  lemma EmptyLastRowIsLost(rows: seq<seq<Cell>>, eol: string)
    requires Eol(eol) && rows != [] && forall k | 0 <= k < |rows| :: PrintableRow(rows[k])
    requires rows[|rows| - 1] == [Cell("", false)]
    ensures Undone(Records(PrintRows(rows, eol, false)), rows[..|rows| - 1])
  {
    PrintsNothing(rows[|rows| - 1]);
    PrintsLikeTheOthers(rows, eol);
    RoundTrip(rows[..|rows| - 1], eol, true);
  }

  /**
   * Exactly when the reader undoes the printer: unless the last row is one empty
   * field, without quotes or a break after it.
   */
  lemma RoundTripIff(rows: seq<seq<Cell>>, eol: string, lastBreak: bool)
    requires Eol(eol) && forall k | 0 <= k < |rows| :: PrintableRow(rows[k])
    ensures Undone(Records(PrintRows(rows, eol, lastBreak)), rows)
            <==> rows == [] || lastBreak || rows[|rows| - 1] != [Cell("", false)]
  {
    if rows != [] { PrintsNothing(rows[|rows| - 1]); }
    if rows == [] || lastBreak || rows[|rows| - 1] != [Cell("", false)] {
      RoundTrip(rows, eol, lastBreak);
    } else {
      EmptyLastRowIsLost(rows, eol);
    }
  }
}
