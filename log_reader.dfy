/**
 * The analytics log as a text file of JSON lines: the writer's format, the
 * line pipeline the readers share (`trim`, `split('\n')`, `JSON.parse` per
 * line, `filter(Boolean)`), and `GET /api/raw-logs`.
 *
 * `JSON.parse` and `JSON.stringify` are parameters: the model assumes of them
 * only what a lemma states in its requires.
 */
module LogReader {
  import opened Wrappers
  import opened JsText
  import opened JsonValue
  import opened Http

  // ---------------------------------------------------------------------
  // Writing

  /** The file text after appending one `JSON.stringify(entry) + '\n'` per entry, in order. */
  function LogText(entries: seq<Json>, stringify: Json -> string): string {
    if entries == [] then "" else stringify(entries[0]) + "\n" + LogText(entries[1..], stringify)
  }

  /** The serialised entries, one per line. */
  function Serialised(entries: seq<Json>, stringify: Json -> string): (r: seq<string>)
    ensures |r| == |entries|
    ensures forall i :: 0 <= i < |entries| ==> r[i] == stringify(entries[i])
  {
    if entries == [] then [] else [stringify(entries[0])] + Serialised(entries[1..], stringify)
  }

  /**
   * What the model assumes of the JSON codec for one logged entry: its text is
   * one line with no surrounding whitespace, and parsing it gives the entry back.
   */
  predicate WritesOneLine(entry: Json, stringify: Json -> string, parse: string -> ParseResult) {
    var line := stringify(entry);
    Unpadded(line) && '\n' !in line && parse(line) == Parsed(entry)
  }

  // ---------------------------------------------------------------------
  // Reading

  /** `content.trim().split('\n')`. */
  function LogLines(content: string): (r: seq<string>)
    ensures |r| >= 1
  {
    Split(Trim(content), '\n')
  }

  /** The value one line contributes after `filter(Boolean)`: nothing for a parse failure or a falsy value. */
  function KeptValue(p: ParseResult): seq<Json> {
    if p.Parsed? && Truthy(p.value) then [p.value] else []
  }

  /** `lines.map(JSON.parse, null on failure).filter(Boolean)`. */
  function ParseEntries(lines: seq<string>, parse: string -> ParseResult): (r: seq<Json>)
    ensures |r| <= |lines|
    ensures forall i :: 0 <= i < |r| ==> Truthy(r[i])
  {
    if lines == [] then [] else KeptValue(parse(lines[0])) + ParseEntries(lines[1..], parse)
  }

  /** Each line is parsed on its own: the entries of two runs of lines are the entries of each, in file order. */
  lemma {:induction false} ParseEntriesAppend(a: seq<string>, b: seq<string>, parse: string -> ParseResult)
    ensures ParseEntries(a + b, parse) == ParseEntries(a, parse) + ParseEntries(b, parse)
  {
    if a == [] {
      assert a + b == b;
    } else {
      assert (a + b)[1..] == a[1..] + b;
      ParseEntriesAppend(a[1..], b, parse);
    }
  }

  /** A line that fails to parse, or parses to a falsy value, is dropped without any other effect. */
  lemma {:induction false} DropsBadLine(a: seq<string>, line: string, b: seq<string>, parse: string -> ParseResult)
    requires !(parse(line).Parsed? && Truthy(parse(line).value))
    ensures ParseEntries(a + [line] + b, parse) == ParseEntries(a + b, parse)
  {
    ParseEntriesAppend(a + [line], b, parse);
    ParseEntriesAppend(a, [line], parse);
    ParseEntriesAppend(a, b, parse);
    assert ParseEntries([line], parse) == [];
  }

  /** When every line parses to a truthy value, the entries are those values, in line order. */
  lemma {:induction false} ParseEntriesAllKept(lines: seq<string>, values: seq<Json>, parse: string -> ParseResult)
    requires |lines| == |values|
    requires forall i :: 0 <= i < |lines| ==> parse(lines[i]) == Parsed(values[i]) && Truthy(values[i])
    ensures ParseEntries(lines, parse) == values
  {
    if lines != [] {
      ParseEntriesAllKept(lines[1..], values[1..], parse);
      assert [values[0]] + values[1..] == values;
    }
  }

  /** The entries of a whole file. */
  function ReadEntries(content: string, parse: string -> ParseResult): (r: seq<Json>)
    ensures |r| <= |LogLines(content)|
    ensures forall i :: 0 <= i < |r| ==> Truthy(r[i])
  {
    ParseEntries(LogLines(content), parse)
  }

  /**
   * `GET /api/raw-logs`: blank or missing file gives `[]`, any other read error
   * 500 with details, and otherwise the parsed entries in file order.
   */
  function RawLogsGet(file: FileRead, parse: string -> ParseResult): (r: Response)
    ensures r.status == 200 <==> !(file.FileError? && !IsNotFound(file.error))
    ensures r.status == 200 ==> r.body.JArray?
    ensures file.FileText? ==> r.body == JArray(if IsBlank(file.text) then [] else ReadEntries(file.text, parse))
    ensures file.FileError? && IsNotFound(file.error) ==> r.body == JArray([])
    ensures file.FileError? && !IsNotFound(file.error) ==> r == InternalError(file.error)
  {
    match file
    case FileText(content) =>
      if Trim(content) == "" then Response(200, JArray([]))
      else Response(200, JArray(ParseEntries(Split(Trim(content), '\n'), parse)))
    case FileError(e) =>
      if IsNotFound(e) then Response(200, JArray([])) else InternalError(e)
  }

  /** The log entries `chat-query` reads: any read error, `ENOENT` or not, leaves the list empty. */
  function ChatLogEntries(file: FileRead, parse: string -> ParseResult): (r: seq<Json>)
    ensures file.FileText? ==> r == ReadEntries(file.text, parse)
    ensures file.FileError? ==> r == []
  {
    match file
    case FileText(content) => ParseEntries(Split(Trim(content), '\n'), parse)
    case FileError(_) => []
  }

  /**
   * The two readers agree on every readable file, given that `JSON.parse('')`
   * throws (so the blank-file short cut of raw-logs changes nothing), and on a
   * missing file.
   */
  lemma {:induction false} ReadersAgree(file: FileRead, parse: string -> ParseResult)
    requires parse("").SyntaxError?
    requires file.FileText? || IsNotFound(file.error)
    ensures RawLogsGet(file, parse) == Response(200, JArray(ChatLogEntries(file, parse)))
  {
    if file.FileText? && IsBlank(file.text) {
      assert Trim(file.text) == "";
      assert LogLines(file.text) == [""];
    }
  }

  // ---------------------------------------------------------------------
  // Writer/reader round trip

  lemma {:induction false} JoinEnds(parts: seq<string>, sep: char)
    requires |parts| >= 1 && forall i :: 0 <= i < |parts| ==> parts[i] != []
    ensures |Join(parts, sep)| >= 1
    ensures Join(parts, sep)[0] == parts[0][0]
    ensures Join(parts, sep)[|Join(parts, sep)| - 1] == parts[|parts| - 1][|parts[|parts| - 1]| - 1]
  {
    if |parts| > 1 {
      JoinEnds(parts[1..], sep);
    }
  }

  lemma {:induction false} LogTextIsJoin(entries: seq<Json>, stringify: Json -> string)
    requires entries != []
    ensures LogText(entries, stringify) == Join(Serialised(entries, stringify), '\n') + "\n"
  {
    var lines := Serialised(entries, stringify);
    if |entries| > 1 {
      LogTextIsJoin(entries[1..], stringify);
      assert lines[1..] == Serialised(entries[1..], stringify);
    }
  }

  /** The serialised entries hold no line break, and joined they start and end with a non-blank character. */
  lemma {:induction false} SerialisedJoin(entries: seq<Json>, stringify: Json -> string, parse: string -> ParseResult)
    requires entries != []
    requires forall i :: 0 <= i < |entries| ==> WritesOneLine(entries[i], stringify, parse)
    ensures forall i :: 0 <= i < |entries| ==> '\n' !in Serialised(entries, stringify)[i]
    ensures Unpadded(Join(Serialised(entries, stringify), '\n'))
  {
    JoinEnds(Serialised(entries, stringify), '\n');
  }

  /** The lines of a log built only by appends are the serialised entries. */
  lemma {:induction false} LinesOfLogText(entries: seq<Json>, stringify: Json -> string, parse: string -> ParseResult)
    requires entries != []
    requires forall i :: 0 <= i < |entries| ==> WritesOneLine(entries[i], stringify, parse)
    ensures !IsBlank(LogText(entries, stringify))
    ensures LogLines(LogText(entries, stringify)) == Serialised(entries, stringify)
  {
    var lines := Serialised(entries, stringify);
    LogTextIsJoin(entries, stringify);
    SerialisedJoin(entries, stringify, parse);
    TrimLine(Join(lines, '\n'));
    SplitJoin(lines, '\n');
  }

  lemma {:induction false} RawLogsOfReadable(content: string, parse: string -> ParseResult)
    requires !IsBlank(content)
    ensures RawLogsGet(FileText(content), parse) == Response(200, JArray(ReadEntries(content, parse)))
  {
  }

  /**
   * Reading back a log built only by appends returns the appended entries in
   * append order, from both readers.
   */
  lemma {:induction false} ReadBackAppended(entries: seq<Json>, stringify: Json -> string, parse: string -> ParseResult)
    requires forall i :: 0 <= i < |entries| ==> WritesOneLine(entries[i], stringify, parse) && Truthy(entries[i])
    ensures RawLogsGet(FileText(LogText(entries, stringify)), parse) == Response(200, JArray(entries))
    ensures entries != [] ==> ChatLogEntries(FileText(LogText(entries, stringify)), parse) == entries
  {
    var text := LogText(entries, stringify);
    if entries == [] {
      assert Trim(text) == "";
    } else {
      LinesOfLogText(entries, stringify, parse);
      ParseEntriesAllKept(Serialised(entries, stringify), entries, parse);
      assert ReadEntries(text, parse) == entries;
      RawLogsOfReadable(text, parse);
    }
  }
}
