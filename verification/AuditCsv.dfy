/** The CSV export of the audit log, and a reader of section 2 of RFC 4180 that does not know how it was written. */
module AuditCsv {
  import opened Common

  // ---------- the reader: section 2 of RFC 4180, with '\n' as record break ----------

  /** A value read off the front of the input, and what follows it. */
  datatype Parsed<+T> = Parsed(value: T, rest: string) | Malformed

  predicate IsText(c: char) {
    c != ',' && c != '"' && c != '\n' && c != '\r'
  }

  /** The inside of a quoted field: any characters, a quote written twice, up to the closing quote. */
  function ReadQuoted(s: string): (p: Parsed<string>)
    ensures p.Parsed? ==> |p.rest| < |s|
  {
    if s == "" then Malformed
    else if s[0] != '"' || (|s| > 1 && s[1] == '"') then
      match ReadQuoted(s[if s[0] == '"' then 2 else 1..])
      case Malformed => Malformed
      case Parsed(v, rest) => Parsed([s[0]] + v, rest)
    else Parsed("", s[1..])
  }

  function ReadPlain(s: string): (p: Parsed<string>)
    ensures p.Parsed? && |p.rest| <= |s|
  {
    if s == "" || !IsText(s[0]) then Parsed("", s)
    else
      var p := ReadPlain(s[1..]);
      Parsed([s[0]] + p.value, p.rest)
  }

  function ReadField(s: string): (p: Parsed<string>)
    ensures p.Parsed? ==> |p.rest| <= |s|
  {
    if s != "" && s[0] == '"' then ReadQuoted(s[1..]) else ReadPlain(s)
  }

  function ReadRecord(s: string): (p: Parsed<seq<string>>)
    ensures p.Parsed? ==> |p.rest| <= |s|
    decreases |s|
  {
    match ReadField(s)
    case Malformed => Malformed
    case Parsed(v, rest) =>
      if rest == "" || rest[0] != ',' then Parsed([v], rest)
      else
        match ReadRecord(rest[1..])
        case Malformed => Malformed
        case Parsed(vs, rest) => Parsed([v] + vs, rest)
  }

  /** The last record may or may not have an ending line break. */
  function ReadFile(s: string): Option<seq<seq<string>>>
    decreases |s|
  {
    match ReadRecord(s)
    case Malformed => None
    case Parsed(record, rest) =>
      if rest == "" || rest == "\n" then Some([record])
      else if rest[0] != '\n' then None
      else
        match ReadFile(rest[1..])
        case None => None
        case Some(records) => Some([record] + records)
  }

  // ---------- the writer ----------

  /** A JSON state is a string, or something else that is rendered by `JSON.stringify`. */
  datatype State<Json> = Text(text: string) | Structure(json: Json)

  datatype Entry<Json> = Entry(
    id: string, workflowId: Option<string>, actorId: Option<string>, actorType: string, eventType: string,
    elementId: Option<string>, createdAt: int, beforeState: Option<State<Json>>, afterState: Option<State<Json>>)

  /** `Date.toISOString` and `JSON.stringify`. */
  datatype Formats<!Json> = Formats(iso: int -> string, stringify: Json -> string)

  const HEADER: seq<string> := [
    "id", "workflow_id", "actor_id", "actor_type", "event_type", "element_id", "created_at",
    "before_state", "after_state"]

  function StringifyState<Json>(f: Formats<Json>, state: Option<State<Json>>): string {
    match state
    case None => ""
    case Some(Text(text)) => text
    case Some(Structure(json)) => f.stringify(json)
  }

  function Row<Json>(f: Formats<Json>, e: Entry<Json>): seq<string> {
    [e.id, e.workflowId.GetOr(""), e.actorId.GetOr(""), e.actorType, e.eventType, e.elementId.GetOr(""),
     f.iso(e.createdAt), StringifyState(f, e.beforeState), StringifyState(f, e.afterState)]
  }

  function DoubleQuotes(value: string): string {
    if value == "" then ""
    else (if value[0] == '"' then "\"\"" else [value[0]]) + DoubleQuotes(value[1..])
  }

  function EscapeCsv(value: string): string {
    "\"" + DoubleQuotes(value) + "\""
  }

  function Map<A, B>(xs: seq<A>, f: A -> B): (ys: seq<B>)
    ensures |ys| == |xs| && forall i :: 0 <= i < |xs| ==> ys[i] == f(xs[i])
  {
    seq(|xs|, i requires 0 <= i < |xs| => f(xs[i]))
  }

  /** The parts from the `i`-th on, a separator between each two. */
  function JoinFrom(parts: seq<string>, separator: string, i: nat): string
    requires i <= |parts|
    decreases |parts| - i
  {
    if i == |parts| then ""
    else if i + 1 == |parts| then parts[i]
    else parts[i] + (separator + JoinFrom(parts, separator, i + 1))
  }

  /** `Array.prototype.join`. */
  function Join(parts: seq<string>, separator: string): string {
    JoinFrom(parts, separator, 0)
  }

  function Rows<Json>(f: Formats<Json>, entries: seq<Entry<Json>>): seq<seq<string>> {
    Map(entries, e => Row(f, e))
  }

  function JoinFields(texts: seq<string>): string {
    Join(texts, ",")
  }

  function JoinLines(lines: seq<seq<string>>): string {
    Join(Map(lines, JoinFields), "\n")
  }

  function EscapeRow(row: seq<string>): seq<string> {
    Map(row, EscapeCsv)
  }

  /** The header is not escaped; every field of every row is. */
  function RenderRows(header: seq<string>, rows: seq<seq<string>>): string {
    JoinLines([header] + Map(rows, EscapeRow))
  }

  function RenderCsv<Json>(f: Formats<Json>, entries: seq<Entry<Json>>): string {
    RenderRows(HEADER, Rows(f, entries))
  }

  // ---------- reading a field back ----------

  /** What may follow a field. */
  predicate EndsField(tail: string) {
    tail == "" || tail[0] == ',' || tail[0] == '\n'
  }

  predicate Plain(text: string) {
    text != "" && forall i :: 0 <= i < |text| ==> IsText(text[i])
  }

  /** The two ways a field is written. */
  predicate Spells(text: string, value: string) {
    text == EscapeCsv(value) || (text == value && Plain(value))
  }

  predicate AllSpell(texts: seq<string>, values: seq<string>) {
    |texts| == |values| > 0 && forall i :: 0 <= i < |texts| ==> Spells(texts[i], values[i])
  }

  lemma {:induction false} QuotedReads(value: string, tail: string)
    requires tail == "" || tail[0] != '"'
    ensures ReadQuoted(DoubleQuotes(value) + "\"" + tail) == Parsed(value, tail)
  {
    if value == "" {
      assert DoubleQuotes(value) + "\"" + tail == "\"" + tail;
    } else {
      var first := if value[0] == '"' then "\"\"" else [value[0]];
      var s, more := DoubleQuotes(value) + "\"" + tail, DoubleQuotes(value[1..]) + "\"" + tail;
      assert s == first + more;
      assert s[|first|..] == more;
      assert value == [value[0]] + value[1..];
      QuotedReads(value[1..], tail);
    }
  }

  lemma {:induction false} PlainReads(value: string, tail: string)
    requires EndsField(tail) && forall i :: 0 <= i < |value| ==> IsText(value[i])
    ensures ReadPlain(value + tail) == Parsed(value, tail)
  {
    if value == "" {
      assert value + tail == tail;
    } else {
      assert (value + tail)[1..] == value[1..] + tail;
      assert value == [value[0]] + value[1..];
      PlainReads(value[1..], tail);
    }
  }

  lemma FieldReads(text: string, value: string, tail: string)
    requires Spells(text, value) && EndsField(tail)
    ensures ReadField(text + tail) == Parsed(value, tail)
  {
    if text == EscapeCsv(value) {
      assert text + tail == "\"" + (DoubleQuotes(value) + "\"" + tail);
      QuotedReads(value, tail);
    } else {
      assert (text + tail)[0] == value[0];
      PlainReads(value, tail);
    }
  }

  // ---------- reading records and the file back ----------

  predicate EndsRecord(tail: string) {
    tail == "" || tail[0] == '\n'
  }

  lemma {:induction false} FirstFieldReads(text: string, value: string, more: string, values: seq<string>, tail: string)
    requires Spells(text, value)
    requires ReadRecord(more) == Parsed(values, tail)
    ensures ReadRecord(text + ("," + more)) == Parsed([value] + values, tail)
  {
    FieldReads(text, value, "," + more);
    assert ("," + more)[1..] == more;
  }

  lemma JoinThen(parts: seq<string>, separator: string, i: nat, tail: string)
    requires i + 1 < |parts|
    ensures JoinFrom(parts, separator, i) + tail
         == parts[i] + (separator + (JoinFrom(parts, separator, i + 1) + tail))
  {
    var a, b, c := parts[i], separator, JoinFrom(parts, separator, i + 1);
    assert (a + (b + c)) + tail == a + (b + (c + tail));
  }

  lemma {:induction false} LastFieldReads(text: string, value: string, tail: string)
    requires Spells(text, value) && EndsRecord(tail)
    ensures ReadRecord(text + tail) == Parsed([value], tail)
  {
    FieldReads(text, value, tail);
  }

  /** The fields from the `i`-th on are read back, and what follows them is left. */
  ghost predicate ReadFrom(texts: seq<string>, values: seq<string>, i: nat, tail: string)
    requires i <= |texts| && i <= |values|
  {
    ReadRecord(JoinFrom(texts, ",", i) + tail) == Parsed(values[i..], tail)
  }

  lemma {:induction false} LastIsRead(texts: seq<string>, values: seq<string>, tail: string)
    requires |texts| == |values| > 0 && EndsRecord(tail)
    requires Spells(texts[|texts| - 1], values[|texts| - 1])
    ensures ReadFrom(texts, values, |texts| - 1, tail)
  {
    var n := |texts| - 1;
    LastFieldReads(texts[n], values[n], tail);
    assert values[n..] == [values[n]];
  }

  lemma {:induction false} OneMoreIsRead(texts: seq<string>, values: seq<string>, i: nat, tail: string)
    requires |texts| == |values| && i + 1 < |texts| && Spells(texts[i], values[i])
    requires ReadFrom(texts, values, i + 1, tail)
    ensures ReadFrom(texts, values, i, tail)
  {
    FirstFieldReads(texts[i], values[i], JoinFrom(texts, ",", i + 1) + tail, values[i + 1..], tail);
    JoinThen(texts, ",", i, tail);
    assert values[i..] == [values[i]] + values[i + 1..];
  }

  lemma {:induction false} RecordReads(texts: seq<string>, values: seq<string>, i: nat, tail: string)
    requires |texts| == |values| && i < |texts| && EndsRecord(tail)
    requires forall j :: i <= j < |texts| ==> Spells(texts[j], values[j])
    ensures ReadFrom(texts, values, i, tail)
    decreases |texts| - i
  {
    if i + 1 == |texts| {
      LastIsRead(texts, values, tail);
    } else {
      RecordReads(texts, values, i + 1, tail);
      OneMoreIsRead(texts, values, i, tail);
    }
  }

  lemma {:induction false} LineReads(texts: seq<string>, values: seq<string>, tail: string)
    requires AllSpell(texts, values) && EndsRecord(tail)
    ensures ReadRecord(JoinFields(texts) + tail) == Parsed(values, tail)
  {
    RecordReads(texts, values, 0, tail);
    assert values[0..] == values;
  }

  lemma {:induction false} FirstLineReads(texts: seq<string>, values: seq<string>, more: string,
                                          records: seq<seq<string>>)
    requires AllSpell(texts, values)
    requires more != "" && ReadFile(more) == Some(records)
    ensures ReadFile(JoinFields(texts) + ("\n" + more)) == Some([values] + records)
  {
    LineReads(texts, values, "\n" + more);
    assert ("\n" + more)[1..] == more;
  }

  lemma LastLineReads(texts: seq<string>, values: seq<string>)
    requires AllSpell(texts, values)
    ensures ReadFile(JoinFields(texts)) == Some([values])
  {
    LineReads(texts, values, "");
    assert JoinFields(texts) + "" == JoinFields(texts);
  }

  lemma {:induction false} LinesRead(lines: seq<seq<string>>, records: seq<seq<string>>, i: nat)
    requires |lines| == |records| && i < |lines|
    requires forall j :: 0 <= j < |lines| ==> AllSpell(lines[j], records[j])
    ensures var text := JoinFrom(Map(lines, JoinFields), "\n", i);
      text != "" && ReadFile(text) == Some(records[i..])
    decreases |lines| - i
  {
    LineNotEmpty(lines[i], records[i]);
    if i + 1 == |lines| {
      LastLineReads(lines[i], records[i]);
      assert records[i..] == [records[i]];
    } else {
      var more := JoinFrom(Map(lines, JoinFields), "\n", i + 1);
      LinesRead(lines, records, i + 1);
      FirstLineReads(lines[i], records[i], more, records[i + 1..]);
      assert records[i..] == [records[i]] + records[i + 1..];
    }
  }

  lemma LineNotEmpty(texts: seq<string>, values: seq<string>)
    requires AllSpell(texts, values)
    ensures JoinFields(texts) != ""
  {
    assert Spells(texts[0], values[0]);
  }

  lemma RowsSpell(header: seq<string>, rows: seq<seq<string>>, i: nat)
    requires header != [] && forall j :: 0 <= j < |header| ==> Plain(header[j])
    requires forall j :: 0 <= j < |rows| ==> rows[j] != []
    requires i <= |rows|
    ensures AllSpell(([header] + Map(rows, EscapeRow))[i], ([header] + rows)[i])
  {
    if i == 0 {
      assert AllSpell(header, header);
    } else {
      assert AllSpell(EscapeRow(rows[i - 1]), rows[i - 1]);
    }
  }

  /** Whatever the fields contain (quotes, commas, line breaks), the reader recovers the header and every row. */
  lemma RowsReadBack(header: seq<string>, rows: seq<seq<string>>)
    requires header != [] && forall j :: 0 <= j < |header| ==> Plain(header[j])
    requires forall j :: 0 <= j < |rows| ==> rows[j] != []
    ensures ReadFile(RenderRows(header, rows)) == Some([header] + rows)
  {
    var lines, records := [header] + Map(rows, EscapeRow), [header] + rows;
    forall i | 0 <= i < |lines| ensures AllSpell(lines[i], records[i]) {
      RowsSpell(header, rows, i);
    }
    LinesRead(lines, records, 0);
    assert records[0..] == records;
  }

  lemma HeaderIsPlain()
    ensures forall j :: 0 <= j < |HEADER| ==> Plain(HEADER[j])
  {
  }

  /** The export of any entries is read back as the header and one row per entry. */
  lemma ExportReadsBack<Json>(f: Formats<Json>, entries: seq<Entry<Json>>)
    ensures ReadFile(RenderCsv(f, entries)) == Some([HEADER] + Rows(f, entries))
  {
    HeaderIsPlain();
    RowsReadBack(HEADER, Rows(f, entries));
  }

  /** What stands under a column in a record. */
  function Under(header: seq<string>, record: seq<string>, column: string): Option<string> {
    if header == [] || record == [] then None
    else if header[0] == column then Some(record[0])
    else Under(header[1..], record[1..], column)
  }

  lemma {:induction false} UnderIsAt(header: seq<string>, record: seq<string>, k: nat)
    requires k < |header| == |record| && forall i :: 0 <= i < k ==> header[i] != header[k]
    ensures Under(header, record, header[k]) == Some(record[k])
  {
    if k > 0 {
      assert header[0] != header[k];
      assert forall i :: 0 <= i < |header| - 1 ==> header[1..][i] == header[i + 1];
      UnderIsAt(header[1..], record[1..], k - 1);
    }
  }

  /** The text of a state: nothing for none, a string as it is, anything else as JSON. */
  ghost predicate Spelled<Json>(f: Formats<Json>, state: Option<State<Json>>, text: string) {
    && (state.None? ==> text == "")
    && (state.Some? && state.value.Text? ==> text == state.value.text)
    && (state.Some? && state.value.Structure? ==> text == f.stringify(state.value.json))
  }

  /** What a reader of the export finds about an entry under each column, by its name. */
  ghost predicate Tells<Json>(f: Formats<Json>, header: seq<string>, record: seq<string>, e: Entry<Json>) {
    && Under(header, record, "id") == Some(e.id)
    && Under(header, record, "workflow_id") == Some(if e.workflowId.Some? then e.workflowId.value else "")
    && Under(header, record, "actor_id") == Some(if e.actorId.Some? then e.actorId.value else "")
    && Under(header, record, "actor_type") == Some(e.actorType)
    && Under(header, record, "event_type") == Some(e.eventType)
    && Under(header, record, "element_id") == Some(if e.elementId.Some? then e.elementId.value else "")
    && Under(header, record, "created_at") == Some(f.iso(e.createdAt))
    && Under(header, record, "before_state").Some?
    && Spelled(f, e.beforeState, Under(header, record, "before_state").value)
    && Under(header, record, "after_state").Some?
    && Spelled(f, e.afterState, Under(header, record, "after_state").value)
  }

  lemma RowTells<Json>(f: Formats<Json>, e: Entry<Json>)
    ensures Tells(f, HEADER, Row(f, e), e)
  {
    var row := Row(f, e);
    assert HEADER[0] == "id" && HEADER[1] == "workflow_id" && HEADER[2] == "actor_id";
    assert HEADER[3] == "actor_type" && HEADER[4] == "event_type" && HEADER[5] == "element_id";
    assert HEADER[6] == "created_at" && HEADER[7] == "before_state" && HEADER[8] == "after_state";
    forall k | 0 <= k < 9 ensures Under(HEADER, row, HEADER[k]) == Some(row[k]) {
      HeaderNamesApart();
      UnderIsAt(HEADER, row, k);
    }
  }

  lemma HeaderNamesApart()
    ensures forall i, k :: 0 <= i < k < |HEADER| ==> HEADER[i] != HEADER[k]
  {
    var lengths := [2, 11, 8, 10, 10, 10, 10, 12, 11];
    assert forall i :: 0 <= i < 9 ==> |HEADER[i]| == lengths[i];
    assert HEADER[1][0] == 'w' && HEADER[8][0] == 'a';
    assert HEADER[3][0] == 'a' && HEADER[4][1] == 'v' && HEADER[5][1] == 'l' && HEADER[6][0] == 'c';
    assert HEADER[4][0] == 'e' && HEADER[5][0] == 'e';
  }

  /** A header, and in order one record per entry that tells all about it. */
  ghost predicate FileTells<Json>(f: Formats<Json>, file: Option<seq<seq<string>>>, entries: seq<Entry<Json>>) {
    && file.Some? && |file.value| == 1 + |entries|
    && forall i :: 0 <= i < |entries| ==> Tells(f, file.value[0], file.value[i + 1], entries[i])
  }

  lemma RecordsTell<Json>(f: Formats<Json>, header: seq<string>, rows: seq<seq<string>>, entries: seq<Entry<Json>>)
    requires |rows| == |entries| && forall i :: 0 <= i < |entries| ==> Tells(f, header, rows[i], entries[i])
    ensures FileTells(f, Some([header] + rows), entries)
  {
  }

  /** That is what a reader of the export finds. */
  lemma {:induction false} ExportTells<Json>(f: Formats<Json>, entries: seq<Entry<Json>>)
    ensures FileTells(f, ReadFile(RenderCsv(f, entries)), entries)
  {
    var rows := Rows(f, entries);
    ExportReadsBack(f, entries);
    forall i | 0 <= i < |entries| ensures Tells(f, HEADER, rows[i], entries[i]) {
      RowTells(f, entries[i]);
    }
    RecordsTell(f, HEADER, rows, entries);
  }

  // ---------- what the export keeps apart ----------

  /** An absent text and an empty one are written alike. */
  predicate SameText(a: Option<string>, b: Option<string>) {
    a == b || {a, b} == {None, Some("")}
  }

  /** So are an absent state and an empty one, and a structure and the string that spells it. */
  predicate SpelledBy<Json(==)>(f: Formats<Json>, a: Option<State<Json>>, b: Option<State<Json>>) {
    b.Some? && b.value.Text? && match a
      case None => b.value.text == ""
      case Some(Text(_)) => false
      case Some(Structure(json)) => b.value.text == f.stringify(json)
  }

  predicate SameState<Json(==)>(f: Formats<Json>, a: Option<State<Json>>, b: Option<State<Json>>) {
    a == b || SpelledBy(f, a, b) || SpelledBy(f, b, a)
  }

  predicate SameEntry<Json(==)>(f: Formats<Json>, a: Entry<Json>, b: Entry<Json>) {
    && a.id == b.id && a.actorType == b.actorType && a.eventType == b.eventType && a.createdAt == b.createdAt
    && SameText(a.workflowId, b.workflowId) && SameText(a.actorId, b.actorId) && SameText(a.elementId, b.elementId)
    && SameState(f, a.beforeState, b.beforeState) && SameState(f, a.afterState, b.afterState)
  }

  /** Different dates and different structures are written differently, and no structure as nothing. */
  ghost predicate Faithful<Json(!new)>(f: Formats<Json>) {
    && (forall s, t :: f.iso(s) == f.iso(t) ==> s == t)
    && (forall a, b :: f.stringify(a) == f.stringify(b) ==> a == b)
    && (forall a :: f.stringify(a) != "")
  }

  lemma RowsAgreeIff<Json(!new)>(f: Formats<Json>, a: Entry<Json>, b: Entry<Json>)
    requires Faithful(f)
    ensures Row(f, a) == Row(f, b) <==> SameEntry(f, a, b)
  {
    var r, s := Row(f, a), Row(f, b);
    assert r == s <==> forall i :: 0 <= i < 9 ==> r[i] == s[i];
  }

  /** Two exports are the same text exactly when they are the same entries, up to those spellings. */
  lemma ExportsAgreeIff<Json(!new)>(f: Formats<Json>, xs: seq<Entry<Json>>, ys: seq<Entry<Json>>)
    requires Faithful(f)
    ensures RenderCsv(f, xs) == RenderCsv(f, ys)
      <==> |xs| == |ys| && forall i :: 0 <= i < |xs| ==> SameEntry(f, xs[i], ys[i])
  {
    ExportReadsBack(f, xs);
    ExportReadsBack(f, ys);
    var r, s := Rows(f, xs), Rows(f, ys);
    assert ([HEADER] + r)[1..] == r && ([HEADER] + s)[1..] == s;
    assert RenderCsv(f, xs) == RenderCsv(f, ys) <==> r == s;
    if |xs| == |ys| {
      forall i | 0 <= i < |xs| ensures r[i] == s[i] <==> SameEntry(f, xs[i], ys[i]) {
        RowsAgreeIff(f, xs[i], ys[i]);
      }
      assert r == s <==> forall i :: 0 <= i < |r| ==> r[i] == s[i];
    }
  }
}
