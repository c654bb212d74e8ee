/** Execution records and the text in which the archive keeps them: one JSON object per line. */
module ExecutionRecords {
  import opened Options
  import opened Json
  import opened Decimals
  import opened CanonicalJson

  const MAX_SAFE_INTEGER := 0x1F_FFFF_FFFF_FFFF

  datatype ExecutionStatus = Success | Error | Timeout | EgressDenied | BudgetExceeded

  datatype CallStatus = CallSuccess | CallDenied | CallError

  datatype CapabilityCallRecord = CapabilityCallRecord(name: string, status: CallStatus)

  /** Times are milliseconds; an absent error is None. A duration is any number: the runtime measures
      fractions of a millisecond, and neither the recorder nor the table asks for an integer. */
  datatype ExecutionRecord = ExecutionRecord(
    id: string, tenantId: string, pluginId: string, hookName: string, version: string,
    status: ExecutionStatus, durationMs: NumberText, error: Option<string>,
    capabilityCalls: seq<CapabilityCallRecord>, createdAt: int)

  /** How times are written and read back (Date.prototype.toISOString and the Date constructor). */
  datatype Clock = Clock(iso: int -> string, parse: string -> Option<int>)

  ghost predicate IsClock(clock: Clock) {
    forall time :: clock.parse(clock.iso(time)) == Some(time)
  }

  /** Integers that a JavaScript number holds exactly. */
  predicate IsSafeInteger(text: NumberText) {
    var n := ParseDecimal(text);
    n.Some? && -MAX_SAFE_INTEGER <= n.value <= MAX_SAFE_INTEGER
  }

  /** What the archive's reader takes, though its writer writes any record. */
  predicate IsReadable(r: ExecutionRecord) {
    IsSafeInteger(r.durationMs)
  }

  function StatusText(status: ExecutionStatus): string {
    match status
    case Success => "success"
    case Error => "error"
    case Timeout => "timeout"
    case EgressDenied => "egress_denied"
    case BudgetExceeded => "budget_exceeded"
  }

  function StatusOf(text: string): Option<ExecutionStatus> {
    if text == "success" then Some(Success)
    else if text == "error" then Some(Error)
    else if text == "timeout" then Some(Timeout)
    else if text == "egress_denied" then Some(EgressDenied)
    else if text == "budget_exceeded" then Some(BudgetExceeded)
    else None
  }

  function CallStatusText(status: CallStatus): string {
    match status
    case CallSuccess => "success"
    case CallDenied => "denied"
    case CallError => "error"
  }

  function CallStatusOf(text: string): Option<CallStatus> {
    if text == "success" then Some(CallSuccess)
    else if text == "denied" then Some(CallDenied)
    else if text == "error" then Some(CallError)
    else None
  }

  // ----- writing -----

  function CallDoc(call: CapabilityCallRecord): Doc {
    DObject(MoreFields("name", DText(call.name), MoreFields("status", DText(CallStatusText(call.status)), NoFields)))
  }

  function CallDocs(calls: seq<CapabilityCallRecord>): Docs {
    if calls == [] then NoDocs else MoreDocs(CallDoc(calls[0]), CallDocs(calls[1..]))
  }

  function ErrorDoc(error: Option<string>): Doc {
    if error.None? then DNull else DText(error.value)
  }

  function EndFields(clock: Clock, r: ExecutionRecord): Fields {
    MoreFields("error", ErrorDoc(r.error),
    MoreFields("capabilityCalls", DArray(CallDocs(r.capabilityCalls)),
    MoreFields("createdAt", DText(clock.iso(r.createdAt)), NoFields)))
  }

  function TailFields(clock: Clock, r: ExecutionRecord): Fields {
    MoreFields("status", DText(StatusText(r.status)),
    MoreFields("durationMs", DNumber(r.durationMs), EndFields(clock, r)))
  }

  function HookFields(clock: Clock, r: ExecutionRecord): Fields {
    MoreFields("hookName", DText(r.hookName), MoreFields("version", DText(r.version), TailFields(clock, r)))
  }

  function RecordDoc(clock: Clock, r: ExecutionRecord): Doc {
    DObject(
      MoreFields("id", DText(r.id),
      MoreFields("tenantId", DText(r.tenantId),
      MoreFields("pluginId", DText(r.pluginId), HookFields(clock, r)))))
  }

  /** The records' lines, each ended by a newline. */
  function SerializeExecutions(clock: Clock, records: seq<ExecutionRecord>): string {
    if records == [] then []
    else Print(RecordDoc(clock, records[0])) + ("\n" + SerializeExecutions(clock, records[1..]))
  }

  // ----- reading -----

  function TextField(fields: map<string, Value>, key: string): Option<string> {
    if key in fields && fields[key].Text? then Some(fields[key].text) else None
  }

  function CallOf(v: Value): Option<CapabilityCallRecord> {
    if !v.Object? then None
    else
      var name, status := TextField(v.fields, "name"), TextField(v.fields, "status");
      if name.None? || status.None? || CallStatusOf(status.value).None? then None
      else Some(CapabilityCallRecord(name.value, CallStatusOf(status.value).value))
  }

  function CallsOf(items: seq<Value>): Option<seq<CapabilityCallRecord>> {
    if items == [] then Some([])
    else
      var first, rest := CallOf(items[0]), CallsOf(items[1..]);
      if first.None? || rest.None? then None else Some([first.value] + rest.value)
  }

  function DurationOf(v: Value, checked: bool): Option<NumberText> {
    if v.Number? && (checked ==> IsSafeInteger(v.lexeme)) then Some(v.lexeme) else None
  }

  function ErrorOf(v: Value): Option<Option<string>> {
    match v
    case Null => Some(None)
    case Text(text) => Some(Some(text))
    case _ => None
  }

  function TimeOf(clock: Clock, text: Option<string>): Option<int> {
    if text.None? then None else clock.parse(text.value)
  }

  /** A parsed line as a record; anything that is not one is refused. The reader checks the duration too;
      unchecked, this is what the line says. */
  function RecordOf(clock: Clock, v: Value, checked: bool): Option<ExecutionRecord> {
    if !v.Object? then None
    else
      var f := v.fields;
      var id, tenantId, pluginId := TextField(f, "id"), TextField(f, "tenantId"), TextField(f, "pluginId");
      var hookName, version, status := TextField(f, "hookName"), TextField(f, "version"), TextField(f, "status");
      var createdAt := TimeOf(clock, TextField(f, "createdAt"));
      if id.None? || tenantId.None? || pluginId.None? || hookName.None? || version.None? || status.None?
         || StatusOf(status.value).None? || createdAt.None?
         || "durationMs" !in f || "error" !in f || "capabilityCalls" !in f || !f["capabilityCalls"].Array? then None
      else
        var durationMs, error := DurationOf(f["durationMs"], checked), ErrorOf(f["error"]);
        var calls := CallsOf(f["capabilityCalls"].items);
        if durationMs.None? || error.None? || calls.None? then None
        else
          Some(ExecutionRecord(id.value, tenantId.value, pluginId.value, hookName.value, version.value,
                               StatusOf(status.value).value, durationMs.value, error.value, calls.value,
                               createdAt.value))
  }

  function FirstLine(text: string): (n: nat)
    ensures n <= |text|
  {
    if text == [] || text[0] == '\n' then 0 else 1 + FirstLine(text[1..])
  }

  /** Splits at newlines, drops empty lines and reads the rest; one bad line spoils the whole text. */
  function ParseLines(clock: Clock, text: string, checked: bool): Option<seq<ExecutionRecord>>
    decreases |text|
  {
    if text == [] then Some([])
    else
      var n := FirstLine(text);
      var rest := ParseLines(clock, if n < |text| then text[n+1..] else [], checked);
      if n == 0 then rest
      else
        var r := ParseLine(clock, text[..n], checked);
        if r.None? || rest.None? then None else Some([r.value] + rest.value)
  }

  function ParseLine(clock: Clock, line: string, checked: bool): Option<ExecutionRecord> {
    var v := JsonParse(line);
    if v.None? then None else RecordOf(clock, v.value, checked)
  }

  function ParseExecutions(clock: Clock, text: string): Option<seq<ExecutionRecord>> {
    ParseLines(clock, text, true)
  }

  /** The records that an archive's text lists, readable or not. */
  function Listed(clock: Clock, text: string): Option<seq<ExecutionRecord>> {
    ParseLines(clock, text, false)
  }

  predicate AreReadable(records: seq<ExecutionRecord>) {
    forall r :: r in records ==> IsReadable(r)
  }

  lemma RecordIsChecked(clock: Clock, v: Value)
    ensures var r := RecordOf(clock, v, false);
      RecordOf(clock, v, true) == if r.Some? && IsReadable(r.value) then r else None
  {
  }

  /** The reader takes a text exactly when it lists records and every one of them is readable. */
  lemma {:induction false} ReaderTakesReadable(clock: Clock, text: string)
    ensures var listed := Listed(clock, text);
      ParseExecutions(clock, text) == if listed.Some? && AreReadable(listed.value) then listed else None
    decreases |text|
  {
    if text != [] {
      var n := FirstLine(text);
      var more := if n < |text| then text[n+1..] else [];
      ReaderTakesReadable(clock, more);
      if n > 0 {
        var v := JsonParse(text[..n]);
        if v.Some? { RecordIsChecked(clock, v.value); }
        LineAndRest(ParseLine(clock, text[..n], false), Listed(clock, more));
      }
    }
  }

  lemma LineAndRest(r: Option<ExecutionRecord>, rest: Option<seq<ExecutionRecord>>)
    ensures r.Some? && rest.Some? ==>
      (AreReadable([r.value] + rest.value) <==> IsReadable(r.value) && AreReadable(rest.value))
  {
    if r.Some? && rest.Some? {
      assert forall x :: x in [r.value] + rest.value <==> x == r.value || x in rest.value;
    }
  }

  // ----- printed documents have no line breaks -----

  predicate OneLine(s: string) {
    forall i :: 0 <= i < |s| ==> s[i] != '\n'
  }

  lemma {:induction false} CharsOneLine(s: string, rest: string)
    requires OneLine(rest)
    ensures OneLine(PrintChars(s, rest))
    decreases s
  {
    if s != [] {
      CharsOneLine(s[1..], rest);
      assert OneLine(EscapeChar(s[0]));
    }
  }

  lemma {:induction false} DocOneLine(d: Doc, rest: string)
    requires OneLine(rest)
    ensures OneLine(PrintTo(d, rest))
    decreases d
  {
    match d
    case DNumber(lexeme) => assert OneLine(lexeme);
    case DText(text) => CharsOneLine(text, rest);
    case DArray(items) => if items.MoreDocs? { ItemsOneLine(items, rest); }
    case DObject(fields) => if fields.MoreFields? { FieldsOneLine(fields, rest); }
    case _ =>
  }

  lemma {:induction false} ItemsOneLine(items: Docs, rest: string)
    requires OneLine(rest) && items.MoreDocs?
    ensures OneLine(PrintItems(items, rest))
    decreases items
  {
    if items.tail.MoreDocs? { ItemsOneLine(items.tail, rest); }
    DocOneLine(items.head, if items.tail.NoDocs? then [']'] + rest else [','] + PrintItems(items.tail, rest));
  }

  lemma {:induction false} FieldsOneLine(fields: Fields, rest: string)
    requires OneLine(rest) && fields.MoreFields?
    ensures OneLine(PrintFields(fields, rest))
    decreases fields
  {
    if fields.tail.MoreFields? { FieldsOneLine(fields.tail, rest); }
    var after := if fields.tail.NoFields? then ['}'] + rest else [','] + PrintFields(fields.tail, rest);
    DocOneLine(fields.value, after);
    CharsOneLine(fields.key, [':'] + PrintTo(fields.value, after));
  }

  lemma {:induction false} LineEnds(line: string, rest: string)
    requires OneLine(line)
    ensures FirstLine(line + ("\n" + rest)) == |line|
  {
    if line != [] {
      assert (line + ("\n" + rest))[1..] == line[1..] + ("\n" + rest);
      LineEnds(line[1..], rest);
    } else {
      assert line + ("\n" + rest) == "\n" + rest;
    }
  }

  // ----- round trip -----

  lemma {:induction false} CallsRoundTrip(calls: seq<CapabilityCallRecord>)
    ensures CallsOf(ItemsOf(CallDocs(calls))) == Some(calls)
  {
    if calls != [] {
      var call := calls[0];
      var status := MoreFields("status", DText(CallStatusText(call.status)), NoFields);
      OneMore("status", DText(CallStatusText(call.status)), NoFields);
      OneMore("name", DText(call.name), status);
      assert FromDoc(CallDoc(call)) == Object(FieldsOf(MoreFields("name", DText(call.name), status)));
      assert CallOf(FromDoc(CallDoc(call))) == Some(call);
      var items := ItemsOf(CallDocs(calls));
      assert items[0] == FromDoc(CallDoc(call)) && items[1..] == ItemsOf(CallDocs(calls[1..]));
      CallsRoundTrip(calls[1..]);
      assert [call] + calls[1..] == calls;
    }
  }

  ghost predicate Carries(f: map<string, Value>, rest: map<string, Value>) {
    forall k :: k in rest ==> k in f && f[k] == rest[k]
  }

  /** One more member in front of the others: it is found, and so are they. */
  lemma OneMore(key: string, value: Doc, tail: Fields)
    requires key !in FieldsOf(tail)
    ensures var f, rest := FieldsOf(MoreFields(key, value, tail)), FieldsOf(tail);
      && f.Keys == {key} + rest.Keys
      && f[key] == FromDoc(value)
      && Carries(f, rest)
  {
  }

  /** The member's key is there with this value. */
  ghost predicate Has(f: map<string, Value>, key: string, value: Doc) {
    key in f && f[key] == FromDoc(value)
  }

  /** None of the keys has one of these lengths. */
  ghost predicate Lacks(f: map<string, Value>, lengths: set<int>) {
    forall k :: k in f ==> |k| !in lengths
  }

  lemma ThreeMore(a: string, x: Doc, b: string, y: Doc, c: string, z: Doc, tail: Fields, all: Fields)
    requires all == MoreFields(a, x, MoreFields(b, y, MoreFields(c, z, tail)))
    requires a !in FieldsOf(tail) && b !in FieldsOf(tail) && c !in FieldsOf(tail)
    requires a != b && a != c && b != c
    ensures var f := FieldsOf(all);
      && Has(f, a, x) && Has(f, b, y) && Has(f, c, z) && Carries(f, FieldsOf(tail))
      && forall k :: k in f ==> k == a || k == b || k == c || k in FieldsOf(tail)
  {
    var second := MoreFields(c, z, tail);
    var first := MoreFields(b, y, second);
    OneMore(c, z, tail);
    OneMore(b, y, second);
    OneMore(a, x, first);
  }

  lemma TwoMore(a: string, x: Doc, b: string, y: Doc, tail: Fields, all: Fields)
    requires all == MoreFields(a, x, MoreFields(b, y, tail))
    requires a !in FieldsOf(tail) && b !in FieldsOf(tail) && a != b
    ensures var f := FieldsOf(all);
      && Has(f, a, x) && Has(f, b, y) && Carries(f, FieldsOf(tail))
      && forall k :: k in f ==> k == a || k == b || k in FieldsOf(tail)
  {
    var first := MoreFields(b, y, tail);
    OneMore(b, y, tail);
    OneMore(a, x, first);
  }

  /** The record's members as the reader finds them. */
  ghost predicate HasMembers(clock: Clock, r: ExecutionRecord, f: map<string, Value>) {
    && Has(f, "id", DText(r.id)) && Has(f, "tenantId", DText(r.tenantId)) && Has(f, "pluginId", DText(r.pluginId))
    && Has(f, "hookName", DText(r.hookName)) && Has(f, "version", DText(r.version))
    && Has(f, "status", DText(StatusText(r.status))) && Has(f, "durationMs", DNumber(r.durationMs))
    && Has(f, "error", ErrorDoc(r.error)) && Has(f, "capabilityCalls", DArray(CallDocs(r.capabilityCalls)))
    && Has(f, "createdAt", DText(clock.iso(r.createdAt)))
  }

  /** Five members whose keys differ in length. */
  lemma FiveMembers(a: string, v: Doc, b: string, w: Doc, c: string, x: Doc, d: string, y: Doc, e: string, z: Doc,
                    end: Fields, tail: Fields)
    requires end == MoreFields(c, x, MoreFields(d, y, MoreFields(e, z, NoFields)))
    requires tail == MoreFields(a, v, MoreFields(b, w, end))
    requires |a| == 6 && |b| == 10 && |c| == 5 && |d| == 15 && |e| == 9
    ensures var f := FieldsOf(tail);
      && Has(f, a, v) && Has(f, b, w) && Has(f, c, x) && Has(f, d, y) && Has(f, e, z)
      && Lacks(f, {2, 7, 8})
  {
    ThreeMore(c, x, d, y, e, z, NoFields, end);
    TwoMore(a, v, b, w, end, tail);
  }

  lemma FirstMembers(r: ExecutionRecord, tail: Fields, hook: Fields, all: Fields)
    requires Lacks(FieldsOf(tail), {2, 7, 8})
    requires hook == MoreFields("hookName", DText(r.hookName), MoreFields("version", DText(r.version), tail))
    requires all == MoreFields("id", DText(r.id), MoreFields("tenantId", DText(r.tenantId),
                    MoreFields("pluginId", DText(r.pluginId), hook)))
    ensures var f := FieldsOf(all);
      && Has(f, "id", DText(r.id)) && Has(f, "tenantId", DText(r.tenantId)) && Has(f, "pluginId", DText(r.pluginId))
      && Has(f, "hookName", DText(r.hookName)) && Has(f, "version", DText(r.version))
      && Carries(f, FieldsOf(tail))
  {
    TwoMore("hookName", DText(r.hookName), "version", DText(r.version), tail, hook);
    assert "hookName"[0] != "tenantId"[0] && "hookName"[0] != "pluginId"[0] && "tenantId"[0] != "pluginId"[0];
    ThreeMore("id", DText(r.id), "tenantId", DText(r.tenantId), "pluginId", DText(r.pluginId), hook, all);
  }

  lemma MembersOf(clock: Clock, r: ExecutionRecord, all: Fields)
    requires RecordDoc(clock, r) == DObject(all)
    ensures HasMembers(clock, r, FieldsOf(all))
  {
    FiveMembers("status", DText(StatusText(r.status)), "durationMs", DNumber(r.durationMs),
                "error", ErrorDoc(r.error),
                "capabilityCalls", DArray(CallDocs(r.capabilityCalls)), "createdAt", DText(clock.iso(r.createdAt)),
                EndFields(clock, r), TailFields(clock, r));
    FirstMembers(r, TailFields(clock, r), HookFields(clock, r), all);
  }

  lemma StatusRoundTrip(status: ExecutionStatus)
    ensures StatusOf(StatusText(status)) == Some(status)
  {
  }

  lemma RecordRoundTrip(clock: Clock, r: ExecutionRecord)
    requires IsClock(clock)
    ensures RecordOf(clock, FromDoc(RecordDoc(clock, r)), false) == Some(r)
  {
    var all := RecordDoc(clock, r).fields;
    MembersOf(clock, r, all);
    StatusRoundTrip(r.status);
    CallsRoundTrip(r.capabilityCalls);
    ReadBack(clock, r, FieldsOf(all));
    assert FromDoc(DObject(all)) == Object(FieldsOf(all));
  }

  lemma ReadBack(clock: Clock, r: ExecutionRecord, f: map<string, Value>)
    requires IsClock(clock) && HasMembers(clock, r, f)
    requires CallsOf(ItemsOf(CallDocs(r.capabilityCalls))) == Some(r.capabilityCalls)
    requires StatusOf(StatusText(r.status)) == Some(r.status)
    ensures RecordOf(clock, Object(f), false) == Some(r)
  {
    assert clock.parse(clock.iso(r.createdAt)) == Some(r.createdAt);
    assert DurationOf(f["durationMs"], false) == Some(r.durationMs);
    assert ErrorOf(f["error"]) == Some(r.error);
    assert f["capabilityCalls"] == Array(ItemsOf(CallDocs(r.capabilityCalls)));
  }

  lemma LineRoundTrip(clock: Clock, doc: Doc)
    ensures ParseLine(clock, Print(doc), false) == RecordOf(clock, FromDoc(doc), false)
    ensures OneLine(Print(doc)) && Print(doc) != []
  {
    DocOneLine(doc, []);
    PrintedStart(doc, []);
    ParsePrinted(doc, []);
  }

  lemma ListNext(clock: Clock, line: string, rest: string, r: ExecutionRecord, more: seq<ExecutionRecord>)
    requires OneLine(line) && line != [] && ParseLine(clock, line, false) == Some(r)
    requires Listed(clock, rest) == Some(more)
    ensures Listed(clock, line + ("\n" + rest)) == Some([r] + more)
  {
    var text := line + ("\n" + rest);
    LineEnds(line, rest);
    assert text[..|line|] == line && text[|line|+1..] == rest;
  }

  lemma {:induction false} WrittenIsListed(clock: Clock, records: seq<ExecutionRecord>)
    requires IsClock(clock)
    ensures Listed(clock, SerializeExecutions(clock, records)) == Some(records)
    decreases |records|
  {
    if records != [] {
      RecordRoundTrip(clock, records[0]);
      WrittenIsListed(clock, records[1..]);
      var line := Print(RecordDoc(clock, records[0]));
      LineRoundTrip(clock, RecordDoc(clock, records[0]));
      ListNext(clock, line, SerializeExecutions(clock, records[1..]), records[0], records[1..]);
      assert [records[0]] + records[1..] == records;
    }
  }

  /** The archive's text lists exactly the records that it was written from, so no two lists have one text;
      and it reads back as them exactly when every duration is a safe integer, and otherwise not at all. */
  lemma SerializedRoundTrip(clock: Clock, records: seq<ExecutionRecord>)
    requires IsClock(clock)
    ensures Listed(clock, SerializeExecutions(clock, records)) == Some(records)
    ensures ParseExecutions(clock, SerializeExecutions(clock, records))
         == if AreReadable(records) then Some(records) else None
  {
    WrittenIsListed(clock, records);
    ReaderTakesReadable(clock, SerializeExecutions(clock, records));
  }

  /** Fractions of a millisecond are unreadable, and so are integers past the safe ones. */
  lemma UnreadableDurations(n: int, text: NumberText)
    ensures n > MAX_SAFE_INTEGER ==> IsNumber(Decimal(n)) && !IsSafeInteger(Decimal(n))
    ensures '.' in text ==> !IsSafeInteger(text)
  {
    DecimalRoundTrip(n);
    if i :| 0 <= i < |text| && text[i] == '.' {
      assert !IsDigit(text[i]) && (i > 0 ==> text[1..][i-1] == '.');
    }
  }
}
