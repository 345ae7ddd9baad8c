/** The text format of the owner record, as written now and as read by the released version-one decoder. */
module OwnerRecord {
  import opened Wrappers
  import opened Sequences
  import Decimal

  const U32 := 0x1_0000_0000
  const U64 := 0x1_0000_0000_0000_0000

  type ProcessId = x: nat | x < U32
  type Micros = x: nat | x < U64

  datatype Record = Record(
    processId: ProcessId,
    processStartedAt: Micros,
    desktopProcessId: ProcessId,
    childProcessId: Option<ProcessId>,
    childStartedAt: Option<Micros>)

  datatype VersionOneRecord = VersionOneRecord(
    processId: ProcessId, desktopProcessId: ProcessId, childProcessId: Option<ProcessId>)

  datatype Stored = Exact(record: Record) | VersionOne(legacy: VersionOneRecord)

  // ---- Lines and fields --------------------------------------------------------------------

  datatype Field = Field(name: string, value: string)

  function Text(field: Field): string {
    field.name + ("=" + field.value)
  }

  function Unlines(fields: seq<Field>): string {
    if fields == [] then "" else Text(fields[0]) + ("\n" + Unlines(fields[1..]))
  }

  /** A line ends at a line feed, which takes one carriage return before it along; what follows the last
      line feed is a line too unless it is empty. */
  function Lines(s: string): seq<string>
    decreases |s|
  {
    if s == "" then []
    else match Position(s, '\n')
      case None => [s]
      case Some(k) =>
        [if k > 0 && s[k - 1] == '\r' then s[..k - 1] else s[..k]] + Lines(s[k + 1..])
  }

  function StripPrefix(s: string, prefix: string): Option<string> {
    if prefix <= s then Some(s[|prefix|..]) else None
  }

  /** The rest of the first line that begins with the name and an equals sign. */
  function FieldIn(lines: seq<string>, name: string): Option<string> {
    if lines == [] then None
    else if StripPrefix(lines[0], name + "=").Some? then StripPrefix(lines[0], name + "=")
    else FieldIn(lines[1..], name)
  }

  function FieldOf(text: string, name: string): Option<string> {
    FieldIn(Lines(text), name)
  }

  function Number(value: Option<string>, bound: nat): Option<nat> {
    if value.None? then None else Decimal.Parse(value.value, bound)
  }

  // ---- The codec ---------------------------------------------------------------------------

  function Optional(value: Option<nat>): string {
    if value.None? then "" else Decimal.Render(value.value)
  }

  function Fields(r: Record): seq<Field> {
    [Field("version", "1"),
     Field("process_id", Decimal.Render(r.processId)),
     Field("process_started_at_micros", Decimal.Render(r.processStartedAt)),
     Field("desktop_process_id", Decimal.Render(r.desktopProcessId)),
     Field("child_process_id", Optional(r.childProcessId)),
     Field("child_process_started_at_micros", Optional(r.childStartedAt))]
  }

  function Encode(r: Record): string {
    Unlines(Fields(r))
  }

  function Decode(text: string): Option<Stored> {
    var version := FieldOf(text, "version");
    var processId := Number(FieldOf(text, "process_id"), U32);
    var desktopProcessId := Number(FieldOf(text, "desktop_process_id"), U32);
    var childProcessId := Number(FieldOf(text, "child_process_id"), U32);
    var startedAt := FieldOf(text, "process_started_at_micros");
    var childStartedAt := Number(FieldOf(text, "child_process_started_at_micros"), U64);
    if version.None? || processId.None? || desktopProcessId.None? then None
    else if version.value == "1" && startedAt.None? then
      Some(VersionOne(VersionOneRecord(processId.value, desktopProcessId.value, childProcessId)))
    else if version.value != "2" && version.value != "1" then None
    else if childProcessId.Some? != childStartedAt.Some? then None
    else if Number(startedAt, U64).None? then None
    else Some(Exact(Record(processId.value, Number(startedAt, U64).value, desktopProcessId.value, childProcessId,
         childStartedAt)))
  }

  /** The decoder of released version-one Shims. */
  function DecodeReleased(text: string): Option<VersionOneRecord> {
    var processId := Number(FieldOf(text, "process_id"), U32);
    var desktopProcessId := Number(FieldOf(text, "desktop_process_id"), U32);
    if FieldOf(text, "version") != Some("1") || processId.None? || desktopProcessId.None? then None
    else Some(VersionOneRecord(processId.value, desktopProcessId.value, Number(FieldOf(text, "child_process_id"), U32)))
  }

  function Projection(stored: Stored): VersionOneRecord {
    match stored
    case Exact(r) => VersionOneRecord(r.processId, r.desktopProcessId, r.childProcessId)
    case VersionOne(legacy) => legacy
  }

  // ---- Reading lines back ------------------------------------------------------------------

  /** Text that can be the name or the value of a field. */
  predicate Clean(s: string) {
    forall i :: 0 <= i < |s| ==> s[i] != '\n' && s[i] != '\r' && s[i] != '='
  }

  lemma FirstLine(line: string, rest: string)
    requires line != "" && '\n' !in line && '\r' !in line
    ensures Lines(line + ("\n" + rest)) == [line] + Lines(rest)
  {
    var s := line + ("\n" + rest);
    PositionAfter(line, '\n', rest);
    assert s[|line| - 1] == line[|line| - 1] && s[..|line|] == line && s[|line| + 1..] == rest;
  }

  lemma {:induction false} PrefixNames(name: string, field: Field)
    requires Clean(name) && Clean(field.name)
    ensures StripPrefix(Text(field), name + "=") == if name == field.name then Some(field.value) else None
  {
    var s := Text(field);
    assert s[|field.name|] == '=';
    assert forall i :: 0 <= i < |field.name| ==> s[i] == field.name[i];
    if name + "=" <= s {
      assert (name + "=")[|name|] == '=';
      assert forall i :: 0 <= i < |name| ==> s[i] == (name + "=")[i];
      assert |name| == |field.name| && name == s[..|name|] && field.name == s[..|name|];
    }
    assert field.name + "=" <= s && s[|field.name| + 1..] == field.value;
  }

  /** The value of the first field with this name. */
  function Lookup(fields: seq<Field>, name: string): Option<string> {
    if fields == [] then None else if fields[0].name == name then Some(fields[0].value) else Lookup(fields[1..], name)
  }

  ghost predicate AllClean(fields: seq<Field>) {
    forall i :: 0 <= i < |fields| ==> Clean(fields[i].name) && Clean(fields[i].value)
  }

  lemma {:induction false} FieldsReadBack(fields: seq<Field>, name: string)
    requires AllClean(fields) && Clean(name)
    ensures FieldOf(Unlines(fields), name) == Lookup(fields, name)
  {
    if fields != [] {
      FirstLine(Text(fields[0]), Unlines(fields[1..]));
      PrefixNames(name, fields[0]);
      FieldsReadBack(fields[1..], name);
    }
  }

  lemma NamesClean()
    ensures Clean("version") && Clean("process_id") && Clean("process_started_at_micros")
    ensures Clean("desktop_process_id") && Clean("child_process_id") && Clean("child_process_started_at_micros")
  {
  }

  lemma NumbersClean(n: nat, value: Option<nat>)
    ensures Clean("1") && Clean(Decimal.Render(n)) && Clean(Optional(value))
  {
  }

  lemma EncodedClean(r: Record)
    ensures AllClean(Fields(r))
  {
    hide Clean, Optional, Decimal.Render;
    NamesClean();
    NumbersClean(r.processId, r.childProcessId);
    NumbersClean(r.processStartedAt, r.childStartedAt);
    NumbersClean(r.desktopProcessId, None);
  }

  lemma {:induction false} LookupAt(fields: seq<Field>, k: nat)
    requires k < |fields| && forall i :: 0 <= i < k ==> fields[i].name != fields[k].name
    ensures Lookup(fields, fields[k].name) == Some(fields[k].value)
  {
    if k > 0 {
      LookupAt(fields[1..], k - 1);
    }
  }

  lemma FieldsLookup(r: Record)
    ensures var f := Fields(r);
            && Lookup(f, "version") == Some("1")
            && Lookup(f, "process_id") == Some(Decimal.Render(r.processId))
            && Lookup(f, "process_started_at_micros") == Some(Decimal.Render(r.processStartedAt))
            && Lookup(f, "desktop_process_id") == Some(Decimal.Render(r.desktopProcessId))
            && Lookup(f, "child_process_id") == Some(Optional(r.childProcessId))
            && Lookup(f, "child_process_started_at_micros") == Some(Optional(r.childStartedAt))
  {
    hide Optional, Decimal.Render, Lookup;
    var f := Fields(r);
    LookupAt(f, 0);
    LookupAt(f, 1);
    LookupAt(f, 2);
    LookupAt(f, 3);
    LookupAt(f, 4);
    LookupAt(f, 5);
  }

  lemma OptionalReadsBack(value: Option<nat>, bound: nat)
    requires value.Some? ==> value.value < bound
    ensures Decimal.Parse(Optional(value), bound) == value
  {
    if value.Some? {
      Decimal.ParseOfRender(value.value, bound);
    }
  }

  /** What a decoder sees of an encoded record. */
  lemma EncodedNumbers(r: Record)
    ensures FieldOf(Encode(r), "version") == Some("1")
    ensures Number(FieldOf(Encode(r), "process_id"), U32) == Some(r.processId)
    ensures Number(FieldOf(Encode(r), "process_started_at_micros"), U64) == Some(r.processStartedAt)
    ensures Number(FieldOf(Encode(r), "desktop_process_id"), U32) == Some(r.desktopProcessId)
    ensures Number(FieldOf(Encode(r), "child_process_id"), U32) == r.childProcessId
    ensures Number(FieldOf(Encode(r), "child_process_started_at_micros"), U64) == r.childStartedAt
  {
    hide Clean, AllClean, Lookup, Fields, FieldOf, Unlines, Optional, Decimal.Parse, Decimal.Render;
    NamesClean();
    EncodedClean(r);
    FieldsLookup(r);
    var f := Fields(r);
    FieldsReadBack(f, "version");
    FieldsReadBack(f, "process_id");
    FieldsReadBack(f, "process_started_at_micros");
    FieldsReadBack(f, "desktop_process_id");
    FieldsReadBack(f, "child_process_id");
    FieldsReadBack(f, "child_process_started_at_micros");
    Decimal.ParseOfRender(r.processId, U32);
    Decimal.ParseOfRender(r.processStartedAt, U64);
    Decimal.ParseOfRender(r.desktopProcessId, U32);
    OptionalReadsBack(r.childProcessId, U32);
    OptionalReadsBack(r.childStartedAt, U64);
  }

  // ---- The laws ----------------------------------------------------------------------------

  /** A record is read back exactly when the child's id and its start time are both there or both not. */
  lemma RoundTrip(r: Record)
    ensures Decode(Encode(r)) == if r.childProcessId.Some? == r.childStartedAt.Some? then Some(Exact(r)) else None
  {
    hide FieldOf, Encode, Decimal.Parse;
    EncodedNumbers(r);
  }

  /** The released decoder reads every record written now as its three fields. */
  lemma ReleasedReadsProjection(r: Record)
    ensures DecodeReleased(Encode(r)) == Some(Projection(Exact(r)))
  {
    hide FieldOf, Encode, Decimal.Parse;
    EncodedNumbers(r);
  }

  /** On any text at all that is read now, the released decoder reads the projection, unless the text
      says version two, which it does not read. What only the released decoder reads has a start time
      that cannot be read, or a child of which only one of the two numbers can. */
  lemma DecodersAgree(text: string)
    ensures Decode(text).Some? ==>
              DecodeReleased(text) == if FieldOf(text, "version") == Some("2") then None
                else Some(Projection(Decode(text).value))
    ensures DecodeReleased(text).Some? ==>
              var startedAt := FieldOf(text, "process_started_at_micros");
              (Decode(text).None? <==>
                startedAt.Some?
                && (Number(startedAt, U64).None?
                    || Number(FieldOf(text, "child_process_id"), U32).Some?
                       != Number(FieldOf(text, "child_process_started_at_micros"), U64).Some?))
  {
  }

  // ---- Other texts -------------------------------------------------------------------------

  /** The same fields with carriage returns before the line feeds. */
  function UnlinesWithReturns(fields: seq<Field>): string {
    if fields == [] then "" else Text(fields[0]) + ("\r\n" + UnlinesWithReturns(fields[1..]))
  }

  lemma FirstLineWithReturn(line: string, rest: string)
    requires line != "" && '\n' !in line && '\r' !in line
    ensures Lines(line + ("\r\n" + rest)) == [line] + Lines(rest)
  {
    var s := line + ("\r\n" + rest);
    assert s == (line + "\r") + ("\n" + rest);
    PositionAfter(line + "\r", '\n', rest);
    assert s[|line|] == '\r' && s[..|line|] == line && s[|line| + 2..] == rest;
  }

  /** Line ends of either kind are read alike. */
  lemma {:induction false} ReturnsDoNotMatter(fields: seq<Field>, name: string)
    requires AllClean(fields) && Clean(name)
    ensures FieldOf(UnlinesWithReturns(fields), name) == FieldOf(Unlines(fields), name)
  {
    FieldsReadBack(fields, name);
    if fields != [] {
      FirstLineWithReturn(Text(fields[0]), UnlinesWithReturns(fields[1..]));
      PrefixNames(name, fields[0]);
      FieldsReadBack(fields[1..], name);
      ReturnsDoNotMatter(fields[1..], name);
    }
  }

  /** An encoded record that says version two instead is read as the same record, and by the released
      decoder not at all. */
  lemma VersionTwoReadsBack(r: Record)
    ensures var text := Unlines([Field("version", "2")] + Fields(r)[1..]);
            && Decode(text) == (if r.childProcessId.Some? == r.childStartedAt.Some? then Some(Exact(r)) else None)
            && DecodeReleased(text) == None
  {
    hide FieldOf, Decimal.Parse, Unlines;
    VersionTwoFields(r);
    EncodedNumbers(r);
  }

  lemma VersionTwoFields(r: Record)
    ensures var text := Unlines([Field("version", "2")] + Fields(r)[1..]);
            && FieldOf(text, "version") == Some("2")
            && FieldOf(text, "process_id") == FieldOf(Encode(r), "process_id")
            && FieldOf(text, "process_started_at_micros") == FieldOf(Encode(r), "process_started_at_micros")
            && FieldOf(text, "desktop_process_id") == FieldOf(Encode(r), "desktop_process_id")
            && FieldOf(text, "child_process_id") == FieldOf(Encode(r), "child_process_id")
            && FieldOf(text, "child_process_started_at_micros") == FieldOf(Encode(r), "child_process_started_at_micros")
  {
    hide Clean, AllClean, Lookup, FieldOf, Unlines, Optional, Decimal.Render;
    NamesClean();
    EncodedClean(r);
    var f, g := Fields(r), [Field("version", "2")] + Fields(r)[1..];
    OtherVersionClean(r);
    OtherVersionLookup(f, "2");
    FieldsReadBack(g, "version");
    SameField(f, g, "process_id");
    SameField(f, g, "process_started_at_micros");
    SameField(f, g, "desktop_process_id");
    SameField(f, g, "child_process_id");
    SameField(f, g, "child_process_started_at_micros");
  }

  lemma OtherVersionClean(r: Record)
    requires AllClean(Fields(r))
    ensures AllClean([Field("version", "2")] + Fields(r)[1..])
  {
    hide Optional, Decimal.Render;
    var f, g := Fields(r), [Field("version", "2")] + Fields(r)[1..];
    NamesClean();
    assert forall i :: 0 < i < |g| ==> g[i] == f[i];
  }

  /** Replacing the version changes only the version. */
  lemma OtherVersionLookup(f: seq<Field>, version: string)
    requires f != [] && f[0].name == "version"
    ensures var g := [Field("version", version)] + f[1..];
            Lookup(g, "version") == Some(version)
            && forall name :: name != "version" ==> Lookup(g, name) == Lookup(f, name)
  {
    assert ([Field("version", version)] + f[1..])[1..] == f[1..];
  }

  lemma SameField(f: seq<Field>, g: seq<Field>, name: string)
    requires AllClean(f) && AllClean(g) && Clean(name) && Lookup(g, name) == Lookup(f, name)
    ensures FieldOf(Unlines(g), name) == FieldOf(Unlines(f), name)
  {
    FieldsReadBack(f, name);
    FieldsReadBack(g, name);
  }

  /** The text of a released Shim, which has no start times, is read as a version-one record. */
  lemma ReleasedTextReadsBack(v: VersionOneRecord)
    ensures Decode(Unlines(ReleasedFields(v))) == Some(VersionOne(v))
    ensures DecodeReleased(Unlines(ReleasedFields(v))) == Some(v)
  {
    hide FieldOf, Decimal.Parse, Unlines, ReleasedFields;
    ReleasedNumbers(v);
  }

  function ReleasedFields(v: VersionOneRecord): seq<Field> {
    [Field("version", "1"),
     Field("process_id", Decimal.Render(v.processId)),
     Field("desktop_process_id", Decimal.Render(v.desktopProcessId)),
     Field("child_process_id", Optional(v.childProcessId))]
  }

  lemma ReleasedNumbers(v: VersionOneRecord)
    ensures var text := Unlines(ReleasedFields(v));
            && FieldOf(text, "version") == Some("1") && FieldOf(text, "process_started_at_micros") == None
            && Number(FieldOf(text, "process_id"), U32) == Some(v.processId)
            && Number(FieldOf(text, "desktop_process_id"), U32) == Some(v.desktopProcessId)
            && Number(FieldOf(text, "child_process_id"), U32) == v.childProcessId
  {
    hide Clean, AllClean, Lookup, ReleasedFields, FieldOf, Unlines, Optional, Decimal.Parse, Decimal.Render;
    var f := ReleasedFields(v);
    NamesClean();
    ReleasedClean(v);
    ReleasedLookup(v);
    FieldsReadBack(f, "version");
    FieldsReadBack(f, "process_id");
    FieldsReadBack(f, "process_started_at_micros");
    FieldsReadBack(f, "desktop_process_id");
    FieldsReadBack(f, "child_process_id");
    Decimal.ParseOfRender(v.processId, U32);
    Decimal.ParseOfRender(v.desktopProcessId, U32);
    OptionalReadsBack(v.childProcessId, U32);
  }

  lemma ReleasedClean(v: VersionOneRecord)
    ensures AllClean(ReleasedFields(v))
  {
    hide Clean, Optional, Decimal.Render;
    NamesClean();
    NumbersClean(v.processId, v.childProcessId);
    NumbersClean(v.desktopProcessId, None);
  }

  lemma ReleasedLookup(v: VersionOneRecord)
    ensures var f := ReleasedFields(v);
            && Lookup(f, "version") == Some("1") && Lookup(f, "process_started_at_micros") == None
            && Lookup(f, "process_id") == Some(Decimal.Render(v.processId))
            && Lookup(f, "desktop_process_id") == Some(Decimal.Render(v.desktopProcessId))
            && Lookup(f, "child_process_id") == Some(Optional(v.childProcessId))
  {
    hide Optional, Decimal.Render, Lookup;
    var f := ReleasedFields(v);
    LookupAt(f, 0);
    LookupAt(f, 1);
    LookupAt(f, 2);
    LookupAt(f, 3);
    LookupNone(f, "process_started_at_micros");
  }

  lemma {:induction false} LookupNone(fields: seq<Field>, name: string)
    requires forall i :: 0 <= i < |fields| ==> fields[i].name != name
    ensures Lookup(fields, name) == None
  {
    if fields != [] {
      LookupNone(fields[1..], name);
    }
  }
}
