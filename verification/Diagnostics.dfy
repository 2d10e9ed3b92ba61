/**
 The diagnostics report: `parse` reads the collector's output leniently (lossy
 UTF-8, control characters, oversized values) and `text` prints what it kept.
 */
module Diagnostics {
  import opened Basics
  import opened Utf8

  const MAX_REPORT_BYTES: nat := 64 * 1024
  const MAX_VALUE_BYTES: nat := 512

  const FIELDS: seq<string> := [
    "os", "os_version", "kernel", "architecture", "execution_user", "ssh_session", "virtualization",
    "gpclient_path", "gpclient_version", "gpauth_path", "gpauth_version", "gpgui_path", "gpgui_version",
    "display_protocol", "graphics", "graphics_packages", "desktop_version",
    "env.XDG_CURRENT_DESKTOP", "env.XDG_SESSION_DESKTOP", "env.XDG_SESSION_TYPE", "env.DESKTOP_SESSION",
    "env.WEBKIT_DISABLE_DMABUF_RENDERER", "env.WEBKIT_DISABLE_COMPOSITING_MODE", "env.LIBGL_ALWAYS_SOFTWARE",
    "env.__NV_DISABLE_EXPLICIT_SYNC", "env.GDK_BACKEND", "env.GDK_GL"
  ]

  datatype Status = Ok | Unset | Unavailable | Failed | TimedOut | NotApplicable
  datatype Field = Field(status: Status, value: Option<string>)
  datatype Report = Report(schemaVersion: nat, fields: map<string, Field>)

  datatype Error =
    | ReportTooLarge | InvalidRecord | InvalidStatus | InvalidFraming | FieldTooLarge | InvalidValue | UnknownStatus
    | DuplicateSchema | UnsupportedSchema | UnknownField | UnexpectedValue | DuplicateField | Incomplete | MissingSchema
  datatype Result<T> = Success(value: T) | Failure(error: Error)

  // --- text ---

  function StatusText(s: Status): string {
    match s
    case Ok => "ok"
    case Unset => "unset"
    case Unavailable => "unavailable"
    case Failed => "failed"
    case TimedOut => "timed_out"
    case NotApplicable => "not_applicable"
  }

  function Digits(n: nat): string {
    if n < 10 then [('0' as int + n) as char] else Digits(n / 10) + Digits(n % 10)
  }

  function ValueText(value: Option<string>): string {
    if value.Some? then value.value else ""
  }

  function Line(name: string, status: string, value: string): string {
    name + ": " + (status + ": " + value)
  }

  function FieldLine(name: string, f: Field): string {
    Line(name, StatusText(f.status), ValueText(f.value))
  }

  /** Indexing by name is why a report must hold every field to be printed. */
  predicate Printable(names: seq<string>, r: Report) {
    forall name :: name in names ==> name in r.fields
  }

  function TextOf(names: seq<string>, r: Report): string
    requires Printable(names, r)
  {
    if names == [] then "" else FieldLine(names[0], r.fields[names[0]]) + "\n" + TextOf(names[1..], r)
  }

  function SchemaLine(version: nat): string {
    Line("schema_version", "ok", Digits(version))
  }

  function Text(r: Report): string
    requires Printable(FIELDS, r)
  {
    SchemaLine(r.schemaVersion) + "\n" + TextOf(FIELDS, r)
  }

  // --- parse ---

  /** `split_once(": ")`: around the first occurrence. */
  function SplitOnce(s: string): Option<(string, string)> {
    if |s| < 2 then None
    else if s[0] == ':' && s[1] == ' ' then Some(("", s[2..]))
    else
      var rest := SplitOnce(s[1..]);
      if rest.None? then None else Some(([s[0]] + rest.value.0, rest.value.1))
  }

  function StatusOf(text: string): Option<Status> {
    if text == "ok" then Some(Ok)
    else if text == "unset" then Some(Unset)
    else if text == "unavailable" then Some(Unavailable)
    else if text == "failed" then Some(Failed)
    else if text == "timed_out" then Some(TimedOut)
    else if text == "not_applicable" then Some(NotApplicable)
    else None
  }

  predicate IsAsciiControl(c: char) { c as int < 0x20 || c as int == 0x7F }
  predicate IsControl(c: char) { c as int < 0x20 || 0x7F <= c as int <= 0x9F }

  function Printed(c: char): char { if IsControl(c) then ' ' else c }

  /** As many characters as fit in `room` bytes, controls replaced by blanks. */
  function Normalized(value: string, room: nat): string {
    if value == "" || Width(Printed(value[0])) > room then ""
    else [Printed(value[0])] + Normalized(value[1..], room - Width(Printed(value[0])))
  }

  datatype Progress = Progress(schema: bool, fields: map<string, Field>)

  function Keep(names: seq<string>, p: Progress, name: string, status: Status, value: string): Result<Progress> {
    if name == "schema_version" then
      if p.schema then Failure(DuplicateSchema)
      else if status != Ok || value != "1" then Failure(UnsupportedSchema)
      else Success(p.(schema := true))
    else if name !in names then Failure(UnknownField)
    else if status != Ok && value != "" then Failure(UnexpectedValue)
    else if name in p.fields then Failure(DuplicateField)
    else
      var kept := if status == Ok then Some(Normalized(value, MAX_VALUE_BYTES)) else None;
      Success(p.(fields := p.fields[name := Field(status, kept)]))
  }

  /** One record of the input. */
  function Step(names: seq<string>, p: Progress, raw: seq<Byte>): Result<Progress> {
    var first := SplitOnce(DecodeLossy(raw));
    if first.None? then Failure(InvalidRecord)
    else
      var (name, rest) := first.value;
      var second := SplitOnce(rest);
      if second.None? then Failure(InvalidStatus)
      else
        var (status, value) := second.value;
        var framing := Len(name) + Len(status) + 4;
        if |raw| < framing then Failure(InvalidFraming)
        else if |raw| - framing > MAX_VALUE_BYTES then Failure(FieldTooLarge)
        else if exists c :: c in value && IsAsciiControl(c) then Failure(InvalidValue)
        else if StatusOf(status).None? then Failure(UnknownStatus)
        else Keep(names, p, name, StatusOf(status).value, value)
  }

  const NEWLINE: Byte := 10

  function Lines(b: seq<Byte>): (lines: seq<seq<Byte>>)
    ensures |lines| >= 1
  {
    if b == [] then [[]]
    else if b[0] == NEWLINE then [[]] + Lines(b[1..])
    else var rest := Lines(b[1..]); [[b[0]] + rest[0]] + rest[1..]
  }

  function Steps(names: seq<string>, p: Progress, lines: seq<seq<Byte>>): Result<Progress>
    decreases |lines|
  {
    if lines == [] then Success(p)
    else if lines[0] == [] then Steps(names, p, lines[1..])
    else
      var next := Step(names, p, lines[0]);
      if next.Failure? then next else Steps(names, next.value, lines[1..])
  }

  const NOTHING := Progress(false, map[])

  function ParseFor(names: seq<string>, b: seq<Byte>): Result<Report> {
    if |b| > MAX_REPORT_BYTES then Failure(ReportTooLarge)
    else
      var read := Steps(names, NOTHING, Lines(b));
      if read.Failure? then Failure(read.error)
      else if |read.value.fields| != |names| then Failure(Incomplete)
      else if !read.value.schema then Failure(MissingSchema)
      else Success(Report(1, read.value.fields))
  }

  function Parse(b: seq<Byte>): Result<Report> { ParseFor(FIELDS, b) }

  // --- the field names ---

  predicate IsNameChar(c: char) { 'a' <= c <= 'z' || 'A' <= c <= 'Z' || c == '_' || c == '.' }

  predicate IsName(s: string) { |s| <= 40 && forall i :: 0 <= i < |s| ==> IsNameChar(s[i]) }

  lemma FirstNames(i: nat)
    requires i < 14
    ensures IsName(FIELDS[i])
  {
  }

  lemma MiddleNames(i: nat)
    requires 14 <= i < 21
    ensures IsName(FIELDS[i])
  {
  }

  lemma LongNames()
    ensures IsName(FIELDS[21])
  {
  }

  lemma LongestName()
    ensures IsName(FIELDS[22])
  {
  }

  lemma LastNames(i: nat)
    requires 23 <= i < |FIELDS|
    ensures IsName(FIELDS[i])
  {
  }

  lemma NameIsPlain(i: nat)
    requires i < |FIELDS|
    ensures IsName(FIELDS[i])
  {
    if i < 14 { FirstNames(i); }
    else if i < 21 { MiddleNames(i); }
    else if i == 21 { LongNames(); }
    else if i == 22 { LongestName(); }
    else { LastNames(i); }
  }

  /** A name's position, read off its length and at most one letter. */
  function Position(s: string): int {
    if |s| == 2 then 0
    else if |s| == 6 then 2
    else if |s| == 8 then 14
    else if |s| == 10 then (if s[0] == 'o' then 1 else if s[0] == 'g' then 11 else 26)
    else if |s| == 11 then (if s[0] == 's' then 5 else 9)
    else if |s| == 12 then 3
    else if |s| == 13 then (if s[2] == 'c' then 7 else 12)
    else if |s| == 14 then (if s[0] == 'e' then 4 else if s[0] == 'v' then 6 else if s[0] == 'g' then 10 else -1)
    else if |s| == 15 then (if s[0] == 'd' then 16 else 25)
    else if |s| == 16 then (if s[0] == 'g' then 8 else 13)
    else if |s| == 17 then 15
    else if |s| == 19 then 20
    else if |s| == 20 then 19
    else if |s| == 23 then (if s[8] == 'C' then 17 else 18)
    else if |s| == 25 then 23
    else if |s| == 30 then 24
    else if |s| == 34 then 21
    else if |s| == 35 then 22
    else -1
  }

  lemma FirstPositions(i: nat)
    requires i < 14
    ensures Position(FIELDS[i]) == i
  {
  }

  lemma LastPositions(i: nat)
    requires 14 <= i < |FIELDS|
    ensures Position(FIELDS[i]) == i
  {
  }

  lemma PositionOf(i: nat)
    requires i < |FIELDS|
    ensures Position(FIELDS[i]) == i
  {
    if i < 14 { FirstPositions(i); } else { LastPositions(i); }
  }

  /** What the proofs need of a list of names: none twice, none with a colon, none the schema version. */
  ghost predicate AreNames(names: seq<string>) {
    && |names| <= 27
    && (forall i :: 0 <= i < |names| ==> IsName(names[i]) && names[i] != "schema_version")
    && (forall i, j :: 0 <= i < j < |names| ==> names[i] != names[j])
  }

  lemma FieldsAreNames()
    ensures AreNames(FIELDS)
  {
    assert Position("schema_version") == -1;
    forall i | 0 <= i < |FIELDS| ensures IsName(FIELDS[i]) && Position(FIELDS[i]) == i {
      NameIsPlain(i);
      PositionOf(i);
    }
  }

  // --- what parse can return ---

  predicate IsValue(s: string) { Len(s) <= MAX_VALUE_BYTES && forall c :: c in s ==> !IsControl(c) }

  predicate IsField(f: Field) {
    if f.status == Ok then f.value.Some? && IsValue(f.value.value) else f.value.None?
  }

  /** Exactly the listed fields, each a clean value of bounded size or a status without one. */
  ghost predicate IsReport(names: seq<string>, r: Report) {
    && r.schemaVersion == 1
    && (forall name :: name in r.fields <==> name in names)
    && (forall name :: name in r.fields ==> IsField(r.fields[name]))
  }

  lemma {:induction false} NormalizedIsValue(value: string, room: nat)
    ensures Len(Normalized(value, room)) <= room
    ensures forall c :: c in Normalized(value, room) ==> !IsControl(c)
    decreases |value|
  {
    if value != "" && Width(Printed(value[0])) <= room {
      var rest := Normalized(value[1..], room - Width(Printed(value[0])));
      NormalizedIsValue(value[1..], room - Width(Printed(value[0])));
      assert ([Printed(value[0])] + rest)[1..] == rest;
    }
  }

  ghost predicate Kept(names: seq<string>, p: Progress) {
    forall name :: name in p.fields ==> name in names && IsField(p.fields[name])
  }

  lemma KeepKeeps(names: seq<string>, p: Progress, name: string, status: Status, value: string)
    requires Kept(names, p)
    ensures Keep(names, p, name, status, value).Success? ==> Kept(names, Keep(names, p, name, status, value).value)
  {
    NormalizedIsValue(value, MAX_VALUE_BYTES);
  }

  lemma StepKeeps(names: seq<string>, p: Progress, raw: seq<Byte>)
    requires Kept(names, p)
    ensures Step(names, p, raw).Success? ==> Kept(names, Step(names, p, raw).value)
  {
    if Step(names, p, raw).Success? {
      var (name, rest) := SplitOnce(DecodeLossy(raw)).value;
      var (status, value) := SplitOnce(rest).value;
      KeepKeeps(names, p, name, StatusOf(status).value, value);
    }
  }

  lemma {:induction false} StepsKeep(names: seq<string>, p: Progress, lines: seq<seq<Byte>>)
    requires Kept(names, p)
    ensures Steps(names, p, lines).Success? ==> Kept(names, Steps(names, p, lines).value)
    decreases |lines|
  {
    if lines != [] {
      if lines[0] == [] {
        StepsKeep(names, p, lines[1..]);
      } else {
        StepKeeps(names, p, lines[0]);
        if Step(names, p, lines[0]).Success? {
          StepsKeep(names, Step(names, p, lines[0]).value, lines[1..]);
        }
      }
    }
  }

  lemma {:induction false} DistinctCount(names: seq<string>) returns (all: set<string>)
    requires forall i, j :: 0 <= i < j < |names| ==> names[i] != names[j]
    ensures |all| == |names| && forall name :: name in all <==> name in names
  {
    if names == [] {
      all := {};
    } else {
      var rest := DistinctCount(names[1..]);
      assert names == [names[0]] + names[1..];
      all := rest + {names[0]};
    }
  }

  lemma {:induction false} FullSubset(a: set<string>, b: set<string>)
    requires a <= b && |a| == |b|
    ensures a == b
    decreases a
  {
    if a == {} {
      assert b == {};
    } else {
      var x :| x in a;
      FullSubset(a - {x}, b - {x});
    }
  }

  lemma ParsedIsReportFor(names: seq<string>, b: seq<Byte>)
    requires AreNames(names) && ParseFor(names, b).Success?
    ensures IsReport(names, ParseFor(names, b).value)
  {
    StepsKeep(names, NOTHING, Lines(b));
    var fields := ParseFor(names, b).value.fields;
    var all := DistinctCount(names);
    assert |fields.Keys| == |fields|;
    FullSubset(fields.Keys, all);
  }

  // --- parsing what text printed ---

  lemma {:induction false} SplitsAfter(name: string, rest: string)
    requires ':' !in name
    ensures SplitOnce(name + ": " + rest) == Some((name, rest))
  {
    var s := name + ": " + rest;
    if name == "" {
      assert s == ": " + rest && s[2..] == rest;
    } else {
      assert s[1..] == name[1..] + ": " + rest;
      SplitsAfter(name[1..], rest);
      assert [name[0]] + name[1..] == name;
    }
  }

  lemma {:induction false} NormalizedKeeps(value: string, room: nat)
    requires Len(value) <= room && forall c :: c in value ==> !IsControl(c)
    ensures Normalized(value, room) == value
  {
    if value != "" {
      NormalizedKeeps(value[1..], room - Width(value[0]));
    }
  }

  lemma LineLen(name: string, status: string, value: string)
    ensures Len(Line(name, status, value)) == Len(name) + Len(status) + Len(value) + 4
  {
    var colon := ": ";
    assert colon[1..] == " " && " "[1..] == "";
    assert Len(colon) == 2;
    EncodeAppend(status + colon, value);
    EncodeAppend(status, colon);
    EncodeAppend(name + colon, status + colon + value);
    EncodeAppend(name, colon);
  }

  lemma StatusReadsBack(s: Status)
    ensures StatusOf(StatusText(s)) == Some(s) && ':' !in StatusText(s)
  {
  }

  /** A printed line is read back as its name, status and value. */
  lemma LineReadsBack(names: seq<string>, p: Progress, name: string, status: Status, value: string)
    requires ':' !in name && IsValue(value)
    ensures Step(names, p, Encode(Line(name, StatusText(status), value))) == Keep(names, p, name, status, value)
  {
    var text := StatusText(status);
    StatusReadsBack(status);
    DecodeUndoesEncode(Line(name, text, value));
    SplitsAfter(name, text + ": " + value);
    SplitsAfter(text, value);
    LineLen(name, text, value);
  }

  /** Keeping a printed field restores it. */
  lemma FieldReadsBack(names: seq<string>, p: Progress, name: string, f: Field)
    requires IsName(name) && name != "schema_version" && name in names && name !in p.fields && IsField(f)
    ensures Step(names, p, Encode(FieldLine(name, f))) == Success(p.(fields := p.fields[name := f]))
  {
    var value := ValueText(f.value);
    if f.status == Ok { NormalizedKeeps(value, MAX_VALUE_BYTES); } else { assert Encode("") == []; }
    LineReadsBack(names, p, name, f.status, value);
  }

  lemma {:induction false} LinesSplit(line: seq<Byte>, rest: seq<Byte>)
    requires NEWLINE !in line
    ensures Lines(line + [NEWLINE] + rest) == [line] + Lines(rest)
  {
    var b := line + [NEWLINE] + rest;
    if line == [] {
      assert b[1..] == rest;
    } else {
      assert b[1..] == line[1..] + [NEWLINE] + rest;
      LinesSplit(line[1..], rest);
      assert [line[0]] + line[1..] == line;
    }
  }

  lemma {:induction false} NoNewline(s: string)
    requires '\n' !in s
    ensures NEWLINE !in Encode(s)
  {
    if s != "" {
      NoNewline(s[1..]);
    }
  }

  /** One printed line in front of further output: it is parsed first, and alone. */
  lemma LineIsFirst(names: seq<string>, p: Progress, line: string, rest: string)
    requires '\n' !in line && line != ""
    ensures var next := Step(names, p, Encode(line));
            Steps(names, p, Lines(Encode(line + "\n" + rest))) ==
            if next.Failure? then next else Steps(names, next.value, Lines(Encode(rest)))
  {
    EncodeAppend(line + "\n", rest);
    EncodeAppend(line, "\n");
    assert "\n"[1..] == "";
    assert Encode("\n") == [NEWLINE];
    NoNewline(line);
    LinesSplit(Encode(line), Encode(rest));
    assert ([Encode(line)] + Lines(Encode(rest)))[1..] == Lines(Encode(rest));
  }

  lemma LineIsClean(name: string, status: Status, value: string)
    requires IsName(name) && IsValue(value)
    ensures '\n' !in Line(name, StatusText(status), value) && Line(name, StatusText(status), value) != ""
  {
  }

  ghost function Restricted(fields: map<string, Field>, names: seq<string>): map<string, Field> {
    map name | name in fields && name in names :: fields[name]
  }

  lemma RestrictedGrows(fields: map<string, Field>, names: seq<string>, k: nat)
    requires k < |names| && names[k] in fields
    ensures Restricted(fields, names[..k])[names[k] := fields[names[k]]] == Restricted(fields, names[..k + 1])
  {
    assert names[..k + 1] == names[..k] + [names[k]];
  }

  /** Reading the printed fields one by one restores the map. */
  lemma {:induction false} FieldsReadBack(names: seq<string>, k: nat, p: Progress, r: Report)
    requires AreNames(names) && IsReport(names, r) && k <= |names|
    requires p.fields == Restricted(r.fields, names[..k])
    ensures Steps(names, p, Lines(Encode(TextOf(names[k..], r)))) == Success(p.(fields := r.fields))
    decreases |names| - k
  {
    if k == |names| {
      assert names[k..] == [] && names[..k] == names;
      assert p.fields == r.fields;
      assert Lines([]) == [[]];
    } else {
      var name := names[k];
      var f := r.fields[name];
      assert name !in names[..k];
      assert names[k..][0] == name && names[k..][1..] == names[k + 1..];
      RestrictedGrows(r.fields, names, k);
      FieldReadsBack(names, p, name, f);
      LineIsClean(name, f.status, ValueText(f.value));
      LineIsFirst(names, p, FieldLine(name, f), TextOf(names[k + 1..], r));
      FieldsReadBack(names, k + 1, p.(fields := p.fields[name := f]), r);
    }
  }

  // --- the size bound ---

  lemma {:induction false} NameLen(s: string)
    requires IsName(s)
    ensures Len(s) == |s|
  {
    if s != "" {
      NameLen(s[1..]);
    }
  }

  lemma StatusLen(s: Status)
    ensures Len(StatusText(s)) <= 14
  {
    NameLen(StatusText(s));
  }

  lemma FieldLineLen(name: string, f: Field)
    requires IsName(name) && IsField(f)
    ensures Len(FieldLine(name, f)) <= 570
  {
    NameLen(name);
    StatusLen(f.status);
    assert Len("") == 0;
    LineLen(name, StatusText(f.status), ValueText(f.value));
  }

  lemma TerminatedLen(line: string, rest: string)
    ensures Len(line + "\n" + rest) == Len(line) + 1 + Len(rest)
  {
    EncodeAppend(line + "\n", rest);
    EncodeAppend(line, "\n");
    assert "\n"[1..] == "";
    assert Len("\n") == 1;
  }

  lemma {:induction false} TextLen(names: seq<string>, r: Report)
    requires forall name :: name in names ==> IsName(name) && name in r.fields && IsField(r.fields[name])
    ensures Len(TextOf(names, r)) <= 571 * |names|
  {
    if names == [] {
      assert Len("") == 0;
    } else {
      FieldLineLen(names[0], r.fields[names[0]]);
      TextLen(names[1..], r);
      TerminatedLen(FieldLine(names[0], r.fields[names[0]]), TextOf(names[1..], r));
    }
  }

  // --- the round trip ---

  lemma OneIsValue()
    ensures IsValue("1") && Len("1") == 1 && Digits(1) == "1"
  {
    assert "1"[1..] == "";
  }

  lemma SchemaIsName()
    ensures IsName("schema_version") && IsName("ok")
  {
  }

  lemma SchemaLineReadsBack(names: seq<string>)
    ensures Step(names, NOTHING, Encode(SchemaLine(1))) == Success(Progress(true, map[]))
  {
    OneIsValue();
    SchemaIsName();
    LineReadsBack(names, NOTHING, "schema_version", Ok, "1");
  }

  lemma SchemaLineIsShort()
    ensures '\n' !in SchemaLine(1) && SchemaLine(1) != "" && Len(SchemaLine(1)) <= 40
  {
    OneIsValue();
    SchemaIsName();
    NameLen("schema_version");
    NameLen("ok");
    LineLen("schema_version", "ok", "1");
    LineIsClean("schema_version", Ok, "1");
  }

  lemma ReadsBackAfter(names: seq<string>, r: Report, line: string)
    requires AreNames(names) && IsReport(names, r)
    requires '\n' !in line && line != "" && Step(names, NOTHING, Encode(line)) == Success(Progress(true, map[]))
    ensures Steps(names, NOTHING, Lines(Encode(line + "\n" + TextOf(names, r)))) == Success(Progress(true, r.fields))
  {
    LineIsFirst(names, NOTHING, line, TextOf(names, r));
    assert names[0..] == names;
    assert Restricted(r.fields, names[..0]) == map[];
    FieldsReadBack(names, 0, Progress(true, map[]), r);
  }

  lemma PrintedFits(names: seq<string>, r: Report)
    requires AreNames(names) && IsReport(names, r)
    ensures Len(SchemaLine(1) + "\n" + TextOf(names, r)) <= MAX_REPORT_BYTES
  {
    SchemaLineIsShort();
    TextLen(names, r);
    TerminatedLen(SchemaLine(1), TextOf(names, r));
  }

  lemma FieldCount(names: seq<string>, r: Report)
    requires AreNames(names) && IsReport(names, r)
    ensures |r.fields| == |names|
  {
    var all := DistinctCount(names);
    assert r.fields.Keys == all;
    assert |r.fields.Keys| == |r.fields|;
  }

  lemma ReadsBackFor(names: seq<string>, r: Report)
    requires AreNames(names) && IsReport(names, r)
    ensures ParseFor(names, Encode(SchemaLine(1) + "\n" + TextOf(names, r))) == Success(r)
  {
    SchemaLineReadsBack(names);
    SchemaLineIsShort();
    ReadsBackAfter(names, r, SchemaLine(1));
    PrintedFits(names, r);
    FieldCount(names, r);
  }

  /** `parse` undoes `text` on every report with the listed fields and clean values. */
  lemma ParseUndoesText(r: Report)
    requires IsReport(FIELDS, r)
    ensures Parse(Encode(Text(r))) == Success(r)
  {
    FieldsAreNames();
    ReadsBackFor(FIELDS, r);
  }

  lemma ParsedIsReport(b: seq<Byte>)
    ensures Parse(b).Success? ==> IsReport(FIELDS, Parse(b).value)
  {
    if Parse(b).Success? {
      FieldsAreNames();
      ParsedIsReportFor(FIELDS, b);
    }
  }

  /** Whatever bytes were parsed, printing the report and parsing it again gives the same report. */
  lemma ReprintedIsSame(b: seq<Byte>)
    ensures Parse(b).Success? ==>
      var r := Parse(b).value; Printable(FIELDS, r) && Parse(Encode(Text(r))) == Success(r)
  {
    if Parse(b).Success? {
      ParsedIsReport(b);
      ParseUndoesText(Parse(b).value);
    }
  }

  /** The reports `parse` can return are exactly those. */
  lemma ParseRange(r: Report)
    ensures IsReport(FIELDS, r) <==> exists b :: Parse(b) == Success(r)
  {
    if IsReport(FIELDS, r) {
      ParseUndoesText(r);
    }
    forall b | Parse(b) == Success(r) ensures IsReport(FIELDS, r) {
      ParsedIsReport(b);
    }
  }

  // --- the loops ---

  lemma LenGrows(s: string, c: char)
    ensures Len(s + [c]) == Len(s) + Width(c)
  {
    EncodeAppend(s, [c]);
    assert [c][1..] == "";
    assert Encode([c]) == EncodeChar(c);
  }

  /** The normalising loop of `parse`: it stops at the first character that does not fit. */
  method Normalize(value: string) returns (normalized: string)
    ensures normalized == Normalized(value, MAX_VALUE_BYTES)
  {
    normalized := "";
    var used := 0;
    var i := 0;
    while i < |value|
      invariant 0 <= i <= |value|
      invariant used == Len(normalized) <= MAX_VALUE_BYTES
      invariant Normalized(value, MAX_VALUE_BYTES) == normalized + Normalized(value[i..], MAX_VALUE_BYTES - used)
    {
      var c := Printed(value[i]);
      if used + Width(c) > MAX_VALUE_BYTES { break; }
      LenGrows(normalized, c);
      assert value[i..][0] == value[i] && value[i..][1..] == value[i + 1..];
      Associative(normalized, [c], Normalized(value[i + 1..], MAX_VALUE_BYTES - used - Width(c)));
      normalized := normalized + [c];
      used := used + Width(c);
      i := i + 1;
    }
  }

  method HasAsciiControl(value: string) returns (found: bool)
    ensures found <==> exists c :: c in value && IsAsciiControl(c)
  {
    found := false;
    for i := 0 to |value|
      invariant found <==> exists c :: c in value[..i] && IsAsciiControl(c)
    {
      assert value[..i + 1] == value[..i] + [value[i]];
      if IsAsciiControl(value[i]) { found := true; }
    }
    assert value[..|value|] == value;
  }

  /** The body of the record loop. */
  method ParseLine(p: Progress, raw: seq<Byte>) returns (next: Result<Progress>)
    ensures next == Step(FIELDS, p, raw)
  {
    var first := SplitOnce(DecodeLossy(raw));
    if first.None? { return Failure(InvalidRecord); }
    var (name, rest) := first.value;
    var second := SplitOnce(rest);
    if second.None? { return Failure(InvalidStatus); }
    var (statusText, value) := second.value;
    var framing := Len(name) + Len(statusText) + 4;
    if |raw| < framing { return Failure(InvalidFraming); }
    if |raw| - framing > MAX_VALUE_BYTES { return Failure(FieldTooLarge); }
    var control := HasAsciiControl(value);
    if control { return Failure(InvalidValue); }
    var status := StatusOf(statusText);
    if status.None? { return Failure(UnknownStatus); }
    if name == "schema_version" {
      if p.schema { return Failure(DuplicateSchema); }
      if status.value != Ok || value != "1" { return Failure(UnsupportedSchema); }
      return Success(p.(schema := true));
    }
    if name !in FIELDS { return Failure(UnknownField); }
    var kept: Option<string>;
    if status.value == Ok {
      var normalized := Normalize(value);
      kept := Some(normalized);
    } else {
      if value != "" { return Failure(UnexpectedValue); }
      kept := None;
    }
    if name in p.fields { return Failure(DuplicateField); }
    next := Success(p.(fields := p.fields[name := Field(status.value, kept)]));
  }

  /** `DiagnosticsReport::parse`. */
  method ParseReport(b: seq<Byte>) returns (result: Result<Report>)
    ensures result == Parse(b)
  {
    if |b| > MAX_REPORT_BYTES { return Failure(ReportTooLarge); }
    var lines := Lines(b);
    var p := NOTHING;
    var i := 0;
    while i < |lines|
      invariant 0 <= i <= |lines|
      invariant Steps(FIELDS, p, lines[i..]) == Steps(FIELDS, NOTHING, lines)
    {
      assert lines[i..][0] == lines[i] && lines[i..][1..] == lines[i + 1..];
      if lines[i] != [] {
        var next := ParseLine(p, lines[i]);
        if next.Failure? { return Failure(next.error); }
        p := next.value;
      }
      i := i + 1;
    }
    if |p.fields| != |FIELDS| { return Failure(Incomplete); }
    if !p.schema { return Failure(MissingSchema); }
    result := Success(Report(1, p.fields));
  }

  lemma {:induction false} TextGrows(names: seq<string>, k: nat, r: Report)
    requires k < |names| && Printable(names, r)
    ensures TextOf(names[..k + 1], r) == TextOf(names[..k], r) + (FieldLine(names[k], r.fields[names[k]]) + "\n")
    decreases k
  {
    if k == 0 {
      assert names[..1] == [names[0]] && names[..0] == [] && [names[0]][1..] == [];
    } else {
      TextGrows(names[1..], k - 1, r);
      Associative(FieldLine(names[0], r.fields[names[0]]) + "\n", TextOf(names[1..][..k - 1], r),
                  FieldLine(names[k], r.fields[names[k]]) + "\n");
      assert names[..k + 1][0] == names[0] && names[..k + 1][1..] == names[1..][..k];
      assert names[..k][0] == names[0] && names[..k][1..] == names[1..][..k - 1];
    }
  }

  /** The loop of `text`, behind the line already printed. */
  method PrintFields(header: string, names: seq<string>, r: Report) returns (text: string)
    requires Printable(names, r)
    ensures text == header + TextOf(names, r)
  {
    text := header;
    for i := 0 to |names|
      invariant text == header + TextOf(names[..i], r)
    {
      var field := r.fields[names[i]];
      var line := FieldLine(names[i], field) + "\n";
      TextGrows(names, i, r);
      Associative(header, TextOf(names[..i], r), line);
      text := text + line;
    }
    assert names[..|names|] == names;
  }

  /** `DiagnosticsReport::text`. */
  method PrintReport(r: Report) returns (text: string)
    requires Printable(FIELDS, r)
    ensures text == Text(r)
  {
    text := PrintFields(SchemaLine(r.schemaVersion) + "\n", FIELDS, r);
  }
}
