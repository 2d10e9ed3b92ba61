/**
 Exactly which inputs are diagnostics reports, and what they say: a declarative
 reading of the input, without the parser's order of checks.
 */
module DiagnosticsExact {
  import opened Basics
  import opened Utf8
  import opened Diagnostics

  const SCHEMA: string := "schema_version"

  datatype Record = Record(name: string, status: Status, value: string)

  /** The raw line reads, with ill-formed bytes replaced, as this record, within the limits set for it. */
  ghost predicate Reads(names: seq<string>, raw: seq<Byte>, r: Record) {
    && (r.name == SCHEMA || r.name in names)
    && DecodeLossy(raw) == Line(r.name, StatusText(r.status), r.value)
    && var framing := Len(r.name) + Len(StatusText(r.status)) + 4;
    && framing <= |raw| <= framing + MAX_VALUE_BYTES
    && (forall c :: c in r.value ==> !IsAsciiControl(c))
    && (if r.name == SCHEMA then r.status == Ok && r.value == "1" else r.status == Ok || r.value == "")
  }

  function FieldOf(r: Record): Field {
    Field(r.status, if r.status == Ok then Some(Normalized(r.value, MAX_VALUE_BYTES)) else None)
  }

  predicate Unused(p: Progress, r: Record) { if r.name == SCHEMA then !p.schema else r.name !in p.fields }

  function With(p: Progress, r: Record): Progress {
    if r.name == SCHEMA then p.(schema := true) else p.(fields := p.fields[r.name := FieldOf(r)])
  }

  // --- one line ---

  lemma {:induction false} SplitIsSound(s: string)
    ensures SplitOnce(s).Some? ==> s == SplitOnce(s).value.0 + ": " + SplitOnce(s).value.1
  {
    if |s| >= 2 && !(s[0] == ':' && s[1] == ' ') {
      SplitIsSound(s[1..]);
    }
  }

  lemma StatusIsSound(text: string)
    ensures StatusOf(text).Some? ==> StatusText(StatusOf(text).value) == text
  {
  }

  lemma ReadIsSplit(names: seq<string>, p: Progress, raw: seq<Byte>, r: Record)
    requires Reads(names, raw, r) && ':' !in r.name
    ensures Step(names, p, raw) == Keep(names, p, r.name, r.status, r.value)
  {
    var text := StatusText(r.status);
    StatusReadsBack(r.status);
    SplitsAfter(r.name, text + ": " + r.value);
    SplitsAfter(text, r.value);
  }

  lemma KeepIsWith(names: seq<string>, p: Progress, r: Record)
    requires (r.name == SCHEMA || r.name in names) && Unused(p, r)
    requires if r.name == SCHEMA then r.status == Ok && r.value == "1" else r.status == Ok || r.value == ""
    ensures Keep(names, p, r.name, r.status, r.value) == Success(With(p, r))
  {
  }

  lemma ReadIsKept(names: seq<string>, p: Progress, raw: seq<Byte>, r: Record)
    requires Reads(names, raw, r) && ':' !in r.name && Unused(p, r)
    ensures Step(names, p, raw) == Success(With(p, r))
  {
    ReadIsSplit(names, p, raw, r);
    KeepIsWith(names, p, r);
  }

  lemma KeptWasRead(names: seq<string>, p: Progress, raw: seq<Byte>) returns (r: Record)
    requires Step(names, p, raw).Success?
    ensures Reads(names, raw, r) && Unused(p, r) && Step(names, p, raw).value == With(p, r)
  {
    var line := DecodeLossy(raw);
    SplitIsSound(line);
    var (name, rest) := SplitOnce(line).value;
    SplitIsSound(rest);
    var (status, value) := SplitOnce(rest).value;
    StatusIsSound(status);
    r := Record(name, StatusOf(status).value, value);
  }

  // --- all lines ---

  /** Splitting at newlines loses nothing. */
  function Joined(lines: seq<seq<Byte>>): seq<Byte>
    requires lines != []
  {
    if |lines| == 1 then lines[0] else lines[0] + [NEWLINE] + Joined(lines[1..])
  }

  lemma {:induction false} LinesAreTheInput(b: seq<Byte>)
    ensures Joined(Lines(b)) == b && forall i :: 0 <= i < |Lines(b)| ==> NEWLINE !in Lines(b)[i]
    decreases |b|
  {
    if b != [] {
      LinesAreTheInput(b[1..]);
      var rest := Lines(b[1..]);
      if b[0] == NEWLINE {
        assert ([[]] + rest)[1..] == rest;
        assert [] + [NEWLINE] + b[1..] == b;
      } else {
        var first := [b[0]] + rest[0];
        var all := [first] + rest[1..];
        assert all[1..] == rest[1..];
        if |rest| > 1 {
          assert first + [NEWLINE] + Joined(rest[1..]) == [b[0]] + (rest[0] + [NEWLINE] + Joined(rest[1..]));
        }
        assert [b[0]] + b[1..] == b;
      }
    }
  }

  function NonEmpty(lines: seq<seq<Byte>>): seq<seq<Byte>> {
    if lines == [] then []
    else if lines[0] == [] then NonEmpty(lines[1..])
    else [lines[0]] + NonEmpty(lines[1..])
  }

  /** The records are those of the non-empty lines, in order. */
  ghost predicate Describes(names: seq<string>, lines: seq<seq<Byte>>, records: seq<Record>) {
    |lines| == |records| && forall i :: 0 <= i < |lines| ==> Reads(names, lines[i], records[i])
  }

  ghost predicate DistinctNames(records: seq<Record>) {
    forall i, j :: 0 <= i < j < |records| ==> records[i].name != records[j].name
  }

  function WithAll(p: Progress, records: seq<Record>): Progress
    decreases |records|
  {
    if records == [] then p else WithAll(With(p, records[0]), records[1..])
  }

  ghost predicate AllUnused(p: Progress, records: seq<Record>) {
    forall i :: 0 <= i < |records| ==> Unused(p, records[i])
  }

  lemma {:induction false} StepsSkipEmpty(names: seq<string>, p: Progress, lines: seq<seq<Byte>>)
    ensures Steps(names, p, lines) == Steps(names, p, NonEmpty(lines))
    decreases |lines|
  {
    if lines != [] {
      if lines[0] == [] {
        StepsSkipEmpty(names, p, lines[1..]);
      } else {
        assert ([lines[0]] + NonEmpty(lines[1..]))[1..] == NonEmpty(lines[1..]);
        var next := Step(names, p, lines[0]);
        if next.Success? { StepsSkipEmpty(names, next.value, lines[1..]); }
      }
    }
  }

  lemma ReadLineIsNotEmpty(names: seq<string>, raw: seq<Byte>, r: Record)
    requires Reads(names, raw, r)
    ensures raw != []
  {
  }

  lemma {:induction false} ReadsAreKept(names: seq<string>, p: Progress, lines: seq<seq<Byte>>, records: seq<Record>)
    requires Describes(names, lines, records) && DistinctNames(records) && AllUnused(p, records)
    requires SCHEMA !in names && forall i :: 0 <= i < |records| ==> ':' !in records[i].name
    ensures Steps(names, p, lines) == Success(WithAll(p, records))
    decreases |lines|
  {
    if lines != [] {
      ReadLineIsNotEmpty(names, lines[0], records[0]);
      ReadIsKept(names, p, lines[0], records[0]);
      ReadsAreKept(names, With(p, records[0]), lines[1..], records[1..]);
    }
  }

  /** Each record is unused when its turn comes. */
  predicate Chain(p: Progress, records: seq<Record>)
    decreases |records|
  {
    records == [] || (Unused(p, records[0]) && Chain(With(p, records[0]), records[1..]))
  }

  lemma UnusedBefore(p: Progress, first: Record, r: Record)
    requires Unused(With(p, first), r)
    ensures r.name != first.name && Unused(p, r)
  {
  }

  lemma {:induction false} ChainMeansDistinct(p: Progress, records: seq<Record>)
    requires Chain(p, records)
    ensures AllUnused(p, records) && DistinctNames(records)
    decreases |records|
  {
    if records != [] {
      var rest := records[1..];
      ChainMeansDistinct(With(p, records[0]), rest);
      forall i | 1 <= i < |records| ensures records[i].name != records[0].name && Unused(p, records[i]) {
        assert records[i] == rest[i - 1];
        UnusedBefore(p, records[0], rest[i - 1]);
      }
      forall i, j | 0 <= i < j < |records| ensures records[i].name != records[j].name {
        if i > 0 { assert records[i] == rest[i - 1] && records[j] == rest[j - 1]; }
      }
    }
  }

  lemma OneMoreDescribes(names: seq<string>, lines: seq<seq<Byte>>, first: Record, rest: seq<Record>)
    requires lines != [] && Reads(names, lines[0], first) && Describes(names, lines[1..], rest)
    ensures Describes(names, lines, [first] + rest)
  {
    forall i | 0 <= i < |lines| ensures Reads(names, lines[i], ([first] + rest)[i]) {
      if i > 0 { assert lines[i] == lines[1..][i - 1] && ([first] + rest)[i] == rest[i - 1]; }
    }
  }

  lemma OneMoreChained(p: Progress, first: Record, rest: seq<Record>)
    requires Unused(p, first) && Chain(With(p, first), rest)
    ensures Chain(p, [first] + rest) && WithAll(p, [first] + rest) == WithAll(With(p, first), rest)
  {
    assert ([first] + rest)[1..] == rest;
  }

  lemma FirstWasRead(names: seq<string>, p: Progress, lines: seq<seq<Byte>>) returns (first: Record)
    requires lines != [] && lines[0] != [] && Steps(names, p, lines).Success?
    ensures Reads(names, lines[0], first) && Unused(p, first)
    ensures Steps(names, p, lines) == Steps(names, With(p, first), lines[1..])
  {
    first := KeptWasRead(names, p, lines[0]);
  }

  ghost predicate Explains(
    names: seq<string>, p: Progress, lines: seq<seq<Byte>>, records: seq<Record>, end: Progress)
  {
    Describes(names, lines, records) && Chain(p, records) && end == WithAll(p, records)
  }

  lemma OneMoreExplains(names: seq<string>, p: Progress, lines: seq<seq<Byte>>, first: Record, rest: seq<Record>,
                        end: Progress)
    requires lines != [] && Reads(names, lines[0], first) && Unused(p, first)
    requires Explains(names, With(p, first), lines[1..], rest, end)
    ensures Explains(names, p, lines, [first] + rest, end)
  {
    OneMoreDescribes(names, lines, first, rest);
    OneMoreChained(p, first, rest);
  }

  predicate NoneEmpty(lines: seq<seq<Byte>>) { forall i :: 0 <= i < |lines| ==> lines[i] != [] }

  lemma TailNonEmpty(lines: seq<seq<Byte>>)
    requires lines != [] && NoneEmpty(lines)
    ensures lines[0] != [] && NoneEmpty(lines[1..])
  {
  }

  lemma NothingExplains(names: seq<string>, p: Progress, end: Progress)
    requires end == p
    ensures Explains(names, p, [], [], end)
  {
  }

  lemma {:induction false} KeptWereRead(names: seq<string>, p: Progress, lines: seq<seq<Byte>>, end: Progress)
    returns (records: seq<Record>)
    requires Steps(names, p, lines) == Success(end) && NoneEmpty(lines)
    ensures Explains(names, p, lines, records, end)
    decreases |lines|
  {
    if lines == [] {
      records := [];
      NothingExplains(names, p, end);
    } else {
      var first := FirstWasRead(names, p, lines);
      var tail := lines[1..];
      TailNonEmpty(lines);
      var rest := KeptWereRead(names, With(p, first), tail, end);
      OneMoreExplains(names, p, lines, first, rest, end);
      records := [first] + rest;
    }
  }

  // --- the whole input ---

  ghost predicate Named(names: seq<string>, p: Progress) { forall name :: name in p.fields ==> name in names }

  lemma {:induction false} CountsRecords(names: seq<string>, p: Progress, records: seq<Record>)
    requires DistinctNames(records) && AllUnused(p, records) && Named(names, p)
    requires forall i :: 0 <= i < |records| ==> records[i].name == SCHEMA || records[i].name in names
    ensures var all := WithAll(p, records);
            |all.fields| + Count(all.schema) == |p.fields| + Count(p.schema) + |records| && Named(names, all)
    decreases |records|
  {
    if records != [] {
      var next := With(p, records[0]);
      if records[0].name != SCHEMA { assert next.fields.Keys == p.fields.Keys + {records[0].name}; }
      CountsRecords(names, next, records[1..]);
    }
  }

  lemma FewNames(names: seq<string>, p: Progress)
    requires AreNames(names) && Named(names, p)
    ensures |p.fields| <= |names|
  {
    var all := DistinctCount(names);
    assert p.fields.Keys <= all;
    SmallerSet(p.fields.Keys, all);
    assert |p.fields.Keys| == |p.fields|;
  }

  lemma {:induction false} SmallerSet(a: set<string>, b: set<string>)
    requires a <= b
    ensures |a| <= |b|
    decreases a
  {
    if a != {} {
      var x :| x in a;
      SmallerSet(a - {x}, b - {x});
    }
  }

  /** The non-empty lines are one record for every field and one for the schema, in any order. */
  ghost predicate Says(names: seq<string>, b: seq<Byte>, records: seq<Record>) {
    && |b| <= MAX_REPORT_BYTES
    && Describes(names, NonEmpty(Lines(b)), records)
    && DistinctNames(records)
    && |records| == |names| + 1
  }

  lemma NamesArePlain(names: seq<string>, lines: seq<seq<Byte>>, records: seq<Record>)
    requires AreNames(names) && Describes(names, lines, records)
    ensures SCHEMA !in names
    ensures forall i :: 0 <= i < |records| ==> ':' !in records[i].name
    ensures forall i :: 0 <= i < |records| ==> records[i].name == SCHEMA || records[i].name in names
  {
    forall i | 0 <= i < |records|
      ensures ':' !in records[i].name && (records[i].name == SCHEMA || records[i].name in names)
    {
      assert Reads(names, lines[i], records[i]);
      PlainName(names, records[i].name);
    }
  }

  lemma PlainName(names: seq<string>, name: string)
    requires AreNames(names) && (name == SCHEMA || name in names)
    ensures ':' !in name
  {
    SchemaIsName();
    assert IsName(name);
  }

  lemma EnoughRecords(names: seq<string>, lines: seq<seq<Byte>>, records: seq<Record>)
    requires AreNames(names) && Describes(names, lines, records) && DistinctNames(records) && |records| == |names| + 1
    ensures |WithAll(NOTHING, records).fields| == |names| && WithAll(NOTHING, records).schema
  {
    NamesArePlain(names, lines, records);
    CountsRecords(names, NOTHING, records);
    FewNames(names, WithAll(NOTHING, records));
  }

  lemma Concludes(names: seq<string>, b: seq<Byte>, all: Progress)
    requires |b| <= MAX_REPORT_BYTES && Steps(names, NOTHING, Lines(b)) == Success(all)
    requires |all.fields| == |names| && all.schema
    ensures ParseFor(names, b) == Success(Report(1, all.fields))
  {
  }

  lemma SaidIsKept(names: seq<string>, lines: seq<seq<Byte>>, records: seq<Record>)
    requires AreNames(names) && Describes(names, NonEmpty(lines), records) && DistinctNames(records)
    ensures Steps(names, NOTHING, lines) == Success(WithAll(NOTHING, records))
  {
    NamesArePlain(names, NonEmpty(lines), records);
    ReadsAreKept(names, NOTHING, NonEmpty(lines), records);
    StepsSkipEmpty(names, NOTHING, lines);
  }

  lemma SaidIsParsed(names: seq<string>, b: seq<Byte>, records: seq<Record>)
    requires AreNames(names) && Says(names, b, records)
    ensures ParseFor(names, b) == Success(Report(1, WithAll(NOTHING, records).fields))
  {
    SaidIsKept(names, Lines(b), records);
    EnoughRecords(names, NonEmpty(Lines(b)), records);
    Concludes(names, b, WithAll(NOTHING, records));
  }

  lemma {:induction false} NonEmptyIsNonEmpty(lines: seq<seq<Byte>>)
    ensures forall i :: 0 <= i < |NonEmpty(lines)| ==> NonEmpty(lines)[i] != []
    decreases |lines|
  {
    if lines != [] { NonEmptyIsNonEmpty(lines[1..]); }
  }

  lemma ParsedWasSaid(names: seq<string>, b: seq<Byte>) returns (records: seq<Record>)
    requires AreNames(names) && ParseFor(names, b).Success?
    ensures Says(names, b, records) && ParseFor(names, b).value == Report(1, WithAll(NOTHING, records).fields)
  {
    StepsSkipEmpty(names, NOTHING, Lines(b));
    NonEmptyIsNonEmpty(Lines(b));
    records := KeptWereRead(names, NOTHING, NonEmpty(Lines(b)), Steps(names, NOTHING, Lines(b)).value);
    ChainMeansDistinct(NOTHING, records);
    NamesArePlain(names, NonEmpty(Lines(b)), records);
    CountsRecords(names, NOTHING, records);
  }

  /**
   An input parses to a report exactly when its non-empty lines are twenty-eight
   records with distinct names, the schema's and every field's, and the report is
   what those records say.
   */
  lemma ParsesExactly(b: seq<Byte>, r: Report)
    ensures Parse(b) == Success(r) <==>
            exists records :: Says(FIELDS, b, records) && r == Report(1, WithAll(NOTHING, records).fields)
  {
    FieldsAreNames();
    if Parse(b) == Success(r) {
      var records := ParsedWasSaid(FIELDS, b);
    }
    forall records | Says(FIELDS, b, records) && r == Report(1, WithAll(NOTHING, records).fields)
      ensures Parse(b) == Success(r)
    {
      SaidIsParsed(FIELDS, b, records);
    }
  }

  /** A kept value is the longest start of the given one that fits, with blanks for control characters. */
  lemma {:induction false} NormalizedExactly(value: string, room: nat)
    ensures var kept := Normalized(value, room);
            && |kept| <= |value|
            && (forall i :: 0 <= i < |kept| ==> kept[i] == if IsControl(value[i]) then ' ' else value[i])
            && Len(kept) <= room
            && (|kept| < |value| ==> Len(kept) + Width(Printed(value[|kept|])) > room)
    decreases |value|
  {
    if value != "" && Width(Printed(value[0])) <= room {
      var c := Printed(value[0]);
      NormalizedExactly(value[1..], room - Width(c));
      var rest := Normalized(value[1..], room - Width(c));
      assert ([c] + rest)[1..] == rest;
      assert Len([c] + rest) == Width(c) + Len(rest);
    }
  }
}
