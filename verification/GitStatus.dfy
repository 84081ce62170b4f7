/** The NUL-separated status of Git, porcelain format version 2 (hooks/git-snapshot.mjs): parser and printer. */
module GitStatus {
  import opened Common

  datatype Record = Record(raw: string, paths: seq<string>)

  // What Git reports for a path; `fields` are the columns between the kind and the path.
  datatype Entry =
    | Ordinary(fields: seq<string>, path: string)
    | Renamed(fields: seq<string>, path: string, original: string)
    | Unmerged(fields: seq<string>, path: string)
    | Untracked(path: string)
    | Ignored(path: string)

  // ---------- the parser ----------

  function IndexOf(s: string, c: char): (i: nat)
    ensures i <= |s| && c !in s[..i] && (i < |s| ==> s[i] == c)
  {
    if s == "" || s[0] == c then 0 else 1 + IndexOf(s[1..], c)
  }

  function Split(s: string): seq<string> {
    var i := IndexOf(s, '\0');
    if i == |s| then [s] else [s[..i]] + Split(s[i + 1..])
  }

  // The first n space-separated fields and the rest; too few fields leave no rest.
  function Fixed(record: string, n: nat): (seq<string>, string) {
    if n == 0 then ([], record)
    else
      var at := IndexOf(record, ' ');
      if at == |record| then ([record], "")
      else
        var (fields, rest) := Fixed(record[at + 1..], n - 1);
        ([record[..at]] + fields, rest)
  }

  function Cleaned(paths: seq<string>): seq<string> {
    if paths == [] then [] else (if paths[0] != "" then [paths[0]] else []) + Cleaned(paths[1..])
  }

  // The record at the head of the tokens, if it is one, and how many tokens it takes.
  function Head(tokens: seq<string>): (Option<Record>, nat)
    requires tokens != []
  {
    var raw := tokens[0];
    if raw == "" then (None, 1)
    else if raw[0] == '1' then (Some(Record(raw, [Fixed(raw, 8).1])), 1)
    else if raw[0] == '2' then
      var original := if |tokens| > 1 then tokens[1] else "";
      (Some(Record(raw + "\0" + original, Cleaned([Fixed(raw, 9).1, original]))), 2)
    else if raw[0] == 'u' then (Some(Record(raw, [Fixed(raw, 10).1])), 1)
    else if raw[0] == '?' || raw[0] == '!' then (Some(Record(raw, [if |raw| > 2 then raw[2..] else ""])), 1)
    else (None, 1)
  }

  function Records(tokens: seq<string>): seq<Record> {
    if tokens == [] then []
    else
      var (record, taken) := Head(tokens);
      (if record.Some? then [record.value] else []) + if taken < |tokens| then Records(tokens[taken..]) else []
  }

  method SplitFixed(record: string, n: nat) returns (fields: seq<string>, rest: string)
    ensures (fields, rest) == Fixed(record, n)
  {
    fields, rest := [], record;
    var i := 0;
    assert [] + Fixed(record, n).0 == Fixed(record, n).0;
    while i < n
      invariant i <= n
      invariant Fixed(record, n) == (fields + Fixed(rest, n - i).0, Fixed(rest, n - i).1)
    {
      var at := IndexOf(rest, ' ');
      if at == |rest| {
        return fields + [rest], "";
      }
      assert fields + ([rest[..at]] + Fixed(rest[at + 1..], n - i - 1).0)
             == (fields + [rest[..at]]) + Fixed(rest[at + 1..], n - i - 1).0;
      fields := fields + [rest[..at]];
      rest := rest[at + 1..];
      i := i + 1;
    }
    assert fields + [] == fields;
  }

  // The records from a position on: the one that starts there, then those after its tokens.
  lemma RecordsFrom(tokens: seq<string>, i: nat)
    requires i < |tokens|
    ensures var (record, taken) := Head(tokens[i..]);
            Records(tokens[i..]) == (if record.Some? then [record.value] else [])
                                    + Records(tokens[if i + taken < |tokens| then i + taken else |tokens|..])
  {
    hide Head;
    var (record, taken) := Head(tokens[i..]);
    if i + taken < |tokens| {
      assert tokens[i..][taken..] == tokens[i + taken..];
    } else {
      assert tokens[|tokens|..] == [];
    }
  }

  method ParseStatus(output: string) returns (records: seq<Record>)
    ensures records == Records(Split(output))
  {
    hide Split, Fixed, Records, Cleaned;
    var tokens := Split(output);
    records := [];
    var i := 0;
    assert tokens[0..] == tokens;
    while i < |tokens|
      invariant i <= |tokens|
      invariant Records(tokens) == records + Records(tokens[i..])
      decreases |tokens| - i
    {
      RecordsFrom(tokens, i);
      var raw := tokens[i];
      var record := None;
      if raw != "" {
        var kind := raw[0];
        if kind == '1' {
          var fields, path := SplitFixed(raw, 8);
          record := Some(Record(raw, [path]));
        } else if kind == '2' {
          var fields, path := SplitFixed(raw, 9);
          i := i + 1;
          var original := if i < |tokens| then tokens[i] else "";
          record := Some(Record(raw + "\0" + original, Cleaned([path, original])));
        } else if kind == 'u' {
          var fields, path := SplitFixed(raw, 10);
          record := Some(Record(raw, [path]));
        } else if kind == '?' || kind == '!' {
          record := Some(Record(raw, [if |raw| > 2 then raw[2..] else ""]));
        }
      }
      i := if i + 1 < |tokens| then i + 1 else |tokens|;
      if record.Some? {
        records := records + [record.value];
      }
    }
    assert tokens[i..] == [] && Records([]) == [] by { NoRecords(); }
  }

  lemma NoRecords()
    ensures Records([]) == []
  {
  }

  // ---------- the printer ----------

  function Columns(fields: seq<string>, path: string): string {
    if fields == [] then path else fields[0] + " " + Columns(fields[1..], path)
  }

  function Line(e: Entry): string {
    match e
    case Ordinary(fields, path) => Columns(["1"] + fields, path)
    case Renamed(fields, path, original) => Columns(["2"] + fields, path)
    case Unmerged(fields, path) => Columns(["u"] + fields, path)
    case Untracked(path) => "? " + path
    case Ignored(path) => "! " + path
  }

  // A record without its final NUL; a rename has a second token.
  function RawOf(e: Entry): string {
    if e.Renamed? then Line(e) + "\0" + e.original else Line(e)
  }

  function Printed(entries: seq<Entry>): string {
    if entries == [] then "" else RawOf(entries[0]) + "\0" + Printed(entries[1..])
  }

  function RecordOf(e: Entry): Record {
    Record(RawOf(e), if e.Renamed? then [e.path, e.original] else [e.path])
  }

  function RecordsOf(entries: seq<Entry>): seq<Record> {
    if entries == [] then [] else [RecordOf(entries[0])] + RecordsOf(entries[1..])
  }

  predicate IsPath(path: string) {
    path != "" && '\0' !in path
  }

  predicate AreFields(fields: seq<string>, n: nat) {
    |fields| == n && forall f | f in fields :: ' ' !in f && '\0' !in f
  }

  // The columns of the format: paths may hold anything but NUL, columns neither NUL nor space.
  predicate Legal(e: Entry) {
    match e
    case Ordinary(fields, path) => AreFields(fields, 7) && IsPath(path)
    case Renamed(fields, path, original) => AreFields(fields, 8) && IsPath(path) && IsPath(original)
    case Unmerged(fields, path) => AreFields(fields, 9) && IsPath(path)
    case Untracked(path) => IsPath(path)
    case Ignored(path) => IsPath(path)
  }

  lemma IndexIs(s: string, c: char, i: nat)
    requires i < |s| && s[i] == c && c !in s[..i]
    ensures IndexOf(s, c) == i
  {
    var j := IndexOf(s, c);
    forall k | 0 <= k < i ensures s[k] != c {
      assert s[k] == s[..i][k];
    }
    forall k | 0 <= k < j ensures s[k] != c {
      assert s[k] == s[..j][k];
    }
  }

  /** Fields and path come back, however many spaces the path has. */
  lemma {:induction false} FixedColumns(fields: seq<string>, path: string)
    requires forall f | f in fields :: ' ' !in f
    ensures Fixed(Columns(fields, path), |fields|) == (fields, path)
  {
    if fields != [] {
      var s := Columns(fields, path);
      assert s[..|fields[0]|] == fields[0];
      IndexIs(s, ' ', |fields[0]|);
      assert s[|fields[0]| + 1..] == Columns(fields[1..], path);
      FixedColumns(fields[1..], path);
      assert [fields[0]] + fields[1..] == fields;
    }
  }

  lemma {:induction false} ColumnsFree(fields: seq<string>, path: string)
    requires '\0' !in path && forall f | f in fields :: '\0' !in f
    ensures '\0' !in Columns(fields, path)
  {
    if fields != [] {
      ColumnsFree(fields[1..], path);
    }
  }

  lemma SplitHead(a: string, b: string)
    requires '\0' !in a
    ensures Split(a + "\0" + b) == [a] + Split(b)
  {
    var s := a + "\0" + b;
    assert s[..|a|] == a && s[|a| + 1..] == b;
    IndexIs(s, '\0', |a|);
  }

  lemma LineFree(e: Entry)
    requires Legal(e)
    ensures '\0' !in Line(e) && Line(e) != ""
  {
    match e
    case Ordinary(fields, path) => ColumnsFree(["1"] + fields, path);
    case Renamed(fields, path, original) => ColumnsFree(["2"] + fields, path);
    case Unmerged(fields, path) => ColumnsFree(["u"] + fields, path);
    case _ =>
  }

  lemma CleanedBoth(path: string, original: string)
    requires path != "" && original != ""
    ensures Cleaned([path, original]) == [path, original]
  {
    assert [path, original][1..] == [original] && [original][1..] == [];
    assert Cleaned([original]) == [original];
  }

  // Read back, an entry is its record, and takes exactly its own tokens.
  lemma HeadOfEntry(e: Entry, tokens: seq<string>)
    requires Legal(e) && tokens != [] && tokens[0] == Line(e)
    requires e.Renamed? ==> |tokens| > 1 && tokens[1] == e.original
    ensures Head(tokens) == (Some(RecordOf(e)), if e.Renamed? then 2 else 1)
  {
    match e
    case Ordinary(fields, path) => FixedColumns(["1"] + fields, path);
    case Renamed(fields, path, original) =>
      FixedColumns(["2"] + fields, path);
      CleanedBoth(path, original);
    case Unmerged(fields, path) => FixedColumns(["u"] + fields, path);
    case _ =>
  }

  // Splitting what is printed gives the tokens of the first entry and those of the others.
  lemma SplitPrinted(e: Entry, rest: string)
    requires Legal(e)
    ensures Split(RawOf(e) + "\0" + rest) == (if e.Renamed? then [Line(e), e.original] else [Line(e)]) + Split(rest)
  {
    LineFree(e);
    hide Line, Split, IndexOf;
    if e.Renamed? {
      assert RawOf(e) + "\0" + rest == Line(e) + "\0" + (e.original + "\0" + rest);
      SplitHead(Line(e), e.original + "\0" + rest);
      SplitHead(e.original, rest);
    } else {
      SplitHead(Line(e), rest);
    }
  }

  /** Printing any list of entries and parsing it gives back every record and every path, in order. */
  lemma {:induction false} RoundTrip(entries: seq<Entry>)
    requires forall e | e in entries :: Legal(e)
    ensures Records(Split(Printed(entries))) == RecordsOf(entries)
  {
    if entries == [] {
      assert Split("") == [""];
    } else {
      var e, rest := entries[0], Printed(entries[1..]);
      RoundTrip(entries[1..]);
      SplitPrinted(e, rest);
      hide Head, Legal, Line, RawOf, Split, RecordOf;
      var tokens := Split(Printed(entries));
      HeadOfEntry(e, tokens);
      assert tokens[if e.Renamed? then 2 else 1..] == Split(rest);
    }
  }
}
