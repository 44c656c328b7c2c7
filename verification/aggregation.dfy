/** The aggregation step of the report: every inventory record is classified
    by its server name; a classified record puts its display name on the
    ordered service list (once) and its environment's version into the
    matrix cell for (category, display name). */
module Aggregation {
  import opened Wrappers
  import opened Text
  import opened Classifier

  /** One inventory record: the `server_name` field, which may be missing,
      and, per environment key, the fields of that environment's entry. */
  datatype Record = Record(serverName: Option<string>, environments: map<string, map<string, string>>)

  /** The server name, or the empty name when the field is missing; the
      empty name has no token, so such a record cannot be classified. */
  function NameOf(r: Record): (name: string)
    ensures r.serverName.Some? ==> name == r.serverName.value
    ensures r.serverName.None? ==> Split(name) == [] && !Classifiable(name)
  {
    if r.serverName.Some? then r.serverName.value else ""
  }

  /** The version of the given environment, or "-" when the environment entry
      or its `version` field is missing. */
  function VersionOf(r: Record, environment: string): (v: string)
    ensures environment in r.environments && "version" in r.environments[environment] ==>
      v == r.environments[environment]["version"]
    ensures environment !in r.environments || "version" !in r.environments[environment] ==> v == "-"
  {
    if environment in r.environments && "version" in r.environments[environment]
    then r.environments[environment]["version"]
    else "-"
  }

  /** Per category, the version of each display name. */
  type Matrix = map<Category, map<string, string>>

  predicate HasAllCategories(m: Matrix) {
    forall c: Category :: c in m
  }

  const EmptyMatrix: Matrix :=
    map[FEService := map[], BEInternalAPI := map[], BEStandardAPI := map[], BEGateway := map[]]

  lemma EmptyMatrixComplete()
    ensures HasAllCategories(EmptyMatrix)
  {
    forall c: Category ensures c in EmptyMatrix {
      match c
      case FEService =>
      case BEInternalAPI =>
      case BEStandardAPI =>
      case BEGateway =>
    }
  }

  /** The ordered service list and the matrix built from the records. */
  datatype Summary = Summary(services: seq<string>, cells: Matrix)

  /** Every record's name is one the classifier handles without faulting. */
  predicate AllClassifiable(records: seq<Record>) {
    forall i :: 0 <= i < |records| ==> Classifiable(NameOf(records[i]))
  }

  /** What the aggregation uses of one record: its classification and the
      version it would store. */
  datatype Entry = Entry(outcome: Outcome, version: string)

  predicate WellFormed(e: Entry) {
    e.outcome.category.Some? <==> e.outcome.display.Some?
  }

  predicate AllWellFormed(entries: seq<Entry>) {
    forall i :: 0 <= i < |entries| ==> WellFormed(entries[i])
  }

  function EntryOf(r: Record, environment: string): (e: Entry)
    requires Classifiable(NameOf(r))
    ensures WellFormed(e)
  {
    Entry(ClassifyServer(NameOf(r)), VersionOf(r, environment))
  }

  function Entries(records: seq<Record>, environment: string): (es: seq<Entry>)
    requires AllClassifiable(records)
    ensures |es| == |records| && AllWellFormed(es)
  {
    seq(|records|, i requires 0 <= i < |records| => EntryOf(records[i], environment))
  }

  /** The effect of one record: an unclassified one changes nothing; what a
      classified one does is stated by `StepEffect`. */
  function Step(s: Summary, e: Entry): (t: Summary)
    requires HasAllCategories(s.cells) && WellFormed(e)
    ensures HasAllCategories(t.cells)
    ensures e.outcome.category.None? ==> t == s
  {
    if e.outcome.category.None? then s
    else
      var c, d := e.outcome.category.value, e.outcome.display.value;
      Summary(if d in s.services then s.services else s.services + [d],
              s.cells[c := s.cells[c][d := e.version]])
  }

  /** A classified entry lists its display name, appending it only when it
      is not listed yet, stores its version in its own cell, and leaves every
      other cell as it was. */
  lemma StepEffect(s: Summary, e: Entry)
    requires HasAllCategories(s.cells) && WellFormed(e) && e.outcome.category.Some?
    ensures var t, c, d := Step(s, e), e.outcome.category.value, e.outcome.display.value;
      d in t.services && d in t.cells[c] && t.cells[c][d] == e.version &&
      (d in s.services ==> t.services == s.services) &&
      (d !in s.services ==> t.services == s.services + [d]) &&
      (forall c' :: c' != c ==> t.cells[c'] == s.cells[c']) &&
      (forall x :: x in s.cells[c] && x != d ==> x in t.cells[c] && t.cells[c][x] == s.cells[c][x]) &&
      (forall x :: x in t.cells[c] ==> x == d || x in s.cells[c])
  {
  }

  /** The entries folded, first to last, from the empty summary. */
  function Fold(entries: seq<Entry>): (s: Summary)
    requires AllWellFormed(entries)
    ensures HasAllCategories(s.cells)
  {
    if entries == [] then EmptyMatrixComplete(); Summary([], EmptyMatrix)
    else Step(Fold(Init(entries)), Last(entries))
  }

  function Init(entries: seq<Entry>): (p: seq<Entry>)
    requires entries != []
    ensures |p| == |entries| - 1 && forall i :: 0 <= i < |p| ==> p[i] == entries[i]
  {
    entries[..|entries| - 1]
  }

  function Last(entries: seq<Entry>): Entry
    requires entries != []
  {
    entries[|entries| - 1]
  }

  /** The summary of a run of the report over the records: a duplicate-free
      service list, and a matrix whose every cell belongs to a listed
      service. */
  function Summarize(records: seq<Record>, environment: string): (s: Summary)
    requires AllClassifiable(records)
    ensures HasAllCategories(s.cells)
    ensures NoDuplicates(s.services)
    ensures forall c, x :: x in s.cells[c] ==> x in s.services
  {
    var entries := Entries(records, environment);
    ServicesHaveNoDuplicates(entries);
    CellsBelongToServices(entries);
    Fold(entries)
  }

  /** The aggregation loop: one pass over the records in order. */
  method Aggregate(records: seq<Record>, environment: string) returns (services: seq<string>, cells: Matrix)
    requires AllClassifiable(records)
    ensures Summary(services, cells) == Summarize(records, environment)
    ensures NoDuplicates(services)
    ensures forall x :: x in services <==> x in ClassifiedNames(Entries(records, environment))
    ensures HasAllCategories(cells)
    ensures forall c, x :: x in cells[c] ==> x in services
  {
    ghost var entries := Entries(records, environment);
    cells := EmptyMatrix;
    services := [];
    for i := 0 to |records|
      invariant Summary(services, cells) == Fold(entries[..i])
    {
      var item := records[i];
      var serverName := NameOf(item);
      var version := VersionOf(item, environment);
      var outcome := ClassifyServer(serverName);
      assert Init(entries[..i + 1]) == entries[..i];
      assert Last(entries[..i + 1]) == Entry(outcome, version);
      if outcome.category.Some? {
        var category, displayName := outcome.category.value, outcome.display.value;
        if displayName !in services {
          services := services + [displayName];
        }
        cells := cells[category := cells[category][displayName := version]];
      }
    }
    assert entries[..|records|] == entries;
    ServicesHaveNoDuplicates(entries);
    ServicesAreClassifiedNames(entries);
    CellsBelongToServices(entries);
  }

  // ---------------------------------------------------------------------------
  // Reference definitions
  // ---------------------------------------------------------------------------

  predicate NoDuplicates(s: seq<string>) {
    forall i, j :: 0 <= i < j < |s| ==> s[i] != s[j]
  }

  /** The display names of the classified entries, in order, with repetitions. */
  function ClassifiedNames(entries: seq<Entry>): seq<string>
  {
    if entries == [] then []
    else
      var o := Last(entries).outcome;
      ClassifiedNames(Init(entries)) + (if o.display.Some? then [o.display.value] else [])
  }

  /** Index of the first occurrence of `x`. */
  function FirstIndex(s: seq<string>, x: string): (k: nat)
    requires x in s
    ensures k < |s| && s[k] == x && x !in s[..k]
  {
    if s[0] == x then 0
    else
      assert s == [s[0]] + s[1..];
      var k := FirstIndex(s[1..], x);
      assert s[..k + 1] == [s[0]] + s[1..][..k];
      k + 1
  }

  lemma FirstIndexOfExtension(s: seq<string>, t: seq<string>, x: string)
    requires x in s
    ensures x in s + t && FirstIndex(s + t, x) == FirstIndex(s, x)
  {
    if s[0] != x {
      assert (s + t)[1..] == s[1..] + t;
      FirstIndexOfExtension(s[1..], t, x);
    }
  }

  lemma FirstIndexOfNew(s: seq<string>, x: string)
    requires x !in s
    ensures x in s + [x] && FirstIndex(s + [x], x) == |s|
  {
    var k := FirstIndex(s + [x], x);
    assert forall j :: 0 <= j < |s| ==> (s + [x])[j] == s[j];
  }

  // ---------------------------------------------------------------------------
  // Properties of the summary
  // ---------------------------------------------------------------------------

  /** The service list never holds a display name twice. */
  lemma {:induction false} ServicesHaveNoDuplicates(entries: seq<Entry>)
    requires AllWellFormed(entries)
    ensures NoDuplicates(Fold(entries).services)
  {
    if entries != [] {
      ServicesHaveNoDuplicates(Init(entries));
    }
  }

  /** The service list holds exactly the display names of classified entries. */
  lemma {:induction false} ServicesAreClassifiedNames(entries: seq<Entry>)
    requires AllWellFormed(entries)
    ensures forall x :: x in Fold(entries).services <==> x in ClassifiedNames(entries)
  {
    if entries != [] {
      ServicesAreClassifiedNames(Init(entries));
    }
  }

  /** The service list is in order of first appearance among the classified
      entries. */
  lemma {:induction false} ServicesInFirstSeenOrder(entries: seq<Entry>)
    requires AllWellFormed(entries)
    ensures forall x :: x in Fold(entries).services ==> x in ClassifiedNames(entries)
    ensures forall i, j :: 0 <= i < j < |Fold(entries).services| ==>
      FirstIndex(ClassifiedNames(entries), Fold(entries).services[i]) <
      FirstIndex(ClassifiedNames(entries), Fold(entries).services[j])
  {
    ServicesAreClassifiedNames(entries);
    if entries != [] {
      var prefix := Init(entries);
      ServicesInFirstSeenOrder(prefix);
      ServicesAreClassifiedNames(prefix);
      var before, names0 := Fold(prefix).services, ClassifiedNames(prefix);
      var services, names := Fold(entries).services, ClassifiedNames(entries);
      var o := Last(entries).outcome;
      var tail := if o.display.Some? then [o.display.value] else [];
      assert names == names0 + tail;
      forall x | x in before ensures x in names && FirstIndex(names, x) == FirstIndex(names0, x) {
        FirstIndexOfExtension(names0, tail, x);
      }
      if services == before {
        forall i, j | 0 <= i < j < |services|
          ensures FirstIndex(names, services[i]) < FirstIndex(names, services[j])
        {
          assert services[i] in before && services[j] in before;
        }
      } else {
        var d := o.display.value;
        assert services == before + [d] && d !in names0;
        FirstIndexOfNew(names0, d);
        forall i, j | 0 <= i < j < |services|
          ensures FirstIndex(names, services[i]) < FirstIndex(names, services[j])
        {
          assert services[i] == before[i] && services[i] in before;
          if j < |before| {
            assert services[j] == before[j] && services[j] in before;
          } else {
            assert services[j] == d;
            assert FirstIndex(names0, services[i]) < |names0|;
          }
        }
      }
    }
  }

  /** Every cell belongs to a listed service, and every listed service has at
      least one cell. */
  lemma {:induction false} CellsBelongToServices(entries: seq<Entry>)
    requires AllWellFormed(entries)
    ensures forall c, x :: x in Fold(entries).cells[c] ==> x in Fold(entries).services
    ensures forall x :: x in Fold(entries).services ==> exists c :: x in Fold(entries).cells[c]
  {
    if entries != [] {
      var prefix := Init(entries);
      CellsBelongToServices(prefix);
      var before := Fold(prefix);
      var e := Last(entries);
      var s := Fold(entries);
      assert s == Step(before, e);
      if e.outcome.category.Some? {
        var c0, d := e.outcome.category.value, e.outcome.display.value;
        assert s.cells == before.cells[c0 := before.cells[c0][d := e.version]];
        assert d in s.cells[c0];
        forall x | x in s.services ensures exists c :: x in s.cells[c] {
          if x != d {
            assert x in before.services;
            var c :| x in before.cells[c];
            assert x in s.cells[c];
          }
        }
      }
    }
  }

  /** Every classified name is the display name of some entry. */
  lemma {:induction false} ClassifiedNamesFromEntries(entries: seq<Entry>)
    ensures forall x :: x in ClassifiedNames(entries) ==>
      exists i :: 0 <= i < |entries| && entries[i].outcome.display == Some(x)
  {
    if entries != [] {
      ClassifiedNamesFromEntries(Init(entries));
      assert Last(entries) == entries[|entries| - 1];
    }
  }

  /** Every stored version is the version of some entry. */
  lemma {:induction false} CellValuesFromEntries(entries: seq<Entry>)
    requires AllWellFormed(entries)
    ensures forall c, x :: x in Fold(entries).cells[c] ==>
      exists i :: 0 <= i < |entries| && entries[i].version == Fold(entries).cells[c][x]
  {
    if entries != [] {
      var prefix := Init(entries);
      CellValuesFromEntries(prefix);
      var before, e := Fold(prefix), Last(entries);
      if e.outcome.category.Some? {
        var c0, d := e.outcome.category.value, e.outcome.display.value;
        var cells := Fold(entries).cells;
        assert cells == before.cells[c0 := before.cells[c0][d := e.version]];
        forall c, x | x in cells[c]
          ensures exists i :: 0 <= i < |entries| && entries[i].version == cells[c][x]
        {
          if c == c0 && x == d {
            assert entries[|entries| - 1].version == cells[c][x];
          } else {
            assert x in before.cells[c] && cells[c][x] == before.cells[c][x];
            var i :| 0 <= i < |prefix| && prefix[i].version == before.cells[c][x];
            assert entries[i] == prefix[i];
          }
        }
      }
    }
  }

  /** Last write wins: the cell of (c, x) holds the version of the last entry
      that classifies as (c, x). */
  lemma {:induction false} LastWriteWins(entries: seq<Entry>, i: nat, c: Category, x: string)
    requires AllWellFormed(entries)
    requires i < |entries| && entries[i].outcome == Classified(c, x)
    requires forall j :: i < j < |entries| ==> entries[j].outcome != Classified(c, x)
    ensures var cells := Fold(entries).cells;
      x in cells[c] && cells[c][x] == entries[i].version
  {
    if i < |entries| - 1 {
      LastWriteWins(Init(entries), i, c, x);
    }
  }

  /** A cell exists exactly for the (category, display name) pairs some entry
      classifies as. */
  lemma {:induction false} CellsComeFromEntries(entries: seq<Entry>, c: Category, x: string)
    requires AllWellFormed(entries)
    ensures x in Fold(entries).cells[c] <==>
      exists i :: 0 <= i < |entries| && entries[i].outcome == Classified(c, x)
  {
    if entries != [] {
      var n := |entries|;
      var prefix, e := Init(entries), Last(entries);
      CellsComeFromEntries(prefix, c, x);
      var before := Fold(prefix);
      assert x in Fold(entries).cells[c] <==> x in before.cells[c] || e.outcome == Classified(c, x);
      if exists i :: 0 <= i < n - 1 && entries[i].outcome == Classified(c, x) {
        var i :| 0 <= i < n - 1 && entries[i].outcome == Classified(c, x);
        assert prefix[i] == entries[i];
      }
      assert e == entries[n - 1];
    }
  }

  /** An unclassified entry has no effect, wherever it stands. */
  lemma {:induction false} UnclassifiedEntryIgnored(a: seq<Entry>, e: Entry, b: seq<Entry>)
    requires AllWellFormed(a + b) && e.outcome == Unclassified
    ensures AllWellFormed(a + [e] + b)
    ensures Fold(a + [e] + b) == Fold(a + b)
    decreases |b|
  {
    var whole := a + [e] + b;
    assert AllWellFormed(whole) by {
      forall i | 0 <= i < |whole| ensures WellFormed(whole[i]) {
        if i < |a| { assert whole[i] == (a + b)[i]; }
        else if i > |a| { assert whole[i] == (a + b)[i - 1]; }
      }
    }
    if b == [] {
      assert Init(whole) == a;
      assert a + b == a;
    } else {
      var b0 := Init(b);
      assert Init(whole) == a + [e] + b0;
      assert Init(a + b) == a + b0;
      assert Last(whole) == Last(a + b);
      UnclassifiedEntryIgnored(a, e, b0);
    }
  }

  // ---------------------------------------------------------------------------
  // The same properties stated on records
  // ---------------------------------------------------------------------------

  /** The version stored for (c, x) is the environment's version of the last
      record named as (c, x), or "-" when that record has none. */
  lemma RecordLastWriteWins(records: seq<Record>, environment: string, i: nat, c: Category, x: string)
    requires AllClassifiable(records)
    requires i < |records| && ClassifyServer(NameOf(records[i])) == Classified(c, x)
    requires forall j :: i < j < |records| ==> ClassifyServer(NameOf(records[j])) != Classified(c, x)
    ensures var cells := Summarize(records, environment).cells;
      x in cells[c] && cells[c][x] == VersionOf(records[i], environment)
  {
    LastWriteWins(Entries(records, environment), i, c, x);
  }

  lemma EntriesAppend(a: seq<Record>, b: seq<Record>, environment: string)
    requires AllClassifiable(a) && AllClassifiable(b)
    ensures AllClassifiable(a + b)
    ensures Entries(a + b, environment) == Entries(a, environment) + Entries(b, environment)
  {
    assert forall i :: 0 <= i < |a| ==> (a + b)[i] == a[i];
    assert forall i :: |a| <= i < |a + b| ==> (a + b)[i] == b[i - |a|];
  }

  lemma SplitClassifiable(a: seq<Record>, b: seq<Record>)
    requires AllClassifiable(a + b)
    ensures AllClassifiable(a) && AllClassifiable(b)
  {
    assert forall i :: 0 <= i < |a| ==> (a + b)[i] == a[i];
    assert forall i :: 0 <= i < |b| ==> (a + b)[|a| + i] == b[i];
  }

  /** A record whose name classifies as nothing changes neither the service
      list nor the matrix, wherever it stands in the input. */
  lemma RecordUnclassifiedIgnored(a: seq<Record>, r: Record, b: seq<Record>, environment: string)
    requires AllClassifiable(a + b) && Classifiable(NameOf(r))
    requires ClassifyServer(NameOf(r)) == Unclassified
    ensures AllClassifiable(a + [r] + b)
    ensures Summarize(a + [r] + b, environment) == Summarize(a + b, environment)
  {
    SplitClassifiable(a, b);
    EntriesAppend(a, b, environment);
    EntriesAppend(a, [r], environment);
    EntriesAppend(a + [r], b, environment);
    assert Entries([r], environment) == [EntryOf(r, environment)];
    UnclassifiedEntryIgnored(Entries(a, environment), EntryOf(r, environment), Entries(b, environment));
  }
}
