/** The two report entry points, from the fetched records onward: the one that
    takes the environment key, and the one fixed to the "sit" environment.
    Both classify every record, aggregate, and build the table text. */
module Reports {
  import opened Wrappers
  import opened Text
  import opened Classifier
  import opened Aggregation
  import opened Table

  /** The report for the chosen environment. */
  method EnvironmentReport(records: seq<Record>, environment: string) returns (table: string)
    requires AllClassifiable(records)
    ensures table == Render(Summarize(records, environment))
  {
    var services, cells := Aggregate(records, environment);
    table := BuildTable(services, cells);
  }

  const SitEnvironment: string := "sit"

  /** The report of the variant that always reads the "sit" environment: the
      same table as the environment-keyed report with "sit" chosen. */
  method SitReport(records: seq<Record>) returns (table: string)
    requires AllClassifiable(records)
    ensures table == Render(Summarize(records, SitEnvironment))
  {
    var services, cells := Aggregate(records, SitEnvironment);
    table := BuildTable(services, cells);
  }

  /** Neither a line break nor a bar in any server name or version. */
  predicate PlainRecords(records: seq<Record>, environment: string) {
    forall i :: 0 <= i < |records| ==>
      Plain(NameOf(records[i])) && Plain(VersionOf(records[i], environment))
  }

  /** On records whose names and versions cannot break a line or a cell, the
      report is the header line, the separator line and one line per listed
      service, in order; each of those lines holds the service and its four
      category cells ("-" where absent) in column order. */
  lemma ReportShape(records: seq<Record>, environment: string)
    requires AllClassifiable(records) && PlainRecords(records, environment)
    ensures var s := Summarize(records, environment);
      SplitOn(Render(s), '\n') == [HeaderLine, SeparatorLine] + RowLines(s.services, s.cells) + [""]
    ensures var s := Summarize(records, environment);
      forall i :: 0 <= i < |s.services| ==>
        var f := SplitOn(RowLines(s.services, s.cells)[i], '|');
        |f| == 7 && f[1] == " " + s.services[i] + " " &&
        forall k :: 0 <= k < 4 ==> f[k + 2] == " " + Cell(s.cells, CategoryOrder[k], s.services[i]) + " "
  {
    var entries := Entries(records, environment);
    var s := Fold(entries);
    ServicesAreClassifiedNames(entries);
    ClassifiedNamesFromEntries(entries);
    CellValuesFromEntries(entries);
    forall x | x in s.services ensures Plain(x) {
      var i :| 0 <= i < |entries| && entries[i].outcome.display == Some(x);
      DisplayKeepsOut(NameOf(records[i]), '|');
      DisplayKeepsOut(NameOf(records[i]), '\n');
    }
    forall c, x | c in s.cells && x in s.cells[c] ensures Plain(s.cells[c][x]) {
      var i :| 0 <= i < |entries| && entries[i].version == s.cells[c][x];
    }
    assert forall i :: 0 <= i < |s.services| ==> s.services[i] in s.services;
    TableLines(s.services, s.cells);
    forall i | 0 <= i < |s.services|
      ensures var f := SplitOn(RowLines(s.services, s.cells)[i], '|');
        |f| == 7 && f[1] == " " + s.services[i] + " " &&
        forall k :: 0 <= k < 4 ==> f[k + 2] == " " + Cell(s.cells, CategoryOrder[k], s.services[i]) + " "
    {
      RowFields(s.services[i], s.cells);
    }
  }

  // ---------------------------------------------------------------------------
  // Scenarios
  // ---------------------------------------------------------------------------

  // Each scenario is stated about a record list bound by `requires` rather than
  // about the literal itself: a literal argument lets the verifier unfold the
  // definitions character by character, which costs far more than the proof
  // through the general lemmas.

  function SitRecord(name: string, version: string): Record {
    Record(Some(name), map[SitEnvironment := map["version" := version]])
  }

  /** One record classified as (c, d) gives the one service d, whose only
      cell is its version in category c. */
  lemma OneRecord(r: Record, environment: string, c: Category, d: string)
    requires Classifiable(NameOf(r)) && ClassifyServer(NameOf(r)) == Classified(c, d)
    ensures AllClassifiable([r])
    ensures var s := Summarize([r], environment);
      s.services == [d] && forall c' :: Cell(s.cells, c', d) == if c' == c then VersionOf(r, environment) else "-"
  {
    var es := Entries([r], environment);
    var v := VersionOf(r, environment);
    assert es == [Entry(Classified(c, d), v)];
    assert Init(es) == [];
    var s := Fold(es);
    EmptyMatrixComplete();
    assert Fold([]) == Summary([], EmptyMatrix);
    assert s == Step(Summary([], EmptyMatrix), es[0]);
    assert s.cells == EmptyMatrix[c := map[d := v]];
    forall c' ensures Cell(s.cells, c', d) == if c' == c then v else "-" {
      if c' != c {
        assert s.cells[c'] == EmptyMatrix[c'] == map[];
      }
    }
  }

  /** Two records classified alike: one service, holding the later version. */
  lemma TwoRecordsAlike(r1: Record, r2: Record, environment: string, c: Category, d: string)
    requires Classifiable(NameOf(r1)) && ClassifyServer(NameOf(r1)) == Classified(c, d)
    requires Classifiable(NameOf(r2)) && ClassifyServer(NameOf(r2)) == Classified(c, d)
    ensures AllClassifiable([r1, r2])
    ensures var s := Summarize([r1, r2], environment);
      s.services == [d] && Cell(s.cells, c, d) == VersionOf(r2, environment)
  {
    var es := Entries([r1, r2], environment);
    assert es == [Entry(Classified(c, d), VersionOf(r1, environment)), Entry(Classified(c, d), VersionOf(r2, environment))];
    assert Init(es) == [es[0]] && Init(Init(es)) == [];
    var s1 := Fold([es[0]]);
    EmptyMatrixComplete();
    assert Init([es[0]]) == [];
    assert Fold([]) == Summary([], EmptyMatrix);
    assert s1 == Step(Summary([], EmptyMatrix), es[0]);
    assert s1.services == [d];
    assert Fold(es) == Step(s1, es[1]);
  }

  /** One "CORE WEB" record at version 1.2.0 gives the one service Core, at
      1.2.0 in the FE Service column and "-" in the other three. */
  lemma CoreWebReport(records: seq<Record>)
    requires records == [SitRecord("CORE WEB", "1.2.0")]
    ensures AllClassifiable(records)
    ensures var s := Summarize(records, SitEnvironment);
      s.services == ["Core"] && Cell(s.cells, FEService, "Core") == "1.2.0" &&
      Cell(s.cells, BEInternalAPI, "Core") == "-" && Cell(s.cells, BEStandardAPI, "Core") == "-" &&
      Cell(s.cells, BEGateway, "Core") == "-"
  {
    var r := records[0];
    assert NameOf(r) == "CORE WEB" && VersionOf(r, SitEnvironment) == "1.2.0";
    UpperCaseCoreWeb(NameOf(r));
    OneRecord(r, SitEnvironment, FEService, "Core");
  }

  /** A record without the chosen environment still gives its row, with "-". */
  lemma MissingEnvironmentReport(records: seq<Record>)
    requires records == [SitRecord("CORE WEB", "1.2.0")]
    ensures AllClassifiable(records)
    ensures var s := Summarize(records, "dev");
      s.services == ["Core"] && Cell(s.cells, FEService, "Core") == "-" &&
      Cell(s.cells, BEInternalAPI, "Core") == "-" && Cell(s.cells, BEStandardAPI, "Core") == "-" &&
      Cell(s.cells, BEGateway, "Core") == "-"
  {
    var r := records[0];
    assert NameOf(r) == "CORE WEB" && VersionOf(r, "dev") == "-";
    UpperCaseCoreWeb(NameOf(r));
    OneRecord(r, "dev", FEService, "Core");
  }

  /** Two "auth API" records: the later version is the one reported. */
  lemma RepeatedRecordReport(records: seq<Record>)
    requires records == [SitRecord("auth API", "1.0"), SitRecord("auth API", "1.1")]
    ensures AllClassifiable(records)
    ensures var s := Summarize(records, SitEnvironment);
      s.services == ["Auth"] && Cell(s.cells, BEStandardAPI, "Auth") == "1.1"
  {
    var r1, r2 := records[0], records[1];
    assert NameOf(r1) == "auth API" && NameOf(r2) == "auth API";
    assert VersionOf(r2, SitEnvironment) == "1.1";
    AuthApi(NameOf(r1));
    TwoRecordsAlike(r1, r2, SitEnvironment, BEStandardAPI, "Auth");
  }
}
