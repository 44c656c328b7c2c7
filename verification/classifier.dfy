/** The server-name classifier (`classify_server`): a raw server name is split
    on whitespace, its first token lower-cased, and the tokens dispatched
    through a fixed rule table to a (category, display name) pair, or to
    (None, None) when no rule applies. */
module Classifier {
  import opened Wrappers
  import opened Text

  /** The four report columns, in report order. */
  datatype Category = FEService | BEInternalAPI | BEStandardAPI | BEGateway

  /** The label each category carries in the report header and as a key. */
  function Label(c: Category): string {
    match c
    case FEService => "FE Service"
    case BEInternalAPI => "BE internal-API"
    case BEStandardAPI => "BE Standard API"
    case BEGateway => "BE Gateway"
  }

  /** The pair returned by the classifier: both fields None, or both present. */
  datatype Outcome = Outcome(category: Option<Category>, display: Option<string>)

  const Unclassified: Outcome := Outcome(None, None)

  function Classified(c: Category, display: string): Outcome {
    Outcome(Some(c), Some(display))
  }

  /** The token sequences the classifier handles without faulting: there must
      be a first token, and a name led by `ixt` must not stop at two tokens
      (the third token is read unconditionally). */
  predicate InDomain(parts: seq<string>) {
    |parts| >= 1 && !(Lower(parts[0]) == "ixt" && |parts| == 2)
  }

  predicate Classifiable(name: string) {
    InDomain(Split(name))
  }

  /** The rule cascade on the token sequence, branch for branch. */
  function ClassifyParts(parts: seq<string>): (r: Outcome)
    requires InDomain(parts)
    ensures r.category.None? <==> r.display.None?
  {
    var first := Lower(parts[0]);
    if |parts| < 2 then
      if first == "cms" then Classified(BEStandardAPI, "Launchpad")
      else if first == "cat" then Classified(BEStandardAPI, Upper(first))
      else Unclassified
    else
      var second := parts[1];
      if first == "core" || first == "internal" then
        var display := "Core";
        if second == "WEB" then Classified(FEService, display)
        else if second == "API" then Classified(BEStandardAPI, display)
        else if second == "GW" then Classified(BEGateway, display)
        else Unclassified
      else if first == "cms" then
        var display := "Launchpad";
        if second == "WEB" then Classified(FEService, display)
        else Unclassified
      else if first == "prm" then
        var display := Upper(first);
        if second == "WEB" then Classified(FEService, display)
        else if second == "API" then Classified(BEInternalAPI, display)
        else if |parts| > 2 && parts[1..3] == ["STD", "API"] then Classified(BEStandardAPI, display)
        else if second == "GW" then Classified(BEGateway, display)
        else Unclassified
      else if first == "ixt" then
        var display := Capitalize(second);
        if parts[2] == "WEB" then Classified(FEService, display)
        else Unclassified
      else if first in {"claim", "auth", "system", "event"} then
        var display := Capitalize(first);
        if second == "WEB" then Classified(FEService, display)
        else if second == "API" then Classified(BEStandardAPI, display)
        else if second == "GW" then Classified(BEGateway, display)
        else Unclassified
      else
        var display := Capitalize(parts[0]);
        if second == "WEB" then Classified(FEService, display)
        else if second == "API" then Classified(BEInternalAPI, display)
        else if |parts| > 2 && parts[1..3] == ["INTERNAL", "API"] then Classified(BEInternalAPI, display)
        else if |parts| > 2 && parts[1..3] == ["STD", "API"] then Classified(BEStandardAPI, display)
        else if second == "GW" then Classified(BEGateway, display)
        else Unclassified
  }

  /** `classify_server`: both fields are None together or present together,
      and a display name is a non-empty run of non-whitespace characters. */
  function ClassifyServer(name: string): (r: Outcome)
    requires Classifiable(name)
    ensures r.category.None? <==> r.display.None?
    ensures r.display.Some? ==> IsToken(r.display.value)
  {
    var parts := Split(name);
    DisplayIsToken(parts);
    ClassifyParts(parts)
  }

  lemma FixedNamesAreTokens()
    ensures IsToken("Launchpad") && IsToken("Core")
  {
  }

  /** On whitespace-split tokens, every display name is a token. */
  lemma DisplayIsToken(parts: seq<string>)
    requires InDomain(parts)
    requires forall i :: 0 <= i < |parts| ==> IsToken(parts[i])
    ensures var r := ClassifyParts(parts); r.display.Some? ==> IsToken(r.display.value)
  {
    DisplayShape(parts);
    FixedNamesAreTokens();
    CaseMappingKeepsNoSpace(parts[0]);
    CaseMappingKeepsNoSpace(Lower(parts[0]));
    if |parts| > 1 {
      CaseMappingKeepsNoSpace(parts[1]);
    }
  }

  /** Every display name is a fixed word or a case-mapped first or second token. */
  lemma DisplayShape(parts: seq<string>)
    requires InDomain(parts)
    ensures var r := ClassifyParts(parts);
      r.display.Some? ==>
        r.display.value in {"Launchpad", "Core", Upper(Lower(parts[0])), Capitalize(Lower(parts[0])), Capitalize(parts[0])}
        || (|parts| > 1 && r.display.value == Capitalize(parts[1]))
  {
  }

  /** A display name holds no character that is neither a letter nor in the
      server name, nor in the fixed names. */
  lemma DisplayKeepsOut(name: string, ch: char)
    requires Classifiable(name) && ch !in name
    requires !('A' <= ch <= 'Z') && !('a' <= ch <= 'z')
    ensures var r := ClassifyServer(name); r.display.Some? ==> ch !in r.display.value
  {
    var parts := Split(name);
    DisplayShape(parts);
    SplitKeepsOut(name, ch);
    CaseMappingKeepsOut(parts[0], ch);
    CaseMappingKeepsOut(Lower(parts[0]), ch);
    if |parts| > 1 {
      CaseMappingKeepsOut(parts[1], ch);
    }
  }

  // ---------------------------------------------------------------------------
  // Where the classifier faults
  // ---------------------------------------------------------------------------

  /** The two faulting inputs: a name with no token at all, and a two-token
      name led by `ixt`. */
  lemma ClassifiableIff(name: string)
    ensures Classifiable(name) <==>
      !Blank(name) && !(|Split(name)| == 2 && Lower(Split(name)[0]) == "ixt")
  {
    SplitEmptyIffBlank(name);
  }

  // ---------------------------------------------------------------------------
  // The rules, branch by branch
  // ---------------------------------------------------------------------------

  /** A single-token name classifies only as `cms` or `cat`. */
  lemma SingleToken(name: string)
    requires |Split(name)| == 1
    ensures Classifiable(name)
    ensures var first := Lower(Split(name)[0]);
      ClassifyServer(name) ==
        if first == "cms" then Classified(BEStandardAPI, "Launchpad")
        else if first == "cat" then Classified(BEStandardAPI, "CAT")
        else Unclassified
  {
    var first := Lower(Split(name)[0]);
    if first == "cat" {
      assert Upper(first) == "CAT";
    }
  }

  /** `core` and `internal` names are all displayed as "Core". */
  lemma CoreGroup(name: string)
    requires |Split(name)| >= 2
    requires Lower(Split(name)[0]) in {"core", "internal"}
    ensures Classifiable(name)
    ensures var second := Split(name)[1];
      ClassifyServer(name) ==
        if second == "WEB" then Classified(FEService, "Core")
        else if second == "API" then Classified(BEStandardAPI, "Core")
        else if second == "GW" then Classified(BEGateway, "Core")
        else Unclassified
  {
  }

  /** With more than one token, `cms` classifies only on `WEB`. */
  lemma CmsGroup(name: string)
    requires |Split(name)| >= 2
    requires Lower(Split(name)[0]) == "cms"
    ensures Classifiable(name)
    ensures ClassifyServer(name) ==
      if Split(name)[1] == "WEB" then Classified(FEService, "Launchpad") else Unclassified
  {
  }

  /** `prm` names are displayed as "PRM"; `API` is the internal API while
      `STD API` is the standard one. */
  lemma PrmGroup(name: string)
    requires |Split(name)| >= 2
    requires Lower(Split(name)[0]) == "prm"
    ensures Classifiable(name)
    ensures var parts := Split(name);
      ClassifyServer(name) ==
        if parts[1] == "WEB" then Classified(FEService, "PRM")
        else if parts[1] == "API" then Classified(BEInternalAPI, "PRM")
        else if |parts| >= 3 && parts[1] == "STD" && parts[2] == "API" then Classified(BEStandardAPI, "PRM")
        else if parts[1] == "GW" then Classified(BEGateway, "PRM")
        else Unclassified
  {
    var parts := Split(name);
    assert Upper(Lower(parts[0])) == "PRM";
    if |parts| >= 3 {
      assert parts[1..3] == ["STD", "API"] <==> parts[1] == "STD" && parts[2] == "API";
    }
  }

  /** An `ixt` name (of three or more tokens) is named after its second token
      and classifies only when its third token is `WEB`. */
  lemma IxtGroup(name: string)
    requires |Split(name)| >= 3
    requires Lower(Split(name)[0]) == "ixt"
    ensures Classifiable(name)
    ensures var parts := Split(name);
      ClassifyServer(name) ==
        if parts[2] == "WEB" then Classified(FEService, Capitalize(parts[1])) else Unclassified
  {
  }

  /** `claim`, `auth`, `system` and `event` names are named after their first
      token; their `API` is the standard API. */
  lemma NamedGroup(name: string)
    requires |Split(name)| >= 2
    requires Lower(Split(name)[0]) in {"claim", "auth", "system", "event"}
    ensures Classifiable(name)
    ensures var parts := Split(name);
      ClassifyServer(name) ==
        if parts[1] == "WEB" then Classified(FEService, Capitalize(parts[0]))
        else if parts[1] == "API" then Classified(BEStandardAPI, Capitalize(parts[0]))
        else if parts[1] == "GW" then Classified(BEGateway, Capitalize(parts[0]))
        else Unclassified
  {
    CapitalizeIgnoresCase(Split(name)[0]);
  }

  /** Any other first token: named after it, with `API` and `INTERNAL API`
      as the internal API and `STD API` as the standard one. */
  lemma DefaultGroup(name: string)
    requires |Split(name)| >= 2
    requires Lower(Split(name)[0]) !in {"core", "internal", "cms", "prm", "ixt", "claim", "auth", "system", "event"}
    ensures Classifiable(name)
    ensures var parts := Split(name);
      var display := Capitalize(parts[0]);
      ClassifyServer(name) ==
        if parts[1] == "WEB" then Classified(FEService, display)
        else if parts[1] == "API" then Classified(BEInternalAPI, display)
        else if |parts| >= 3 && parts[1] == "INTERNAL" && parts[2] == "API" then Classified(BEInternalAPI, display)
        else if |parts| >= 3 && parts[1] == "STD" && parts[2] == "API" then Classified(BEStandardAPI, display)
        else if parts[1] == "GW" then Classified(BEGateway, display)
        else Unclassified
  {
    var parts := Split(name);
    if |parts| >= 3 {
      assert parts[1..3] == ["STD", "API"] <==> parts[1] == "STD" && parts[2] == "API";
      assert parts[1..3] == ["INTERNAL", "API"] <==> parts[1] == "INTERNAL" && parts[2] == "API";
    }
  }

  /** The first token is compared up to case: two token sequences that differ
      only in the case of their first token classify alike. */
  lemma FirstTokenCaseInsensitive(p: seq<string>, q: seq<string>)
    requires InDomain(p)
    requires |q| == |p| && Lower(q[0]) == Lower(p[0]) && q[1..] == p[1..]
    ensures InDomain(q) && ClassifyParts(q) == ClassifyParts(p)
  {
    CapitalizeIgnoresCase(p[0]);
    CapitalizeIgnoresCase(q[0]);
    forall i | 1 <= i < |p| ensures q[i] == p[i] {
      assert q[i] == q[1..][i - 1];
    }
    if |p| > 2 {
      assert q[1..3] == p[1..3];
    }
  }

  // ---------------------------------------------------------------------------
  // Scenarios
  // ---------------------------------------------------------------------------

  // Each scenario is stated about a name bound by `requires` rather than
  // about the literal itself: a literal argument lets the verifier unfold the
  // definitions character by character, which costs far more than the proof
  // through the general lemmas.

  /** The tokens of a name written as single-space-separated tokens. */
  lemma TokensOf(name: string, parts: seq<string>)
    requires forall i :: 0 <= i < |parts| ==> IsToken(parts[i])
    requires name == Join(parts, " ")
    ensures Split(name) == parts
  {
    SplitJoin(parts);
  }

  /** A name written as single-space-separated tokens classifies as its
      token sequence does. */
  lemma ClassifyJoined(parts: seq<string>)
    requires forall i :: 0 <= i < |parts| ==> IsToken(parts[i])
    requires InDomain(parts)
    ensures Classifiable(Join(parts, " ")) && ClassifyServer(Join(parts, " ")) == ClassifyParts(parts)
  {
    SplitJoin(parts);
  }

  /** Second and later tokens are compared case-sensitively: "CORE WEB" is
      the Core front end while "core web" (see LowerCaseCoreWeb) is nothing. */
  lemma UpperCaseCoreWeb(name: string)
    requires name == "CORE WEB"
    ensures Classifiable(name) && ClassifyServer(name) == Classified(FEService, "Core")
  {
    TokensOf(name, ["CORE", "WEB"]);
    assert Lower("CORE") == "core";
    CoreGroup(name);
  }

  lemma LowerCaseCoreWeb(name: string)
    requires name == "core web"
    ensures Classifiable(name) && ClassifyServer(name) == Unclassified
  {
    TokensOf(name, ["core", "web"]);
    assert Lower("core") == "core";
    CoreGroup(name);
  }

  /** `STD API` after `prm` is the standard API, shown as "PRM". */
  lemma PrmStandardApi(name: string)
    requires name == "prm STD API"
    ensures Classifiable(name) && ClassifyServer(name) == Classified(BEStandardAPI, "PRM")
  {
    TokensOf(name, ["prm", "STD", "API"]);
    assert Lower("prm") == "prm";
    PrmGroup(name);
  }

  /** A lone `cms` is the Launchpad standard API. */
  lemma SingleCms(name: string)
    requires name == "cms"
    ensures Classifiable(name) && ClassifyServer(name) == Classified(BEStandardAPI, "Launchpad")
  {
    TokensOf(name, ["cms"]);
    assert Lower("cms") == "cms";
    SingleToken(name);
  }

  /** An unknown first token with an unknown second token is unclassified. */
  lemma UnknownName(name: string)
    requires name == "foo BAR"
    ensures Classifiable(name) && ClassifyServer(name) == Unclassified
  {
    TokensOf(name, ["foo", "BAR"]);
    assert Lower("foo") == "foo";
    DefaultGroup(name);
  }

  /** `auth API` is the standard API, named "Auth". */
  lemma AuthApi(name: string)
    requires name == "auth API"
    ensures Classifiable(name) && ClassifyServer(name) == Classified(BEStandardAPI, "Auth")
  {
    TokensOf(name, ["auth", "API"]);
    assert Lower("auth") == "auth";
    assert Capitalize("auth") == "Auth";
    NamedGroup(name);
  }

  /** A multi-token `cat` name falls to the default rules and is shown as "Cat". */
  lemma MultiTokenCat(name: string)
    requires name == "cat WEB"
    ensures Classifiable(name) && ClassifyServer(name) == Classified(FEService, "Cat")
  {
    TokensOf(name, ["cat", "WEB"]);
    assert Lower("cat") == "cat";
    assert Capitalize("cat") == "Cat";
    DefaultGroup(name);
  }

  /** A two-token `ixt` name is outside what the classifier handles. */
  lemma IxtTwoTokensFaults(name: string)
    requires name == "ixt Portal"
    ensures !Classifiable(name)
  {
    TokensOf(name, ["ixt", "Portal"]);
    assert Lower("ixt") == "ixt";
  }
}
