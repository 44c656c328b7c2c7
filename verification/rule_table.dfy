/** The classifier's rules written as data: the lower-cased first token picks
    a plan (how the display name is formed, and an ordered list of patterns
    over the remaining tokens); the first pattern that matches gives the
    category. This is an independent reference definition, proved to agree
    with the rule cascade on every input the cascade accepts. */
module RuleTable {
  import opened Wrappers
  import opened Text
  import opened Classifier

  /** One position of a pattern: a literal token, compared case-sensitively,
      or any token at all. */
  datatype Slot = Exact(word: string) | Any

  /** How a plan forms the display name from the tokens. */
  datatype Naming = Fixed(text: string) | UpperFirst | CapitalizeFirst | CapitalizeSecond

  /** A pattern over the tokens after the first, and the category it gives. */
  datatype Rule = Rule(pattern: seq<Slot>, category: Category)

  datatype Plan = Plan(naming: Naming, rules: seq<Rule>)

  const NoPlan: Plan := Plan(Fixed(""), [])

  /** Plans for single-token names. */
  const SoloPlans: map<string, Plan> := map[
    "cms" := Plan(Fixed("Launchpad"), [Rule([], BEStandardAPI)]),
    "cat" := Plan(UpperFirst, [Rule([], BEStandardAPI)])
  ]

  const CoreRules: seq<Rule> :=
    [Rule([Exact("WEB")], FEService), Rule([Exact("API")], BEStandardAPI), Rule([Exact("GW")], BEGateway)]

  const PrmRules: seq<Rule> := [
    Rule([Exact("WEB")], FEService),
    Rule([Exact("API")], BEInternalAPI),
    Rule([Exact("STD"), Exact("API")], BEStandardAPI),
    Rule([Exact("GW")], BEGateway)]

  /** Plans for names of two or more tokens, by lower-cased first token. */
  const GroupPlans: map<string, Plan> := map[
    "core" := Plan(Fixed("Core"), CoreRules),
    "internal" := Plan(Fixed("Core"), CoreRules),
    "cms" := Plan(Fixed("Launchpad"), [Rule([Exact("WEB")], FEService)]),
    "prm" := Plan(UpperFirst, PrmRules),
    "ixt" := Plan(CapitalizeSecond, [Rule([Any, Exact("WEB")], FEService)]),
    "claim" := Plan(CapitalizeFirst, CoreRules),
    "auth" := Plan(CapitalizeFirst, CoreRules),
    "system" := Plan(CapitalizeFirst, CoreRules),
    "event" := Plan(CapitalizeFirst, CoreRules)
  ]

  /** The plan for any other first token. */
  const DefaultPlan: Plan := Plan(CapitalizeFirst, DefaultRules)

  const DefaultRules: seq<Rule> := [
    Rule([Exact("WEB")], FEService),
    Rule([Exact("API")], BEInternalAPI),
    Rule([Exact("INTERNAL"), Exact("API")], BEInternalAPI),
    Rule([Exact("STD"), Exact("API")], BEStandardAPI),
    Rule([Exact("GW")], BEGateway)]

  predicate Matches(pattern: seq<Slot>, rest: seq<string>) {
    |pattern| <= |rest| &&
    forall i :: 0 <= i < |pattern| ==> pattern[i].Any? || pattern[i].word == rest[i]
  }

  /** The category of the first rule whose pattern matches, if any does. */
  function FirstMatch(rules: seq<Rule>, rest: seq<string>): Option<Category>
  {
    if rules == [] then None
    else if Matches(rules[0].pattern, rest) then Some(rules[0].category)
    else FirstMatch(rules[1..], rest)
  }

  /** First match wins: the result is None exactly when no rule matches, and
      otherwise the category of a matching rule with no matching rule before it. */
  lemma {:induction false} FirstMatchIsFirst(rules: seq<Rule>, rest: seq<string>)
    ensures FirstMatch(rules, rest).None? <==> forall i :: 0 <= i < |rules| ==> !Matches(rules[i].pattern, rest)
    ensures FirstMatch(rules, rest).Some? ==>
      exists i :: 0 <= i < |rules| && Matches(rules[i].pattern, rest) &&
        rules[i].category == FirstMatch(rules, rest).value &&
        forall j :: 0 <= j < i ==> !Matches(rules[j].pattern, rest)
  {
    if rules != [] && !Matches(rules[0].pattern, rest) {
      FirstMatchIsFirst(rules[1..], rest);
      assert forall i :: 1 <= i < |rules| ==> rules[i] == rules[1..][i - 1];
      if FirstMatch(rules, rest).Some? {
        var k :| 0 <= k < |rules[1..]| && Matches(rules[1..][k].pattern, rest) &&
          rules[1..][k].category == FirstMatch(rules, rest).value &&
          forall j :: 0 <= j < k ==> !Matches(rules[1..][j].pattern, rest);
        assert rules[k + 1] == rules[1..][k];
      }
    } else if rules != [] {
      assert Matches(rules[0].pattern, rest);
    }
  }

  function PlanFor(parts: seq<string>): Plan
    requires |parts| >= 1
  {
    var first := Lower(parts[0]);
    if |parts| < 2 then (if first in SoloPlans then SoloPlans[first] else NoPlan)
    else if first in GroupPlans then GroupPlans[first]
    else DefaultPlan
  }

  function DisplayFor(naming: Naming, parts: seq<string>): string
    requires |parts| >= 1
  {
    match naming
    case Fixed(t) => t
    case UpperFirst => Upper(Lower(parts[0]))
    case CapitalizeFirst => Capitalize(parts[0])
    case CapitalizeSecond => if |parts| > 1 then Capitalize(parts[1]) else ""
  }

  /** Classification by table lookup. */
  function Lookup(parts: seq<string>): Outcome
    requires |parts| >= 1
  {
    var plan := PlanFor(parts);
    match FirstMatch(plan.rules, parts[1..])
    case None => Unclassified
    case Some(c) => Classified(c, DisplayFor(plan.naming, parts))
  }

  /** The rule cascade and the rule table agree on every input the cascade
      accepts. */
  lemma CascadeIsTable(parts: seq<string>)
    requires InDomain(parts)
    ensures ClassifyParts(parts) == Lookup(parts)
  {
    var first := Lower(parts[0]);
    if |parts| < 2 {
    } else if first == "core" || first == "internal" {
      CoreAgrees(parts);
    } else if first == "cms" {
      CmsAgrees(parts);
    } else if first == "prm" {
      PrmAgrees(parts);
    } else if first == "ixt" {
      IxtAgrees(parts);
    } else if first in {"claim", "auth", "system", "event"} {
      NamedAgrees(parts);
    } else {
      DefaultAgrees(parts);
    }
  }

  /** `core` and `internal`: the display name is fixed, and the rules are
      those of the cascade's core branch. */
  lemma CoreAgrees(parts: seq<string>)
    requires |parts| >= 2 && Lower(parts[0]) in {"core", "internal"}
    ensures ClassifyParts(parts) == Lookup(parts)
  {
    var rest := parts[1..];
    assert PlanFor(parts) == Plan(Fixed("Core"), CoreRules);
    CoreRulesMatch(rest);
  }

  /** `prm`: the upper-cased first token, and the prm rules. */
  lemma PrmAgrees(parts: seq<string>)
    requires |parts| >= 2 && Lower(parts[0]) == "prm"
    ensures ClassifyParts(parts) == Lookup(parts)
  {
    var rest := parts[1..];
    assert PlanFor(parts) == Plan(UpperFirst, PrmRules);
    if |parts| > 2 {
      assert parts[1..3] == [rest[0], rest[1]];
    }
    PrmRulesMatch(rest);
  }

  /** `claim`, `auth`, `system`, `event`: the capitalized first token, and the
      core rules. */
  lemma NamedAgrees(parts: seq<string>)
    requires |parts| >= 2 && Lower(parts[0]) in {"claim", "auth", "system", "event"}
    ensures ClassifyParts(parts) == Lookup(parts)
  {
    var rest := parts[1..];
    assert PlanFor(parts) == Plan(CapitalizeFirst, CoreRules);
    CapitalizeIgnoresCase(parts[0]);
    CoreRulesMatch(rest);
  }

  /** Any other first token: the capitalized first token, and the default
      rules. */
  lemma DefaultAgrees(parts: seq<string>)
    requires |parts| >= 2 && Lower(parts[0]) !in GroupPlans
    ensures ClassifyParts(parts) == Lookup(parts)
  {
    var rest := parts[1..];
    assert PlanFor(parts) == DefaultPlan;
    if |parts| > 2 {
      assert parts[1..3] == [rest[0], rest[1]];
    }
    DefaultRulesMatch(rest);
  }

  lemma CmsAgrees(parts: seq<string>)
    requires |parts| >= 2 && Lower(parts[0]) == "cms"
    ensures ClassifyParts(parts) == Lookup(parts)
  {
    var rest := parts[1..];
    MatchesWords(rest);
    FirstMatchStep(GroupPlans["cms"].rules, rest);
  }

  lemma IxtAgrees(parts: seq<string>)
    requires |parts| >= 3 && Lower(parts[0]) == "ixt"
    ensures ClassifyParts(parts) == Lookup(parts)
  {
    var rest := parts[1..];
    var r := GroupPlans["ixt"].rules;
    assert Matches(r[0].pattern, rest) <==> rest[1] == "WEB";
    FirstMatchStep(r, rest);
  }

  lemma FirstMatchStep(rules: seq<Rule>, rest: seq<string>)
    requires |rules| > 0
    ensures FirstMatch(rules, rest) ==
      if Matches(rules[0].pattern, rest) then Some(rules[0].category) else FirstMatch(rules[1..], rest)
  {
  }

  lemma MatchesWords(rest: seq<string>)
    requires |rest| >= 1
    ensures forall w :: Matches([Exact(w)], rest) <==> rest[0] == w
    ensures forall w, v :: Matches([Exact(w), Exact(v)], rest) <==> |rest| >= 2 && rest[0] == w && rest[1] == v
  {
  }

  /** A one-word rule in front of others. */
  lemma OneWord(w: string, c: Category, rules: seq<Rule>, rest: seq<string>)
    requires |rest| >= 1
    ensures FirstMatch([Rule([Exact(w)], c)] + rules, rest) ==
      if rest[0] == w then Some(c) else FirstMatch(rules, rest)
  {
    var all := [Rule([Exact(w)], c)] + rules;
    assert all[1..] == rules;
    MatchesWords(rest);
  }

  /** A two-word rule in front of others. */
  lemma TwoWords(w: string, v: string, c: Category, rules: seq<Rule>, rest: seq<string>)
    requires |rest| >= 1
    ensures FirstMatch([Rule([Exact(w), Exact(v)], c)] + rules, rest) ==
      if |rest| >= 2 && rest[0] == w && rest[1] == v then Some(c) else FirstMatch(rules, rest)
  {
    var all := [Rule([Exact(w), Exact(v)], c)] + rules;
    assert all[1..] == rules;
    MatchesWords(rest);
  }

  lemma CoreRulesMatch(rest: seq<string>)
    requires |rest| >= 1
    ensures FirstMatch(CoreRules, rest) ==
      if rest[0] == "WEB" then Some(FEService)
      else if rest[0] == "API" then Some(BEStandardAPI)
      else if rest[0] == "GW" then Some(BEGateway)
      else None
  {
    var r2: seq<Rule> := [Rule([Exact("GW")], BEGateway)];
    var r1 := [Rule([Exact("API")], BEStandardAPI)] + r2;
    OneWord("GW", BEGateway, [], rest);
    assert [Rule([Exact("GW")], BEGateway)] + [] == r2;
    OneWord("API", BEStandardAPI, r2, rest);
    OneWord("WEB", FEService, r1, rest);
    assert CoreRules == [Rule([Exact("WEB")], FEService)] + r1;
  }

  lemma PrmRulesMatch(rest: seq<string>)
    requires |rest| >= 1
    ensures FirstMatch(PrmRules, rest) ==
      if rest[0] == "WEB" then Some(FEService)
      else if rest[0] == "API" then Some(BEInternalAPI)
      else if |rest| >= 2 && rest[0] == "STD" && rest[1] == "API" then Some(BEStandardAPI)
      else if rest[0] == "GW" then Some(BEGateway)
      else None
  {
    var r3: seq<Rule> := [Rule([Exact("GW")], BEGateway)];
    var r2 := [Rule([Exact("STD"), Exact("API")], BEStandardAPI)] + r3;
    var r1 := [Rule([Exact("API")], BEInternalAPI)] + r2;
    OneWord("GW", BEGateway, [], rest);
    assert [Rule([Exact("GW")], BEGateway)] + [] == r3;
    TwoWords("STD", "API", BEStandardAPI, r3, rest);
    OneWord("API", BEInternalAPI, r2, rest);
    OneWord("WEB", FEService, r1, rest);
    assert PrmRules == [Rule([Exact("WEB")], FEService)] + r1;
  }

  lemma DefaultRulesMatch(rest: seq<string>)
    requires |rest| >= 1
    ensures FirstMatch(DefaultRules, rest) ==
      if rest[0] == "WEB" then Some(FEService)
      else if rest[0] == "API" then Some(BEInternalAPI)
      else if |rest| >= 2 && rest[0] == "INTERNAL" && rest[1] == "API" then Some(BEInternalAPI)
      else if |rest| >= 2 && rest[0] == "STD" && rest[1] == "API" then Some(BEStandardAPI)
      else if rest[0] == "GW" then Some(BEGateway)
      else None
  {
    var r4: seq<Rule> := [Rule([Exact("GW")], BEGateway)];
    var r3 := [Rule([Exact("STD"), Exact("API")], BEStandardAPI)] + r4;
    var r2 := [Rule([Exact("INTERNAL"), Exact("API")], BEInternalAPI)] + r3;
    var r1 := [Rule([Exact("API")], BEInternalAPI)] + r2;
    OneWord("GW", BEGateway, [], rest);
    assert [Rule([Exact("GW")], BEGateway)] + [] == r4;
    TwoWords("STD", "API", BEStandardAPI, r4, rest);
    TwoWords("INTERNAL", "API", BEInternalAPI, r3, rest);
    OneWord("API", BEInternalAPI, r2, rest);
    OneWord("WEB", FEService, r1, rest);
    assert DefaultRules == [Rule([Exact("WEB")], FEService)] + r1;
  }
}
