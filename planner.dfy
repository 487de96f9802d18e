/** The rule-based task planner of `plan_task`: three keyword rules checked in
    a fixed order against the lower-cased request, one task per rule that
    fires, and a single `general` fallback task when none does. */
module Planner {
  import opened Schemas
  import opened Text

  datatype Rule = Rule(keyword: string, description: string, requirements: seq<string>, contextKey: string)

  /** The rule table, in the order the source tests the keywords. */
  const Rules: seq<Rule> := [
    Rule("calculate", "Perform arithmetic calculation", ["arithmetic", "math"], "input"),
    Rule("search", "Search for information", ["search", "information_retrieval"], "query"),
    Rule("analyze", "Analyze data", ["data_analysis", "statistics"], "data")
  ]

  const FallbackRequirements: seq<string> := ["general"]

  function RuleTask(rule: Rule, request: string, n: nat): Task {
    Task(Uuid(n), rule.description, rule.requirements, map[rule.contextKey := request], Pending, None, None)
  }

  function FallbackTask(request: string, n: nat): Task {
    Task(Uuid(n), request, FallbackRequirements, map["original_request" := request], Pending, None, None)
  }

  /** Whether keyword rule `k` fires on `request` (case-insensitively). */
  predicate Fires(request: string, k: nat)
    requires k < |Rules|
  {
    Contains(Lower(request), Rules[k].keyword)
  }

  /** The index of the rule whose requirements are `reqs`, or 3 for the fallback. */
  function RuleOf(reqs: seq<string>): nat {
    if reqs == Rules[0].requirements then 0
    else if reqs == Rules[1].requirements then 1
    else if reqs == Rules[2].requirements then 2
    else 3
  }

  /** The tasks the rules emitted so far, numbered from `first`, after rule `k`
      has been tested (`k` of 0, 1, 2 or 3 rules tested). */
  function Emitted(request: string, first: nat, k: nat): seq<Task>
    requires k <= |Rules|
  {
    if k == 0 then []
    else
      var before := Emitted(request, first, k - 1);
      before + if Fires(request, k - 1) then [RuleTask(Rules[k - 1], request, first + |before|)] else []
  }

  /** The plan for `request`, its tasks numbered from the fresh value `first`:
      what the three keyword tests emit in turn, or the fallback task when they
      emit nothing. */
  function Plan(request: string, first: nat): seq<Task> {
    var e := Emitted(request, first, |Rules|);
    if e == [] then [FallbackTask(request, first)] else e
  }

  /** The fresh counter once the plan's task ids have been drawn. */
  function AfterPlan(request: string, first: nat): nat {
    first + |Plan(request, first)|
  }

  /** One more test: rule `k` appends its task, numbered after those already
      emitted, exactly when it fires. */
  lemma EmittedStep(request: string, first: nat, k: nat)
    requires k < |Rules|
    ensures var e := Emitted(request, first, k);
      Emitted(request, first, k + 1) == e + if Fires(request, k) then [RuleTask(Rules[k], request, first + |e|)] else []
  {
  }

  /** The three tests spelled out. */
  lemma EmittedSteps(request: string, first: nat)
    ensures var e1 := Emitted(request, first, 1);
      var e2 := Emitted(request, first, 2);
      && e1 == (if Fires(request, 0) then [RuleTask(Rules[0], request, first)] else [])
      && e2 == e1 + (if Fires(request, 1) then [RuleTask(Rules[1], request, first + |e1|)] else [])
      && Emitted(request, first, 3) == e2 + (if Fires(request, 2) then [RuleTask(Rules[2], request, first + |e2|)] else [])
  {
    assert Emitted(request, first, 0) == [];
  }

  /** Every plan has one to three tasks, numbered by consecutive fresh values
      and all pending with no result and no assigned resource. */
  lemma PlanShape(request: string, first: nat)
    ensures var p := Plan(request, first);
      && 1 <= |p| <= 3
      && forall i :: 0 <= i < |p| ==>
           p[i].id == Uuid(first + i) && p[i].status == Pending
           && p[i].result == None && p[i].assignedResource == None
  {
    EmittedShape(request, first, |Rules|);
  }

  /** The tasks emitted by the first `k` tests are at most `k`, numbered by
      consecutive fresh values and all pending with no result and no resource. */
  lemma {:induction false} EmittedShape(request: string, first: nat, k: nat)
    requires k <= |Rules|
    ensures var e := Emitted(request, first, k);
      && |e| <= k
      && forall i :: 0 <= i < |e| ==>
           e[i].id == Uuid(first + i) && e[i].status == Pending
           && e[i].result == None && e[i].assignedResource == None
  {
    if k > 0 {
      EmittedShape(request, first, k - 1);
      EmittedStep(request, first, k - 1);
    }
  }

  /** The fallback task is emitted exactly when no keyword occurs: then the plan
      is that one task, carrying the verbatim request. */
  lemma {:induction false} PlanFallback(request: string, first: nat)
    ensures (!Fires(request, 0) && !Fires(request, 1) && !Fires(request, 2))
        <==> Plan(request, first) == [FallbackTask(request, first)]
  {
    EmittedSteps(request, first);
    var p := Plan(request, first);
    if Fires(request, 0) || Fires(request, 1) || Fires(request, 2) {
      assert p[0].requirements != FallbackRequirements;
    }
  }

  /** How many of the rules before rule `k` fire on `request`. */
  function Position(request: string, k: nat): nat
    requires k < |Rules|
  {
    (if k > 0 && Fires(request, 0) then 1 else 0) + (if k > 1 && Fires(request, 1) then 1 else 0)
  }

  /** Rule `k` fires exactly when some task of the plan carries its requirements;
      that task then comes right after the tasks of the earlier rules that fired,
      has the rule's description and holds the whole request under the rule's
      context key. */
  lemma PlanRuleTask(request: string, first: nat, k: nat)
    requires k < |Rules|
    ensures var p := Plan(request, first);
      Fires(request, k) <==> exists i :: 0 <= i < |p| && p[i].requirements == Rules[k].requirements
    ensures var p := Plan(request, first);
      Fires(request, k) ==>
        Position(request, k) < |p| && p[Position(request, k)] == RuleTask(Rules[k], request, first + Position(request, k))
  {
    EmittedSteps(request, first);
    var p := Plan(request, first);
    if Fires(request, k) {
      var i := Position(request, k);
      assert p[i].requirements == Rules[k].requirements;
    } else {
      forall i | 0 <= i < |p| ensures p[i].requirements != Rules[k].requirements {
      }
    }
  }

  /** When some keyword fires, the plan holds the fired rules' tasks and
      nothing else: one task per fired rule and no fallback task. */
  lemma OnlyFiredTasks(request: string, first: nat)
    requires Fires(request, 0) || Fires(request, 1) || Fires(request, 2)
    ensures var p := Plan(request, first);
      && |p| == Position(request, 2) + (if Fires(request, 2) then 1 else 0)
      && forall i :: 0 <= i < |p| ==> RuleOf(p[i].requirements) < 3
  {
    EmittedSteps(request, first);
  }

  /** Tasks appear in rule-table order: calculate before search before analyze. */
  lemma PlanOrder(request: string, first: nat)
    ensures var p := Plan(request, first);
      forall i, j :: 0 <= i < j < |p| ==> RuleOf(p[i].requirements) < RuleOf(p[j].requirements)
  {
    EmittedSteps(request, first);
  }

  /** Without a `y` in either case, "analyze" cannot fire. */
  lemma NoAnalyzeWithoutY(r: string)
    requires 'y' !in r && 'Y' !in r
    ensures !Fires(r, 2)
  {
    LowerOmits(r, 'y');
    MissingCharNotContained(Lower(r), "analyze", 'y');
  }

  /** Without a `c` in either case, neither "calculate" nor "search" can fire. */
  lemma NoCalculateOrSearchWithoutC(r: string)
    requires 'c' !in r && 'C' !in r
    ensures !Fires(r, 0) && !Fires(r, 1)
  {
    LowerOmits(r, 'c');
    MissingCharNotContained(Lower(r), "calculate", 'c');
    MissingCharNotContained(Lower(r), "search", 'c');
  }

  lemma CalculateFiresAtStart(r: string)
    requires r == "calculate 2+2 and search for cats"
    ensures Fires(r, 0)
  {
    var l := Lower(r);
    assert l[..9] == "calculate";
    ContainsAt(l, "calculate", 0);
  }

  lemma SearchFiresInside(r: string)
    requires r == "calculate 2+2 and search for cats"
    ensures Fires(r, 1)
  {
    var l := Lower(r);
    assert l[18] == 's' && l[19] == 'e' && l[20] == 'a' && l[21] == 'r' && l[22] == 'c' && l[23] == 'h';
    assert l[18..24] == "search";
    ContainsAt(l, "search", 18);
  }

  lemma NoAnalyzeInCalculateAndSearch(r: string)
    requires r == "calculate 2+2 and search for cats"
    ensures !Fires(r, 2)
  {
    assert forall i | 0 <= i < |r| :: r[i] != 'y' && r[i] != 'Y';
    NoAnalyzeWithoutY(r);
  }

  /** A request on which the first two rules fire and the third does not plans
      exactly their two tasks. */
  lemma TwoRulePlan(r: string, first: nat)
    requires Fires(r, 0) && Fires(r, 1) && !Fires(r, 2)
    ensures var p := Plan(r, first);
      |p| == 2 && p[0].requirements == ["arithmetic", "math"]
      && p[1].requirements == ["search", "information_retrieval"]
  {
    EmittedSteps(r, first);
  }

  /** "calculate 2+2 and search for cats" plans an arithmetic task then a search task. */
  lemma CalculateAndSearchScenario(r: string, first: nat)
    requires r == "calculate 2+2 and search for cats"
    ensures var p := Plan(r, first);
      |p| == 2 && p[0].requirements == ["arithmetic", "math"]
      && p[1].requirements == ["search", "information_retrieval"]
  {
    CalculateFiresAtStart(r);
    SearchFiresInside(r);
    NoAnalyzeInCalculateAndSearch(r);
    TwoRulePlan(r, first);
  }

  /** Matching ignores case: an upper-case keyword still triggers its rule. */
  lemma UpperCaseScenario(r: string, first: nat)
    requires r == "CALCULATE"
    ensures Plan(r, first)[0].requirements == ["arithmetic", "math"]
  {
    var l := Lower(r);
    assert l[..9] == "calculate";
    ContainsAt(l, "calculate", 0);
    EmittedSteps(r, first);
  }

  /** A request matching no rule falls back to one `general` task. */
  lemma NoKeywordScenario(r: string, first: nat)
    requires r == "hello there"
    ensures Plan(r, first) == [FallbackTask(r, first)]
  {
    assert forall i | 0 <= i < |r| :: r[i] != 'y' && r[i] != 'Y' && r[i] != 'c' && r[i] != 'C';
    NoAnalyzeWithoutY(r);
    NoCalculateOrSearchWithoutC(r);
    PlanFallback(r, first);
  }
}
