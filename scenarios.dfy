/** The cases of the repository's test table (module_test.go), run against
    the engine's contracts: three migrations 1.0.0, 2.0.0 and 3.0.0, with
    the labels those tests use. */
module Scenarios {
  import opened Wrappers
  import opened SemVer
  import opened MigrationErrors
  import opened Migrations
  import opened EngineProperties

  /** The version library's reading of the labels the tests use. */
  function TestParse(s: string): Option<Core> {
    if s == "0" then Some(Core(0, 0, 0))
    else if s == "1" then Some(Core(1, 0, 0))
    else if s == "2" then Some(Core(2, 0, 0))
    else if s == "3" then Some(Core(3, 0, 0))
    else if s == "4" then Some(Core(4, 0, 0))
    else if s == "1.0.0" then Some(Core(1, 0, 0))
    else if s == "2.0.0" then Some(Core(2, 0, 0))
    else if s == "3.0.0" then Some(Core(3, 0, 0))
    else None
  }

  const V1 := Version("1.0.0", Core(1, 0, 0))
  const V2 := Version("2.0.0", Core(2, 0, 0))
  const V3 := Version("3.0.0", Core(3, 0, 0))

  const Succeeding := Migration(None, None)
  const Failing := Migration(Some(Other("test")), Some(Other("test")))

  /** The test module, with the migration at 2.0.0 or 3.0.0 optionally broken. */
  function TestModule(m1: Migration, m2: Migration, m3: Migration): Module {
    map["1.0.0" := m1, "2.0.0" := m2, "3.0.0" := m3]
  }

  /** Every key of the test module is a well-formed label. */
  lemma TestKeysParse(mod: Module)
    requires mod.Keys == {"1.0.0", "2.0.0", "3.0.0"}
    ensures AllParse(mod, TestParse)
  {
  }

  /** The test module's keys parse to the three versions, no two equal. */
  lemma ParsedKeys(mod: Module)
    requires mod.Keys == {"1.0.0", "2.0.0", "3.0.0"}
    ensures Parsed(mod.Keys, TestParse) == {V1, V2, V3}
    ensures DistinctVersions(mod, TestParse)
  {
    assert Version("1.0.0", TestParse("1.0.0").value) == V1;
    assert Version("2.0.0", TestParse("2.0.0").value) == V2;
    assert Version("3.0.0", TestParse("3.0.0").value) == V3;
  }

  /** The three versions in ascending order. */
  lemma UpList()
    ensures multiset([V1, V2, V3]) == multiset({V1, V2, V3}) && Ascending([V1, V2, V3])
  {
  }

  /** The three versions in descending order. */
  lemma DownList()
    ensures multiset([V3, V2, V1]) == multiset({V1, V2, V3}) && Descending([V3, V2, V1])
  {
  }

  /** Matching a three-element list, one element at a time. */
  lemma MatchOfThree(a: Version, b: Version, c: Version, gt: Core, lte: Core)
    ensures Match([a, b, c], gt, lte) == (if Within(a.core, gt, lte) then [a] else []) + Match([b, c], gt, lte)
    ensures Match([b, c], gt, lte) == (if Within(b.core, gt, lte) then [b] else []) + Match([c], gt, lte)
    ensures Match([c], gt, lte) == if Within(c.core, gt, lte) then [c] else []
  {
    assert [a, b, c] == [a] + [b, c] && [b, c] == [b] + [c] && [c] == [c] + [];
    MatchCons(a, [b, c], gt, lte);
    MatchCons(b, [c], gt, lte);
    MatchCons(c, [], gt, lte);
  }

  /** One step of matching. */
  lemma MatchCons(x: Version, t: seq<Version>, gt: Core, lte: Core)
    ensures Match([x] + t, gt, lte) == (if Within(x.core, gt, lte) then [x] else []) + Match(t, gt, lte)
  {
    assert ([x] + t)[1..] == t;
  }

  /** For the test module, the plan of any range is the three versions in
      the direction's order, cut down to the range. */
  lemma PlanOf(mod: Module, gt: Core, lte: Core, dir: Direction, plan: seq<Version>)
    requires mod.Keys == {"1.0.0", "2.0.0", "3.0.0"}
    requires multiset(plan) == multiset(Selected(mod, TestParse, gt, lte))
    requires dir == Up ==> Ascending(plan)
    requires dir == Down ==> Descending(plan)
    ensures plan == Match(if dir == Up then [V1, V2, V3] else [V3, V2, V1], gt, lte)
  {
    ParsedKeys(mod);
    if dir == Up { UpList(); } else { DownList(); }
    var list := if dir == Up then [V1, V2, V3] else [V3, V2, V1];
    MatchSelects(mod, TestParse, list, gt, lte);
    MatchKeepsOrder(list, gt, lte);
    PlanIsDetermined(mod, TestParse, gt, lte, dir, plan, Match(list, gt, lte));
  }

  // The plans of the ranges the test cases use.

  lemma UpPlanZeroToThree()
    ensures Match([V1, V2, V3], Core(0, 0, 0), Core(3, 0, 0)) == [V1, V2, V3]
  {
    MatchOfThree(V1, V2, V3, Core(0, 0, 0), Core(3, 0, 0));
  }

  lemma UpPlanOneToThree()
    ensures Match([V1, V2, V3], Core(1, 0, 0), Core(3, 0, 0)) == [V2, V3]
  {
    MatchOfThree(V1, V2, V3, Core(1, 0, 0), Core(3, 0, 0));
  }

  lemma DownPlanThreeToZero()
    ensures Match([V3, V2, V1], Core(0, 0, 0), Core(3, 0, 0)) == [V3, V2, V1]
  {
    MatchOfThree(V3, V2, V1, Core(0, 0, 0), Core(3, 0, 0));
  }

  lemma DownPlanThreeToTwo()
    ensures Match([V3, V2, V1], Core(2, 0, 0), Core(3, 0, 0)) == [V3]
  {
    MatchOfThree(V3, V2, V1, Core(2, 0, 0), Core(3, 0, 0));
  }

  lemma DownPlanFourToOne()
    ensures Match([V3, V2, V1], Core(1, 0, 0), Core(4, 0, 0)) == [V3, V2]
  {
    MatchOfThree(V3, V2, V1, Core(1, 0, 0), Core(4, 0, 0));
  }

  /** module_test.go, case 1: upgrading from 0 to 3 runs all three upgrades,
      in ascending order. */
  method UpgradeFromZeroToThree() {
    var mod := TestModule(Succeeding, Succeeding, Succeeding);
    TestKeysParse(mod);
    var err, trace, plan := Upgrade(mod, TestParse, "0", "3");
    PlanOf(mod, Core(0, 0, 0), Core(3, 0, 0), Up, plan);
    UpPlanZeroToThree();
    AllThreeRun(mod, plan, Up, err, trace);
    assert err == None && trace == ["1.0.0", "2.0.0", "3.0.0"];
  }

  /** module_test.go, case 2: upgrading from 1 to 3 skips 1.0.0. */
  method UpgradeFromOneToThree() {
    var mod := TestModule(Succeeding, Succeeding, Succeeding);
    TestKeysParse(mod);
    var err, trace, plan := Upgrade(mod, TestParse, "1", "3");
    PlanOf(mod, Core(1, 0, 0), Core(3, 0, 0), Up, plan);
    UpPlanOneToThree();
    TwoAndThreeRun(mod, plan, err, trace);
    assert err == None && trace == ["2.0.0", "3.0.0"];
  }

  /** module_test.go, case 3: downgrading from 3 to 0 runs all three
      downgrades, in descending order. */
  method DowngradeFromThreeToZero() {
    var mod := TestModule(Succeeding, Succeeding, Succeeding);
    TestKeysParse(mod);
    var err, trace, plan := Downgrade(mod, TestParse, "3", "0");
    PlanOf(mod, Core(0, 0, 0), Core(3, 0, 0), Down, plan);
    DownPlanThreeToZero();
    AllThreeRun(mod, plan, Down, err, trace);
    assert err == None && trace == ["3.0.0", "2.0.0", "1.0.0"];
  }

  /** module_test.go, case 4: downgrading from 3 to 2 runs only 3.0.0. */
  method DowngradeFromThreeToTwo() {
    var mod := TestModule(Succeeding, Succeeding, Succeeding);
    TestKeysParse(mod);
    var err, trace, plan := Downgrade(mod, TestParse, "3", "2");
    PlanOf(mod, Core(2, 0, 0), Core(3, 0, 0), Down, plan);
    DownPlanThreeToTwo();
    OnlyThreeRuns(mod, plan, err, trace);
    assert err == None && trace == ["3.0.0"];
  }

  /** module_test.go, case 5: the upgrade at 2.0.0 fails after 1.0.0;
      3.0.0 is never invoked. */
  method UpgradeFailsAtTwo() {
    var mod := TestModule(Succeeding, Failing, Succeeding);
    TestKeysParse(mod);
    var err, trace, plan := Upgrade(mod, TestParse, "0", "3");
    PlanOf(mod, Core(0, 0, 0), Core(3, 0, 0), Up, plan);
    UpPlanZeroToThree();
    UpgradeStopsAtTwo(mod, plan, err, trace);
    assert err == Some(Failed(FailMigration(Other("test"), V2, Some(V1))));
    assert trace == ["1.0.0", "2.0.0"];
  }

  /** module_test.go, case 6: the downgrade at 2.0.0 fails after 3.0.0;
      1.0.0 lies outside the range. */
  method DowngradeFailsAtTwo() {
    var mod := TestModule(Succeeding, Failing, Succeeding);
    TestKeysParse(mod);
    var err, trace, plan := Downgrade(mod, TestParse, "4", "1");
    PlanOf(mod, Core(1, 0, 0), Core(4, 0, 0), Down, plan);
    DownPlanFourToOne();
    DowngradeStopsAtTwo(mod, plan, err, trace);
    assert err == Some(Failed(FailMigration(Other("test"), V2, Some(V3))));
    assert trace == ["3.0.0", "2.0.0"];
  }

  /** module_test.go, case 7: the first downgrade fails, so there is no last
      version. */
  method DowngradeFailsAtFirst() {
    var mod := TestModule(Succeeding, Succeeding, Failing);
    TestKeysParse(mod);
    var err, trace, plan := Downgrade(mod, TestParse, "4", "1");
    PlanOf(mod, Core(1, 0, 0), Core(4, 0, 0), Down, plan);
    DownPlanFourToOne();
    DowngradeStopsAtThree(mod, plan, err, trace);
    assert err == Some(Failed(FailMigration(Other("test"), V3, None)));
    assert trace == ["3.0.0"];
  }

  /** A malformed lower bound aborts the call before any migration runs. */
  method MalformedFromRunsNothing() {
    var mod := TestModule(Succeeding, Succeeding, Succeeding);
    var err, trace, plan := Upgrade(mod, TestParse, "x", "3");
    assert err == Some(ParseFault("x")) && trace == [];
  }

  /** A malformed target aborts the call before any migration runs. */
  method MalformedToRunsNothing() {
    var mod := TestModule(Succeeding, Succeeding, Succeeding);
    var err, trace, plan := Downgrade(mod, TestParse, "3", "y");
    assert err == Some(ParseFault("y")) && trace == [];
  }

  /** A malformed key aborts the call before any migration runs, and the
      error names that key. */
  method MalformedKeyRunsNothing() {
    var mod := TestModule(Succeeding, Succeeding, Succeeding)["bad" := Succeeding];
    var err, trace, plan := Upgrade(mod, TestParse, "0", "3");
    assert TestParse("0").Some? && TestParse("3").Some? && TestParse("bad").None?;
    assert err == Some(ParseFault("bad")) && trace == [];
  }

  /** Listing the versions twice gives the same versions, whatever order the
      map yields its keys in. */
  method VersionsAreStable(mod: Module, parse: Parser) {
    var a := Versions(mod, parse);
    var b := Versions(mod, parse);
    assert a.Ok? <==> b.Ok?;
    assert a.Ok? ==> multiset(a.value) == multiset(b.value);
  }

  lemma AllThreeRun(mod: Module, plan: seq<Version>, dir: Direction, err: Option<Fault>, trace: seq<string>)
    requires mod == TestModule(Succeeding, Succeeding, Succeeding)
    requires plan == if dir == Up then [V1, V2, V3] else [V3, V2, V1]
    requires Keyed(mod, plan) && Ran(mod, plan, dir, err, trace)
    ensures err == None
    ensures trace == if dir == Up then ["1.0.0", "2.0.0", "3.0.0"] else ["3.0.0", "2.0.0", "1.0.0"]
  {
    SuccessRunsWholePlan(mod, plan, dir, err, trace);
  }

  lemma TwoAndThreeRun(mod: Module, plan: seq<Version>, err: Option<Fault>, trace: seq<string>)
    requires mod == TestModule(Succeeding, Succeeding, Succeeding)
    requires plan == [V2, V3]
    requires Keyed(mod, plan) && Ran(mod, plan, Up, err, trace)
    ensures err == None && trace == ["2.0.0", "3.0.0"]
  {
    SuccessRunsWholePlan(mod, plan, Up, err, trace);
  }

  lemma OnlyThreeRuns(mod: Module, plan: seq<Version>, err: Option<Fault>, trace: seq<string>)
    requires mod == TestModule(Succeeding, Succeeding, Succeeding)
    requires plan == [V3]
    requires Keyed(mod, plan) && Ran(mod, plan, Down, err, trace)
    ensures err == None && trace == ["3.0.0"]
  {
    SuccessRunsWholePlan(mod, plan, Down, err, trace);
  }

  lemma UpgradeStopsAtTwo(mod: Module, plan: seq<Version>, err: Option<Fault>, trace: seq<string>)
    requires mod == TestModule(Succeeding, Failing, Succeeding)
    requires plan == [V1, V2, V3]
    requires Keyed(mod, plan) && Ran(mod, plan, Up, err, trace)
    ensures err == Some(Failed(FailMigration(Other("test"), V2, Some(V1))))
    ensures trace == ["1.0.0", "2.0.0"]
  {
    assert FirstFailing(mod, plan, Up) == 1;
  }

  lemma DowngradeStopsAtTwo(mod: Module, plan: seq<Version>, err: Option<Fault>, trace: seq<string>)
    requires mod == TestModule(Succeeding, Failing, Succeeding)
    requires plan == [V3, V2]
    requires Keyed(mod, plan) && Ran(mod, plan, Down, err, trace)
    ensures err == Some(Failed(FailMigration(Other("test"), V2, Some(V3))))
    ensures trace == ["3.0.0", "2.0.0"]
  {
    assert FirstFailing(mod, plan, Down) == 1;
  }

  lemma DowngradeStopsAtThree(mod: Module, plan: seq<Version>, err: Option<Fault>, trace: seq<string>)
    requires mod == TestModule(Succeeding, Succeeding, Failing)
    requires plan == [V3, V2]
    requires Keyed(mod, plan) && Ran(mod, plan, Down, err, trace)
    ensures err == Some(Failed(FailMigration(Other("test"), V3, None)))
    ensures trace == ["3.0.0"]
  {
    assert FirstFailing(mod, plan, Down) == 0;
  }
}
