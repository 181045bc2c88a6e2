/** The migration engine: a module maps version labels to migrations and
    runs the migrations between two versions, upward in ascending version
    order or downward in descending order, stopping at the first failure. */
module Migrations {
  import opened Wrappers
  import opened SemVer
  import opened MigrationErrors

  /** What a migration's two operations report when called: `None` for
      success, `Some(cause)` for the error returned. */
  datatype Migration = Migration(up: Option<Fault>, down: Option<Fault>)

  datatype Direction = Up | Down

  /** A module: migrations keyed by version label. */
  type Module = map<string, Migration>

  /** The version library's parser: the comparable part of a label, or
      `None` when the label is malformed. */
  type Parser = string -> Option<Core>

  /** Calling the migration's operation for direction `dir`. */
  function Outcome(m: Migration, dir: Direction): Option<Fault> {
    if dir == Up then m.up else m.down
  }

  /** Every key of the module is a well-formed version label. */
  predicate AllParse(mod: Module, parse: Parser) {
    forall k | k in mod :: parse(k).Some?
  }

  /** The parsed versions of the labels in `keys`, each remembering its label. */
  ghost function Parsed(keys: set<string>, parse: Parser): set<Version> {
    set k | k in keys && parse(k).Some? :: Version(k, parse(k).value)
  }

  /** The registered versions that satisfy `{Gt: gt, Lte: lte}`. */
  ghost function Selected(mod: Module, parse: Parser, gt: Core, lte: Core): set<Version> {
    set v | v in Parsed(mod.Keys, parse) && Within(v.core, gt, lte)
  }

  /** Every version in `plan` is the parse of a key of `mod`. */
  ghost predicate Registered(mod: Module, parse: Parser, plan: seq<Version>) {
    forall v | v in plan :: v in Parsed(mod.Keys, parse)
  }

  /** `list` holds the parsed versions of the labels in `done`, one each. */
  ghost predicate ListsParsed(done: set<string>, parse: Parser, list: seq<Version>) {
    && (forall k | k in done :: parse(k).Some?)
    && multiset(list) == multiset(Parsed(done, parse))
    && |list| == |done|
  }

  /** Parsing one more label and appending its version keeps `ListsParsed`. */
  lemma ListOneMore(done: set<string>, parse: Parser, list: seq<Version>, k: string)
    requires ListsParsed(done, parse, list)
    requires k !in done && parse(k).Some?
    ensures ListsParsed(done + {k}, parse, list + [Version(k, parse(k).value)])
  {
    var v := Version(k, parse(k).value);
    assert Parsed(done + {k}, parse) == Parsed(done, parse) + {v};
    assert v !in Parsed(done, parse);
    assert multiset(list + [v]) == multiset(list) + multiset{v};
  }

  /** Once every key is parsed, the list holds one version per key. */
  lemma ListedAll(mod: Module, parse: Parser, done: set<string>, list: seq<Version>)
    requires done == mod.Keys && ListsParsed(done, parse, list)
    ensures AllParse(mod, parse)
    ensures multiset(list) == multiset(Parsed(mod.Keys, parse)) && |list| == |mod|
  {
  }

  /** `Versions`: every key of the module parsed, in the map's (unspecified)
      iteration order, or the parse error of some key that is malformed. */
  method Versions(mod: Module, parse: Parser) returns (r: Result<seq<Version>, Fault>)
    ensures r.Ok? <==> AllParse(mod, parse)
    ensures r.Ok? ==> multiset(r.value) == multiset(Parsed(mod.Keys, parse)) && |r.value| == |mod|
    ensures r.Err? ==> r.error.ParseFault? && r.error.input in mod && parse(r.error.input).None?
  {
    var list: seq<Version> := [];
    var rest := mod.Keys;
    ghost var done: set<string> := {};
    while rest != {}
      invariant done + rest == mod.Keys && done !! rest
      invariant ListsParsed(done, parse, list)
      decreases rest
    {
      var str :| str in rest;
      var c := parse(str);
      if c.None? {
        return Err(ParseFault(str));
      }
      ListOneMore(done, parse, list, str);
      list := list + [Version(str, c.value)];
      rest := rest - {str};
      done := done + {str};
    }
    ListedAll(mod, parse, done, list);
    return Ok(list);
  }

  /** Every version of `plan` names a migration of `mod`. */
  predicate Keyed(mod: Module, plan: seq<Version>) {
    forall i | 0 <= i < |plan| :: plan[i].Text in mod
  }

  /** The position of the first migration in `plan` whose operation fails,
      or `|plan|` when all of them succeed. */
  function FirstFailing(mod: Module, plan: seq<Version>, dir: Direction): (k: nat)
    requires Keyed(mod, plan)
    ensures k <= |plan|
    ensures forall i | 0 <= i < k :: Outcome(mod[plan[i].Text], dir).None?
    ensures k < |plan| ==> Outcome(mod[plan[k].Text], dir).Some?
  {
    if plan == [] then 0
    else if Outcome(mod[plan[0].Text], dir).Some? then 0
    else 1 + FirstFailing(mod, plan[1..], dir)
  }

  /** The result and trace of running `plan` in direction `dir`: the
      migrations up to and including the first failing one are invoked, in
      plan order; the error names the failing version and the one before it. */
  predicate Ran(mod: Module, plan: seq<Version>, dir: Direction, err: Option<Fault>, trace: seq<string>)
    requires Keyed(mod, plan)
  {
    var k := FirstFailing(mod, plan, dir);
    var n := if k < |plan| then k + 1 else k;
    && |trace| == n
    && (forall i | 0 <= i < n :: trace[i] == plan[i].Text)
    && err == if k == |plan| then None
              else Some(Failed(FailMigration(Outcome(mod[plan[k].Text], dir).value, plan[k],
                                             if k == 0 then None else Some(plan[k - 1]))))
  }

  /** The execution loop shared by `Upgrade` and `Downgrade`: calls each
      migration's operation in plan order, returns at the first failure.
      `trace` lists the labels of the migrations invoked. */
  method Run(mod: Module, plan: seq<Version>, dir: Direction) returns (err: Option<Fault>, trace: seq<string>)
    requires Keyed(mod, plan)
    ensures Ran(mod, plan, dir, err, trace)
  {
    var lastVersion: Option<Version> := None;
    trace := [];
    var i := 0;
    while i < |plan|
      invariant 0 <= i <= |plan|
      invariant i <= FirstFailing(mod, plan, dir)
      invariant |trace| == i && forall j | 0 <= j < i :: trace[j] == plan[j].Text
      invariant lastVersion == if i == 0 then None else Some(plan[i - 1])
    {
      var version := plan[i];
      var m := mod[version.Text];
      trace := trace + [version.Text];
      var e := Outcome(m, dir);
      if e.Some? {
        return Some(Failed(FailMigration(e.value, version, lastVersion))), trace;
      }
      lastVersion := Some(version);
      i := i + 1;
    }
    err := None;
  }

  /** Copies a list into a fresh array, as a Go slice that is sorted in place. */
  method ToArray(list: seq<Version>) returns (a: array<Version>)
    ensures fresh(a) && a[..] == list
  {
    a := new Version[|list|](i requires 0 <= i < |list| => list[i]);
  }

  /** `Upgrade(from, to)`: runs the upgrades of the versions strictly above
      `from` and at most `to`, in ascending order. A malformed `from`, `to`
      or key aborts before any migration runs. */
  method Upgrade(mod: Module, parse: Parser, from: string, to: string)
    returns (err: Option<Fault>, trace: seq<string>, ghost plan: seq<Version>)
    ensures parse(from).None? ==> err == Some(ParseFault(from)) && trace == []
    ensures parse(from).Some? && parse(to).None? ==> err == Some(ParseFault(to)) && trace == []
    ensures parse(from).Some? && parse(to).Some? && !AllParse(mod, parse) ==>
      && trace == []
      && err.Some? && err.value.ParseFault? && err.value.input in mod && parse(err.value.input).None?
    ensures parse(from).Some? && parse(to).Some? && AllParse(mod, parse) ==>
      && Keyed(mod, plan)
      && Registered(mod, parse, plan)
      && Ascending(plan)
      && multiset(plan) == multiset(Selected(mod, parse, parse(from).value, parse(to).value))
      && Ran(mod, plan, Up, err, trace)
  {
    plan := [];
    var fromVersion := parse(from);
    if fromVersion.None? {
      return Some(ParseFault(from)), [], plan;
    }
    var toVersion := parse(to);
    if toVersion.None? {
      return Some(ParseFault(to)), [], plan;
    }
    var versions := Versions(mod, parse);
    if versions.Err? {
      return Some(versions.error), [], plan;
    }
    var matched := Match(versions.value, fromVersion.value, toVersion.value);
    MatchSelects(mod, parse, versions.value, fromVersion.value, toVersion.value);
    var a := ToArray(matched);
    SortStable(a);
    var sorted := a[..];
    plan := sorted;
    PlanIsRegistered(mod, parse, sorted, fromVersion.value, toVersion.value);
    err, trace := Run(mod, sorted, Up);
  }

  /** `Downgrade(from, to)`: runs the downgrades of the versions strictly
      above `to` and at most `from`, in descending order. A malformed `from`,
      `to` or key aborts before any migration runs. */
  method Downgrade(mod: Module, parse: Parser, from: string, to: string)
    returns (err: Option<Fault>, trace: seq<string>, ghost plan: seq<Version>)
    ensures parse(from).None? ==> err == Some(ParseFault(from)) && trace == []
    ensures parse(from).Some? && parse(to).None? ==> err == Some(ParseFault(to)) && trace == []
    ensures parse(from).Some? && parse(to).Some? && !AllParse(mod, parse) ==>
      && trace == []
      && err.Some? && err.value.ParseFault? && err.value.input in mod && parse(err.value.input).None?
    ensures parse(from).Some? && parse(to).Some? && AllParse(mod, parse) ==>
      && Keyed(mod, plan)
      && Registered(mod, parse, plan)
      && Descending(plan)
      && multiset(plan) == multiset(Selected(mod, parse, parse(to).value, parse(from).value))
      && Ran(mod, plan, Down, err, trace)
  {
    plan := [];
    var fromVersion := parse(from);
    if fromVersion.None? {
      return Some(ParseFault(from)), [], plan;
    }
    var toVersion := parse(to);
    if toVersion.None? {
      return Some(ParseFault(to)), [], plan;
    }
    var versions := Versions(mod, parse);
    if versions.Err? {
      return Some(versions.error), [], plan;
    }
    var matched := Match(versions.value, toVersion.value, fromVersion.value);
    MatchSelects(mod, parse, versions.value, toVersion.value, fromVersion.value);
    var a := ToArray(matched);
    SortStable(a);
    ghost var ascending := a[..];
    Reverse(a);
    ReversedIsPermutation(ascending);
    ReversedFlipsOrder(ascending);
    var sorted := a[..];
    plan := sorted;
    PlanIsRegistered(mod, parse, sorted, toVersion.value, fromVersion.value);
    err, trace := Run(mod, sorted, Down);
  }

  /** Matching the parsed keys against `{Gt: gt, Lte: lte}` yields each
      selected version once. */
  lemma MatchSelects(mod: Module, parse: Parser, list: seq<Version>, gt: Core, lte: Core)
    requires multiset(list) == multiset(Parsed(mod.Keys, parse))
    ensures multiset(Match(list, gt, lte)) == multiset(Selected(mod, parse, gt, lte))
  {
    MatchCounts(list, gt, lte);
    var m := multiset(Match(list, gt, lte));
    var s := multiset(Selected(mod, parse, gt, lte));
    forall v ensures m[v] == s[v] {
      assert v in Selected(mod, parse, gt, lte) <==> v in Parsed(mod.Keys, parse) && Within(v.core, gt, lte);
    }
  }

  /** A plan holding each selected version once names only registered keys. */
  lemma PlanIsRegistered(mod: Module, parse: Parser, plan: seq<Version>, gt: Core, lte: Core)
    requires multiset(plan) == multiset(Selected(mod, parse, gt, lte))
    ensures Registered(mod, parse, plan) && Keyed(mod, plan)
  {
    forall v | v in plan ensures v in Parsed(mod.Keys, parse) {
      assert v in multiset(plan);
    }
    forall i | 0 <= i < |plan| ensures plan[i].Text in mod {
      assert plan[i] in plan;
    }
  }
}
