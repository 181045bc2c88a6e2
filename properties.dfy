/** What the engine guarantees across a whole call: which migrations run,
    in which order, how a failure is reported, and when nothing runs. */
module EngineProperties {
  import opened Wrappers
  import opened SemVer
  import opened MigrationErrors
  import opened Migrations

  /** A value occurring at two positions of `s` occurs at least twice in it. */
  lemma {:induction false} RepeatCounts(s: seq<Version>, i: nat, j: nat)
    requires i < j < |s| && s[i] == s[j]
    ensures multiset(s)[s[i]] >= 2
  {
    assert s == s[..j] + s[j..];
    assert s[i] in s[..j];
    assert s[j] in s[j..];
  }

  /** A plan holding each selected version once has no repeated label. */
  lemma DistinctLabels(mod: Module, parse: Parser, plan: seq<Version>, gt: Core, lte: Core)
    requires multiset(plan) == multiset(Selected(mod, parse, gt, lte))
    ensures forall i, j | 0 <= i < j < |plan| :: plan[i].Text != plan[j].Text
  {
    forall i, j | 0 <= i < j < |plan| ensures plan[i].Text != plan[j].Text {
      assert plan[i] in multiset(plan) && plan[j] in multiset(plan);
      if plan[i].Text == plan[j].Text {
        assert plan[i] == plan[j];
        RepeatCounts(plan, i, j);
        assert false;
      }
    }
  }

  /** A run that reports no error invoked every planned migration, once each,
      and no other; and it reports no error exactly when every planned
      migration succeeds. */
  lemma SuccessRunsWholePlan(mod: Module, plan: seq<Version>, dir: Direction, err: Option<Fault>, trace: seq<string>)
    requires Keyed(mod, plan) && Ran(mod, plan, dir, err, trace)
    ensures err.None? <==> forall i | 0 <= i < |plan| :: Outcome(mod[plan[i].Text], dir).None?
    ensures err.None? ==> |trace| == |plan| && forall i | 0 <= i < |plan| :: trace[i] == plan[i].Text
  {
    var k := FirstFailing(mod, plan, dir);
    if k < |plan| {
      assert !(forall i | 0 <= i < |plan| :: Outcome(mod[plan[i].Text], dir).None?);
    }
  }

  /** When every selected migration succeeds, the labels invoked are exactly
      the registered labels whose versions lie in `{Gt: gt, Lte: lte}`, each
      invoked once. */
  lemma SelectionRunsOnce(mod: Module, parse: Parser, plan: seq<Version>, gt: Core, lte: Core,
                          dir: Direction, trace: seq<string>)
    requires multiset(plan) == multiset(Selected(mod, parse, gt, lte))
    requires Keyed(mod, plan) && Ran(mod, plan, dir, None, trace)
    ensures forall k :: k in trace <==> k in mod && parse(k).Some? && Within(parse(k).value, gt, lte)
    ensures forall i, j | 0 <= i < j < |trace| :: trace[i] != trace[j]
  {
    SuccessRunsWholePlan(mod, plan, dir, None, trace);
    DistinctLabels(mod, parse, plan, gt, lte);
    forall k ensures k in trace <==> k in mod && parse(k).Some? && Within(parse(k).value, gt, lte) {
      if k in trace {
        var i :| 0 <= i < |trace| && trace[i] == k;
        assert plan[i] in multiset(plan);
      }
      if k in mod && parse(k).Some? && Within(parse(k).value, gt, lte) {
        var v := Version(k, parse(k).value);
        assert v in Selected(mod, parse, gt, lte);
        assert v in multiset(plan);
        var i :| 0 <= i < |plan| && plan[i] == v;
        assert trace[i] == k;
      }
    }
  }

  /** Whether the run succeeds or fails, every label invoked is a registered
      key whose version lies in `{Gt: gt, Lte: lte}`, and none is invoked
      twice. */
  lemma InvokedOnceWithinRange(mod: Module, parse: Parser, plan: seq<Version>, gt: Core, lte: Core,
                               dir: Direction, err: Option<Fault>, trace: seq<string>)
    requires multiset(plan) == multiset(Selected(mod, parse, gt, lte))
    requires Keyed(mod, plan) && Ran(mod, plan, dir, err, trace)
    ensures forall k | k in trace :: k in mod && parse(k).Some? && Within(parse(k).value, gt, lte)
    ensures forall i, j | 0 <= i < j < |trace| :: trace[i] != trace[j]
  {
    DistinctLabels(mod, parse, plan, gt, lte);
    forall k | k in trace ensures k in mod && parse(k).Some? && Within(parse(k).value, gt, lte) {
      var i :| 0 <= i < |trace| && trace[i] == k;
      assert plan[i] in multiset(plan);
    }
  }

  /** Any call to `Upgrade`, failed or not, invokes only registered labels
      whose versions lie in `(from, to]`, each at most once. */
  method UpgradeStaysInRange(mod: Module, parse: Parser, from: string, to: string)
    returns (err: Option<Fault>, trace: seq<string>)
    ensures forall k | k in trace ::
      && parse(from).Some? && parse(to).Some? && k in mod && parse(k).Some?
      && Within(parse(k).value, parse(from).value, parse(to).value)
    ensures forall i, j | 0 <= i < j < |trace| :: trace[i] != trace[j]
  {
    ghost var plan;
    err, trace, plan := Upgrade(mod, parse, from, to);
    if parse(from).Some? && parse(to).Some? && AllParse(mod, parse) {
      InvokedOnceWithinRange(mod, parse, plan, parse(from).value, parse(to).value, Up, err, trace);
    }
  }

  /** Any call to `Downgrade`, failed or not, invokes only registered labels
      whose versions lie in `(to, from]`, each at most once. */
  method DowngradeStaysInRange(mod: Module, parse: Parser, from: string, to: string)
    returns (err: Option<Fault>, trace: seq<string>)
    ensures forall k | k in trace ::
      && parse(from).Some? && parse(to).Some? && k in mod && parse(k).Some?
      && Within(parse(k).value, parse(to).value, parse(from).value)
    ensures forall i, j | 0 <= i < j < |trace| :: trace[i] != trace[j]
  {
    ghost var plan;
    err, trace, plan := Downgrade(mod, parse, from, to);
    if parse(from).Some? && parse(to).Some? && AllParse(mod, parse) {
      InvokedOnceWithinRange(mod, parse, plan, parse(to).value, parse(from).value, Down, err, trace);
    }
  }

  /** Every label invoked is a well-formed version, and upgrades are invoked
      in non-decreasing, downgrades in non-increasing version order. This
      holds of a run cut short by a failure too. */
  lemma TraceInOrder(mod: Module, parse: Parser, plan: seq<Version>, dir: Direction,
                     err: Option<Fault>, trace: seq<string>)
    requires Registered(mod, parse, plan) && Keyed(mod, plan)
    requires dir == Up ==> Ascending(plan)
    requires dir == Down ==> Descending(plan)
    requires Ran(mod, plan, dir, err, trace)
    ensures forall i | 0 <= i < |trace| :: trace[i] in mod && parse(trace[i]).Some?
    ensures forall i, j | 0 <= i < j < |trace| ::
      if dir == Up then LessEq(parse(trace[i]).value, parse(trace[j]).value)
      else LessEq(parse(trace[j]).value, parse(trace[i]).value)
  {
    forall i | 0 <= i < |trace| ensures trace[i] in mod && parse(trace[i]) == Some(plan[i].core) {
      assert plan[i] in plan;
    }
  }

  /** A failed run stops at the first failing migration: those before it
      succeeded, none after it was invoked, and the record names the failing
      version, the one invoked just before it (none if it was the first) and
      the cause. */
  lemma FailFastWithContext(mod: Module, plan: seq<Version>, dir: Direction, err: Option<Fault>, trace: seq<string>)
    requires Keyed(mod, plan) && Ran(mod, plan, dir, err, trace)
    requires err.Some?
    ensures 1 <= |trace| <= |plan|
    ensures forall i | 0 <= i < |trace| :: trace[i] == plan[i].Text
    ensures forall i | 0 <= i < |trace| - 1 :: Outcome(mod[trace[i]], dir).None?
    ensures Outcome(mod[trace[|trace| - 1]], dir).Some?
    ensures err.value.Failed? && Is(err.value.err, Failed(ErrMigrationFailed))
    ensures err.value.err.PreviousError == Outcome(mod[trace[|trace| - 1]], dir)
    ensures err.value.err.Version == Some(plan[|trace| - 1])
    ensures err.value.err.LastVersion == if |trace| == 1 then None else Some(plan[|trace| - 2])
  {
  }

  /** An empty range selects nothing: the run invokes no migration and
      reports no error. For `Upgrade` this is `from >= to`, for `Downgrade`
      `from <= to`, and for both `from == to`. */
  lemma EmptyRangeIsNoOp(mod: Module, parse: Parser, plan: seq<Version>, gt: Core, lte: Core,
                         dir: Direction, err: Option<Fault>, trace: seq<string>)
    requires LessEq(lte, gt)
    requires multiset(plan) == multiset(Selected(mod, parse, gt, lte))
    requires Keyed(mod, plan) && Ran(mod, plan, dir, err, trace)
    ensures err == None && trace == []
  {
    forall v | v in Selected(mod, parse, gt, lte) ensures false {
      LessIsStrictTotalOrder(gt, v.core, lte);
    }
    assert Selected(mod, parse, gt, lte) == {};
    assert |plan| == |multiset(plan)| == 0;
  }

  /** No two keys of `mod` parse to versions that compare equal. */
  predicate DistinctVersions(mod: Module, parse: Parser) {
    forall k1, k2 | k1 in mod && k2 in mod && parse(k1).Some? && parse(k2) == parse(k1) :: k1 == k2
  }

  /** Dropping the first element of a sequence removes one occurrence of it. */
  lemma DropFirst(s: seq<Version>)
    requires s != []
    ensures multiset(s[1..]) == multiset(s) - multiset{s[0]}
    ensures Ascending(s) ==> Ascending(s[1..])
  {
    assert s == [s[0]] + s[1..];
  }

  /** Two non-decreasing orderings of the same versions start alike when no
      two distinct versions among them compare equal. */
  lemma SameFirst(p: seq<Version>, q: seq<Version>)
    requires p != [] && Ascending(p) && Ascending(q) && multiset(p) == multiset(q)
    requires forall v, w | v in p && w in p && v.core == w.core :: v == w
    ensures q != [] && p[0] == q[0]
  {
    assert p[0] in multiset(q) && q[0] in multiset(p);
    var i :| 0 <= i < |p| && p[i] == q[0];
    var j :| 0 <= j < |q| && q[j] == p[0];
    assert LessEq(p[0].core, q[0].core) by { assert i == 0 || LessEq(p[0].core, p[i].core); }
    assert LessEq(q[0].core, p[0].core) by { assert j == 0 || LessEq(q[0].core, q[j].core); }
    LessIsStrictTotalOrder(p[0].core, q[0].core, p[0].core);
  }

  /** Two non-decreasing orderings of the same versions are the same sequence
      when no two distinct versions among them compare equal. */
  lemma {:induction false} AscendingIsUnique(p: seq<Version>, q: seq<Version>)
    requires Ascending(p) && Ascending(q) && multiset(p) == multiset(q)
    requires forall v, w | v in p && w in p && v.core == w.core :: v == w
    ensures p == q
  {
    if p != [] {
      SameFirst(p, q);
      DropFirst(p);
      DropFirst(q);
      assert forall v | v in p[1..] :: v in p;
      AscendingIsUnique(p[1..], q[1..]);
      assert p == [p[0]] + p[1..] && q == [q[0]] + q[1..];
    } else {
      assert |q| == |multiset(q)| == 0;
    }
  }

  /** When no two keys parse to equal versions, the order in which the map
      happens to yield its keys does not matter: every plan for the same
      range and direction is the same sequence, so the run is fully
      determined. */
  lemma PlanIsDetermined(mod: Module, parse: Parser, gt: Core, lte: Core, dir: Direction, p: seq<Version>, q: seq<Version>)
    requires DistinctVersions(mod, parse)
    requires multiset(p) == multiset(Selected(mod, parse, gt, lte))
    requires multiset(q) == multiset(Selected(mod, parse, gt, lte))
    requires dir == Up ==> Ascending(p) && Ascending(q)
    requires dir == Down ==> Descending(p) && Descending(q)
    ensures p == q
  {
    forall v, w | v in p && w in p && v.core == w.core ensures v == w {
      assert v in multiset(p) && w in multiset(p);
    }
    if dir == Up {
      AscendingIsUnique(p, q);
    } else {
      ReversedIsPermutation(p);
      ReversedIsPermutation(q);
      ReversedFlipsOrder(p);
      ReversedFlipsOrder(q);
      forall v | v in Reversed(p) ensures v in p {
        assert v in multiset(Reversed(p));
      }
      AscendingIsUnique(Reversed(p), Reversed(q));
    }
  }
}
