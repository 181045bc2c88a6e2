# migres — migration ordering and execution engine, modelled in Dafny

migres keeps a set of reversible migrations, each registered under a version
label, in a `Module` (a map from label to migration). `Upgrade(from, to)` runs
the upgrade of every registered version `v` with `from < v <= to` in ascending
version order; `Downgrade(from, to)` runs the downgrade of every `v` with
`to < v <= from` in descending order. Both stop at the first migration that
fails and return an `*Error` record. The record names the failing version,
the last version that completed before it and the underlying cause. Its
`Is` method compares only the message template, so callers can recognise
any migration failure with `errors.Is(err, &ErrMigrationFailed)`.

The model has six modules:

- `Wrappers`: `Option` and `Result`.
- `SemVer`: stands in for the version library the engine uses.
  - A version is a `(major, minor, patch)` triple together with the label it was parsed from.
  - Versions are ordered lexicographically.
  - `Match` filters a list by a `{Gt, Lte}` constraint.
  - `SortStable` is an in-place insertion sort on an array, standing in for `sort.Stable`.
  - `Reverse` reverses an array in place, standing in for `slices.Reverse`.
- `MigrationErrors` (error.go):
  - `Error` has the four fields of the Go struct, with nil pointers as `None`.
  - `Fault` stands for the Go `error` values that occur: a parse error, an `*Error`, or any other error.
  - The module also holds `ErrMigrationFailed`, `Is` and `FailMigration`.
- `Migrations` (module.go):
  - `Versions` is a loop over the map's keys. It picks the keys in an unspecified order, as Go's map iteration does.
  - `Run` is the execution loop shared by `Upgrade` and `Downgrade`.
  - `Upgrade` and `Downgrade` are methods that follow the Go code step by step.
  - A migration is an outcome oracle: for each direction it either succeeds or fails with a given error.
  - Every call returns, besides the error, the trace of labels whose operation it invoked. The trace is the engine's observable effect on the outside world.
  - `Upgrade` and `Downgrade` each also return a ghost `plan`, the sorted version list they executed.
  - `Ran` and `FirstFailing` specify a run: which migrations are invoked, and which error is reported.
- `EngineProperties`: whole-call guarantees. These cover fail-fast behaviour with context, the exact selected range, ordering, empty ranges, and independence from map order.
- `Scenarios`: replays the cases of module_test.go through `Upgrade` and `Downgrade`, together with the malformed-input paths.

Version parsing is a parameter `parse: string -> Option<Core>` of every
operation. `None` means the version library rejected the string.

`Versions` (module.go:93-105) appends the parsed keys in the map's iteration
order and never sorts them, so the model's `Versions` promises the right
multiset of versions, not an order. The sort happens in `Upgrade` and
`Downgrade`.

## Model

| member | source | states |
|---|---|---|
| SemVer.Match | module.go:74-77 | `version.List.Match` with `{Gt, Lte}`, a filter by `Within` in list order. Its contract says the result is never longer than the input. `MatchCounts` and `MatchKeepsOrder` below state which versions it keeps and that it keeps their order. |
| SemVer.MatchCounts | module.go:74-77 | The constraint `{Gt: gt, Lte: lte}` keeps every version `v` with `gt < v <= lte` exactly as often as the list holds it, and drops every other version. |
| SemVer.MatchKeepsOrder | module.go:74-78 | Filtering preserves ascending and descending order. |
| SemVer.SortStable | module.go:78 | After the sort, the slice is in non-decreasing version order and is a permutation of the slice before it. |
| SemVer.Reverse | module.go:43 | The slice is reversed in place: element `i` of the result is element `n-1-i` of the input. |
| SemVer.ReversedIsPermutation | module.go:42-43 | Reversing keeps the same versions with the same multiplicities. |
| SemVer.ReversedFlipsOrder | module.go:42-43 | Reversing an ascending list gives a descending one and vice versa. Reversing twice gives back the list. |
| MigrationErrors.FailMigration | error.go:39-46 | The record carries the cause, the failing version and the last completed version, and has the template of `ErrMigrationFailed`. It and the sentinel are each `Is` the other. |
| MigrationErrors.Is | error.go:32-37 | `e.Is(target)` holds if and only if the target is an `*Error` (`Failed(t)`) with `t.Message == e.Message`. Any other kind of error never matches. |
| MigrationErrors.IsIgnoresContext | error.go:28-35 | Records that differ only in version, last version or cause match each other both ways, and every record matches itself. |
| MigrationErrors.IsSymmetricTransitive | error.go:32-35 | `Is` between records is symmetric and transitive. |
| MigrationErrors.FailuresAreOneKind | error.go:39-46 | Any two records built by `failMigration` match each other and match `ErrMigrationFailed`, whatever their context. |
| Migrations.Versions | module.go:93-105 | The list is returned exactly when every key parses. It then holds each key's parsed version once, so its length is the number of keys. Otherwise the error is the parse error of a key that does not parse. |
| Migrations.FirstFailing | module.go:80-87 | The position of the first migration of the plan whose operation fails, or the plan length. Every migration before it succeeds. |
| Migrations.Run | module.go:80-87 | The loop (and its twin at module.go:45-52) invokes the plan's migrations in order, up to and including the first failing one, and none after it. It returns nil if none fails. Otherwise it returns `failMigration(cause, failing version, previous version or nil)`. |
| Migrations.Upgrade | module.go:58-90 | A malformed `from`, then `to`, then key returns that parse error and runs nothing. Otherwise the plan is ascending and holds each registered version in `(from, to]` once, every planned label names a registered migration, and the run is as `Run` states for upgrades. |
| Migrations.Downgrade | module.go:22-55 | Likewise, with the versions in `(to, from]` in descending order and the downgrade operations. |
| Migrations.MatchSelects | module.go:69-77 | Matching the listed keys against the range yields each selected registered version exactly once. |
| Migrations.PlanIsRegistered | module.go:82 | Every version of the plan is the parsed form of a registered key, so `mod[version.Text]` finds a migration. |
| EngineProperties.SuccessRunsWholePlan | module.go:80-89 | A run returns nil if and only if every planned operation succeeds. In that case it invoked the whole plan, in order. |
| EngineProperties.SelectionRunsOnce | module.go:74-87 | After a successful call, a label was invoked if and only if it is registered and its version lies in the range. No label was invoked twice. |
| EngineProperties.InvokedOnceWithinRange | module.go:74-87 | Whether the run succeeds or fails, every invoked label is a registered key whose version lies in the range, and no label is invoked twice. |
| EngineProperties.UpgradeStaysInRange | module.go:58-90 | Any call to `Upgrade`, failed or not, invokes only registered labels whose versions lie in `(from, to]`, each at most once. |
| EngineProperties.DowngradeStaysInRange | module.go:22-55 | Any call to `Downgrade`, failed or not, invokes only registered labels whose versions lie in `(to, from]`, each at most once. |
| EngineProperties.TraceInOrder | module.go:42-52 | Every invoked label is a registered, well-formed version. Upgrades are invoked in non-decreasing version order and downgrades in non-increasing order, even in a run cut short by a failure. |
| EngineProperties.FailFastWithContext | module.go:83-85 | After a failure, the migrations before the failing one succeeded and none after it ran. The error `Is` `ErrMigrationFailed` and carries the cause, the failing version, and the previous version (nil when the first one failed). |
| EngineProperties.EmptyRangeIsNoOp | module.go:74-77 | When the range is empty (`from >= to` upgrading, `from <= to` downgrading), no migration is invoked and nil is returned. |
| EngineProperties.PlanIsDetermined | module.go:78 | When no two keys parse to equal versions, every possible plan for a range and direction is the same sequence, whatever order the map yields its keys in. |
| Scenarios.AllThreeRun | module_test.go:35-69 | With 1.0.0, 2.0.0 and 3.0.0 succeeding, upgrading 0→3 runs 1.0.0, 2.0.0, 3.0.0 and downgrading 3→0 runs 3.0.0, 2.0.0, 1.0.0. Both return nil. |
| Scenarios.TwoAndThreeRun | module_test.go:47-58 | Upgrading 1→3 runs 2.0.0 then 3.0.0 and returns nil. |
| Scenarios.OnlyThreeRuns | module_test.go:70-80 | Downgrading 3→2 runs only 3.0.0 and returns nil. |
| Scenarios.UpgradeStopsAtTwo | module_test.go:81-92 | With 2.0.0 failing, upgrading 0→3 runs 1.0.0 and 2.0.0. It fails at 2.0.0 with last version 1.0.0. |
| Scenarios.DowngradeStopsAtTwo | module_test.go:93-103 | With 2.0.0 failing, downgrading 4→1 runs 3.0.0 and 2.0.0. It fails at 2.0.0 with last version 3.0.0. |
| Scenarios.DowngradeStopsAtThree | module_test.go:104-114 | With 3.0.0 failing, downgrading 4→1 fails at once at 3.0.0 with no last version. |

The client methods `Scenarios.UpgradeFromZeroToThree` through
`Scenarios.DowngradeFailsAtFirst` call `Upgrade` and `Downgrade` themselves.
They show that the plan these operations produce for the module under test
is exactly the one each lemma above assumes.

## Left out

- The version library's grammar is not part of this model. `parse` is a parameter, and a rejected string yields `ParseFault(input)` instead of the library's own error value.
- Pre-release and build-metadata ordering is not modelled: versions are ordered by `(major, minor, patch)` alone.
- `Error.Error()` (error.go:24-26), the `fmt.Sprintf` rendering of a record, is not modelled. Formatting is left out.
- func_migration.go, the adapter that builds a migration from two functions, is not part of this model. A migration is an oracle that says, for each direction, whether the operation succeeds and with which error.
- interfaces.go, the `Migration` interface, is not part of this model. The `Migration` datatype stands in for it.
- Side effects of migrations are not modelled, nor are migrations whose outcome depends on earlier calls. The model proves that each label is invoked at most once per call, so a fixed outcome per call loses nothing within one call. The trace records which operations were invoked.
- Concurrent calls on one module are not modelled. The engine provides no mutual exclusion.
- A nil `Migration` stored in the map is not modelled. In Go, `m.Upgrade()` or `m.Downgrade()` on it (module.go:48, module.go:83) panics. The `Migration` datatype always holds a value.
- A nil target passed to `Is` is not a case of the model. A `Fault` is always a concrete error value.
- Migrations.ToArray: the Go code sorts the slice returned by `Match` in place. The model copies it into a fresh array first, so aliasing between that slice and other data is not captured.
- SemVer.SortStable: stability (equal versions keep their relative order) is not stated. Only order and permutation are stated, because keys of a map that parse to equal versions are the only case where stability shows. `EngineProperties.PlanIsDetermined` covers the case where no two keys parse to equal versions.
