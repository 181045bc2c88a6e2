/** The structured failure record the engine returns when a migration fails,
    and the error values it travels with. */
module MigrationErrors {
  import opened Wrappers
  import opened SemVer

  /** The Go `error` values this model handles. */
  datatype Fault =
    | ParseFault(input: string)   // the version library could not parse `input`
    | Failed(err: Error)          // an `*Error`
    | Other(message: string)      // any other error, e.g. one a migration returns

  /** A migration failure: a message template that identifies the kind of
      failure, the cause, the version that failed and the last version that
      completed before it. The three pointers may be nil. */
  datatype Error = Error(
    Message: string,
    PreviousError: Option<Fault>,
    Version: Option<SemVer.Version>,
    LastVersion: Option<SemVer.Version>)

  /** The message template of every migration failure. */
  const MigrationFailedTemplate: string := "migration failed at version %q: %s"

  /** The sentinel value callers compare against; it carries no context. */
  const ErrMigrationFailed: Error := Error(MigrationFailedTemplate, None, None, None)

  /** `e.Is(target)`: the target is an `*Error` with the same message template.
      Version, last version and cause take no part; any other kind of error
      never matches. */
  predicate Is(e: Error, target: Fault): (r: bool)
    ensures !target.Failed? ==> !r
    ensures target.Failed? ==> (r <==> target.err.Message == e.Message)
  {
    match target
    case Failed(t) => t.Message == e.Message
    case _ => false
  }

  /** Builds the record for migration `v` failing with `cause` after `last`. */
  function FailMigration(cause: Fault, v: SemVer.Version, last: Option<SemVer.Version>): (r: Error)
    ensures r.PreviousError == Some(cause) && r.Version == Some(v) && r.LastVersion == last
    ensures r.Message == ErrMigrationFailed.Message
    ensures Is(r, Failed(ErrMigrationFailed)) && Is(ErrMigrationFailed, Failed(r))
  {
    Error(ErrMigrationFailed.Message, Some(cause), Some(v), last)
  }

  /** Two records that differ only in their context are the same kind, both
      ways round, and each is its own kind. */
  lemma IsIgnoresContext(e: Error, cause: Option<Fault>, v: Option<SemVer.Version>, last: Option<SemVer.Version>)
    ensures Is(e, Failed(Error(e.Message, cause, v, last)))
    ensures Is(Error(e.Message, cause, v, last), Failed(e))
    ensures Is(e, Failed(e))
  {
  }

  /** Between two records, `Is` is symmetric and transitive. */
  lemma IsSymmetricTransitive(a: Error, b: Error, c: Error)
    ensures Is(a, Failed(b)) <==> Is(b, Failed(a))
    ensures Is(a, Failed(b)) && Is(b, Failed(c)) ==> Is(a, Failed(c))
  {
  }

  /** Every record built for a failing migration is a migration failure, and
      two of them are the same kind whatever their versions and causes. */
  lemma FailuresAreOneKind(c1: Fault, v1: SemVer.Version, l1: Option<SemVer.Version>,
                           c2: Fault, v2: SemVer.Version, l2: Option<SemVer.Version>)
    ensures Is(FailMigration(c1, v1, l1), Failed(ErrMigrationFailed))
    ensures Is(FailMigration(c1, v1, l1), Failed(FailMigration(c2, v2, l2)))
    ensures !Is(FailMigration(c1, v1, l1), ParseFault(v1.Text))
  {
  }
}
