/** The two entry points of the external `semver` package that the core calls.
    Version parsing and range logic are not part of this model, so both are
    arbitrary functions supplied by the caller. */
module Semver {
  import opened Wrappers

  datatype Library = Library(
    /** `semver.clean(s)`: the normalised version string, or `null` when `s`
        is not a version. */
    clean: string -> Option<string>,
    /** `semver.satisfies(version, range)`. */
    satisfies: (string, string) -> bool)

  /** The range `"*"` accepts every version this library can produce. This is
      a hypothesis, not a fact about node-semver: there `satisfies("1.0.0-beta", "*")`
      is false unless `includePrerelease` is set. */
  ghost predicate WildcardAcceptsAll(lib: Library) {
    forall v :: lib.satisfies(v, "*")
  }
}
