/** The version gate (server/middleware/versioning.js): a request reaches a
    route's primary handler only when its `x-version` header names the
    version the route was registered for. */
module Versioning {
  import opened Runtime

  /** `semver.eq(a, b)`: equality of two semantic versions, as decided by the
      version library. The library throws on a string that is not a version,
      which is the Throw case. */
  type SemverEq = (string, string) -> Completion<bool>

  /** The header as Express reports it is present and not the empty string. */
  predicate HeaderPresent(header: Option<string>) {
    header.Some? && header.value != ""
  }

  /** `versioning(version)` applied to a request whose `x-version` header is
      `header`. The decision depends on nothing else, and the gate never
      answers the request itself. */
  function Gate(version: string, header: Option<string>, eq: SemverEq): (r: Outcome)
    ensures r.Proceed? <==> HeaderPresent(header) && eq(header.value, version) == Normal(true)
    ensures r.SkipRoute? <==> !HeaderPresent(header) || eq(header.value, version) == Normal(false)
    ensures r.Raise? <==> HeaderPresent(header) && eq(header.value, version).Throw?
    ensures r.Raise? ==> r.error == eq(header.value, version).error
    ensures !r.Respond?
  {
    if HeaderPresent(header) then
      match eq(header.value, version)
      case Normal(same) => if same then Proceed else SkipRoute
      case Throw(e) => Raise(e)
    else
      SkipRoute
  }

  /** Without a header the primary handler is skipped, whatever the comparison would say. */
  lemma MissingHeaderSkips(version: string, eq: SemverEq)
    ensures Gate(version, None, eq) == SkipRoute
    ensures Gate(version, Some(""), eq) == SkipRoute
  {
  }
}
