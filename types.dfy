/**
 * The record shapes of internal/core/types.go and the order of its
 * enumerations. Go's `iota` constants are modelled as datatype constructors
 * together with the integer each one stands for.
 */
module CoreTypes {

  /** Which links a result filter keeps. */
  datatype Scope = ScopeAll | ScopeInternalOnly | ScopeExternalOnly

  /** HTTP status classes; `Rank` is the Go constant, which fixes the sort order. */
  datatype StatusClass = StatusAny | Status2xx | Status3xx | Status4xx | Status5xx | StatusError
  {
    function Rank(): (n: nat)
      ensures n <= 5
    {
      match this
      case StatusAny => 0
      case Status2xx => 1
      case Status3xx => 2
      case Status4xx => 3
      case Status5xx => 4
      case StatusError => 5
    }
  }

  lemma RankInjective(a: StatusClass, b: StatusClass)
    ensures a.Rank() == b.Rank() <==> a == b
  {
  }

  /** One checked URL as the server records it. */
  datatype Result = Result(
    url: string,
    pageUrl: string,
    internal: bool,
    statusCode: int,
    err: string,
    elapsedMs: int,
    depth: int)

  datatype JobParams = JobParams(startUrl: string, maxDepth: int, respectRobots: bool)

  datatype JobStatus = JobStatus(
    state: string,
    visited: int,
    queued: int,
    discovered: int,
    errors: int,
    checkedLinks: int,
    totalLinks: int)
}
