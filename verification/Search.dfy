/** What the two throughput searches share: a candidate setting, how a trial of it went, and the
    report of a search. */
module Search {
  import opened Common

  /** `None`: the key is pinned, the tuner neither sets nor varies it. */
  datatype Candidate = Candidate(analysisThreads: Option<nat>, servers: Option<nat>, batch: Option<nat>)

  /** Positions per second, or why there are none. */
  datatype Outcome = Measured(rate: real) | Pruned(rate: real) | Failed(reason: string)

  type Trial = (Candidate, Outcome)

  datatype Report = Report(best: Option<(Candidate, real)>, history: seq<Trial>)

  /** How trial number `n` (from 0) of a candidate goes when it may be stopped below a floor. Any
      search run is one such function: it may depend on everything that happened before. */
  type Oracle = (nat, Candidate, Option<real>) -> Outcome
}
