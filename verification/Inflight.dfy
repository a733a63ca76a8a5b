/** Per-provider counts of outstanding delegations, and the size estimate a request is routed with
    (delegator/orchestrator.go). */
module Inflight {
  import opened Wrappers
  import opened BudgetTypes

  const NO_PROVIDER: Provider := ""

  // The empty provider is never counted.
  function Incr(m: map<Provider, int>, p: Provider): map<Provider, int> {
    if p == NO_PROVIDER then m else m[p := (if p in m then m[p] else 0) + 1]
  }

  // A count that would reach zero loses its key.
  function Decr(m: map<Provider, int>, p: Provider): map<Provider, int> {
    if p == NO_PROVIDER then m
    else if (if p in m then m[p] else 0) <= 1 then m - {p}
    else m[p := m[p] - 1]
  }

  // Nil when nothing is outstanding.
  function Snapshot(m: map<Provider, int>): Option<map<Provider, int>> {
    if |m| == 0 then None else Some(m)
  }

  // The load a RouteRequest carries; a nil map reads as empty.
  function LoadMap(snapshot: Option<map<Provider, int>>): map<Provider, int> {
    match snapshot
    case None => map[]
    case Some(m) => m
  }

  // A quarter of the prompt's length, but at least 200.
  function EstimatedPromptTokens(length: nat): (t: int)
    ensures t >= 200 && t >= length / 4
    ensures t == 200 || t == length / 4
  {
    if length / 4 < 200 then 200 else length / 4
  }
}
