/**
 * Ordering a category's projects by phase: mainnet first, then development,
 * then projects with any other or no phase, then inactive ones; a copy of
 * the list is sorted, so the caller's list stays as it was.
 */
module Sorting {
  import opened Wrappers
  import opened Order
  import opened StableSort
  import opened Projects

  /** The `phaseOrder` table, with 2 for a phase it does not list (`?? 2`). */
  function PhaseRank(phase: Option<string>): (r: int)
    ensures 0 <= r <= 3
    ensures r == 2 <==> phase !in {Some("mainnet"), Some("development"), Some("inactive")}
    ensures phase == None || phase == Some("still building") ==> r == 2
    ensures phase == Some("mainnet") <==> r == 0
    ensures phase == Some("inactive") <==> r == 3
  {
    if phase == Some("mainnet") then 0
    else if phase == Some("development") then 1
    else if phase == Some("inactive") then 3
    else 2
  }

  /** The comparator `phaseA - phaseB` compares projects by this key. */
  function PhaseKey(p: Project): SortKey {
    SortKey(PhaseRank(p.phase), "")
  }

  /** The projects of `ps` whose phase has rank `rank`, in their order in `ps`. */
  function WithRank(ps: seq<Project>, rank: int): seq<Project> {
    WithKey(ps, PhaseKey, SortKey(rank, ""))
  }

  /**
   * `sortProjectsByPhase`: a permutation of the input, ordered by rank, in
   * which projects of equal rank keep their relative input order.
   */
  function SortProjectsByPhase(projects: seq<Project>): (r: seq<Project>)
    ensures multiset(r) == multiset(projects)
    ensures forall i, j :: 0 <= i < j < |r| ==> PhaseRank(r[i].phase) <= PhaseRank(r[j].phase)
    ensures forall rank :: WithRank(r, rank) == WithRank(projects, rank)
  {
    SortByKey(projects, PhaseKey)
  }
}
