/**
 * The `project_votes` table and the server-side vote functions over it
 * (`voteFunctions` in lib/supabase.ts). The table maps a project id to its vote
 * count; `order` is the order the store holds its rows in, which is the order
 * rows with equal counts come back in. Whether a single request to the store
 * fails is not decided here: each such outcome is a parameter of the operation.
 */
module VoteStore {
  import opened Wrappers

  type ProjectId = int

  datatype VoteRow = VoteRow(projectId: ProjectId, votes: int)

  /** The project columns joined into a ranking; an empty string stands for a missing value. */
  datatype ProjectSummary = ProjectSummary(id: ProjectId, title: string, teamName: string, theme: Option<seq<int>>)

  /** A ranking row: the vote record with its project, when the project exists. */
  datatype RankedVote = RankedVote(projectId: ProjectId, votes: int, project: Option<ProjectSummary>)

  /** The count a read reports: the stored count, or 0 when there is no record. */
  function StoredOrZero(votes: map<ProjectId, int>, id: ProjectId): int {
    if id in votes then votes[id] else 0
  }

  /** The table after one successful increment of `id`: old + 1, or a new record holding 1. */
  function AfterIncrement(votes: map<ProjectId, int>, id: ProjectId): (after: map<ProjectId, int>)
    ensures after.Keys == votes.Keys + {id}
    ensures StoredOrZero(after, id) == StoredOrZero(votes, id) + 1
    ensures forall other :: other in votes && other != id ==> after[other] == votes[other]
  {
    votes[id := StoredOrZero(votes, id) + 1]
  }

  /**
   * Whether `incrementVote` reports success. The read's own error is ignored:
   * a failed read looks like "no record", so the insert branch runs, and an
   * insert of an id that already has a record is refused by the store.
   */
  predicate IncrementSucceeds(votes: map<ProjectId, int>, id: ProjectId, readFails: bool, writeFails: bool) {
    !writeFails && (id in votes ==> !readFails)
  }

  function IncrementTimes(votes: map<ProjectId, int>, id: ProjectId, n: nat): map<ProjectId, int>
    decreases n
  {
    if n == 0 then votes else AfterIncrement(IncrementTimes(votes, id, n - 1), id)
  }

  /** n successful increments raise the count of `id` by n, and only that count. */
  lemma {:induction false} IncrementTimesCounts(votes: map<ProjectId, int>, id: ProjectId, n: nat)
    ensures StoredOrZero(IncrementTimes(votes, id, n), id) == StoredOrZero(votes, id) + n
    ensures forall other :: other != id ==> StoredOrZero(IncrementTimes(votes, id, n), other) == StoredOrZero(votes, other)
    decreases n
  {
    if n > 0 {
      IncrementTimesCounts(votes, id, n - 1);
    }
  }

  // ---------------------------------------------------------------------------
  // Ordering by votes, highest first (the store's `order('votes', { ascending: false })`)

  predicate RowsOrdered(rows: seq<VoteRow>) {
    forall i, j :: 0 <= i < j < |rows| ==> rows[i].votes >= rows[j].votes
  }

  lemma OrderedCons(x: VoteRow, s: seq<VoteRow>)
    requires RowsOrdered(s)
    requires s == [] || x.votes >= s[0].votes
    ensures RowsOrdered([x] + s)
  {
    var t := [x] + s;
    forall i, j | 0 <= i < j < |t| ensures t[i].votes >= t[j].votes {
      if i > 0 {
        assert t[i] == s[i - 1] && t[j] == s[j - 1];
      } else {
        assert t[j] == s[j - 1];
      }
    }
  }

  /** Inserts `r` before the first row with fewer votes, so ties keep their order. */
  function InsertByVotes(r: VoteRow, sorted: seq<VoteRow>): (result: seq<VoteRow>)
    requires RowsOrdered(sorted)
    ensures RowsOrdered(result)
    ensures multiset(result) == multiset(sorted) + multiset{r}
    ensures result[0] == r || (sorted != [] && result[0] == sorted[0])
  {
    if sorted == [] || r.votes >= sorted[0].votes then
      OrderedCons(r, sorted);
      [r] + sorted
    else
      var rest := InsertByVotes(r, sorted[1..]);
      assert sorted == [sorted[0]] + sorted[1..];
      assert rest[0].votes <= sorted[0].votes;
      OrderedCons(sorted[0], rest);
      [sorted[0]] + rest
  }

  function SortByVotes(rows: seq<VoteRow>): (sorted: seq<VoteRow>)
    ensures RowsOrdered(sorted)
    ensures multiset(sorted) == multiset(rows)
  {
    if rows == [] then []
    else
      assert rows == [rows[0]] + rows[1..];
      InsertByVotes(rows[0], SortByVotes(rows[1..]))
  }

  /** The vote columns of a ranking. */
  function VoteRowsOf(ranking: seq<RankedVote>): (rows: seq<VoteRow>)
    ensures |rows| == |ranking|
    ensures forall i :: 0 <= i < |rows| ==> rows[i] == VoteRow(ranking[i].projectId, ranking[i].votes)
  {
    seq(|ranking|, i requires 0 <= i < |ranking| => VoteRow(ranking[i].projectId, ranking[i].votes))
  }

  class VoteTable {
    var votes: map<ProjectId, int>
    var order: seq<ProjectId>

    /** One row per project: `order` lists each recorded id exactly once. */
    ghost predicate Valid()
      reads this
    {
      && (forall i, j :: 0 <= i < j < |order| ==> order[i] != order[j])
      && (forall i :: 0 <= i < |order| ==> order[i] in votes)
      && (forall id :: id in votes ==> id in order)
    }

    /** The table's records, in the store's order. */
    function Rows(): (rows: seq<VoteRow>)
      reads this
      requires Valid()
      ensures |rows| == |order|
      ensures forall i :: 0 <= i < |rows| ==> rows[i] == VoteRow(order[i], votes[order[i]])
    {
      seq(|order|, i requires 0 <= i < |order| && order[i] in votes reads this => VoteRow(order[i], votes[order[i]]))
    }

    constructor ()
      ensures Valid() && votes == map[] && order == []
    {
      votes := map[];
      order := [];
    }

    /**
     * `getProjectVotes`: the stored count; 0 when there is no record ("no row"
     * is not an error) and 0 when the read fails for any other reason.
     */
    method GetProjectVotes(id: ProjectId, readFails: bool) returns (count: int)
      ensures readFails ==> count == 0
      ensures !readFails && id in votes ==> count == votes[id]
      ensures id !in votes ==> count == 0
    {
      if readFails {
        return 0;
      }
      count := StoredOrZero(votes, id);
    }

    /**
     * `incrementVote`: reads the record, then updates it to old + 1 or inserts
     * a record holding 1. Nothing else in the table changes; a failed write
     * leaves the table as it was and reports false.
     */
    method IncrementVote(id: ProjectId, readFails: bool, writeFails: bool) returns (ok: bool)
      requires Valid()
      modifies this
      ensures Valid()
      ensures ok == IncrementSucceeds(old(votes), id, readFails, writeFails)
      ensures ok ==> votes == AfterIncrement(old(votes), id)
      ensures !ok ==> votes == old(votes)
      ensures order == if ok && id !in old(votes) then old(order) + [id] else old(order)
    {
      var existing: Option<int> := if !readFails && id in votes then Some(votes[id]) else None;
      if existing.Some? {
        if writeFails {
          return false;
        }
        votes := votes[id := existing.value + 1];
      } else {
        // The insert is refused when the write fails or when the id already has a record.
        if writeFails || id in votes {
          return false;
        }
        votes := votes[id := 1];
        order := order + [id];
      }
      ok := true;
    }

    /**
     * `getVoteRankings`: every record with its project joined, highest count
     * first; the empty list when the query fails.
     */
    method GetVoteRankings(projects: map<ProjectId, ProjectSummary>, queryFails: bool) returns (ranking: seq<RankedVote>)
      requires Valid()
      ensures queryFails ==> ranking == []
      ensures !queryFails ==> RowsOrdered(VoteRowsOf(ranking)) && multiset(VoteRowsOf(ranking)) == multiset(Rows())
      ensures forall i :: 0 <= i < |ranking| ==> ranking[i].project == Lookup(projects, ranking[i].projectId)
    {
      if queryFails {
        return [];
      }
      var sorted := SortByVotes(Rows());
      ranking := seq(|sorted|, i requires 0 <= i < |sorted| =>
        RankedVote(sorted[i].projectId, sorted[i].votes, Lookup(projects, sorted[i].projectId)));
      assert VoteRowsOf(ranking) == sorted;
    }
  }

  /** Starting from no record, n successful increments make the count read back n. */
  method SequentialIncrements(id: ProjectId, n: nat) returns (count: int)
    ensures count == n
  {
    var table := new VoteTable();
    var i := 0;
    while i < n
      invariant 0 <= i <= n
      invariant table.Valid()
      invariant table.votes == IncrementTimes(map[], id, i)
      modifies table
    {
      var ok := table.IncrementVote(id, false, false);
      i := i + 1;
    }
    IncrementTimesCounts(map[], id, n);
    count := table.GetProjectVotes(id, false);
  }
}
