/**
 * The browser-side vote functions (`clientVoteFunctions` in
 * lib/supabase-client.ts). They run the same queries as the server-side ones
 * against the same `project_votes` table, but take the project id as text; the
 * store converts that text to the bigint `project_id` column, and text it
 * cannot convert makes the request fail like any other store error.
 */
module ClientVotes {
  import opened Wrappers
  import opened Numerals
  import opened VoteStore

  /** `getProjectVotes(projectId: string)`: the stored count, or 0 (no row, unconvertible id, failed read). */
  method GetProjectVotes(table: VoteTable, projectId: string, readFails: bool) returns (count: int)
    ensures CastBigInt(projectId).None? || readFails ==> count == 0
    ensures CastBigInt(projectId).Some? && !readFails ==> count == StoredOrZero(table.votes, CastBigInt(projectId).value)
  {
    var id := CastBigInt(projectId);
    if id.None? {
      return 0;
    }
    count := table.GetProjectVotes(id.value, readFails);
  }

  /**
   * `incrementVote(projectId: string)`: old + 1 on the matching record, or a
   * new record holding 1; false, with the table unchanged, when a write fails.
   * An id the store cannot convert fails both the read and the insert.
   */
  method IncrementVote(table: VoteTable, projectId: string, readFails: bool, writeFails: bool) returns (ok: bool)
    requires table.Valid()
    modifies table
    ensures table.Valid()
    ensures CastBigInt(projectId).None? ==> !ok
    ensures CastBigInt(projectId).Some? ==>
              ok == IncrementSucceeds(old(table.votes), CastBigInt(projectId).value, readFails, writeFails)
    ensures ok ==> table.votes == AfterIncrement(old(table.votes), CastBigInt(projectId).value)
    ensures ok ==> table.order == if CastBigInt(projectId).value in old(table.votes) then old(table.order)
                                  else old(table.order) + [CastBigInt(projectId).value]
    ensures !ok ==> table.votes == old(table.votes) && table.order == old(table.order)
  {
    var id := CastBigInt(projectId);
    if id.None? {
      return false;
    }
    ok := table.IncrementVote(id.value, readFails, writeFails);
  }

  /** `getVoteRankings`: `(project_id, votes)` pairs, highest count first; the empty list on error. */
  method GetVoteRankings(table: VoteTable, queryFails: bool) returns (rows: seq<VoteRow>)
    requires table.Valid()
    ensures queryFails ==> rows == []
    ensures !queryFails ==> RowsOrdered(rows) && multiset(rows) == multiset(table.Rows())
  {
    if queryFails {
      return [];
    }
    rows := SortByVotes(table.Rows());
  }
}
