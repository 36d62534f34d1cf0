/**
 * The `/api/votes` endpoint (app/api/votes/route.ts): GET reads a project's
 * count, POST adds one vote and reads the count back. Both validate the
 * `projectId` and map failures to status codes; neither checks for duplicate
 * votes.
 */
module VotesRoute {
  import opened Wrappers
  import opened Numerals
  import opened VoteStore

  /** The `projectId` member of a POST body, as JSON gives it. */
  datatype IdField =
    | Missing
    | Null
    | Bool(b: bool)
    | Number(n: int)      // an integral JSON number
    | Fraction            // a JSON number with a fractional part
    | Text(s: string)

  /** JavaScript truthiness of the field (`!projectId` rejects the rest). */
  predicate Truthy(f: IdField) {
    match f
    case Missing => false
    case Null => false
    case Bool(b) => b
    case Number(n) => n != 0
    case Fraction => true
    case Text(s) => s != ""
  }

  /** `BigInt(projectId)`; None where it throws. */
  function BigIntOf(f: IdField): (r: Option<int>)
    ensures f.Number? ==> r == Some(f.n)
    ensures f.Text? ==> r == ParseBigInt(f.s)
    ensures f.Missing? || f.Null? || f.Fraction? ==> r.None?
  {
    match f
    case Missing => None
    case Null => None
    case Bool(b) => Some(if b then 1 else 0)
    case Number(n) => Some(n)
    case Fraction => None
    case Text(s) => ParseBigInt(s)
  }

  datatype Body =
    | VoteCount(votes: int)          // { votes }
    | Voted(votes: int)              // { success: true, votes }
    | Failure(message: string)       // { error }

  datatype Response = Response(status: int, body: Body)

  const Required: Response := Response(400, Failure("projectId is required"))
  const GetFailed: Response := Response(500, Failure("Failed to get votes"))
  const VoteFailed: Response := Response(500, Failure("Failed to vote"))

  /**
   * `GET /api/votes?projectId=<id>`: 400 without a (non-empty) id, 500 when
   * `BigInt` rejects it, otherwise 200 with the count `getProjectVotes` reads.
   * The handler has no write access to the table.
   */
  method Get(table: VoteTable, projectId: Option<string>, readFails: bool) returns (response: Response)
    ensures projectId.None? || projectId == Some("") ==> response == Required
    ensures projectId.Some? && projectId.value != "" && ParseBigInt(projectId.value).None? ==> response == GetFailed
    ensures projectId.Some? && projectId.value != "" && ParseBigInt(projectId.value).Some? ==>
              response == Response(200, VoteCount(if readFails then 0 else StoredOrZero(table.votes, ParseBigInt(projectId.value).value)))
    ensures response.status == 200 <==> projectId.Some? && projectId.value != "" && ParseBigInt(projectId.value).Some?
  {
    if projectId.None? || projectId.value == "" {
      return Required;
    }
    var id := ParseBigInt(projectId.value);
    if id.None? {
      return GetFailed;
    }
    var votes := table.GetProjectVotes(id.value, readFails);
    response := Response(200, VoteCount(votes));
  }

  /**
   * `POST /api/votes` with body `{ projectId }` (None: reading the body
   * throws, as for text that is not JSON or the JSON value null; any other
   * value without a `projectId` field is Some(Missing)): 400 for a falsy id,
   * 500 when `BigInt` rejects it or the increment fails, otherwise exactly
   * one increment and 200 with the count read back afterwards (0 if that
   * read fails).
   */
  method Post(table: VoteTable, body: Option<IdField>,
              readFails: bool, writeFails: bool, readBackFails: bool) returns (response: Response)
    requires table.Valid()
    modifies table
    ensures table.Valid()
    ensures body.None? ==> response == VoteFailed && table.votes == old(table.votes) && table.order == old(table.order)
    ensures body.Some? && !Truthy(body.value) ==>
              response == Required && table.votes == old(table.votes) && table.order == old(table.order)
    ensures body.Some? && Truthy(body.value) && BigIntOf(body.value).None? ==>
              response == VoteFailed && table.votes == old(table.votes) && table.order == old(table.order)
    ensures body.Some? && Truthy(body.value) && BigIntOf(body.value).Some? ==>
              var id := BigIntOf(body.value).value;
              if IncrementSucceeds(old(table.votes), id, readFails, writeFails) then
                table.votes == AfterIncrement(old(table.votes), id)
                && table.order == (if id in old(table.votes) then old(table.order) else old(table.order) + [id])
                && response == Response(200, Voted(if readBackFails then 0 else StoredOrZero(old(table.votes), id) + 1))
              else
                table.votes == old(table.votes) && table.order == old(table.order) && response == VoteFailed
  {
    if body.None? {
      return VoteFailed;
    }
    if !Truthy(body.value) {
      return Required;
    }
    var id := BigIntOf(body.value);
    if id.None? {
      return VoteFailed;
    }
    var success := table.IncrementVote(id.value, readFails, writeFails);
    if success {
      var votes := table.GetProjectVotes(id.value, readBackFails);
      response := Response(200, Voted(votes));
    } else {
      response := VoteFailed;
    }
  }

  /** Project 42 without a record: `GET /api/votes?projectId=42` answers 200 with 0 votes. */
  method Project42Read() returns (read: Response)
    ensures read == Response(200, VoteCount(0))
  {
    var table := new VoteTable();
    var idText := IntToString(42);
    ParseIntToString(42);
    read := Get(table, Some(idText), false);
  }

  /**
   * Project 42 without a record: two identical POSTs count two votes, since
   * the endpoint itself does not prevent duplicates. (GET cannot change the
   * table, so reading first changes nothing here.)
   */
  method Project42TwoPosts() returns (first: Response, second: Response)
    ensures first == Response(200, Voted(1))
    ensures second == Response(200, Voted(2))
  {
    var table := new VoteTable();
    first := Post(table, Some(Number(42)), false, false, false);
    second := Post(table, Some(Number(42)), false, false, false);
  }
}
