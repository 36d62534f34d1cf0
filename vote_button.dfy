/**
 * The vote button (components/vote-button.tsx): its state (`votes`,
 * `isLoading`, `isVoting`, `hasVoted`), the browser's `voted_projects` list in
 * local storage, the public-IP lookup that tries a fixed list of services, and
 * the two transitions `checkVoteStatus` and `handleVote`. The IP services'
 * answers and the two store calls the button makes with the caller's IP
 * (`checkIPVoted`, `incrementVoteWithIP`) are parameters of the transitions.
 */
module VoteButtonWidget {
  import opened Wrappers
  import opened Numerals
  import opened VoteStore

  /** What one IP service gave: nothing usable (fetch or JSON failed), or its `ip` and `query` fields ("" when absent). */
  datatype IpReply = Unreachable | Reply(ip: string, query: string)

  const IpServices: seq<string> := [
    "https://api.ipify.org?format=json",
    "https://ipapi.co/json/",
    "https://api.ip.sb/jsonip"
  ]

  const UnknownIp: string := "unknown"

  /** `data.ip || data.query`; "" when the service gave nothing. */
  function ReplyIp(r: IpReply): string {
    match r
    case Unreachable => ""
    case Reply(ip, query) => if ip != "" then ip else query
  }

  /** The address of the first service, in list order, that yields one; "unknown" when none does. */
  function FirstIp(replies: seq<IpReply>): (ip: string)
    ensures ip != ""
    ensures (forall k :: 0 <= k < |replies| ==> ReplyIp(replies[k]) == "") ==> ip == UnknownIp
    ensures forall k :: 0 <= k < |replies| && ReplyIp(replies[k]) != "" && (forall j :: 0 <= j < k ==> ReplyIp(replies[j]) == "")
              ==> ip == ReplyIp(replies[k])
    decreases |replies|
  {
    if replies == [] then UnknownIp
    else if ReplyIp(replies[0]) != "" then ReplyIp(replies[0])
    else
      var rest := FirstIp(replies[1..]);
      assert forall k :: 1 <= k < |replies| ==> replies[1..][k - 1] == replies[k];
      rest
  }

  /** `getUserIP`: asks the services in order and returns the first address obtained. */
  method GetUserIP(replies: seq<IpReply>) returns (ip: string)
    requires |replies| == |IpServices|
    ensures ip == FirstIp(replies)
  {
    var i := 0;
    while i < |replies|
      invariant 0 <= i <= |replies|
      invariant FirstIp(replies) == FirstIp(replies[i..])
    {
      assert replies[i..][1..] == replies[i + 1..];
      var candidate := ReplyIp(replies[i]);
      if candidate != "" {
        return candidate;
      }
      i := i + 1;
    }
    ip := UnknownIp;
  }

  predicate NoDuplicates(s: seq<string>) {
    forall i, j :: 0 <= i < j < |s| ==> s[i] != s[j]
  }

  /** The `voted_projects` list in the browser's local storage, shared by every button. */
  class LocalStore {
    var votedProjects: seq<string>

    constructor ()
      ensures votedProjects == []
    {
      votedProjects := [];
    }
  }

  /** What the button shows. */
  datatype ButtonView =
    | InvalidProject
    | Loading
    | Ready(voted: bool, spinning: bool, count: int, disabled: bool)

  class VoteButton {
    const projectId: ProjectId
    /** `projectIdBigInt.toString()`, the entry the button keeps in `voted_projects`. */
    const key: string
    var votes: int
    var isLoading: bool
    var isVoting: bool
    var hasVoted: bool

    constructor (projectId: ProjectId)
      ensures this.projectId == projectId && key == IntToString(projectId)
      ensures votes == 0 && isLoading && !isVoting && !hasVoted
    {
      this.projectId := projectId;
      key := IntToString(projectId);
      votes := 0;
      isLoading := true;
      isVoting := false;
      hasVoted := false;
    }

    /** The button shows "voted" exactly when the browser remembers a vote for this project. */
    ghost predicate InSync(store: LocalStore)
      reads this, store
    {
      hasVoted <==> key in store.votedProjects
    }

    function View(): (v: ButtonView)
      reads this
      ensures isLoading ==> v == Loading
      ensures !isLoading ==> v.Ready? && v.voted == hasVoted && v.count == votes
      ensures !isLoading ==> (v.disabled <==> isVoting || hasVoted)
    {
      if isLoading then Loading else Ready(hasVoted, isVoting, votes, isVoting || hasVoted)
    }

    /** `loadVotes`: the count shown is the server-side `getProjectVotes`. */
    method LoadVotes(table: VoteTable, readFails: bool)
      modifies this
      ensures votes == if readFails then 0 else StoredOrZero(table.votes, projectId)
      ensures isLoading == old(isLoading) && isVoting == old(isVoting) && hasVoted == old(hasVoted)
    {
      var count := table.GetProjectVotes(projectId, readFails);
      votes := count;
    }

    /**
     * `checkVoteStatus`: a project in the local list is voted without asking
     * anyone; otherwise the IP check decides, and a positive answer is copied
     * into the local list. When the check throws, the local list decides.
     */
    method CheckVoteStatus(store: LocalStore, replies: seq<IpReply>, checkIPVoted: (ProjectId, string) -> Option<bool>)
      requires |replies| == |IpServices|
      modifies this, store
      ensures !isLoading && votes == old(votes) && isVoting == old(isVoting)
      ensures InSync(store)
      ensures key in old(store.votedProjects) ==> hasVoted && store.votedProjects == old(store.votedProjects)
      ensures key !in old(store.votedProjects) && checkIPVoted(projectId, FirstIp(replies)) == Some(true) ==>
                hasVoted && store.votedProjects == old(store.votedProjects) + [key]
      ensures key !in old(store.votedProjects) && checkIPVoted(projectId, FirstIp(replies)) != Some(true) ==>
                !hasVoted && store.votedProjects == old(store.votedProjects)
    {
      var votedProjects := store.votedProjects;
      if key in votedProjects {
        hasVoted := true;
        isLoading := false;
        return;
      }
      var userIp := GetUserIP(replies);
      var answer := checkIPVoted(projectId, userIp);
      match answer {
        case Some(true) =>
          votedProjects := votedProjects + [key];
          store.votedProjects := votedProjects;
          hasVoted := true;
        case Some(false) =>
          hasVoted := false;
        case None =>
          // The check threw: only the local list is consulted.
          hasVoted := key in store.votedProjects;
      }
      isLoading := false;
    }

    /**
     * `handleVote`: nothing happens once voted. Otherwise an IP that already
     * voted only marks the button (adding the id to the local list if absent);
     * a successful increment records the id, bumps the count and marks the
     * button; a failed one changes nothing. `isVoting` is cleared on every path.
     */
    method HandleVote(store: LocalStore, replies: seq<IpReply>,
                      checkIPVoted: (ProjectId, string) -> Option<bool>,
                      incrementVoteWithIP: (ProjectId, string) -> bool)
      requires |replies| == |IpServices|
      modifies this, store
      ensures isLoading == old(isLoading)
      ensures old(hasVoted) ==>
                hasVoted && votes == old(votes) && isVoting == old(isVoting)
                && store.votedProjects == old(store.votedProjects)
      ensures !old(hasVoted) ==> !isVoting
      ensures !old(hasVoted) && checkIPVoted(projectId, FirstIp(replies)).None? ==>
                !hasVoted && votes == old(votes) && store.votedProjects == old(store.votedProjects)
      ensures !old(hasVoted) && checkIPVoted(projectId, FirstIp(replies)) == Some(true) ==>
                hasVoted && votes == old(votes)
                && store.votedProjects == if key in old(store.votedProjects) then old(store.votedProjects)
                                          else old(store.votedProjects) + [key]
      ensures !old(hasVoted) && checkIPVoted(projectId, FirstIp(replies)) == Some(false) ==>
                if incrementVoteWithIP(projectId, FirstIp(replies)) then
                  hasVoted && votes == old(votes) + 1 && store.votedProjects == old(store.votedProjects) + [key]
                else
                  !hasVoted && votes == old(votes) && store.votedProjects == old(store.votedProjects)
      ensures old(InSync(store)) ==> InSync(store)
      ensures old(InSync(store)) && old(NoDuplicates(store.votedProjects)) ==> NoDuplicates(store.votedProjects)
    {
      if hasVoted {
        return;
      }
      isVoting := true;
      var userIp := GetUserIP(replies);
      var answer := checkIPVoted(projectId, userIp);
      if answer.None? {
        // The check threw: the error is reported and nothing else changes.
        isVoting := false;
        return;
      }
      if answer.value {
        var votedProjects := store.votedProjects;
        if key !in votedProjects {
          votedProjects := votedProjects + [key];
          store.votedProjects := votedProjects;
        }
        hasVoted := true;
        isVoting := false;
        return;
      }
      var success := incrementVoteWithIP(projectId, userIp);
      if success {
        var votedProjects := store.votedProjects;
        votedProjects := votedProjects + [key];
        store.votedProjects := votedProjects;
        votes := votes + 1;
        hasVoted := true;
      }
      isVoting := false;
    }
  }

  /** The component body: an id `BigInt` rejects gives a disabled "invalid project" button and no state at all. */
  method Mount(projectIdText: string) returns (button: VoteButton?)
    ensures button == null <==> ParseBigInt(projectIdText).None?
    ensures button != null ==>
              fresh(button) && button.projectId == ParseBigInt(projectIdText).value
              && button.votes == 0 && button.isLoading && !button.isVoting && !button.hasVoted
  {
    var id := ParseBigInt(projectIdText);
    if id.None? {
      return null;
    }
    button := new VoteButton(id.value);
  }

  function MountedView(button: VoteButton?): (v: ButtonView)
    reads button
    ensures v == InvalidProject <==> button == null
    ensures button != null ==> v == button.View()
  {
    if button == null then InvalidProject else button.View()
  }

  /** One browser voting for a project it has not voted for: one vote, then the button stays disabled. */
  method VoteOnce() returns (count: int, disabled: bool, remembered: seq<string>)
    ensures count == 1 && disabled && remembered == ["7"]
  {
    var store := new LocalStore();
    var button := new VoteButton(7);
    var replies := [Unreachable, Reply("", "203.0.113.5"), Reply("198.51.100.1", "")];
    var notYet := (id: ProjectId, ip: string) => Some(false);
    var recorded := (id: ProjectId, ip: string) => true;
    button.CheckVoteStatus(store, replies, notYet);
    button.HandleVote(store, replies, notYet, recorded);
    button.HandleVote(store, replies, notYet, recorded);
    assert NatToString(7) == "7";
    count, disabled, remembered := button.votes, button.View().disabled, store.votedProjects;
  }

  /**
   * The button as written, against a store module that does not provide the
   * IP helpers: every call to them throws, so the status check and the vote
   * both take their error path and no vote is ever recorded or remembered.
   */
  method VoteWithoutIpHelpers() returns (count: int, voted: bool, remembered: seq<string>)
    ensures count == 0 && !voted && remembered == []
  {
    var store := new LocalStore();
    var button := new VoteButton(7);
    var replies := [Unreachable, Reply("", "203.0.113.5"), Reply("198.51.100.1", "")];
    var throws := (id: ProjectId, ip: string) => None;
    var neverReached := (id: ProjectId, ip: string) => true;
    button.CheckVoteStatus(store, replies, throws);
    button.HandleVote(store, replies, throws, neverReached);
    count, voted, remembered := button.votes, button.hasVoted, store.votedProjects;
  }
}
