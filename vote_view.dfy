/**
 * The voting page: a register button, one card per candidate and, for a registered
 * account that has not voted, a vote button on each card. Each handler raises its
 * loading flag, awaits the hook's write and lowers the flag again.
 */
module VoteView {
  import opened Common
  import opened Ledger
  import opened Text
  import opened UseVote

  class VotePage {
    /** This page's own instance of the contract-state mirror. */
    const hook: VoteHook
    var loadingRegister: bool
    var loadingVote: bool

    constructor (hook: VoteHook)
      ensures this.hook == hook && !loadingRegister && !loadingVote
    {
      this.hook := hook;
      loadingRegister := false;
      loadingVote := false;
    }

    /** `disabled={loadingRegister || hasVoted}` on the register button. */
    predicate RegisterDisabled()
      reads this, hook
      ensures hook.hasVoted ==> RegisterDisabled()
    {
      loadingRegister || hook.hasVoted
    }

    /** `isRegistered && !hasVoted`: whether each card shows a vote button. */
    predicate VoteButtonShown()
      reads hook
      ensures VoteButtonShown() ==> hook.isRegistered && !hook.hasVoted
    {
      hook.isRegistered && !hook.hasVoted
    }

    /** `disabled={loadingVote}` on every vote button. */
    predicate VoteButtonDisabled()
      reads this
      ensures VoteButtonDisabled() <==> loadingVote
    {
      loadingVote
    }

    /** The address shown on a candidate's card. */
    function CardAddress(c: Candidate): (shown: string)
      ensures |c.addr| >= 10 ==> |shown| == 13
    {
      Truncate(c.addr)
    }

    /**
     * `handleRegister`: does nothing once the account has voted; otherwise awaits
     * `registerVoter` with the button disabled (`busy` is `RegisterDisabled()` while
     * the call is awaited) and lowers it afterwards.
     */
    method HandleRegister() returns (called: bool, ghost busy: bool, ghost confirmed: bool)
      modifies this`loadingRegister, hook.contract, hook`isRegistered
      ensures called <==> !old(hook.hasVoted)
      ensures !called ==> loadingRegister == old(loadingRegister) && hook.isRegistered == old(hook.isRegistered)
      ensures !called && hook.contract != null ==> unchanged(hook.contract)
      ensures called ==> busy && !loadingRegister && (RegisterDisabled() <==> hook.hasVoted)
      ensures called ==> confirmed == old(hook.contract != null && hook.contract.writeUp)
      ensures called ==> hook.isRegistered == (confirmed || old(hook.isRegistered))
      ensures hook.candidates == old(hook.candidates) && hook.owner == old(hook.owner) && hook.hasVoted == old(hook.hasVoted)
    {
      if hook.hasVoted {
        return false, false, false;
      }
      loadingRegister := true;
      busy := RegisterDisabled();
      confirmed := hook.RegisterVoter();
      loadingRegister := false;
      called := true;
    }

    /**
     * `handleVote`: awaits `vote` with the vote buttons disabled (`busy` is
     * `VoteButtonDisabled()` while the call is awaited) and re-enables them afterwards.
     * The call is made whatever `isRegistered` says.
     */
    method HandleVote(candidateId: nat) returns (ghost busy: bool, ghost confirmed: bool, ghost rosterRead: bool, ghost votedRead: bool)
      modifies this`loadingVote, hook.contract, hook`candidates, hook`hasVoted
      ensures busy && !VoteButtonDisabled()
      ensures confirmed == old(hook.contract != null && hook.contract.writeUp)
      ensures rosterRead == (confirmed && hook.contract.RosterReadable())
      ensures votedRead == (confirmed && Present(hook.account) && hook.contract.votedUp)
      ensures !confirmed ==> hook.candidates == old(hook.candidates) && hook.hasVoted == old(hook.hasVoted)
      ensures rosterRead ==> hook.contract != null && hook.candidates == hook.contract.roster
      ensures confirmed && !rosterRead ==> hook.candidates == old(hook.candidates)
      ensures votedRead ==> hook.contract != null && Present(hook.account) && hook.hasVoted == Flag(hook.contract.voted, hook.account.value)
      ensures confirmed && !votedRead ==> hook.hasVoted
      ensures hook.owner == old(hook.owner) && hook.isRegistered == old(hook.isRegistered)
    {
      loadingVote := true;
      busy := VoteButtonDisabled();
      confirmed, rosterRead, votedRead := hook.Vote(candidateId);
      loadingVote := false;
    }
  }
}
