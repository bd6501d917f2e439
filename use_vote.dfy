/**
 * The contract-state mirror kept by the `useVote` hook: four cached fields
 * (`candidates`, `owner`, `isRegistered`, `hasVoted`) that read routines overwrite
 * from the contract and write routines refresh after a confirmed transaction.
 * Each `await` is one sequential step. The booleans each routine returns say which
 * path it took; each is tied to the contract's `...Up` fields, which say which calls
 * the network answers, so the contracts also say which calls a routine made.
 */
module UseVote {
  import opened Common
  import opened Ledger

  class VoteHook {
    /** The contract instance, `null` until the signer is available. */
    var contract: VotingContract?
    /** The connected account, from the session. */
    var account: Option<Address>

    var candidates: seq<Candidate>
    var owner: Option<Address>
    var isRegistered: bool
    var hasVoted: bool

    /** The hook's initial state: an empty roster, no owner, both flags false. */
    constructor (contract: VotingContract?, account: Option<Address>)
      ensures this.contract == contract && this.account == account
      ensures candidates == [] && owner == None && !isRegistered && !hasVoted
    {
      this.contract := contract;
      this.account := account;
      candidates := [];
      owner := None;
      isRegistered := false;
      hasVoted := false;
    }

    /** `fetchOwner`: the owner field is written only by a successful read. */
    method FetchOwner() returns (ok: bool)
      modifies this`owner
      ensures ok == (contract != null && contract.ownerUp)
      ensures ok ==> owner == Some(contract.owner)
      ensures !ok ==> owner == old(owner)
    {
      if contract == null {
        return false;
      }
      var r := contract.GetOwner();
      ok := r.Some?;
      if ok {
        owner := r;
      }
    }

    /**
     * `fetchCandidates`: reads the count once, then each record at 0..n-1 in order,
     * and replaces the roster wholesale; any failed read leaves it exactly as it was.
     */
    method FetchCandidates() returns (ok: bool)
      modifies this`candidates
      ensures ok == (contract != null && contract.RosterReadable())
      ensures ok ==> candidates == contract.roster
      ensures !ok ==> candidates == old(candidates)
    {
      if contract == null {
        return false;
      }
      var count := contract.NumberOfCandidates();
      if count.None? {
        return false;
      }
      var n := count.value;
      var candList: seq<Candidate> := [];
      var i := 0;
      while i < n
        invariant n == |contract.roster|
        invariant 0 <= i <= n
        invariant candList == contract.roster[..i]
        invariant forall j :: 0 <= j < i ==> j in contract.recordUp
        invariant candidates == old(candidates)
      {
        var c := contract.CandidatesById(i);
        if c.None? {
          return false;
        }
        candList := candList + [c.value];
        i := i + 1;
      }
      candidates := candList;
      ok := true;
    }

    /** `checkRegistration`: a no-op without a contract or an account. */
    method CheckRegistration() returns (ok: bool)
      modifies this`isRegistered
      ensures ok == (contract != null && Present(account) && contract.registeredUp)
      ensures ok ==> isRegistered == Flag(contract.registered, account.value)
      ensures !ok ==> isRegistered == old(isRegistered)
    {
      if contract == null || !Present(account) {
        return false;
      }
      var r := contract.RegisteredVoters(account.value);
      ok := r.Some?;
      if ok {
        isRegistered := r.value;
      }
    }

    /** `checkHasVoted`: a no-op without a contract or an account. */
    method CheckHasVoted() returns (ok: bool)
      modifies this`hasVoted
      ensures ok == (contract != null && Present(account) && contract.votedUp)
      ensures ok ==> hasVoted == Flag(contract.voted, account.value)
      ensures !ok ==> hasVoted == old(hasVoted)
    {
      if contract == null || !Present(account) {
        return false;
      }
      var r := contract.HasVoted(account.value);
      ok := r.Some?;
      if ok {
        hasVoted := r.value;
      }
    }

    /**
     * `addCandidate`: submit, await confirmation, then refresh the roster. It never
     * touches `owner`, `isRegistered` or `hasVoted`; the roster changes only when both
     * the write and the refresh succeed.
     */
    method AddCandidate(name: string, addr: Address) returns (confirmed: bool, refreshed: bool)
      modifies contract, this`candidates
      ensures confirmed == old(contract != null && contract.writeUp)
      ensures refreshed == (confirmed && contract.RosterReadable())
      ensures refreshed ==> contract != null && candidates == contract.roster
      ensures !refreshed ==> candidates == old(candidates)
      ensures owner == old(owner) && isRegistered == old(isRegistered) && hasVoted == old(hasVoted)
    {
      if contract == null {
        return false, false;
      }
      confirmed := contract.AddCandidate(name, addr);
      if !confirmed {
        return false, false;
      }
      refreshed := FetchCandidates();
    }

    /** `registerVoter`: `isRegistered` becomes true only once the write is confirmed. */
    method RegisterVoter() returns (confirmed: bool)
      modifies contract, this`isRegistered
      ensures confirmed == old(contract != null && contract.writeUp)
      ensures isRegistered == (confirmed || old(isRegistered))
      ensures candidates == old(candidates) && owner == old(owner) && hasVoted == old(hasVoted)
    {
      if contract == null {
        return false;
      }
      confirmed := contract.RegisterVoter();
      if confirmed {
        isRegistered := true;
      }
    }

    /**
     * `vote`: submit, await confirmation, set `hasVoted` optimistically, then re-read
     * the roster and the voted flag. The client does not check `isRegistered`.
     * A failed submission or confirmation changes nothing; after confirmation the
     * remote read of the flag, when it succeeds, wins over the optimistic value.
     */
    method Vote(candidateId: nat) returns (confirmed: bool, rosterRead: bool, votedRead: bool)
      modifies contract, this`candidates, this`hasVoted
      ensures confirmed == old(contract != null && contract.writeUp)
      ensures rosterRead == (confirmed && contract.RosterReadable())
      ensures votedRead == (confirmed && Present(account) && contract.votedUp)
      ensures !confirmed ==> candidates == old(candidates) && hasVoted == old(hasVoted)
      ensures rosterRead ==> contract != null && candidates == contract.roster
      ensures confirmed && !rosterRead ==> candidates == old(candidates)
      ensures votedRead ==> contract != null && Present(account) && hasVoted == Flag(contract.voted, account.value)
      ensures confirmed && !votedRead ==> hasVoted
      ensures owner == old(owner) && isRegistered == old(isRegistered)
    {
      if contract == null {
        return false, false, false;
      }
      confirmed := contract.Vote(candidateId);
      if !confirmed {
        return false, false, false;
      }
      hasVoted := true;
      rosterRead := FetchCandidates();
      votedRead := CheckHasVoted();
    }

    /**
     * The initial-load effect: with a contract, all four reads run and each one's
     * outcome decides only its own field; without one, nothing happens.
     */
    method Load() returns (ownerRead: bool, rosterRead: bool, registrationRead: bool, votedRead: bool)
      modifies this`owner, this`candidates, this`isRegistered, this`hasVoted
      ensures ownerRead == (contract != null && contract.ownerUp)
      ensures rosterRead == (contract != null && contract.RosterReadable())
      ensures registrationRead == (contract != null && Present(account) && contract.registeredUp)
      ensures votedRead == (contract != null && Present(account) && contract.votedUp)
      ensures owner == if ownerRead then Some(contract.owner) else old(owner)
      ensures candidates == if rosterRead then contract.roster else old(candidates)
      ensures isRegistered == if registrationRead then Flag(contract.registered, account.value) else old(isRegistered)
      ensures hasVoted == if votedRead then Flag(contract.voted, account.value) else old(hasVoted)
    {
      if contract == null {
        return false, false, false, false;
      }
      ownerRead := FetchOwner();
      rosterRead := FetchCandidates();
      registrationRead := CheckRegistration();
      votedRead := CheckHasVoted();
    }
  }
}
