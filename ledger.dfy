/**
 * The remote voting contract as the client sees it through its call surface.
 * Its state is an owner, a roster of candidate records and two per-account flags.
 * Every call can fail (network error, revert, rejected signature). Which calls the
 * network would answer is part of the contract's state here (the `...Up` fields), so
 * that a specification can say which reads a routine attempted. The contract's own
 * business rules are not modelled: a write may change the roster and the flags in any way.
 */
module Ledger {
  import opened Common

  /** A candidate record as `candidatesById` returns it. */
  datatype Candidate = Candidate(id: nat, addr: Address, name: string, voteCount: nat)

  /** Reading a per-account flag: an account never written reads as `false`. */
  function Flag(flags: map<Address, bool>, a: Address): (b: bool)
    ensures b ==> a in flags
    ensures a in flags ==> b == flags[a]
  {
    if a in flags then flags[a] else false
  }

  class VotingContract {
    var owner: Address
    var roster: seq<Candidate>
    var registered: map<Address, bool>
    var voted: map<Address, bool>

    /** Whether `getOwner()` would be answered. */
    var ownerUp: bool
    /** Whether `numberOfCandidates()` would be answered. */
    var countUp: bool
    /** The indices at which `candidatesById` would be answered. */
    var recordUp: set<nat>
    /** Whether `registeredVoters(a)` would be answered, for any account. */
    var registeredUp: bool
    /** Whether `hasVoted(a)` would be answered, for any account. */
    var votedUp: bool
    /** Whether the next write would be submitted and confirmed. */
    var writeUp: bool

    /** Whether a full roster read (the count, then every record) would succeed. */
    predicate RosterReadable()
      reads this
    {
      countUp && forall i :: 0 <= i < |roster| ==> i in recordUp
    }

    /** The ledger state is given; which calls the network answers is left open. */
    constructor (owner: Address, roster: seq<Candidate>, registered: map<Address, bool>, voted: map<Address, bool>)
      ensures this.owner == owner && this.roster == roster
      ensures this.registered == registered && this.voted == voted
    {
      this.owner := owner;
      this.roster := roster;
      this.registered := registered;
      this.voted := voted;
      ownerUp, countUp, recordUp, registeredUp, votedUp, writeUp := *, *, *, *, *, *;
    }

    /** `getOwner()`: the owner, or a failed call. */
    method GetOwner() returns (r: Option<Address>)
      ensures r == if ownerUp then Some(owner) else None
    {
      r := if ownerUp then Some(owner) else None;
    }

    /** `numberOfCandidates()`: the roster size, or a failed call. */
    method NumberOfCandidates() returns (r: Option<nat>)
      ensures r == if countUp then Some(|roster|) else None
    {
      r := if countUp then Some(|roster|) else None;
    }

    /** `candidatesById(i)`: the record at index `i`; reading past the roster fails. */
    method CandidatesById(i: nat) returns (r: Option<Candidate>)
      ensures r.Some? <==> i in recordUp && i < |roster|
      ensures r.Some? ==> r.value == roster[i]
    {
      r := if i in recordUp && i < |roster| then Some(roster[i]) else None;
    }

    /** `registeredVoters(a)`: whether `a` is registered, or a failed call. */
    method RegisteredVoters(a: Address) returns (r: Option<bool>)
      ensures r == if registeredUp then Some(Flag(registered, a)) else None
    {
      r := if registeredUp then Some(Flag(registered, a)) else None;
    }

    /** `hasVoted(a)`: whether `a` has voted, or a failed call. */
    method HasVoted(a: Address) returns (r: Option<bool>)
      ensures r == if votedUp then Some(Flag(voted, a)) else None
    {
      r := if votedUp then Some(Flag(voted, a)) else None;
    }

    /**
     * Submits a write and awaits its confirmation (`tx = await contract.f(...)` then
     * `await tx.wait()`). `confirmed` is false when either step throws. The ledger's
     * new roster and flags, and which calls the network answers next, are
     * unconstrained; the owner never changes.
     */
    method Write() returns (confirmed: bool)
      modifies this
      ensures confirmed == old(writeUp)
      ensures owner == old(owner)
    {
      confirmed := writeUp;
      roster, registered, voted := *, *, *;
      ownerUp, countUp, recordUp, registeredUp, votedUp, writeUp := *, *, *, *, *, *;
    }

    /** `addCandidate(name, addr)`: an owner-only write, enforced remotely. */
    method AddCandidate(name: string, addr: Address) returns (confirmed: bool)
      modifies this
      ensures confirmed == old(writeUp)
      ensures owner == old(owner)
    {
      confirmed := Write();
    }

    /** `registerVoter()`: registers the signing account. */
    method RegisterVoter() returns (confirmed: bool)
      modifies this
      ensures confirmed == old(writeUp)
      ensures owner == old(owner)
    {
      confirmed := Write();
    }

    /** `vote(candidateId)`: casts the signing account's vote. */
    method Vote(candidateId: nat) returns (confirmed: bool)
      modifies this
      ensures confirmed == old(writeUp)
      ensures owner == old(owner)
    {
      confirmed := Write();
    }
  }
}
