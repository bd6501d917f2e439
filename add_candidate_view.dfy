/**
 * The owner's form for adding a candidate: two text fields, a submit button and a
 * loading flag that disables all three while the transaction is in flight.
 */
module AddCandidateView {
  import opened Common
  import opened UseVote

  class AddCandidateForm {
    /** This form's own instance of the contract-state mirror. */
    const hook: VoteHook
    var name: string
    var address: string
    var loading: bool

    constructor (hook: VoteHook)
      ensures this.hook == hook && name == "" && address == "" && !loading
    {
      this.hook := hook;
      name := "";
      address := "";
      loading := false;
    }

    /** The inputs and the button carry `disabled={loading}`. */
    predicate Disabled()
      reads this
      ensures Disabled() <==> loading
    {
      loading
    }

    /**
     * `handleSubmit`: with either field empty nothing happens; otherwise it awaits
     * `addCandidate` with the form disabled (`busy` is `Disabled()` while the call is
     * awaited), then re-enables the form and clears both fields whatever the outcome.
     */
    method HandleSubmit() returns (submitted: bool, ghost busy: bool, ghost confirmed: bool, ghost refreshed: bool)
      modifies this`name, this`address, this`loading, hook.contract, hook`candidates
      ensures submitted <==> old(name) != "" && old(address) != ""
      ensures confirmed == (submitted && old(hook.contract != null && hook.contract.writeUp))
      ensures refreshed == (confirmed && hook.contract.RosterReadable())
      ensures refreshed ==> hook.contract != null && hook.candidates == hook.contract.roster
      ensures !refreshed ==> hook.candidates == old(hook.candidates)
      ensures !submitted ==> name == old(name) && address == old(address) && loading == old(loading)
      ensures !submitted ==> hook.candidates == old(hook.candidates) && (hook.contract != null ==> unchanged(hook.contract))
      ensures submitted ==> busy && !Disabled() && name == "" && address == ""
      ensures hook.owner == old(hook.owner) && hook.isRegistered == old(hook.isRegistered) && hook.hasVoted == old(hook.hasVoted)
    {
      if name == "" || address == "" {
        return false, false, false, false;
      }
      loading := true;
      busy := Disabled();
      confirmed, refreshed := hook.AddCandidate(name, address);
      loading := false;
      name := "";
      address := "";
      submitted := true;
    }
  }
}
