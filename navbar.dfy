/** The navigation bar: the owner check, the wallet button's label and the menu items. */
module Navbar {
  import opened Common
  import opened Text
  import App

  /** The fixed menu, in display order. */
  const NavItems: seq<string> := ["QuadB", "vote", "leaderboard"]

  /**
   * `owner && account?.toLowerCase() === owner.toLowerCase()`: the owner is known
   * (and non-empty), an account is set, and the two are equal ignoring letter case.
   */
  predicate IsOwner(account: Option<Address>, owner: Option<Address>)
    ensures IsOwner(account, owner) ==> Present(account) && Present(owner)
  {
    Present(owner) && account.Some? && Lower(account.value) == Lower(owner.value)
  }

  /** The Add Candidate item is shown when `account && isOwner`. */
  predicate ShowAddCandidate(account: Option<Address>, owner: Option<Address>)
    ensures ShowAddCandidate(account, owner) ==> IsOwner(account, owner)
  {
    Present(account) && IsOwner(account, owner)
  }

  /** The wallet button's label: the truncated account, or "Connect Wallet" when there is none. */
  function WalletLabel(account: Option<Address>): (caption: string)
    ensures !Present(account) ==> caption == "Connect Wallet"
    ensures Present(account) ==> caption == Truncate(account.value)
  {
    if Present(account) then Truncate(account.value) else "Connect Wallet"
  }

  /** Only an owner can be the owner: both addresses are set and non-empty, and equal up to case. */
  lemma IsOwnerMeans(account: Option<Address>, owner: Option<Address>)
    ensures IsOwner(account, owner) <==>
      Present(account) && Present(owner) && Lower(account.value) == Lower(owner.value)
  {
  }

  /** The owner check does not depend on letter case in either address. */
  lemma IsOwnerIgnoresCase(a: Address, a': Address, o: Address, o': Address)
    requires Lower(a) == Lower(a') && Lower(o) == Lower(o')
    ensures IsOwner(Some(a), Some(o)) == IsOwner(Some(a'), Some(o'))
  {
  }

  /** An address compared with its own lower-cased form passes the owner check. */
  lemma LowerCasedOwnerMatches(a: Address)
    requires a != ""
    ensures IsOwner(Some(a), Some(Lower(a)))
  {
  }

  /** The Add Candidate item is shown exactly to the owner. */
  lemma ShowAddCandidateIffOwner(account: Option<Address>, owner: Option<Address>)
    ensures ShowAddCandidate(account, owner) <==> IsOwner(account, owner)
  {
  }

  /** Clicking the menu items leads home, to the vote page and to the leaderboard. */
  lemma NavItemsReachViews()
    ensures |NavItems| == 3
    ensures App.Dispatch(App.Normalise(NavItems[0])) == App.HomeView
    ensures App.Dispatch(App.Normalise(NavItems[1])) == App.VoteView
    ensures App.Dispatch(App.Normalise(NavItems[2])) == App.LeaderboardView
  {
  }
}
