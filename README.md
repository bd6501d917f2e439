# QuadB vote client: the contract-state mirror, the wallet session and the view rules

This project models the core of the QuadB voting dApp front end in Dafny and proves properties of the model.
The dApp is a React client for a voting contract on the Holesky test network.

- **The contract-state mirror** (`useVote` hook). It keeps four cached fields: `candidates`, `owner`, `isRegistered` and `hasVoted`.
  - Four read routines overwrite those fields from the contract.
  - Three write routines submit a transaction, await its confirmation, then update or refresh the cache.
  - The model is the class `UseVote.VoteHook`. It works over `Ledger.VotingContract`, an abstract contract with an owner, a roster of candidate records and two per-account flag maps.
  - Every contract call may fail. Which calls the network answers is part of the contract's state (its `...Up` fields), so the postconditions can say which calls each routine made. Each `await` is one sequential step.
  - The field-level `modifies` clauses say which fields each routine may change. The postconditions say what the fields hold on success and that they are untouched on failure.
- **The wallet session** (`Web3Provider`). It covers the `account` field and the `"connectedAccount"` entry in browser storage.
  - The handlers are pure functions over a `SessionState` value: restore on mount, `accountsChanged`, the `connectWallet` toggle, `disconnectWallet` and the chain-id check.
  - The class `Web3Provider.Session` is proved to follow those functions.
- **The view rules**:
  - the leaderboard: a stable sort by vote count, highest first;
  - the case-insensitive owner check;
  - address truncation and the wallet button's caption;
  - the loading-flag handlers of the vote page and of the add-candidate form;
  - route normalisation and the route-to-view dispatch.

The client's behaviour differs from an idealised transaction manager in these ways, and the model keeps them:

- There is no per-request sequence number and no double-submit guard. Every routine runs to completion as one sequential step.
- `vote` does not check `isRegistered` or the candidate id on the client. Only button visibility restricts voting (`VoteView.VotePage.VoteButtonShown`).
- The hook's `registerVoter` has no `hasVoted` guard. The guard lives in the vote page's `handleRegister`, modelled as `VoteView.VotePage.HandleRegister`.
- Every component that calls `useVote` gets its own mirror. The vote page and the add-candidate form therefore each hold their own `VoteHook`.

## Model

| member | source | states |
|---|---|---|
| Ledger.Flag | frontend/src/hooks/useVote.js:75 | a flag reads true only for an account recorded in the map, and then reads the recorded value |
| Ledger.VotingContract.GetOwner | frontend/src/hooks/useVote.js:35 | the call answers the contract's owner when the network answers it (`ownerUp`) and fails otherwise |
| Ledger.VotingContract.NumberOfCandidates | frontend/src/hooks/useVote.js:50 | the call answers the roster's length when `countUp` holds and fails otherwise |
| Ledger.VotingContract.CandidatesById | frontend/src/hooks/useVote.js:53 | the call answers exactly when the index is within the roster and in `recordUp`, and then answers the record at that index |
| Ledger.VotingContract.RegisteredVoters | frontend/src/hooks/useVote.js:75 | the call answers the account's registration flag when `registeredUp` holds and fails otherwise |
| Ledger.VotingContract.HasVoted | frontend/src/hooks/useVote.js:90 | the call answers the account's voted flag when `votedUp` holds and fails otherwise |
| Ledger.VotingContract.AddCandidate | frontend/src/hooks/useVote.js:105-106 | submit and confirm, confirmed exactly when `writeUp` held; the roster and flags may change arbitrarily, the owner does not |
| Ledger.VotingContract.RegisterVoter | frontend/src/hooks/useVote.js:129-130 | submit and confirm, confirmed exactly when `writeUp` held; the roster and flags may change arbitrarily, the owner does not |
| Ledger.VotingContract.Vote | frontend/src/hooks/useVote.js:151-152 | submit and confirm, confirmed exactly when `writeUp` held; the roster and flags may change arbitrarily, the owner does not |
| Ledger.VotingContract.Write | frontend/src/hooks/useVote.js:105-106 | the shared submit-and-confirm step of every write: it is confirmed exactly when `writeUp` held, may change the roster, the flags and the network's future answers arbitrarily, and never changes the owner |
| UseVote.VoteHook.constructor | frontend/src/hooks/useVote.js:13-17 | the mirror starts with an empty roster, no owner and both flags false |
| UseVote.VoteHook.FetchOwner | frontend/src/hooks/useVote.js:32-44 | only `owner` may change; the read succeeds exactly when there is a contract and it answers; `owner` then becomes the contract's owner, and otherwise stays as it was |
| UseVote.VoteHook.FetchCandidates | frontend/src/hooks/useVote.js:47-69 | only `candidates` may change; it succeeds exactly when there is a contract that answers the count and every record read; on success the whole roster is replaced by the records read at indices 0..n-1, in order, for the count n read once; any failed read leaves it exactly as before |
| UseVote.VoteHook.CheckRegistration | frontend/src/hooks/useVote.js:72-84 | only `isRegistered` may change; the read succeeds exactly when there is a contract, the account is set and non-empty, and the contract answers; the flag then becomes the account's remote flag, and otherwise stays as it was |
| UseVote.VoteHook.CheckHasVoted | frontend/src/hooks/useVote.js:87-99 | only `hasVoted` may change; the read succeeds exactly when there is a contract, the account is set and non-empty, and the contract answers; the flag then becomes the account's remote flag, and otherwise stays as it was |
| UseVote.VoteHook.AddCandidate | frontend/src/hooks/useVote.js:102-123 | never touches `owner`, `isRegistered` or `hasVoted`; the write is confirmed exactly when there is a contract that confirms it; after confirmation the roster is always re-read, and it changes exactly when that refresh succeeds, to the contract's new roster |
| UseVote.VoteHook.RegisterVoter | frontend/src/hooks/useVote.js:126-145 | the write is submitted whenever there is a contract and is confirmed exactly when the contract confirms it; `isRegistered` then becomes true; otherwise every mirror field is unchanged |
| UseVote.VoteHook.Vote | frontend/src/hooks/useVote.js:148-169 | a failed submission or confirmation changes nothing; after confirmation both the roster and the voted flag are always re-read, each read succeeding exactly when the contract answers it (the flag read also needs an account); `hasVoted` ends as the remote flag if that read succeeds and stays true if it fails; `isRegistered` is neither checked nor changed |
| UseVote.VoteHook.Load | frontend/src/hooks/useVote.js:172-179 | without a contract nothing changes; with one, all four reads are attempted, each read succeeds exactly when the contract answers that call (the two flag reads also need an account), whatever the other reads did, and each field takes its remote value exactly when its own read succeeds |
| Web3Provider.Restore | frontend/src/context/Web3Provider.jsx:27-44 | storage is left as it is; the account is restored exactly when a wallet is present and the stored value is set and non-empty, and then it agrees with the stored key |
| Web3Provider.Disconnect | frontend/src/context/Web3Provider.jsx:141-144 | the account becomes null, the key is removed, every other stored entry is kept, and account and key agree |
| Web3Provider.Remember | frontend/src/context/Web3Provider.jsx:122-124 | the account and the stored key both become the given address; other entries are kept |
| Web3Provider.AccountsChanged | frontend/src/context/Web3Provider.jsx:50-57 | a non-empty list makes its first element the account and the stored value; an empty list is exactly a disconnect; account and key agree afterwards |
| Web3Provider.Connect | frontend/src/context/Web3Provider.jsx:106-138 | without a wallet nothing changes; with an account set it only disconnects; otherwise a signer reply connects, setting the account and key to that address, and a missing reply fails and leaves the state as it was; only the connected-account key is touched |
| Web3Provider.NetworkWarning | frontend/src/context/Web3Provider.jsx:60-68 | the warning is raised exactly when the chain id differs from "0x4268"; `Session.OnChainChanged` is proved to follow it |
| Web3Provider.DisconnectIdempotent | frontend/src/context/Web3Provider.jsx:141-144 | disconnecting twice gives the same state as disconnecting once |
| Web3Provider.ConnectWhileConnectedIgnoresSigner | frontend/src/context/Web3Provider.jsx:112-115 | with an account set, the outcome of a connect does not depend on the signer's reply and the account ends null |
| Web3Provider.HandlersKeepAgreement | frontend/src/context/Web3Provider.jsx:50-57 | from an agreeing state, disconnect, `accountsChanged` and `connectWallet` all leave account and stored key in agreement |
| Web3Provider.Session.Mount | frontend/src/context/Web3Provider.jsx:27-44 | the session after mount is the restored state |
| Web3Provider.Session.DisconnectWallet | frontend/src/context/Web3Provider.jsx:141-144 | the new state is the disconnected old state |
| Web3Provider.Session.OnAccountsChanged | frontend/src/context/Web3Provider.jsx:50-57 | the new state is the `accountsChanged` rule applied to the old state |
| Web3Provider.Session.ConnectWallet | frontend/src/context/Web3Provider.jsx:106-138 | the new state and step follow the connect rule; the signer is queried exactly when a wallet is present and no account is set |
| Web3Provider.Session.OnChainChanged | frontend/src/context/Web3Provider.jsx:60-68 | the warning follows the chain-id rule |
| Text.Head | frontend/src/component/Vote.jsx:9 | `slice(0, n)` is the first n characters, or the whole string when it is shorter |
| Text.Tail | frontend/src/component/Vote.jsx:9 | for n > 0, `slice(-n)` is the last n characters, or the whole string when it is shorter |
| Text.Truncate | frontend/src/component/Vote.jsx:9 | the result is the first 6 characters of the address, then "...", then its last 4 characters, with the matching length |
| Text.TruncateDropsMiddle | frontend/src/component/Vote.jsx:9 | an address of at least ten characters truncates to 13 characters, and only its middle is dropped |
| Text.LowerChar | frontend/src/component/Navbar.jsx:9 | lower-casing one character maps A-Z to a-z, leaves every other character alone and leaves no upper-case letter |
| Text.Lower | frontend/src/component/Navbar.jsx:9 | lower-casing keeps the length and lower-cases every character |
| Text.LowerIdempotent | frontend/src/component/Navbar.jsx:9 | lower-casing twice equals lower-casing once |
| ResultView.WithVotes | frontend/src/component/Result.jsx:7 | the candidates with a given count: a candidate is in the result exactly when it is in the roster with that count, and the result is no longer than the roster |
| ResultView.Insert | frontend/src/component/Result.jsx:7 | one insertion step lengthens the sorted part by one |
| ResultView.SortByVotes | frontend/src/component/Result.jsx:7 | sorting keeps the length |
| ResultView.Leaderboard | frontend/src/component/Result.jsx:7 | a null roster gives an empty leaderboard; otherwise the leaderboard is as long as the roster |
| ResultView.Rows | frontend/src/component/Result.jsx:23-33 | row i shows rank i + 1 with the name and vote count of the i-th leaderboard entry |
| ResultView.Shift | frontend/src/component/Result.jsx:29 | every row moves one rank down and nothing else changes |
| ResultView.InsertPermutes | frontend/src/component/Result.jsx:7 | an insertion step adds exactly the inserted candidate |
| ResultView.InsertKeepsVoteGroups | frontend/src/component/Result.jsx:7 | an insertion step places the candidate before every candidate with the same count |
| ResultView.InsertKeepsDescending | frontend/src/component/Result.jsx:7 | inserting into a descending list keeps it descending |
| ResultView.SortPermutes | frontend/src/component/Result.jsx:7 | the leaderboard is a permutation of the roster |
| ResultView.SortDescending | frontend/src/component/Result.jsx:7 | vote counts are non-increasing from rank 1 onward |
| ResultView.SortStable | frontend/src/component/Result.jsx:7 | candidates with equal counts keep their roster order |
| ResultView.SortIdempotent | frontend/src/component/Result.jsx:7 | sorting a roster that is already in descending order returns it unchanged |
| ResultView.LeaderboardSpec | frontend/src/component/Result.jsx:7 | for any roster, null or not, the leaderboard is descending, a stable permutation of the roster, and unchanged by sorting it again |
| ResultView.RanksFollowVotes | frontend/src/component/Result.jsx:23-33 | on the rendered board a better rank never shows fewer votes |
| ResultView.TwoCandidatesExample | frontend/src/component/Result.jsx:7 | Alice with 3 votes and Bob with 5 rank as Bob, then Alice |
| Navbar.IsOwner | frontend/src/component/Navbar.jsx:9 | `isOwner` holds only when both the account and the owner are set and non-empty |
| Navbar.ShowAddCandidate | frontend/src/component/Navbar.jsx:37 | the Add Candidate item is shown only to the owner |
| Navbar.WalletLabel | frontend/src/component/Navbar.jsx:12-14 | a null or empty account shows "Connect Wallet"; any other account shows its truncation |
| Navbar.IsOwnerMeans | frontend/src/component/Navbar.jsx:9 | `isOwner` holds exactly when the owner and the account are both set and non-empty and their lower-cased forms are equal |
| Navbar.IsOwnerIgnoresCase | frontend/src/component/Navbar.jsx:9 | changing the letter case of either address does not change `isOwner` |
| Navbar.LowerCasedOwnerMatches | frontend/src/component/Navbar.jsx:9 | an account matches an owner that differs from it only in letter case |
| Navbar.ShowAddCandidateIffOwner | frontend/src/component/Navbar.jsx:37 | the Add Candidate item is shown exactly when `isOwner` holds |
| Navbar.NavItemsReachViews | frontend/src/component/Navbar.jsx:19-22 | the three menu items, in order, lead to the home, vote and leaderboard views |
| App.Normalise | frontend/src/App.jsx:14-20 | "QuadB" becomes "home", every other route is kept, and the result is never "QuadB" |
| App.Dispatch | frontend/src/App.jsx:27-39 | "home", "vote", "leaderboard" and "addCandidate" each select their view, and every other route selects Not found |
| App.NormaliseIdempotent | frontend/src/App.jsx:14-20 | normalising twice equals normalising once |
| App.Router.constructor | frontend/src/App.jsx:12 | the route starts as "home" |
| App.Router.Current | frontend/src/App.jsx:27-39 | the current view is Not found exactly when the route is none of "home", "vote", "leaderboard" and "addCandidate" |
| App.Router.OnRouteChange | frontend/src/App.jsx:14-20 | the new route is the normalised argument |
| VoteView.VotePage.constructor | frontend/src/component/Vote.jsx:6-7 | both loading flags start false |
| VoteView.VotePage.RegisterDisabled | frontend/src/component/Vote.jsx:30 | the register button is disabled exactly when `loadingRegister` or `hasVoted` holds, so always once the account has voted |
| VoteView.VotePage.VoteButtonShown | frontend/src/component/Vote.jsx:50 | a vote button is shown only when the account is registered and has not voted |
| VoteView.VotePage.VoteButtonDisabled | frontend/src/component/Vote.jsx:53 | the vote buttons' disabled state is `loadingVote`; that they are disabled during the call and enabled after it is stated by `VoteView.VotePage.HandleVote` |
| VoteView.VotePage.CardAddress | frontend/src/component/Vote.jsx:47 | a card shows the truncated address, 13 characters for an address of ten or more |
| VoteView.VotePage.HandleRegister | frontend/src/component/Vote.jsx:11-16 | with `hasVoted` set it never calls `registerVoter` and changes nothing; otherwise the button is disabled during the call and the loading flag is false afterwards |
| VoteView.VotePage.HandleVote | frontend/src/component/Vote.jsx:18-22 | the vote buttons are disabled during the call and enabled afterwards, whatever the outcome; the mirror ends as the hook's `vote` leaves it: unchanged without confirmation; otherwise the roster and the voted flag are both re-read, the roster replaced when its read succeeds, and `hasVoted` equal to the remote flag when that read succeeds and true when it fails |
| AddCandidateView.AddCandidateForm.constructor | frontend/src/component/AddCandidate.jsx:7-9 | both fields start empty and the form starts enabled |
| AddCandidateView.AddCandidateForm.Disabled | frontend/src/component/AddCandidate.jsx:46-64 | the inputs' and the button's disabled state is `loading`; that they are disabled during the call and enabled after it is stated by `AddCandidateView.AddCandidateForm.HandleSubmit` |
| AddCandidateView.AddCandidateForm.HandleSubmit | frontend/src/component/AddCandidate.jsx:11-30 | an empty name or address means no call and no change; otherwise the form is disabled during the call, and afterwards it is enabled with both fields empty whatever the outcome; the write is confirmed exactly when a call was made and the contract confirms it; the roster is then always re-read, and changes exactly when that refresh succeeds, to the contract's roster |

## Left out

- Building the ethers contract object and asking the provider for a signer (the hook's first effect) are not modelled. The hook is constructed with its contract, or with null.
- `switchToHolesky` and its add-chain fallback are wallet RPC requests. They are not modelled. The model assumes each request settles, and rejects with an error object. Under that assumption its errors are caught inside the function and cannot change the outcome of `connectWallet`. A request that never settles leaves `connectWallet` waiting forever. A rejection value without a `code` property makes `error.code === 4902` false, so the "Failed to switch to Holesky" notice is shown and the connect goes on. Only a `null` or `undefined` rejection value makes the `error.code` read throw; `connectWallet`'s own catch then takes it, and the connect fails.
- Browser storage writes are assumed never to throw. In the source, `setAccount` runs before `localStorage.setItem`, both in `connectWallet` and in `accountsChanged`. If `setItem` throws (storage full or disabled), the account is set but the key is not. In `connectWallet` the error branch then runs, so a failed connect has changed `account`. In that case the account and the stored key no longer agree.
- The `BrowserProvider` object is not modelled. A wallet's presence stands in for a provider, because mount creates one whenever a wallet is present.
- Toast notifications, `alert`, `console.log`, JSX markup and CSS classes are not modelled. The booleans the routines return, together with whether there is a contract and whether the account is set, decide which notice would be shown. A routine that returns early for lack of a contract or an account shows no notice. A failed read or write shows an error notice.
- `Home.jsx` is purely presentational and is not part of this model.
- React's effect and callback re-runs are not modelled, and neither are concurrent, interleaved or out-of-order completions. The load effect starts its four reads without awaiting them; the model runs them one after another.
- Because re-runs are not modelled, neither is the account-switch re-load. When the account becomes null, the source skips both account checks, so the previous account's `isRegistered` and `hasVoted` stay cached.
- Other clients writing to the contract during one read routine are not modelled. Within a routine the contract's state is fixed, so the count read once equals the roster's length.
- `id` and `voteCount` are kept as `nat`. The BigInt-to-string conversion and the comparator's string-to-number coercion are not modelled.
- Which calls the network answers is modelled as fields of the contract (`ownerUp`, `countUp`, `recordUp`, `registeredUp`, `votedUp`, `writeUp`) that the client never sees. Each read is answered according to them. Only a write may change them, and it may change them arbitrarily. A read's availability therefore cannot change between two reads of one routine, and the flag reads are answered for every account or for none.
- Ledger.VotingContract.Write: its contract states only that the owner is kept and when the write is confirmed. The contract's rules (owner-only add, one vote per account, tallies increase by one) live in the contract, not in the client, so a write may change the roster and the flags arbitrarily.
- Ledger.VotingContract.CandidatesById: an index past the roster is modelled as a failed call. The contract's mapping would return an empty record instead. The hook never reads past the count it has just read.
- Text.LowerChar: only the ASCII letters A-Z are lower-cased. JavaScript's `toLowerCase` also maps non-ASCII letters, which do not occur in hex addresses.
- The form's `onChange` handlers, which copy input text into `name` and `address`, are not modelled.
