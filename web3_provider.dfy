/**
 * The wallet session: the connected `account` and the browser's persisted
 * key-value store, which keeps the last connected address under one fixed key.
 * The handlers are specified by pure functions over a `SessionState` value, and
 * the class's methods are proved to follow them.
 */
module Web3Provider {
  import opened Common

  /** The storage key holding the last connected account. */
  const ConnectedAccountKey: string := "connectedAccount"

  /** The Holesky test network's chain id, the only network the client expects. */
  const HoleskyChainId: string := "0x4268"

  datatype SessionState = SessionState(account: Option<Address>, storage: map<string, string>)

  /** What `connectWallet` did. */
  datatype ConnectStep = NoWallet | Disconnected | Connected(addr: Address) | Failed

  /** The session's `account` and the stored key say the same thing. */
  predicate Agree(st: SessionState) {
    && (ConnectedAccountKey in st.storage <==> st.account.Some?)
    && (st.account.Some? ==> st.storage[ConnectedAccountKey] == st.account.value)
  }

  /** Only the connected-account key is touched: every other stored entry is kept. */
  predicate OthersKept(before: map<string, string>, after: map<string, string>) {
    after - {ConnectedAccountKey} == before - {ConnectedAccountKey}
  }

  /**
   * Mount: with a wallet present, the account is restored from the stored key
   * when that value is truthy; otherwise it stays null. Storage is only read.
   */
  function Restore(walletPresent: bool, storage: map<string, string>): (st: SessionState)
    ensures st.storage == storage
    ensures st.account.Some? <==> walletPresent && ConnectedAccountKey in storage && storage[ConnectedAccountKey] != ""
    ensures st.account.Some? ==> Agree(st)
  {
    if walletPresent && ConnectedAccountKey in storage && storage[ConnectedAccountKey] != "" then
      SessionState(Some(storage[ConnectedAccountKey]), storage)
    else
      SessionState(None, storage)
  }

  /** `disconnectWallet`: clears the account and removes the stored key. */
  function Disconnect(st: SessionState): (r: SessionState)
    ensures r.account == None && ConnectedAccountKey !in r.storage
    ensures OthersKept(st.storage, r.storage)
    ensures Agree(r)
  {
    SessionState(None, st.storage - {ConnectedAccountKey})
  }

  /** Stores `a` as the connected account and under the key. */
  function Remember(st: SessionState, a: Address): (r: SessionState)
    ensures r.account == Some(a) && ConnectedAccountKey in r.storage && r.storage[ConnectedAccountKey] == a
    ensures OthersKept(st.storage, r.storage)
    ensures Agree(r)
  {
    SessionState(Some(a), st.storage[ConnectedAccountKey := a])
  }

  /** The `accountsChanged` handler: the first account, or a disconnect on an empty list. */
  function AccountsChanged(st: SessionState, accounts: seq<Address>): (r: SessionState)
    ensures |accounts| > 0 ==> r.account == Some(accounts[0])
    ensures |accounts| == 0 ==> r == Disconnect(st)
    ensures OthersKept(st.storage, r.storage)
    ensures Agree(r)
  {
    if |accounts| > 0 then Remember(st, accounts[0]) else Disconnect(st)
  }

  /**
   * `connectWallet`: without a wallet it does nothing; with an account set it only
   * disconnects; otherwise it asks the signer for an address (`signer` is that reply,
   * `None` when `getSigner` or `getAddress` throws) and remembers it on success.
   * Switching the network first never throws (its errors are caught inside it),
   * so it does not affect the outcome.
   */
  function Connect(st: SessionState, walletPresent: bool, signer: Option<Address>): (r: (SessionState, ConnectStep))
    ensures !walletPresent ==> r == (st, NoWallet)
    ensures walletPresent && Present(st.account) ==> r == (Disconnect(st), Disconnected)
    ensures walletPresent && !Present(st.account) ==>
      r == (if signer.Some? then (Remember(st, signer.value), Connected(signer.value)) else (st, Failed))
    ensures r.1.Connected? ==> r.0.account == Some(r.1.addr) && Agree(r.0) && signer == Some(r.1.addr)
    ensures r.1.Failed? ==> r.0 == st && signer == None
    ensures OthersKept(st.storage, r.0.storage)
  {
    if !walletPresent then (st, NoWallet)
    else if Present(st.account) then (Disconnect(st), Disconnected)
    else match signer
      case Some(a) => (Remember(st, a), Connected(a))
      case None => (st, Failed)
  }

  /** The `chainChanged` handler raises its warning exactly off Holesky. */
  function NetworkWarning(chainId: string): (warn: bool)
    ensures warn <==> chainId != HoleskyChainId
  {
    chainId != HoleskyChainId
  }

  lemma DisconnectIdempotent(st: SessionState)
    ensures Disconnect(Disconnect(st)) == Disconnect(st)
  {
  }

  /** A connect while an account is set never depends on the signer's reply. */
  lemma ConnectWhileConnectedIgnoresSigner(st: SessionState, s1: Option<Address>, s2: Option<Address>)
    requires Present(st.account)
    ensures Connect(st, true, s1) == Connect(st, true, s2)
    ensures Connect(st, true, s1).0.account == None
  {
  }

  /** Every handler leaves the account and the stored key in agreement, or leaves the state as it was. */
  lemma HandlersKeepAgreement(st: SessionState, accounts: seq<Address>, walletPresent: bool, signer: Option<Address>)
    requires Agree(st)
    ensures Agree(Disconnect(st))
    ensures Agree(AccountsChanged(st, accounts))
    ensures Agree(Connect(st, walletPresent, signer).0)
  {
  }

  class Session {
    /** Whether a wallet (`window.ethereum`) is injected into the page. */
    const walletPresent: bool
    var account: Option<Address>
    /** The browser's `localStorage`. */
    var storage: map<string, string>

    function State(): SessionState
      reads this
    {
      SessionState(account, storage)
    }

    /** Mount: restores the account from storage when a wallet is present. */
    constructor Mount(walletPresent: bool, storage: map<string, string>)
      ensures this.walletPresent == walletPresent
      ensures State() == Restore(walletPresent, storage)
    {
      this.walletPresent := walletPresent;
      this.storage := storage;
      if walletPresent && ConnectedAccountKey in storage && storage[ConnectedAccountKey] != "" {
        account := Some(storage[ConnectedAccountKey]);
      } else {
        account := None;
      }
    }

    method DisconnectWallet()
      modifies this
      ensures State() == Disconnect(old(State()))
    {
      account := None;
      storage := storage - {ConnectedAccountKey};
    }

    /** The wallet's `accountsChanged` event; it is only subscribed to when a wallet is present. */
    method OnAccountsChanged(accounts: seq<Address>)
      requires walletPresent
      modifies this
      ensures State() == AccountsChanged(old(State()), accounts)
    {
      if |accounts| > 0 {
        account := Some(accounts[0]);
        storage := storage[ConnectedAccountKey := accounts[0]];
      } else {
        DisconnectWallet();
      }
    }

    /**
     * `connectWallet`. `signer` is the wallet's reply to the signer request;
     * `queried` says whether that request was made at all.
     */
    method ConnectWallet(signer: Option<Address>) returns (step: ConnectStep, queried: bool)
      modifies this
      ensures (State(), step) == Connect(old(State()), walletPresent, signer)
      ensures queried <==> walletPresent && !Present(old(account))
    {
      if !walletPresent {
        return NoWallet, false;
      }
      if Present(account) {
        DisconnectWallet();
        return Disconnected, false;
      }
      queried := true;
      match signer {
        case Some(a) =>
          account := Some(a);
          storage := storage[ConnectedAccountKey := a];
          step := Connected(a);
        case None =>
          step := Failed;
      }
    }

    /** The wallet's `chainChanged` event: whether the network warning is shown. */
    method OnChainChanged(chainId: string) returns (warn: bool)
      requires walletPresent
      ensures warn == NetworkWarning(chainId)
    {
      warn := chainId != HoleskyChainId;
    }
  }
}
