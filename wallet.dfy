/**
 * The legacy MetaMask wallet composable `useWallet`: `getProvider` with its
 * error classification, and the reactive wallet record updated by `onConnect`,
 * `getAccountAssets` and the provider's `accountsChanged` / `chainChanged`
 * listeners. Every answer of MetaMask or ethers is an input.
 */
module Wallet {
  import opened Wrappers

  const NoWalletMessage: string := "No MetaMask Wallet found"
  const UserRejectedMessage: string := "User Rejected"

  /** The ethers provider built over the injected MetaMask object; `hasOn` says it can emit events. */
  datatype ProviderHandle = ProviderHandle(id: nat, hasOn: bool)

  /** The signer `provider.getSigner()` returns. */
  datatype Signer = Signer(providerId: nat)

  /** What `getProvider` is answered: is a wallet detected, and did building the provider and `eth_requestAccounts` succeed. */
  datatype Detection = Detection(detected: bool, requestOk: bool, provider: ProviderHandle)

  /** Why `onConnect` rejected: a `getProvider` error message, or a later ethers call that rejected. */
  datatype ConnectError = Message(text: string) | ProviderCallFailed

  /** `assets`: the number 0 until a balance is known, then the balance in ether as formatted text. */
  datatype AssetValue = Number(n: int) | Ether(text: string)

  /**
   * `getProvider`: no wallet gives "No MetaMask Wallet found"; any failure
   * while building the provider or requesting accounts gives "User Rejected",
   * whatever its cause.
   */
  function GetProvider(d: Detection): (r: Result<ProviderHandle, string>)
    ensures r.Success? <==> d.detected && d.requestOk
    ensures r.Success? ==> r.value == d.provider
    ensures !d.detected ==> r == Failure(NoWalletMessage)
    ensures d.detected && !d.requestOk ==> r == Failure(UserRejectedMessage)
  {
    if d.detected then
      if d.requestOk then Success(d.provider) else Failure(UserRejectedMessage)
    else
      Failure(NoWalletMessage)
  }

  /** The wallet record and the `fetching` / `assets` refs of one `useWallet` call. */
  class WalletState {
    var provider: Option<ProviderHandle>
    /** `walletAddress`; absent for `null` and for `undefined`. */
    var walletAddress: Option<string>
    var connected: bool
    var chainId: int
    var signer: Option<Signer>
    var fetching: bool
    var assets: AssetValue
    /** Providers a set of `close` / `accountsChanged` / `chainChanged` listeners was registered on, in order. */
    var listeners: seq<nat>

    /** Connected exactly when a provider and its signer are set; no balance is shown before a fetch. */
    ghost predicate Valid()
      reads this
    {
      connected == provider.Some? &&
      connected == signer.Some? &&
      (signer.Some? ==> signer.value.providerId == provider.value.id) &&
      (!fetching ==> assets == Number(0))
    }

    constructor ()
      ensures Valid()
      ensures provider == None && walletAddress == None && !connected && chainId == 1 && signer == None
      ensures !fetching && assets == Number(0) && listeners == []
    {
      provider := None;
      walletAddress := None;
      connected := false;
      chainId := 1;
      signer := None;
      fetching := false;
      assets := Number(0);
      listeners := [];
    }

    /** The guard of `getUserBalance`: a provider and a non-empty address. */
    predicate CanQueryBalance()
      reads this
    {
      provider.Some? && walletAddress.Some? && walletAddress.value != ""
    }

    /**
     * `getUserBalance`, given what `getBalance` + `formatEther` would answer
     * (absent when the request rejects): 0 without a query when the provider
     * or address is missing, otherwise the formatted balance.
     */
    method GetUserBalance(balance: Option<string>) returns (r: Option<AssetValue>, queried: bool)
      ensures queried <==> provider.Some? && walletAddress.Some? && walletAddress.value != ""
      ensures !queried ==> r == Some(Number(0))
      ensures queried && balance.None? ==> r.None?
      ensures queried && balance.Some? ==> r == Some(Ether(balance.value))
    {
      if provider.None? || walletAddress.None? || walletAddress.value == "" {
        return Some(Number(0)), false;
      }
      queried := true;
      if balance.None? {
        r := None;
      } else {
        r := Some(Ether(balance.value));
      }
    }

    /** `getAccountAssets`: mark fetching, then store the balance unless the query rejected. */
    method GetAccountAssets(balance: Option<string>)
      requires Valid()
      modifies this
      ensures Valid()
      ensures fetching
      ensures assets == if !old(CanQueryBalance()) then Number(0)
                        else if balance.Some? then Ether(balance.value) else old(assets)
      ensures provider == old(provider) && walletAddress == old(walletAddress) && connected == old(connected)
      ensures chainId == old(chainId) && signer == old(signer) && listeners == old(listeners)
    {
      fetching := true;
      var r, _ := GetUserBalance(balance);
      if r.Some? {
        assets := r.value;
      }
    }

    /** `subscribeProvider`: register the three listeners, unless the provider cannot emit events. */
    method SubscribeProvider(p: ProviderHandle)
      modifies this
      ensures listeners == if p.hasOn then old(listeners) + [p.id] else old(listeners)
      ensures provider == old(provider) && walletAddress == old(walletAddress) && connected == old(connected)
      ensures chainId == old(chainId) && signer == old(signer)
      ensures fetching == old(fetching) && assets == old(assets)
    {
      if p.hasOn {
        listeners := listeners + [p.id];
      }
    }

    /**
     * `onConnect`, given MetaMask's answers: `address` from the signer and
     * `network` from `getNetwork` (each absent when the call rejects), and
     * the balance for the final asset refresh.
     */
    method OnConnect(d: Detection, address: Option<string>, network: Option<int>, balance: Option<string>)
      returns (outcome: Result<(), ConnectError>)
      requires Valid()
      modifies this
      ensures Valid()
      ensures GetProvider(d).Failure? ==>
        outcome == Failure(Message(GetProvider(d).error)) &&
        provider == old(provider) && walletAddress == old(walletAddress) && connected == old(connected) &&
        chainId == old(chainId) && signer == old(signer) && fetching == old(fetching) &&
        assets == old(assets) && listeners == old(listeners)
      ensures GetProvider(d).Success? ==>
        listeners == if d.provider.hasOn then old(listeners) + [d.provider.id] else old(listeners)
      ensures GetProvider(d).Success? && (address.None? || network.None?) ==>
        outcome == Failure(ProviderCallFailed) &&
        provider == old(provider) && walletAddress == old(walletAddress) && connected == old(connected) &&
        chainId == old(chainId) && signer == old(signer) && fetching == old(fetching) && assets == old(assets)
      ensures GetProvider(d).Success? && address.Some? && network.Some? ==>
        provider == Some(d.provider) && connected && walletAddress == address &&
        chainId == network.value && signer == Some(Signer(d.provider.id)) && fetching &&
        assets == (if address.value == "" then Number(0)
                   else if balance.Some? then Ether(balance.value) else old(assets)) &&
        outcome == (if address.value != "" && balance.None? then Failure(ProviderCallFailed) else Success(()))
    {
      var got := GetProvider(d);
      if got.Failure? {
        return Failure(Message(got.error));
      }
      var p := got.value;
      SubscribeProvider(p);
      var s := Signer(p.id);
      if address.None? || network.None? {
        return Failure(ProviderCallFailed);
      }
      provider := Some(p);
      connected := true;
      walletAddress := address;
      chainId := network.value;
      signer := Some(s);
      GetAccountAssets(balance);
      outcome := if address.value != "" && balance.None? then Failure(ProviderCallFailed) else Success(());
    }

    /** The `accountsChanged` listener: take the first account (none for an empty list) and refresh assets. */
    method AccountsChanged(accounts: seq<string>, balance: Option<string>)
      requires Valid()
      modifies this
      ensures Valid()
      ensures walletAddress == if |accounts| > 0 then Some(accounts[0]) else None
      ensures connected == old(connected) && chainId == old(chainId) && signer == old(signer)
      ensures provider == old(provider) && listeners == old(listeners)
      ensures fetching
      ensures assets == if !CanQueryBalance() then Number(0)
                        else if balance.Some? then Ether(balance.value) else old(assets)
    {
      walletAddress := if |accounts| > 0 then Some(accounts[0]) else None;
      GetAccountAssets(balance);
    }

    /** The `chainChanged` listener: re-read the chain id (absent when `getNetwork` rejects) and refresh assets. */
    method ChainChanged(network: Option<int>, balance: Option<string>)
      requires Valid()
      modifies this
      ensures Valid()
      ensures network.None? ==>
        chainId == old(chainId) && fetching == old(fetching) && assets == old(assets)
      ensures network.Some? ==>
        chainId == network.value && fetching &&
        assets == (if !CanQueryBalance() then Number(0)
                   else if balance.Some? then Ether(balance.value) else old(assets))
      ensures provider == old(provider) && walletAddress == old(walletAddress) && connected == old(connected)
      ensures signer == old(signer) && listeners == old(listeners)
    {
      if network.None? {
        return;
      }
      chainId := network.value;
      GetAccountAssets(balance);
    }
  }

  /**
   * An empty `accountsChanged` after a successful connect is not a disconnect:
   * the wallet stays connected on the same chain, its address is gone and the
   * assets drop to 0.
   */
  method EmptyAccountsKeepConnection(d: Detection, address: string, network: int, balance: string)
    returns (connected: bool, walletAddress: Option<string>, chainId: int, assets: AssetValue)
    requires d.detected && d.requestOk && d.provider.hasOn
    ensures connected && walletAddress == None && chainId == network && assets == Number(0)
  {
    var w := new WalletState();
    var _ := w.OnConnect(d, Some(address), Some(network), Some(balance));
    w.AccountsChanged([], Some(balance));
    connected, walletAddress, chainId, assets := w.connected, w.walletAddress, w.chainId, w.assets;
  }

  /** Each successful connect registers another set of listeners; nothing removes the earlier ones. */
  method ReconnectDuplicatesListeners(d: Detection, address: string, network: int, balance: string)
    returns (registered: seq<nat>)
    requires d.detected && d.requestOk && d.provider.hasOn
    ensures registered == [d.provider.id, d.provider.id]
  {
    var w := new WalletState();
    var _ := w.OnConnect(d, Some(address), Some(network), Some(balance));
    var _ := w.OnConnect(d, Some(address), Some(network), Some(balance));
    registered := w.listeners;
  }
}
