/** The wallet-button controller of web3-wallet.js, as values.

    The controller's closure state (the cached account, the button's label,
    click handler and tooltip, and what it has done to the page) is captured
    by `State`; every transition of the controller is a function from the
    state before to the state after, given the provider's answer as an input.
    The class in module WalletController is proved against these functions.
 */
module WalletSpec {

  datatype Option<+T> = None | Some(value: T)

  /** The function bound to the button's `onclick`. */
  datatype Handler =
    | Dispatch    // the initial handler: disconnect if an account is cached, else connect
    | Install     // opens the wallet download page
    | Connect     // connectWallet
    | Disconnect  // disconnectWallet

  /** The `type` argument of showNotification. */
  datatype Severity = Success | Error | Info

  datatype Notification = Notification(message: string, severity: Severity)

  /** A listener registered with the provider's `on`. */
  datatype Subscription = OnAccountsChanged | OnChainChanged

  /** Browser side effects other than the button and the notifications. */
  datatype Effect = Alert(message: string) | OpenPage(url: string) | ReloadPage

  /** How one awaited `provider.request` settles: it resolves to the list of
      account addresses, or it throws an error carrying a code and a message. */
  datatype Outcome =
    | Resolved(accounts: seq<string>)
    | Rejected(code: int, message: string)

  /** Everything the controller owns or changes.
      `notifications` and `effects` only ever grow: they are what the page has
      been shown and what the browser has been asked to do. */
  datatype State = State(
    account: Option<string>,
    text: string,
    handler: Handler,
    title: string,
    notifications: seq<Notification>,
    subscriptions: seq<Subscription>,
    effects: seq<Effect>)

  const ConnectLabel := "Conectar"
  const InstallLabel := "Instalar Carteira"
  const InstallUrl := "https://metamask.io/download/"
  const InstallAlert := "Por favor, instale MetaMask ou outra carteira Web3 para continuar."
  const ConnectedMsg := "Carteira conectada com sucesso!"
  const RejectedMsg := "Conexão rejeitada pelo usuário."
  const ErrorPrefix := "Erro ao conectar carteira: "
  const DisconnectedMsg := "Carteira desconectada."
  const AccountChangedMsg := "Conta alterada."
  const TitlePrefix := "Conectado: "
  /** The error code with which a provider reports that the user refused the request. */
  const UserRejectedCode := 4001

  function Min(a: int, b: int): int { if a < b then a else b }

  function Max(a: int, b: int): int { if a < b then b else a }

  // ---------------------------------------------------------------------------
  // String.prototype.slice and the shortened address

  /** How String.prototype.slice reads an index: a negative index counts back
      from the end, and the result is clamped to 0..len. */
  function RelativeIndex(i: int, len: nat): (k: nat)
    ensures k <= len
  {
    if i < 0 then Max(len + i, 0) else Min(i, len)
  }

  /** `s.slice(start, end)`. */
  function Slice(s: string, start: int, end: int): string {
    var from, to := RelativeIndex(start, |s|), RelativeIndex(end, |s|);
    if from < to then s[from..to] else ""
  }

  /** `s.slice(start)`. */
  function SliceFrom(s: string, start: int): string {
    s[RelativeIndex(start, |s|)..]
  }

  /** The button label for a connected address:
      `address.slice(0, 6) + "..." + address.slice(-4)`.
      For every length the label is the first (at most) six characters, three
      dots and the last (at most) four characters, so it never exceeds 13
      characters; an address of up to four characters appears whole twice. */
  function ShortAddress(address: string): (r: string)
    ensures r == address[..Min(6, |address|)] + "..." + address[Max(0, |address| - 4)..]
    ensures |r| <= 13
    ensures |address| >= 6 <==> |r| == 13
    ensures |address| <= 4 ==> r == address + "..." + address
  {
    Slice(address, 0, 6) + "..." + SliceFrom(address, -4)
  }

  /** A full 42-character address keeps its "0x" and four more characters in
      front and its last four at the end. */
  lemma ShortAddressOfFullAddress()
    ensures ShortAddress("0x1234567890abcdef1234567890abcdef12345678") == "0x1234...5678"
  {
    var address := "0x1234567890abcdef1234567890abcdef12345678";
    assert |address| == 42;
    assert address[..6] == "0x1234" by {
      assert address[0] == '0' && address[1] == 'x' && address[2] == '1';
      assert address[3] == '2' && address[4] == '3' && address[5] == '4';
    }
    assert address[38..] == "5678" by {
      assert address[38] == '5' && address[39] == '6' && address[40] == '7' && address[41] == '8';
    }
  }

  // ---------------------------------------------------------------------------
  // Views of the state

  /** `if (currentAccount)`: a cached account is truthy unless it is the empty string. */
  function Truthy(account: Option<string>): (b: bool)
    ensures b <==> account != None && account != Some("")
  {
    account.Some? && account.value != ""
  }

  /** The button shows `address` as connected and a click disconnects. */
  predicate ShowsConnected(s: State, address: string) {
    s.account == Some(address) &&
    s.text == ShortAddress(address) &&
    s.handler == Disconnect &&
    s.title == TitlePrefix + address
  }

  /** The button offers to connect and no account is cached. */
  predicate ShowsDisconnected(s: State) {
    s.account == None && s.text == ConnectLabel && s.handler == Connect
  }

  /** Account and button are the same in both states. */
  predicate SameView(r: State, s: State) {
    r.account == s.account && r.text == s.text && r.handler == s.handler && r.title == s.title
  }

  /** How many of the notifications are success notifications. */
  function SuccessCount(ns: seq<Notification>): nat {
    if ns == [] then 0
    else SuccessCount(ns[..|ns| - 1]) + (if ns[|ns| - 1].severity == Success then 1 else 0)
  }

  /** The listeners that `n` successful connections register, in order. */
  function Listeners(n: nat): seq<Subscription> {
    if n == 0 then [] else Listeners(n - 1) + [OnAccountsChanged, OnChainChanged]
  }

  /** The invariant the controller keeps: the button agrees with the cached
      account (a connected button shows the shortened cached address and its
      full form in the tooltip; a connect or install button has no account
      behind it), and every success notification was accompanied by exactly
      one accountsChanged and one chainChanged listener. */
  predicate Coherent(s: State) {
    s.subscriptions == Listeners(SuccessCount(s.notifications)) &&
    match s.handler
    case Dispatch => s.account == None
    case Install => s.account == None && s.text == InstallLabel
    case Connect => ShowsDisconnected(s)
    case Disconnect => s.account.Some? && ShowsConnected(s, s.account.value)
  }

  // ---------------------------------------------------------------------------
  // Transitions

  /** The state the page starts in: the button as the page rendered it, with
      the dispatching click handler bound and nothing cached. */
  function Initial(text: string, title: string): (r: State)
    ensures Coherent(r) && r.handler == Dispatch && !Truthy(r.account)
  {
    State(None, text, Dispatch, title, [], [], [])
  }

  /** showNotification: the page gains exactly one notification, at the end,
      and nothing else changes. */
  function Notify(s: State, message: string, severity: Severity): (r: State)
    ensures |r.notifications| == |s.notifications| + 1
    ensures r.notifications[..|s.notifications|] == s.notifications
    ensures r.notifications[|s.notifications|] == Notification(message, severity)
    ensures SameView(r, s) && r.subscriptions == s.subscriptions && r.effects == s.effects
  {
    s.(notifications := s.notifications + [Notification(message, severity)])
  }

  /** updateButton: shortened label of at most 13 characters, disconnect on
      click, full address in the tooltip; the cached account and the logs are
      not touched. */
  function UpdateButton(s: State, address: string): (r: State)
    ensures r.text == ShortAddress(address) && |r.text| <= 13
    ensures r.handler == Disconnect && r.handler != Dispatch
    ensures r.title == TitlePrefix + address
    ensures r.account == s.account && r.notifications == s.notifications
    ensures r.subscriptions == s.subscriptions && r.effects == s.effects
  {
    s.(text := ShortAddress(address), handler := Disconnect, title := TitlePrefix + address)
  }

  /** Cache `address` and show it. */
  function Adopt(s: State, address: string): (r: State)
    ensures ShowsConnected(r, address)
  {
    UpdateButton(s.(account := Some(address)), address)
  }

  /** disconnectWallet: whatever the state, forget the account, offer to
      connect and say so once; the tooltip is left as it was. */
  function DisconnectWallet(s: State): (r: State)
    ensures ShowsDisconnected(r) && r.title == s.title
    ensures r.notifications == s.notifications + [Notification(DisconnectedMsg, Info)]
    ensures r.subscriptions == s.subscriptions && r.effects == s.effects
  {
    Notify(s.(account := None, text := ConnectLabel, handler := Connect), DisconnectedMsg, Info)
  }

  /** handleAccountsChanged: an empty list disconnects; a first account other
      than the cached one is adopted and announced; the cached one changes nothing. */
  function AccountsChanged(s: State, accounts: seq<string>): (r: State)
    ensures accounts == [] ==> r == DisconnectWallet(s)
    ensures accounts != [] ==> r.account == Some(accounts[0])
    ensures r == s <==> accounts != [] && s.account == Some(accounts[0])
    ensures accounts != [] && s.account != Some(accounts[0]) ==>
      ShowsConnected(r, accounts[0]) &&
      r.notifications == s.notifications + [Notification(AccountChangedMsg, Info)] &&
      r.subscriptions == s.subscriptions && r.effects == s.effects
  {
    if |accounts| == 0 then DisconnectWallet(s)
    else if Some(accounts[0]) != s.account then Notify(Adopt(s, accounts[0]), AccountChangedMsg, Info)
    else s
  }

  /** The request in connectWallet succeeds: a provider exists and it resolved
      to at least one account. */
  predicate Connects(providerPresent: bool, outcome: Outcome) {
    providerPresent && outcome.Resolved? && |outcome.accounts| > 0
  }

  /** The error notification connectWallet shows for a rejected request. */
  function ErrorNotice(code: int, message: string): Notification {
    if code == UserRejectedCode then Notification(RejectedMsg, Error)
    else Notification(ErrorPrefix + message, Error)
  }

  /** connectWallet, given whether a provider was detected and how the
      `eth_requestAccounts` request settled. */
  function ConnectWallet(s: State, providerPresent: bool, outcome: Outcome): (r: State)
    // without a provider: an alert and the install page, and nothing else
    ensures !providerPresent ==>
      r == s.(effects := s.effects + [Alert(InstallAlert), OpenPage(InstallUrl)])
    ensures providerPresent ==> r.effects == s.effects
    // success: the first account is cached and shown, one success notification,
    // and two more listeners, whatever was registered before
    ensures Connects(providerPresent, outcome) ==>
      ShowsConnected(r, outcome.accounts[0]) &&
      r.notifications == s.notifications + [Notification(ConnectedMsg, Success)] &&
      r.subscriptions == s.subscriptions + [OnAccountsChanged, OnChainChanged]
    // every other path leaves the account, the button and the listeners alone
    ensures !Connects(providerPresent, outcome) ==>
      SameView(r, s) && r.subscriptions == s.subscriptions
    // a rejection shows exactly one error notification; 4001 has its own text
    ensures providerPresent && outcome.Rejected? ==>
      r.notifications == s.notifications + [ErrorNotice(outcome.code, outcome.message)] &&
      r.notifications[|s.notifications|].severity == Error &&
      (outcome.code == UserRejectedCode <==> r.notifications[|s.notifications|].message == RejectedMsg)
    // an empty account list is silently ignored
    ensures providerPresent && outcome == Resolved([]) ==> r == s
  {
    if !providerPresent then
      s.(effects := s.effects + [Alert(InstallAlert), OpenPage(InstallUrl)])
    else
      match outcome
      case Resolved(accounts) =>
        if |accounts| > 0 then
          var t := Notify(Adopt(s, accounts[0]), ConnectedMsg, Success);
          t.(subscriptions := t.subscriptions + [OnAccountsChanged, OnChainChanged])
        else s
      case Rejected(code, message) =>
        assert (ErrorPrefix + message)[0] != RejectedMsg[0];
        s.(notifications := s.notifications + [ErrorNotice(code, message)])
  }

  /** checkConnection, given whether a provider was detected and how the
      `eth_accounts` request settled. */
  function CheckConnection(s: State, providerPresent: bool, outcome: Outcome): (r: State)
    // without a provider: an install button; the cached account is not touched
    ensures !providerPresent ==>
      r.text == InstallLabel && r.handler == Install &&
      r.account == s.account && r.title == s.title &&
      r.notifications == s.notifications && r.subscriptions == s.subscriptions &&
      r.effects == s.effects
    // an authorised account is adopted silently
    ensures Connects(providerPresent, outcome) ==>
      ShowsConnected(r, outcome.accounts[0]) &&
      r.notifications == s.notifications && r.subscriptions == s.subscriptions &&
      r.effects == s.effects
    // an empty list or an error changes nothing
    ensures providerPresent && !Connects(providerPresent, outcome) ==> r == s
  {
    if !providerPresent then s.(text := InstallLabel, handler := Install)
    else if outcome.Resolved? && |outcome.accounts| > 0 then Adopt(s, outcome.accounts[0])
    else s
  }

  /** The chainChanged listener: it asks the browser to reload the page, and
      changes nothing else. */
  function ChainChanged(s: State): (r: State)
    ensures r.effects == s.effects + [ReloadPage]
    ensures SameView(r, s) && r.notifications == s.notifications && r.subscriptions == s.subscriptions
  {
    s.(effects := s.effects + [ReloadPage])
  }

  /** A click on the button runs whichever handler is bound to it: the
      dispatcher disconnects exactly when the cached account is truthy and
      connects otherwise; the disconnect handler disconnects, the connect
      handler connects, and the install handler only opens the install page. */
  function Click(s: State, providerPresent: bool, outcome: Outcome): (r: State)
    ensures s.handler == Dispatch ==> (r == DisconnectWallet(s) <==> Truthy(s.account))
    ensures s.handler == Disconnect ==> r == DisconnectWallet(s)
    ensures s.handler == Connect || (s.handler == Dispatch && !Truthy(s.account)) ==>
      r == ConnectWallet(s, providerPresent, outcome)
    ensures s.handler == Install ==>
      SameView(r, s) && r.notifications == s.notifications && r.subscriptions == s.subscriptions &&
      r.effects == s.effects + [OpenPage(InstallUrl)]
  {
    match s.handler
    case Dispatch =>
      if Truthy(s.account) then DisconnectWallet(s) else ConnectWallet(s, providerPresent, outcome)
    case Install => s.(effects := s.effects + [OpenPage(InstallUrl)])
    case Connect => ConnectWallet(s, providerPresent, outcome)
    case Disconnect => DisconnectWallet(s)
  }
}
