/** The controller of web3-wallet.js as the object it is: the variables
    `currentAccount` and the button's text, onclick and title are fields that
    its methods assign, and the page's notifications, the provider listeners
    and the browser effects are append-only logs. Each method is proved to
    move the object's `Snapshot` exactly as the matching function of
    WalletSpec moves a `State`, so every lemma of WalletSpec and WalletTraces
    applies to it.
 */
module WalletController {
  import opened WalletSpec
  import WalletTraces

  class Controller {
    var currentAccount: Option<string>
    var text: string
    var handler: Handler
    var title: string
    var notifications: seq<Notification>
    var subscriptions: seq<Subscription>
    var effects: seq<Effect>

    /** The controller's state as a value. */
    function Snapshot(): State
      reads this
    {
      State(currentAccount, text, handler, title, notifications, subscriptions, effects)
    }

    /** initWalletConnection up to its call of checkConnection: the rendered
        button gets the dispatching click handler and nothing is cached. */
    constructor (initialText: string, initialTitle: string)
      ensures Snapshot() == Initial(initialText, initialTitle)
      ensures Coherent(Snapshot())
    {
      currentAccount := None;
      text := initialText;
      title := initialTitle;
      notifications := [];
      subscriptions := [];
      effects := [];
      handler := Dispatch;
    }

    /** showNotification: one more notification on the page. */
    method ShowNotification(message: string, severity: Severity)
      modifies this
      ensures Snapshot() == Notify(old(Snapshot()), message, severity)
    {
      notifications := notifications + [Notification(message, severity)];
    }

    /** updateButton: label, click handler and tooltip for `address`. */
    method UpdateButton(address: string)
      modifies this
      ensures Snapshot() == WalletSpec.UpdateButton(old(Snapshot()), address)
      ensures text == ShortAddress(address) && |text| <= 13
      ensures handler == Disconnect && title == TitlePrefix + address
    {
      text := ShortAddress(address);
      handler := Disconnect;
      title := TitlePrefix + address;
    }

    /** disconnectWallet. */
    method DisconnectWallet()
      modifies this
      ensures Snapshot() == WalletSpec.DisconnectWallet(old(Snapshot()))
      ensures ShowsDisconnected(Snapshot()) && title == old(title)
      ensures notifications == old(notifications) + [Notification(DisconnectedMsg, Info)]
      ensures Coherent(old(Snapshot())) ==> Coherent(Snapshot())
    {
      ghost var before := Snapshot();
      currentAccount := None;
      text := ConnectLabel;
      handler := Connect;
      ShowNotification(DisconnectedMsg, Info);
      if Coherent(before) {
        WalletTraces.DisconnectKeepsCoherent(before);
      }
    }

    /** handleAccountsChanged, the listener the provider calls with the new account list. */
    method HandleAccountsChanged(accounts: seq<string>)
      modifies this
      ensures Snapshot() == AccountsChanged(old(Snapshot()), accounts)
      ensures Coherent(old(Snapshot())) ==> Coherent(Snapshot())
    {
      ghost var before := Snapshot();
      if |accounts| == 0 {
        DisconnectWallet();
      } else if Some(accounts[0]) != currentAccount {
        currentAccount := Some(accounts[0]);
        UpdateButton(accounts[0]);
        ShowNotification(AccountChangedMsg, Info);
      }
      WalletTraces.AccountsChangedKeepsCoherent(before, accounts);
    }

    /** The chainChanged listener. */
    method HandleChainChanged()
      modifies this
      ensures Snapshot() == ChainChanged(old(Snapshot()))
    {
      effects := effects + [ReloadPage];
    }

    /** connectWallet, given whether a provider is detected and how its
        `eth_requestAccounts` request settles. */
    method ConnectWallet(providerPresent: bool, outcome: Outcome)
      modifies this
      ensures Snapshot() == WalletSpec.ConnectWallet(old(Snapshot()), providerPresent, outcome)
      ensures Coherent(old(Snapshot())) ==> Coherent(Snapshot())
    {
      ghost var before := Snapshot();
      if !providerPresent {
        effects := effects + [Alert(InstallAlert)];
        effects := effects + [OpenPage(InstallUrl)];
      } else {
        match outcome
        case Resolved(accounts) =>
          if |accounts| > 0 {
            currentAccount := Some(accounts[0]);
            UpdateButton(accounts[0]);
            ShowNotification(ConnectedMsg, Success);
            subscriptions := subscriptions + [OnAccountsChanged];
            subscriptions := subscriptions + [OnChainChanged];
          }
        case Rejected(code, message) =>
          if code == UserRejectedCode {
            ShowNotification(RejectedMsg, Error);
          } else {
            ShowNotification(ErrorPrefix + message, Error);
          }
      }
      if Coherent(before) {
        WalletTraces.ConnectKeepsCoherent(before, providerPresent, outcome);
      }
    }

    /** checkConnection, given whether a provider is detected and how its
        `eth_accounts` request settles. */
    method CheckConnection(providerPresent: bool, outcome: Outcome)
      modifies this
      ensures Snapshot() == WalletSpec.CheckConnection(old(Snapshot()), providerPresent, outcome)
      ensures Coherent(old(Snapshot())) && old(currentAccount) == None ==> Coherent(Snapshot())
    {
      if !providerPresent {
        text := InstallLabel;
        handler := Install;
        return;
      }
      match outcome
      case Resolved(accounts) =>
        if |accounts| > 0 {
          currentAccount := Some(accounts[0]);
          UpdateButton(accounts[0]);
        }
      case Rejected(_, _) =>
    }

    /** A click on the button: whichever handler is bound runs. */
    method Click(providerPresent: bool, outcome: Outcome)
      modifies this
      ensures Snapshot() == WalletSpec.Click(old(Snapshot()), providerPresent, outcome)
      ensures Coherent(old(Snapshot())) ==> Coherent(Snapshot())
    {
      match handler
      case Dispatch =>
        if currentAccount.Some? && currentAccount.value != "" {
          DisconnectWallet();
        } else {
          ConnectWallet(providerPresent, outcome);
        }
      case Install =>
        effects := effects + [OpenPage(InstallUrl)];
      case Connect =>
        ConnectWallet(providerPresent, outcome);
      case Disconnect =>
        DisconnectWallet();
    }
  }

  /** Page load: the controller is created over the rendered button and checks
      for an already authorised account; the page it leaves is the one the
      trace model starts from, and it is coherent. */
  method InitWalletConnection(initialText: string, initialTitle: string,
                              providerPresent: bool, outcome: Outcome)
    returns (c: Controller)
    ensures fresh(c)
    ensures c.Snapshot() == WalletTraces.Boot(initialText, initialTitle, providerPresent, outcome)
    ensures Coherent(c.Snapshot())
  {
    c := new Controller(initialText, initialTitle);
    c.CheckConnection(providerPresent, outcome);
  }
}
