/** A page lifetime of the wallet-button controller: the initial check, then
    any sequence of clicks and provider events.

    The provider calls every listener registered for an event, once per
    registration and in registration order (the EventEmitter behaviour of
    injected providers). Because connectWallet registers its two listeners on
    every successful connection, an event reaches handleAccountsChanged as many
    times as there have been successful connections.
 */
module WalletTraces {
  import opened WalletSpec

  /** What can happen to the page after the initial check. */
  datatype Event =
    | UserClick(providerPresent: bool, outcome: Outcome)
    | AccountsChangedEvent(accounts: seq<string>)
    | ChainChangedEvent

  /** `n` copies of `x`. */
  function Repeat<T>(x: T, n: nat): (r: seq<T>)
    ensures |r| == n && forall i :: 0 <= i < n ==> r[i] == x
  {
    if n == 0 then [] else Repeat(x, n - 1) + [x]
  }

  /** How many listeners of kind `x` are registered. */
  function Count(subs: seq<Subscription>, x: Subscription): nat {
    if subs == [] then 0
    else Count(subs[..|subs| - 1], x) + (if subs[|subs| - 1] == x then 1 else 0)
  }

  /** handleAccountsChanged, run by `n` registered listeners in turn. */
  function Deliver(s: State, accounts: seq<string>, n: nat): (r: State)
    ensures Coherent(s) ==> Coherent(r)
    decreases n
  {
    if n == 0 then s
    else
      AccountsChangedKeepsCoherent(s, accounts);
      Deliver(AccountsChanged(s, accounts), accounts, n - 1)
  }

  /** The chainChanged listener, run by `n` registered listeners in turn. */
  function ReloadEach(s: State, n: nat): State {
    s.(effects := s.effects + Repeat(ReloadPage, n))
  }

  /** One event. */
  function Step(s: State, e: Event): State {
    match e
    case UserClick(providerPresent, outcome) => Click(s, providerPresent, outcome)
    case AccountsChangedEvent(accounts) => Deliver(s, accounts, Count(s.subscriptions, OnAccountsChanged))
    case ChainChangedEvent => ReloadEach(s, Count(s.subscriptions, OnChainChanged))
  }

  /** A sequence of events, in order. */
  function Run(s: State, events: seq<Event>): State
    decreases |events|
  {
    if events == [] then s else Run(Step(s, events[0]), events[1..])
  }

  /** Page load: the controller is set up over the rendered button and checks
      for an authorised account once. The page starts coherent, with nothing
      shown, no listener and no browser effect; an account is cached exactly
      when a provider answered with one, and without a provider the button
      offers the install page. */
  function Boot(text: string, title: string, providerPresent: bool, outcome: Outcome): (r: State)
    ensures Coherent(r)
    ensures r.notifications == [] && r.subscriptions == [] && r.effects == []
    ensures r.account.Some? <==> Connects(providerPresent, outcome)
    ensures Connects(providerPresent, outcome) ==> ShowsConnected(r, outcome.accounts[0])
    ensures !providerPresent ==> r.handler == Install && r.text == InstallLabel
    ensures providerPresent && !Connects(providerPresent, outcome) ==> r == Initial(text, title)
  {
    CheckConnection(Initial(text, title), providerPresent, outcome)
  }

  // ---------------------------------------------------------------------------
  // Counting lemmas

  lemma {:induction false} CountAppend(subs: seq<Subscription>, more: seq<Subscription>, x: Subscription)
    ensures Count(subs + more, x) == Count(subs, x) + Count(more, x)
    decreases |more|
  {
    if more == [] {
      assert subs + more == subs;
    } else {
      var init := more[..|more| - 1];
      assert (subs + more)[..|subs + more| - 1] == subs + init;
      CountAppend(subs, init, x);
    }
  }

  /** After `n` successful connections there are `n` listeners of each kind. */
  lemma {:induction false} ListenersCount(n: nat)
    ensures Count(Listeners(n), OnAccountsChanged) == n
    ensures Count(Listeners(n), OnChainChanged) == n
  {
    if n > 0 {
      ListenersCount(n - 1);
      var pair := [OnAccountsChanged, OnChainChanged];
      assert pair[..1] == [OnAccountsChanged];
      CountAppend(Listeners(n - 1), pair, OnAccountsChanged);
      CountAppend(Listeners(n - 1), pair, OnChainChanged);
    }
  }

  // ---------------------------------------------------------------------------
  // Every transition keeps the view coherent

  lemma DisconnectKeepsCoherent(s: State)
    requires Coherent(s)
    ensures Coherent(DisconnectWallet(s))
  {
  }

  lemma AccountsChangedKeepsCoherent(s: State, accounts: seq<string>)
    ensures Coherent(s) ==> Coherent(AccountsChanged(s, accounts))
  {
  }

  lemma ConnectKeepsCoherent(s: State, providerPresent: bool, outcome: Outcome)
    requires Coherent(s)
    ensures Coherent(ConnectWallet(s, providerPresent, outcome))
  {
  }

  lemma ClickKeepsCoherent(s: State, providerPresent: bool, outcome: Outcome)
    requires Coherent(s)
    ensures Coherent(Click(s, providerPresent, outcome))
  {
  }

  /** checkConnection keeps the view coherent when no account is cached yet;
      the page calls it only once, before anything can be cached. */
  lemma CheckConnectionKeepsCoherent(s: State, providerPresent: bool, outcome: Outcome)
    requires Coherent(s) && s.account == None
    ensures Coherent(CheckConnection(s, providerPresent, outcome))
  {
  }

  lemma StepKeepsCoherent(s: State, e: Event)
    requires Coherent(s)
    ensures Coherent(Step(s, e))
  {
  }

  lemma {:induction false} RunKeepsCoherent(s: State, events: seq<Event>)
    requires Coherent(s)
    ensures Coherent(Run(s, events))
    decreases |events|
  {
    if events != [] {
      StepKeepsCoherent(s, events[0]);
      RunKeepsCoherent(Step(s, events[0]), events[1..]);
    }
  }

  /** In every state the page can reach, the button agrees with the cached
      account, and there are as many accountsChanged listeners (and as many
      chainChanged listeners) as there have been success notifications. */
  lemma {:induction false} ReachableIsCoherent(text: string, title: string, providerPresent: bool,
                                                outcome: Outcome, events: seq<Event>)
    ensures Coherent(Run(Boot(text, title, providerPresent, outcome), events))
    ensures var r := Run(Boot(text, title, providerPresent, outcome), events);
      Count(r.subscriptions, OnAccountsChanged) == SuccessCount(r.notifications) &&
      Count(r.subscriptions, OnChainChanged) == SuccessCount(r.notifications)
  {
    var s := Initial(text, title);
    CheckConnectionKeepsCoherent(s, providerPresent, outcome);
    RunKeepsCoherent(Boot(text, title, providerPresent, outcome), events);
    ListenersCount(SuccessCount(Run(Boot(text, title, providerPresent, outcome), events).notifications));
  }

  /** In every reachable state a cached account is the one the button shows
      and clicking disconnects, without asking the provider anything. */
  lemma ReachableAccountIsShown(text: string, title: string, providerPresent: bool,
                                outcome: Outcome, events: seq<Event>, address: string,
                                clickProvider: bool, clickOutcome: Outcome)
    requires Run(Boot(text, title, providerPresent, outcome), events).account == Some(address)
    ensures var r := Run(Boot(text, title, providerPresent, outcome), events);
      ShowsConnected(r, address) && Click(r, clickProvider, clickOutcome) == DisconnectWallet(r)
  {
    ReachableIsCoherent(text, title, providerPresent, outcome, events);
  }

  /** A click with no account cached, on any button but the install one, is
      connectWallet. */
  lemma ClickWhenDisconnected(s: State, providerPresent: bool, outcome: Outcome)
    requires Coherent(s) && s.account == None && s.handler != Install
    ensures Click(s, providerPresent, outcome) == ConnectWallet(s, providerPresent, outcome)
  {
  }

  /** One call of handleAccountsChanged with an empty list, on a connected
      page, is the same transition as clicking the button. */
  lemma EmptyAccountsIsClick(s: State, providerPresent: bool, outcome: Outcome)
    requires Coherent(s) && s.account.Some?
    ensures AccountsChanged(s, []) == Click(s, providerPresent, outcome)
    ensures ShowsDisconnected(Click(s, providerPresent, outcome))
  {
  }

  // ---------------------------------------------------------------------------
  // Repeated delivery

  /** An accountsChanged event with an empty list reaching a connected page
      with exactly one listener is the same transition as a click. */
  lemma EmptyEventWithOneListenerIsClick(s: State, providerPresent: bool, outcome: Outcome)
    requires Coherent(s) && s.account.Some? && Count(s.subscriptions, OnAccountsChanged) == 1
    ensures Step(s, AccountsChangedEvent([])) == Click(s, providerPresent, outcome)
  {
  }

  /** With two or more listeners it is not: each listener disconnects and
      shows its own notification, where a click shows one. */
  lemma EmptyEventWithListenersIsNotClick(s: State, providerPresent: bool, outcome: Outcome)
    requires Coherent(s) && s.account.Some? && Count(s.subscriptions, OnAccountsChanged) >= 2
    ensures var r := Step(s, AccountsChangedEvent([]));
      |r.notifications| == |s.notifications| + Count(s.subscriptions, OnAccountsChanged) &&
      r != Click(s, providerPresent, outcome)
  {
    DeliverEmpty(s, Count(s.subscriptions, OnAccountsChanged));
  }

  /** handleAccountsChanged with a non-empty list is idempotent: however many
      listeners receive it, the effect is that of one. */
  lemma {:induction false} DeliverIdempotent(s: State, accounts: seq<string>, n: nat)
    requires accounts != [] && n >= 1
    ensures Deliver(s, accounts, n) == AccountsChanged(s, accounts)
    decreases n
  {
    if n > 1 {
      var t := AccountsChanged(s, accounts);
      assert AccountsChanged(t, accounts) == t;
      DeliverIdempotent(t, accounts, n - 1);
    }
  }

  /** An empty account list is not: each of the `n` listeners disconnects and
      shows its own "Carteira desconectada." notification. */
  lemma {:induction false} DeliverEmpty(s: State, n: nat)
    ensures var r := Deliver(s, [], n);
      r.notifications == s.notifications + Repeat(Notification(DisconnectedMsg, Info), n) &&
      r.subscriptions == s.subscriptions && r.effects == s.effects &&
      (n >= 1 ==> ShowsDisconnected(r))
    decreases n
  {
    if n > 0 {
      var t := DisconnectWallet(s);
      DeliverEmpty(t, n - 1);
      var x := Notification(DisconnectedMsg, Info);
      assert [x] + Repeat(x, n - 1) == Repeat(x, n);
    }
  }

  // ---------------------------------------------------------------------------
  // The page's record only grows

  lemma {:induction false} RunOnlyAppends(s: State, events: seq<Event>)
    ensures var r := Run(s, events);
      s.notifications <= r.notifications && s.subscriptions <= r.subscriptions && s.effects <= r.effects
    decreases |events|
  {
    if events != [] {
      var t := Step(s, events[0]);
      StepOnlyAppends(s, events[0]);
      RunOnlyAppends(t, events[1..]);
    }
  }

  lemma StepOnlyAppends(s: State, e: Event)
    ensures var r := Step(s, e);
      s.notifications <= r.notifications && s.subscriptions <= r.subscriptions && s.effects <= r.effects
  {
    match e
    case UserClick(_, _) =>
    case AccountsChangedEvent(accounts) => DeliverOnlyAppends(s, accounts, Count(s.subscriptions, OnAccountsChanged));
    case ChainChangedEvent =>
  }

  lemma {:induction false} DeliverOnlyAppends(s: State, accounts: seq<string>, n: nat)
    ensures var r := Deliver(s, accounts, n);
      s.notifications <= r.notifications && r.subscriptions == s.subscriptions && r.effects == s.effects
    decreases n
  {
    if n > 0 {
      DeliverOnlyAppends(AccountsChanged(s, accounts), accounts, n - 1);
    }
  }
}
