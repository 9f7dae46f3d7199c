# Wallet-button controller of web3-wallet.js, in Dafny

`web3-wallet.js` binds one button on a page to an injected Web3 wallet
provider. It caches the connected account, shows the account on the button in
shortened form (`0x1234...5678`), switches the button between "connect",
"disconnect" and "install wallet", shows short notifications, and reacts to
the provider's `accountsChanged` and `chainChanged` events.

This project models that controller in three modules.

- `WalletSpec` (wallet_spec.dfy) is the controller as values. A `State` holds
  the cached account, the button's text, click handler and tooltip, the
  notifications shown so far as `(message, severity)` pairs, the provider
  listeners registered so far, and the browser effects requested so far
  (alert, opening the install page, reload). Each transition of the source is
  a function from the old state to the new state: `CheckConnection`,
  `ConnectWallet`, `DisconnectWallet`, `AccountsChanged` (handleAccountsChanged),
  `UpdateButton`, `ChainChanged` and `Click`, the handler bound to the button.
  `ShortAddress` is the address shortener, built on the index rules of
  `String.prototype.slice`. `Coherent` is the invariant the controller keeps:
  the button agrees with the cached account, and there is exactly one pair of
  listeners per success notification.
- `WalletTraces` (wallet_traces.dfy) is one page lifetime: the initial check,
  then any sequence of clicks and provider events. The provider is taken to
  call each registered listener once, in registration order. It proves that
  every reachable state is `Coherent`, and it proves what repeated listener
  registration does to event delivery.
- `WalletController` (wallet_controller.dfy) is the controller as the source
  writes it: a class whose fields are assigned step by step, with methods that
  call each other as the JavaScript functions do. Each method is proved to move
  the object's `Snapshot()` exactly as the `WalletSpec` function moves a
  `State`.

Each awaited `provider.request` call is an `Outcome` parameter. The outcome
either resolves to the account list or is rejected with an error code and
message. Whether a provider was detected is a `bool` parameter of each call,
because the source probes again on every call.

Listener registration is not deduplicated.

- connectWallet registers both listeners again on every successful connect,
  with no check (web3-wallet.js:64-65).
- `WalletTraces.ListenersCount` and `ReachableIsCoherent` show that after `n`
  successful connections there are `n` listeners of each kind.
- `WalletTraces.DeliverIdempotent` shows this is harmless for a non-empty
  account list.
- `WalletTraces.DeliverEmpty` shows the effect for an empty list: `n` listeners
  produce `n` "Carteira desconectada." notifications.
- `WalletTraces.EmptyEventWithOneListenerIsClick` and
  `EmptyEventWithListenersIsNotClick` show that an empty accountsChanged event
  is the same as a click only while one listener is registered.

## Model

| member | source | states |
|---|---|---|
| `WalletSpec.ShortAddress` | web3-wallet.js:86 | With JavaScript's clamping `slice` semantics, the label is the first min(6, n) characters, then "...", then the last min(4, n) characters. It is never longer than 13 characters. It is exactly 13 characters iff the address has at least 6. An address of at most 4 characters appears whole twice. |
| `WalletSpec.ShortAddressOfFullAddress` | web3-wallet.js:86 | A 42-character address `0x1234…5678` is shown as `0x1234...5678`. |
| `WalletSpec.Initial` | web3-wallet.js:7-8 | Before the first check, no account is cached and the dispatching handler is bound. This starting state is coherent. |
| `WalletSpec.DisconnectWallet` | web3-wallet.js:77-82 | Whatever the prior state: the account is cleared, the label is "Conectar" and the handler is connect. The tooltip, listeners and effects are unchanged. Exactly one ("Carteira desconectada.", info) notification is appended. |
| `WalletSpec.AccountsChanged` | web3-wallet.js:93-101 | An empty list is the full disconnect. A non-empty list always leaves its first account cached. The state is unchanged iff the list is non-empty and its first account is already cached. Otherwise the new account is shown and exactly one ("Conta alterada.", info) notification is appended, with nothing else changed. |
| `WalletSpec.ConnectWallet` | web3-wallet.js:44-74 | Without a provider, only the alert and the install page are recorded. When the request returns a non-empty list, the first account is cached and shown, one success notification is appended and two listeners are appended. Every other path leaves the account, the button and the listeners unchanged. A rejection appends exactly one error notification, which has the fixed rejection text iff the code is 4001. An empty list changes nothing. |
| `WalletSpec.CheckConnection` | web3-wallet.js:23-41 | Without a provider, the label is "Instalar Carteira" and the handler is install, and the account and everything else are untouched. When the request returns a non-empty list, the first account is adopted with no notification. An empty list or an error changes nothing. |
| `WalletSpec.Truthy` | web3-wallet.js:120 | A cached account counts as connected iff it is present and not the empty string. |
| `WalletSpec.Notify` | web3-wallet.js:104-108 | Exactly one `(message, type)` notification is appended at the end. The earlier notifications, the account, the button, the listeners and the effects are unchanged. |
| `WalletSpec.UpdateButton` | web3-wallet.js:85-90 | The text is the shortened address, at most 13 characters. The handler is disconnect, so the initial dispatcher is gone. The title is "Conectado: " + address. The cached account and the three logs are unchanged. |
| `WalletSpec.ChainChanged` | web3-wallet.js:65 | One page reload is requested and nothing else changes. |
| `WalletSpec.Click` | web3-wallet.js:118-125 | The dispatcher disconnects iff the cached account is truthy, and otherwise runs connectWallet. The disconnect handler disconnects and the connect handler runs connectWallet. The install handler (web3-wallet.js:26-28) only opens the install page. |
| `WalletTraces.Boot` | web3-wallet.js:118-127 | After page load the state is coherent, with no notification, listener or browser effect. An account is cached iff a provider answered with at least one, and then it is shown. Without a provider the button is the install button. Otherwise nothing has changed from the initial state. |
| `WalletTraces.Deliver` | web3-wallet.js:93-101 | Running handleAccountsChanged once per registered listener keeps the state coherent. |
| `WalletTraces.ListenersCount` | web3-wallet.js:64-65 | After n successful connections, n accountsChanged listeners and n chainChanged listeners are registered. |
| `WalletTraces.DisconnectKeepsCoherent` | web3-wallet.js:77-82 | disconnectWallet preserves the invariant. |
| `WalletTraces.AccountsChangedKeepsCoherent` | web3-wallet.js:93-101 | handleAccountsChanged preserves the invariant. |
| `WalletTraces.ConnectKeepsCoherent` | web3-wallet.js:44-74 | connectWallet preserves the invariant, on every path. |
| `WalletTraces.ClickKeepsCoherent` | web3-wallet.js:118-125 | A click preserves the invariant, whichever handler is bound: dispatcher, install, connect or disconnect. |
| `WalletTraces.CheckConnectionKeepsCoherent` | web3-wallet.js:23-41 | checkConnection preserves the invariant when no account is cached. That is the only state the page calls it in. |
| `WalletTraces.StepKeepsCoherent` | web3-wallet.js:64-65 | Any click, accountsChanged or chainChanged event, delivered to every registered listener, preserves the invariant. |
| `WalletTraces.RunKeepsCoherent` | web3-wallet.js:64-65 | Every sequence of events preserves the invariant. |
| `WalletTraces.ReachableIsCoherent` | web3-wallet.js:118-127 | Every state reachable from page load is coherent. In each, the number of listeners of each kind equals the number of success notifications shown. |
| `WalletTraces.ReachableAccountIsShown` | web3-wallet.js:118-125 | In every reachable state, a cached account is the one the button shows and names in its tooltip. A click then disconnects, whatever the provider would have answered. |
| `WalletTraces.ClickWhenDisconnected` | web3-wallet.js:118-125 | With no account cached, a click on any button but the install button runs connectWallet. |
| `WalletTraces.EmptyAccountsIsClick` | web3-wallet.js:94-95 | On a connected page, one call of handleAccountsChanged with an empty list is the same transition as a click. It ends disconnected. |
| `WalletTraces.EmptyEventWithOneListenerIsClick` | web3-wallet.js:94-95 | An empty accountsChanged event reaching a connected page with exactly one registered listener is the same transition as a click. |
| `WalletTraces.EmptyEventWithListenersIsNotClick` | web3-wallet.js:64 | With two or more registered listeners, an empty accountsChanged event appends one notification per listener, so it differs from a click. |
| `WalletTraces.DeliverIdempotent` | web3-wallet.js:96-100 | A non-empty account list delivered to one or more listeners has the effect of one delivery. |
| `WalletTraces.DeliverEmpty` | web3-wallet.js:94-95 | An empty list delivered to n listeners appends n disconnect notifications. It leaves listeners and effects alone. With at least one listener, it ends disconnected. |
| `WalletTraces.RunOnlyAppends` | web3-wallet.js:104-108 | Notifications, listeners and effects only grow: each earlier log is a prefix of each later one. |
| `WalletTraces.StepOnlyAppends` | web3-wallet.js:104-108 | One event only appends to the three logs. |
| `WalletTraces.DeliverOnlyAppends` | web3-wallet.js:93-101 | Delivering accountsChanged only appends notifications and leaves listeners and effects as they were. |
| `WalletController.Controller.constructor` | web3-wallet.js:7-8 | The fields start as the initial state: no account, the dispatching handler and the rendered text and title. That state is coherent. |
| `WalletController.Controller.ShowNotification` | web3-wallet.js:104-108 | Exactly one `(message, type)` notification is appended, and no other field changes. |
| `WalletController.Controller.UpdateButton` | web3-wallet.js:85-90 | The text is the shortened address, at most 13 characters. The handler becomes disconnect and the title becomes "Conectado: " + address. No other field changes. |
| `WalletController.Controller.DisconnectWallet` | web3-wallet.js:77-82 | The new state is `WalletSpec.DisconnectWallet` of the old one: disconnected view, same title, one info notification. It preserves the invariant. |
| `WalletController.Controller.HandleAccountsChanged` | web3-wallet.js:93-101 | The new state is `WalletSpec.AccountsChanged` of the old one, and the invariant is preserved. |
| `WalletController.Controller.HandleChainChanged` | web3-wallet.js:65 | The only change is that one page reload is requested. |
| `WalletController.Controller.ConnectWallet` | web3-wallet.js:44-74 | The new state is `WalletSpec.ConnectWallet` of the old one, and the invariant is preserved. |
| `WalletController.Controller.CheckConnection` | web3-wallet.js:23-41 | The new state is `WalletSpec.CheckConnection` of the old one. It is coherent when the old one was coherent with no account cached. |
| `WalletController.Controller.Click` | web3-wallet.js:118-125 | The new state is `WalletSpec.Click` of the old one: the bound handler runs. The dispatcher disconnects iff the cached account is truthy. The install handler only opens the install page. The invariant is preserved. |
| `WalletController.InitWalletConnection` | web3-wallet.js:118-127 | Page load creates a controller and runs checkConnection once. The result is the first state of every trace, and it is coherent. |

## Left out

- Finding the button and waiting for the DOM (web3-wallet.js:4-5, 130-135): the button is taken to exist.
- detectProvider (web3-wallet.js:11-20): the probe of `window.ethereum` and the legacy `window.web3.currentProvider` is a `bool` argument of each operation that probes. The cached `provider` reference is not modelled, because the model never calls the provider object.
- `async`/`await`: each provider request is replaced by the outcome it settles to. Interleavings, such as a second click while a request is pending, are not modelled.
- `console.error` in checkConnection (web3-wallet.js:39): it changes no state the model tracks.
- The notification's lifetime (web3-wallet.js:105-106, 110-114): the CSS classes, the `show` toggle, the 3000 ms and 300 ms timers and the removal are timer-driven DOM animation. A notification is only its appended `(message, severity)` entry, and the log never shrinks.
- `e.preventDefault()` in the dispatching handler (web3-wallet.js:119): it has no effect on the controller's state.
- The page reload requested by the chainChanged listener: the model records the request as a `ReloadPage` effect. The fresh page it leads to is not modelled, so events after a reload describe the page before navigation completes.
- How the provider delivers events: the model assumes each registered listener is called once, in registration order. The provider's own code is not part of this model.
- `WalletSpec.ShortAddress`: addresses are `seq<char>` (Unicode scalar values), while JavaScript slices UTF-16 code units. The two differ only for characters outside the Basic Multilingual Plane.
- `WalletSpec.ConnectWallet`: the try block at web3-wallet.js:51-66 also covers updateButton, showNotification and both `provider.on` calls. An exception thrown there is not modelled, for example by a provider without `on`. On that path the source has already cached and shown the account and shown the success notification. It then also shows "Erro ao conectar carteira: …", with zero or one listener registered. The model's outcome only describes how the request itself settles.
- `WalletSpec.CheckConnection`: likewise, an exception from updateButton inside the try block at web3-wallet.js:32-37 is not modelled. It would be logged after the account was cached.
- Non-string or non-array provider results, and errors without a numeric `code` or a `message`: error codes are `int` and messages are strings. An error with no numeric code is any code other than 4001.

