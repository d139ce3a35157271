# PaywallTestS subscription state, modelled in Dafny

PaywallTestS is an iOS app with three screens: onboarding, a subscription
paywall and a main screen. Which screen is shown depends on three values that
the app keeps in `UserDefaults`: an active-subscription flag, an
onboarding-completed flag and an optional tier (`monthly` or `yearly`). This
project models that state and everything that changes it:

- `models.dfy` (module `Models`): the `SubscriptionType` tier and its raw
  string value. It also holds the display lookups and the fixed tables of
  onboarding pages, paywall features and main-screen cards.
- `subscription_manager.dfy` (module `Subscription`): the key-value store and
  the manager.
  - The store `UserDefaultsStorage` is a class over a `map<string, StoreValue>`.
    A `StoreValue` is a Bool or a String.
  - `SubscriptionManager` is a class with the three fields.
  - Its commands write through to three fixed keys, and a new manager loads
    them again.
  - `Synced()` states that the fields equal what a load would read. Every
    command keeps it, and the constructor establishes it. That is the
    round trip through the store.
- `root_view.dfy` (module `RootView`): the screen selector. It is a priority
  chain: an active subscription gives Main, a completed onboarding gives
  Paywall, and anything else gives Onboarding.
- `paywall_view_model.dfy` (module `PaywallScreen`): the plan selection and
  the purchase guard.
  - The deferred purchase callback is an explicit step, `CompletePurchase`.
  - `pendingCompletions` counts the callbacks that are scheduled and have not
    yet run.
  - The class invariant says the guard `isPurchasing` is up exactly while one
    completion is pending.
- `onboarding_view_model.dfy` (module `OnboardingScreen`): the bounded page
  counter. Pure functions `NextPage`, `PageAfter` and `CompletionsAfter`
  describe what repeated taps of "continue" do. Lemmas prove that exactly
  `|Pages|` taps are needed before onboarding completes.
- `main_view_model.dfy` (module `MainScreen`): the reset-confirmation flag and
  the delegation to the manager's reset.

The model follows the code in these points, which a reader might expect to
be otherwise:

- Reset does not cancel a purchase completion that is already scheduled.
  `PaywallScreen.CompletionAfterResetReactivates` shows that the completion
  then reactivates the subscription. In the app, reset is only reachable from
  the main screen, and a purchase only from the paywall.
- The completion buys the plan that is selected when it runs, not the one
  selected when the purchase started. The plan cards stay enabled while a
  purchase is in flight. `PaywallScreen.PlanChosenAtCompletionIsBought` shows
  this.
- The purchase guard lives in the paywall view-model, not in the manager.
- Loading does not pair the tier with the active flag: each key is read on its
  own (`Subscription.LoadDoesNotPairTierWithActive`). Purchase and reset do
  leave "a tier is held exactly when the subscription is active" true
  (`TierMatchesActive`), and completing onboarding preserves it.

## Model

| member | source | states |
|---|---|---|
| `Models.RawValue` | PaywallTestS/Models.swift:3-5 | decoding a tier's raw value gives back the same tier |
| `Models.FromRawValue` | PaywallTestS/Models.swift:3-5 | exactly "monthly" and "yearly" decode, each to its own tier; any other string gives None |
| `Models.RawValueDetermines` | PaywallTestS/Models.swift:3-5 | a string that decodes to a tier is that tier's raw value |
| `Models.Title` | PaywallTestS/Models.swift:7-12 | every tier has a title, and each title ends with the word for subscription |
| `Models.Price` | PaywallTestS/Models.swift:14-19 | every tier has a price, and each price is in roubles |
| `Models.Period` | PaywallTestS/Models.swift:21-26 | every tier has a non-empty period |
| `Models.DisplayLookupsDistinguishTiers` | PaywallTestS/Models.swift:7-26 | title, price and period each differ between the two tiers |
| `Models.Discount` | PaywallTestS/Models.swift:28-33 | a discount is present exactly for the yearly tier |
| `Models.PricePerMonth` | PaywallTestS/Models.swift:35-40 | a per-month price is present exactly for the yearly tier, and it is quoted per month |
| `Models.PagesShape` | PaywallTestS/Models.swift:62-73 | there are exactly two onboarding pages |
| `Models.PremiumFeaturesShape` | PaywallTestS/Models.swift:77-82 | there are exactly four paywall features |
| `Models.MainContentShape` | PaywallTestS/Models.swift:86-91 | there are four main-screen cards, and card i has colour index i |
| `Subscription.KeysDistinct` | PaywallTestS/SubscriptionManager.swift:56-58 | the three store keys are pairwise distinct |
| `Subscription.BoolFor` | PaywallTestS/SubscriptionManager.swift:66-72 | a Bool read is true exactly when the key holds true; an absent key reads false |
| `Subscription.StringFor` | PaywallTestS/SubscriptionManager.swift:75 | a String read is present exactly when the key holds a String, and it gives that String |
| `Subscription.TierFor` | PaywallTestS/SubscriptionManager.swift:74-79 | the tier read never fails; it is None for an absent key or an unknown string, otherwise the tier whose raw value is stored |
| `Subscription.EmptyStoreReadsDefaults` | PaywallTestS/SubscriptionManager.swift:66-79 | an empty store reads both flags false and no tier |
| `Subscription.LoadDoesNotPairTierWithActive` | PaywallTestS/SubscriptionManager.swift:46-50 | a store with the active flag true and no tier key reads as active with no tier |
| `Subscription.UserDefaultsStorage.constructor` | PaywallTestS/SubscriptionManager.swift:62-64 | the storage wraps the given map unchanged |
| `Subscription.UserDefaultsStorage.HasActiveSubscription` | PaywallTestS/SubscriptionManager.swift:66-68 | true exactly when the subscription key holds true |
| `Subscription.UserDefaultsStorage.HasCompletedOnboarding` | PaywallTestS/SubscriptionManager.swift:70-72 | true exactly when the onboarding key holds true |
| `Subscription.UserDefaultsStorage.GetSubscriptionType` | PaywallTestS/SubscriptionManager.swift:74-79 | None when the key is absent; a stored string reads as its decoded tier, so a stored raw value gives back its tier and any other string gives None |
| `Subscription.UserDefaultsStorage.SetOnboardingCompleted` | PaywallTestS/SubscriptionManager.swift:81-83 | writes only the onboarding key; the other two reads are unchanged |
| `Subscription.UserDefaultsStorage.SetSubscription` | PaywallTestS/SubscriptionManager.swift:85-88 | writes exactly the active key and the tier key; the onboarding read is unchanged |
| `Subscription.UserDefaultsStorage.ClearAll` | PaywallTestS/SubscriptionManager.swift:90-94 | writes both flags false and removes the tier key; no other key changes |
| `Subscription.SubscriptionManager.constructor` | PaywallTestS/SubscriptionManager.swift:21-24 | a new manager holds exactly what the store reads, so it is in step with the store |
| `Subscription.SubscriptionManager.CompleteOnboarding` | PaywallTestS/SubscriptionManager.swift:26-29 | sets the onboarding flag, writes only its key, keeps the active flag and the tier; it keeps the store in step and keeps the tier/active pairing |
| `Subscription.SubscriptionManager.PurchaseSubscription` | PaywallTestS/SubscriptionManager.swift:31-35 | sets the active flag and the tier together and writes exactly those two keys; the onboarding flag is untouched |
| `Subscription.SubscriptionManager.ResetSubscription` | PaywallTestS/SubscriptionManager.swift:37-42 | returns all three fields to false, false and None, and clears the store to match |
| `Subscription.SubscriptionManager.LoadSubscriptionState` | PaywallTestS/SubscriptionManager.swift:46-50 | the three fields become the store's three reads; the store is not written |
| `Subscription.CommandsSurviveRestart` | PaywallTestS/SubscriptionManager.swift:21-42 | from an empty store, a restarted manager reads back each command's writes: onboarded after completing onboarding, the bought tier after a purchase, no tier and no onboarding after a reset; a second completeOnboarding leaves fields and store as the first did |
| `Subscription.Reopen` | PaywallTestS/SubscriptionManager.swift:21-24 | a manager constructed on the same store reads back the fields of a manager that is in step with it |
| `RootView.SelectScreen` | PaywallTestS/PaywallTestSApp.swift:18-26 | Main exactly when active; Paywall exactly when not active and onboarded; Onboarding exactly when neither |
| `RootView.CurrentScreen` | PaywallTestS/PaywallTestSApp.swift:18-26 | the screen for a manager: Main exactly when it is active, Paywall exactly when not active and onboarded, Onboarding otherwise |
| `RootView.SelectScreenOnto` | PaywallTestS/PaywallTestSApp.swift:18-26 | each of the three screens is selected by some pair of flags |
| `RootView.FreshStoreStartsOnOnboarding` | PaywallTestS/PaywallTestSApp.swift:23-24 | a manager constructed on an empty store shows Onboarding |
| `RootView.CompleteOnboardingShowsPaywall` | PaywallTestS/PaywallTestSApp.swift:21-22 | completing onboarding without a subscription shows Paywall |
| `RootView.PurchaseShowsMain` | PaywallTestS/PaywallTestSApp.swift:19-20 | after a purchase the screen is Main |
| `RootView.ResetShowsOnboarding` | PaywallTestS/PaywallTestSApp.swift:23-24 | after a reset the screen is Onboarding, and it still is after a restart |
| `PaywallScreen.PaywallViewModel.constructor` | PaywallTestS/ViewModels/PaywallViewModel.swift:5-17 | a new view-model selects yearly, is not purchasing and has nothing pending |
| `PaywallScreen.PaywallViewModel.Features` | PaywallTestS/ViewModels/PaywallViewModel.swift:11-13 | the paywall lists the four fixed features |
| `PaywallScreen.PaywallViewModel.SelectPlan` | PaywallTestS/ViewModels/PaywallViewModel.swift:19-21 | sets the selected plan and changes nothing else; the purchase guard invariant is unaffected |
| `PaywallScreen.PaywallViewModel.PurchaseSubscription` | PaywallTestS/ViewModels/PaywallViewModel.swift:23-28 | a no-op while purchasing; otherwise raises the guard and schedules exactly one completion; the manager is not touched |
| `PaywallScreen.PaywallViewModel.CompletePurchase` | PaywallTestS/ViewModels/PaywallViewModel.swift:28-32 | buys the plan selected at completion time, then lowers the guard; nothing stays pending |
| `PaywallScreen.PlanChosenAtCompletionIsBought` | PaywallTestS/ViewModels/PaywallViewModel.swift:19-32 | a second tap while purchasing is ignored, and a plan change during the wait decides the tier bought |
| `PaywallScreen.CompletionAfterResetReactivates` | PaywallTestS/ViewModels/PaywallViewModel.swift:28-32 | a reset between scheduling and completion does not stop the completion from reactivating the subscription |
| `OnboardingScreen.NextPage` | PaywallTestS/ViewModels/OnboardingViewModel.swift:22-33 | "continue" moves one page on, except on the last page, where it stays; the result is always a page index |
| `OnboardingScreen.PageAfter` | PaywallTestS/ViewModels/OnboardingViewModel.swift:22-33 | any number of taps leaves the counter on a page index |
| `OnboardingScreen.CompletionsAfter` | PaywallTestS/ViewModels/OnboardingViewModel.swift:22-37 | counts the taps that call the manager's completeOnboarding; never more than the taps made |
| `OnboardingScreen.PageAfterPresses` | PaywallTestS/ViewModels/OnboardingViewModel.swift:22-33 | after k taps the counter is on page min(k, last page) |
| `OnboardingScreen.CompletionsAfterPresses` | PaywallTestS/ViewModels/OnboardingViewModel.swift:22-41 | no tap before tap number `|Pages|` completes onboarding, and every tap from then on does |
| `OnboardingScreen.OnboardingNeedsEveryPage` | PaywallTestS/ViewModels/OnboardingViewModel.swift:22-41 | onboarding is first completed by exactly tap number `|Pages|` |
| `OnboardingScreen.OnboardingViewModel.constructor` | PaywallTestS/ViewModels/OnboardingViewModel.swift:5-20 | the counter starts at page 0, which is in bounds |
| `OnboardingScreen.OnboardingViewModel.TotalPages` | PaywallTestS/ViewModels/OnboardingViewModel.swift:10-12 | the page count is the table's length, two |
| `OnboardingScreen.OnboardingViewModel.CurrentPageData` | PaywallTestS/ViewModels/OnboardingViewModel.swift:14-16 | the page shown is always a page of the table; the index is in bounds |
| `OnboardingScreen.OnboardingViewModel.IsLastPage` | PaywallTestS/ViewModels/OnboardingViewModel.swift:39-41 | the last page is the one with no page after it |
| `OnboardingScreen.OnboardingViewModel.ContinueAction` | PaywallTestS/ViewModels/OnboardingViewModel.swift:22-28 | keeps the counter in bounds; on the last page it completes onboarding and keeps the page; otherwise it moves one page on and leaves the manager and store unchanged; the manager stays in step with the store |
| `OnboardingScreen.OnboardingViewModel.GoToNextPage` | PaywallTestS/ViewModels/OnboardingViewModel.swift:30-33 | moves one page on, and is a no-op on or past the last page; the counter stays in bounds |
| `OnboardingScreen.OnboardingViewModel.CompleteOnboarding` | PaywallTestS/ViewModels/OnboardingViewModel.swift:35-37 | completes onboarding on the manager and writes only the onboarding key; the manager stays in step with the store |
| `MainScreen.MainViewModel.constructor` | PaywallTestS/ViewModels/MainViewModel.swift:5-19 | the reset alert starts hidden |
| `MainScreen.MainViewModel.SubscriptionTypeText` | PaywallTestS/ViewModels/MainViewModel.swift:9-11 | absent exactly when the manager holds no tier; otherwise that tier's title |
| `MainScreen.MainViewModel.ContentItems` | PaywallTestS/ViewModels/MainViewModel.swift:13-15 | always the four fixed cards, card i with colour index i |
| `MainScreen.MainViewModel.ShowResetAlert` | PaywallTestS/ViewModels/MainViewModel.swift:21-23 | the alert flag becomes true, whatever it was; nothing else changes |
| `MainScreen.MainViewModel.HideResetAlert` | PaywallTestS/ViewModels/MainViewModel.swift:25-27 | the alert flag becomes false, whatever it was; nothing else changes |
| `MainScreen.MainViewModel.ResetSubscription` | PaywallTestS/ViewModels/MainViewModel.swift:29-31 | performs the manager's reset and leaves the alert flag unchanged |
| `MainScreen.ConfirmResetClearsTierText` | PaywallTestS/ViewModels/MainViewModel.swift:21-31 | after the confirmation flow and a reset, the tier text is absent |

## Left out

- SwiftUI views, styling constants and animations. They are layout, not state. `ContentCardView.getColor` is also left out, because it only maps an index to a colour.
- The 1.5-second timer and `DispatchQueue` scheduling. The deferred completion is an explicit step, `CompletePurchase`, that the caller runs while a completion is pending.
- The `[weak self]` path, where the view-model is freed before the callback runs and the completion is dropped. Its visible effect is that the purchase never reaches the manager. The model covers this, since no caller is obliged to run `CompletePurchase`. What it does not model is the freed view-model itself.
- Combine's `@Published` change notification and `ObservableObject`. Only the state is modelled, not how observers are told about it.
- Subscription.BoolFor: does not model `UserDefaults` type coercion. A String value (such as "YES") reads as false here, while `UserDefaults` would convert it.
- Subscription.StringFor: does not model the conversion of numbers to strings that `UserDefaults.string(forKey:)` performs. A Bool value reads as absent here.
- Synchronisation of `UserDefaults` with disk and with other processes. The store is an in-memory map.
- The process-wide `UserDefaultsStorage.shared` instance and the default arguments of the initialisers. The store is always passed in explicitly.
- Cancelling a pending purchase on reset. The code does not do this, so it is not modelled.
- The display strings. They are kept as constants, and only their presence, absence and distinctness is stated.
