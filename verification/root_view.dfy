/** The rule by which the root view picks one of the three screens. */
module RootView {
  import opened Models
  import opened Subscription

  datatype Screen = Onboarding | Paywall | Main

  /**
   * A strict priority chain over the two flags: an active subscription wins,
   * then a finished onboarding; the tier is never consulted.
   */
  function SelectScreen(hasActiveSubscription: bool, hasCompletedOnboarding: bool): (s: Screen)
    ensures s == Main <==> hasActiveSubscription
    ensures s == Paywall <==> !hasActiveSubscription && hasCompletedOnboarding
    ensures s == Onboarding <==> !hasActiveSubscription && !hasCompletedOnboarding
  {
    if hasActiveSubscription then Main
    else if hasCompletedOnboarding then Paywall
    else Onboarding
  }

  /** The screen the root view shows for a manager's current state. */
  function CurrentScreen(m: SubscriptionManager): (s: Screen)
    reads m
    ensures s == Main <==> m.hasActiveSubscription
    ensures s == Paywall <==> !m.hasActiveSubscription && m.hasCompletedOnboarding
    ensures s == Onboarding <==> !m.hasActiveSubscription && !m.hasCompletedOnboarding
  {
    SelectScreen(m.hasActiveSubscription, m.hasCompletedOnboarding)
  }

  /** Every screen is reached by some flag combination, and each combination gives one. */
  lemma SelectScreenOnto(s: Screen)
    ensures exists active: bool, onboarded: bool :: SelectScreen(active, onboarded) == s
  {
    match s
    case Main => assert SelectScreen(true, false) == Main;
    case Paywall => assert SelectScreen(false, true) == Paywall;
    case Onboarding => assert SelectScreen(false, false) == Onboarding;
  }

  /** A fresh, empty store starts the app on the onboarding screen. */
  method FreshStoreStartsOnOnboarding() returns (s: Screen)
    ensures s == Onboarding
  {
    var store := new UserDefaultsStorage(map[]);
    var m := new SubscriptionManager(store);
    s := CurrentScreen(m);
  }

  /** Finishing onboarding without a subscription leads to the paywall. */
  method CompleteOnboardingShowsPaywall(m: SubscriptionManager)
    requires !m.hasActiveSubscription
    modifies m, m.storage
    ensures CurrentScreen(m) == Paywall
  {
    m.CompleteOnboarding();
  }

  /** A purchase always leads to the main screen. */
  method PurchaseShowsMain(m: SubscriptionManager, t: SubscriptionType)
    modifies m, m.storage
    ensures CurrentScreen(m) == Main
  {
    m.PurchaseSubscription(t);
  }

  /** A reset always leads back to onboarding, also after a restart. */
  method ResetShowsOnboarding(m: SubscriptionManager) returns (afterRestart: Screen)
    modifies m, m.storage
    ensures CurrentScreen(m) == Onboarding
    ensures afterRestart == Onboarding
  {
    m.ResetSubscription();
    var reopened := Reopen(m);
    afterRestart := CurrentScreen(reopened);
  }
}
