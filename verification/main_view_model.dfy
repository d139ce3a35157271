/** The main screen's view-model: a reset-confirmation flag and a reset that goes to the manager. */
module MainScreen {
  import opened Wrappers
  import opened Models
  import opened Subscription

  class MainViewModel {
    var showingResetAlert: bool
    const subscriptionManager: SubscriptionManager

    constructor (subscriptionManager: SubscriptionManager)
      ensures this.subscriptionManager == subscriptionManager
      ensures !showingResetAlert
    {
      showingResetAlert := false;
      this.subscriptionManager := subscriptionManager;
    }

    /** The title of the held tier; absent exactly when no tier is held. */
    function SubscriptionTypeText(): (text: Option<string>)
      reads this, subscriptionManager
      ensures text.None? <==> subscriptionManager.subscriptionType.None?
      ensures text.Some? ==> |text.value| > 0
      ensures text.Some? ==> text.value == Title(subscriptionManager.subscriptionType.value)
    {
      match subscriptionManager.subscriptionType
      case None => None
      case Some(t) => Some(Title(t))
    }

    /** The cards of the main screen: always the same four, coloured by position. */
    function ContentItems(): (items: seq<ContentItem>)
      ensures |items| == 4
      ensures forall i :: 0 <= i < |items| ==> items[i].colorIndex == i
    {
      MainContent
    }

    method ShowResetAlert()
      modifies this`showingResetAlert
      ensures showingResetAlert
    {
      showingResetAlert := true;
    }

    method HideResetAlert()
      modifies this`showingResetAlert
      ensures !showingResetAlert
    {
      showingResetAlert := false;
    }

    /** Delegates to the manager's reset; the alert flag is left alone. */
    method ResetSubscription()
      modifies subscriptionManager, subscriptionManager.storage
      ensures !subscriptionManager.hasActiveSubscription && !subscriptionManager.hasCompletedOnboarding
      ensures subscriptionManager.subscriptionType == None
      ensures subscriptionManager.storage.defaults ==
              old(subscriptionManager.storage.defaults)[HasSubscriptionKey := BoolValue(false)]
                                                       [HasOnboardingKey := BoolValue(false)]
              - {SubscriptionTypeKey}
      ensures subscriptionManager.Synced()
    {
      subscriptionManager.ResetSubscription();
    }
  }

  /** The confirmation flow of the main screen: show the alert, confirm, and the tier text is gone. */
  method ConfirmResetClearsTierText(m: SubscriptionManager) returns (text: Option<string>)
    modifies m, m.storage
    ensures text == None
  {
    var vm := new MainViewModel(m);
    vm.ShowResetAlert();
    vm.ShowResetAlert();
    assert vm.showingResetAlert;
    vm.HideResetAlert();
    vm.ResetSubscription();
    assert !vm.showingResetAlert;
    text := vm.SubscriptionTypeText();
  }
}
