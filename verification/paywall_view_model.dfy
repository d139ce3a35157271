/**
 * The paywall's view-model: the selected plan and a re-entrancy guard around a
 * purchase that completes on a deferred callback.  The callback is modelled as
 * an explicit step, CompletePurchase, that may run only while a completion is
 * scheduled; pendingCompletions counts the callbacks scheduled and not yet run.
 */
module PaywallScreen {
  import opened Wrappers
  import opened Models
  import opened Subscription

  class PaywallViewModel {
    var selectedPlan: SubscriptionType
    var isPurchasing: bool
    var pendingCompletions: nat
    const subscriptionManager: SubscriptionManager

    /** The guard is up exactly while one completion is scheduled; never more than one is. */
    ghost predicate Valid()
      reads this
    {
      pendingCompletions == if isPurchasing then 1 else 0
    }

    constructor (subscriptionManager: SubscriptionManager)
      ensures this.subscriptionManager == subscriptionManager
      ensures selectedPlan == Yearly && !isPurchasing && pendingCompletions == 0
      ensures Valid()
    {
      selectedPlan := Yearly;
      isPurchasing := false;
      pendingCompletions := 0;
      this.subscriptionManager := subscriptionManager;
    }

    /** The benefits shown on the paywall: the fixed table of four. */
    function Features(): (fs: seq<Feature>)
      ensures |fs| == 4
      ensures forall i :: 0 <= i < |fs| ==> fs[i].icon == "checkmark.circle.fill"
    {
      PremiumFeatures
    }

    /** Only the selection changes; a purchase in flight is left as it is. */
    method SelectPlan(plan: SubscriptionType)
      modifies this`selectedPlan
      ensures selectedPlan == plan
      ensures Valid() == old(Valid())
    {
      selectedPlan := plan;
    }

    /**
     * Starts a purchase: a no-op while one is in flight, otherwise raises the
     * guard and schedules exactly one completion.  The manager is not touched.
     */
    method PurchaseSubscription()
      requires Valid()
      modifies this`isPurchasing, this`pendingCompletions
      ensures Valid() && isPurchasing
      ensures old(isPurchasing) ==> pendingCompletions == old(pendingCompletions)
      ensures !old(isPurchasing) ==> pendingCompletions == old(pendingCompletions) + 1
    {
      if isPurchasing {
        return;
      }
      isPurchasing := true;
      pendingCompletions := pendingCompletions + 1;
    }

    /**
     * The deferred completion: purchases the plan selected at completion time,
     * then lowers the guard.
     */
    method CompletePurchase()
      requires Valid() && pendingCompletions > 0
      modifies this`isPurchasing, this`pendingCompletions, subscriptionManager, subscriptionManager.storage
      ensures Valid() && !isPurchasing && pendingCompletions == 0
      ensures subscriptionManager.hasActiveSubscription
      ensures subscriptionManager.subscriptionType == Some(selectedPlan)
      ensures subscriptionManager.hasCompletedOnboarding == old(subscriptionManager.hasCompletedOnboarding)
      ensures subscriptionManager.storage.defaults ==
              old(subscriptionManager.storage.defaults)[HasSubscriptionKey := BoolValue(true)]
                                                       [SubscriptionTypeKey := StringValue(RawValue(selectedPlan))]
      ensures old(subscriptionManager.Synced()) ==> subscriptionManager.Synced()
    {
      pendingCompletions := pendingCompletions - 1;
      subscriptionManager.PurchaseSubscription(selectedPlan);
      isPurchasing := false;
    }
  }

  /**
   * A second tap while a purchase is in flight is ignored, but the plan cards
   * stay live: the completion buys the plan selected when it runs, not the one
   * selected when the purchase started.
   */
  method PlanChosenAtCompletionIsBought(m: SubscriptionManager)
    modifies m, m.storage
    ensures m.hasActiveSubscription && m.subscriptionType == Some(Monthly)
  {
    var vm := new PaywallViewModel(m);
    vm.PurchaseSubscription();
    assert vm.selectedPlan == Yearly;
    vm.SelectPlan(Monthly);
    vm.PurchaseSubscription();
    assert vm.pendingCompletions == 1;
    vm.CompletePurchase();
  }

  /** A reset on the manager does not cancel a scheduled completion. */
  method CompletionAfterResetReactivates(m: SubscriptionManager)
    modifies m, m.storage
    ensures m.hasActiveSubscription && m.subscriptionType == Some(Yearly)
  {
    var vm := new PaywallViewModel(m);
    vm.PurchaseSubscription();
    m.ResetSubscription();
    vm.CompletePurchase();
  }
}
