/**
 * The onboarding pager: a bounded page counter whose "continue" either moves
 * to the next page or, on the last page, completes onboarding.
 */
module OnboardingScreen {
  import opened Models
  import opened Subscription

  /** The index of the last onboarding page. */
  const LastPage: nat := |Pages| - 1

  /** The page "continue" leaves the counter on: the next one, or the same on the last page. */
  function NextPage(page: nat): (next: nat)
    requires page < |Pages|
    ensures next < |Pages|
    ensures page < LastPage ==> next == page + 1
    ensures page == LastPage ==> next == page
  {
    if page == LastPage then page else page + 1
  }

  /** The page shown after `presses` taps of "continue" on a fresh pager. */
  function PageAfter(presses: nat): (page: nat)
    ensures page < |Pages|
  {
    if presses == 0 then 0 else NextPage(PageAfter(presses - 1))
  }

  /** How many of the first `presses` taps called the manager's completeOnboarding. */
  function CompletionsAfter(presses: nat): (n: nat)
    ensures n <= presses
  {
    if presses == 0 then 0
    else CompletionsAfter(presses - 1) + (if PageAfter(presses - 1) == LastPage then 1 else 0)
  }

  /** The counter climbs one page per tap and then stays on the last page. */
  lemma {:induction false} PageAfterPresses(presses: nat)
    ensures PageAfter(presses) == if presses < LastPage then presses else LastPage
  {
    if presses > 0 {
      PageAfterPresses(presses - 1);
    }
  }

  /**
   * Every tap from the one that lands past the last page on completes
   * onboarding, and none before it: exactly |Pages| taps are needed.
   */
  lemma {:induction false} CompletionsAfterPresses(presses: nat)
    ensures CompletionsAfter(presses) == if presses < |Pages| then 0 else presses - LastPage
  {
    if presses > 0 {
      CompletionsAfterPresses(presses - 1);
      PageAfterPresses(presses - 1);
    }
  }

  /** Onboarding is first completed by tap number |Pages|. */
  lemma OnboardingNeedsEveryPage()
    ensures CompletionsAfter(|Pages| - 1) == 0
    ensures CompletionsAfter(|Pages|) == 1
  {
    CompletionsAfterPresses(|Pages| - 1);
    CompletionsAfterPresses(|Pages|);
  }

  class OnboardingViewModel {
    var currentPage: int
    const subscriptionManager: SubscriptionManager
    const pages: seq<OnboardingPage> := Pages

    /** The counter always indexes a page. */
    ghost predicate Valid()
      reads this
    {
      0 <= currentPage < |pages|
    }

    constructor (subscriptionManager: SubscriptionManager)
      ensures this.subscriptionManager == subscriptionManager
      ensures currentPage == 0 && Valid()
    {
      currentPage := 0;
      this.subscriptionManager := subscriptionManager;
    }

    function TotalPages(): (n: int)
      ensures n == |Pages| && n == 2
    {
      |pages|
    }

    /** The page on screen; in bounds whenever the counter is valid. */
    function CurrentPageData(): (page: OnboardingPage)
      requires Valid()
      reads this
      ensures page in Pages
    {
      pages[currentPage]
    }

    /** The last page is the one that has no page after it. */
    function IsLastPage(): (b: bool)
      requires Valid()
      reads this
      ensures b <==> currentPage + 1 >= TotalPages()
    {
      currentPage == |pages| - 1
    }

    /** Continue: complete onboarding on the last page, otherwise move one page on. */
    method ContinueAction()
      requires Valid()
      modifies this`currentPage, subscriptionManager, subscriptionManager.storage
      ensures Valid()
      ensures currentPage == NextPage(old(currentPage))
      ensures old(IsLastPage()) ==>
        subscriptionManager.hasCompletedOnboarding &&
        subscriptionManager.hasActiveSubscription == old(subscriptionManager.hasActiveSubscription) &&
        subscriptionManager.subscriptionType == old(subscriptionManager.subscriptionType) &&
        subscriptionManager.storage.defaults ==
          old(subscriptionManager.storage.defaults)[HasOnboardingKey := BoolValue(true)]
      ensures !old(IsLastPage()) ==>
        unchanged(subscriptionManager) && unchanged(subscriptionManager.storage)
      ensures old(subscriptionManager.Synced()) ==> subscriptionManager.Synced()
    {
      if IsLastPage() {
        CompleteOnboarding();
      } else {
        GoToNextPage();
      }
    }

    /** Moves one page on; a no-op on the last page. */
    method GoToNextPage()
      modifies this`currentPage
      ensures old(Valid()) ==> Valid()
      ensures old(currentPage) < |pages| - 1 ==> currentPage == old(currentPage) + 1
      ensures old(currentPage) >= |pages| - 1 ==> currentPage == old(currentPage)
    {
      if !(currentPage < |pages| - 1) {
        return;
      }
      currentPage := currentPage + 1;
    }

    method CompleteOnboarding()
      modifies subscriptionManager, subscriptionManager.storage
      ensures subscriptionManager.hasCompletedOnboarding
      ensures subscriptionManager.hasActiveSubscription == old(subscriptionManager.hasActiveSubscription)
      ensures subscriptionManager.subscriptionType == old(subscriptionManager.subscriptionType)
      ensures subscriptionManager.storage.defaults ==
              old(subscriptionManager.storage.defaults)[HasOnboardingKey := BoolValue(true)]
      ensures old(subscriptionManager.Synced()) ==> subscriptionManager.Synced()
    {
      subscriptionManager.CompleteOnboarding();
    }
  }
}
