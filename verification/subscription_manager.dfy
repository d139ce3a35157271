/**
 * The persisted subscription state: a key-value store with three fixed keys,
 * and the manager that keeps three in-memory fields and writes every change
 * through to the store.
 */
module Subscription {
  import opened Wrappers
  import opened Models

  /** What a key of the store can hold: the store is written with Bools and Strings only. */
  datatype StoreValue = BoolValue(b: bool) | StringValue(s: string)

  type Defaults = map<string, StoreValue>

  const HasSubscriptionKey: string := "hasActiveSubscription"
  const HasOnboardingKey: string := "hasCompletedOnboarding"
  const SubscriptionTypeKey: string := "subscriptionType"

  /** The three keys are distinct, so a write to one never disturbs another. */
  lemma KeysDistinct()
    ensures HasSubscriptionKey != HasOnboardingKey
    ensures HasSubscriptionKey != SubscriptionTypeKey
    ensures HasOnboardingKey != SubscriptionTypeKey
  {
  }

  /** Reading a Bool: an absent key (or one holding a String) reads as false. */
  function BoolFor(d: Defaults, key: string): (r: bool)
    ensures r <==> key in d && d[key] == BoolValue(true)
    ensures key !in d ==> !r
  {
    if key in d && d[key].BoolValue? then d[key].b else false
  }

  /** Reading a String: present exactly when the key holds a String. */
  function StringFor(d: Defaults, key: string): (r: Option<string>)
    ensures r.Some? <==> key in d && d[key].StringValue?
    ensures r.Some? ==> d[key] == StringValue(r.value)
  {
    if key in d && d[key].StringValue? then Some(d[key].s) else None
  }

  /**
   * Reading the tier never fails: it is None when the key is absent or when
   * the stored string is not a raw value, and otherwise the tier whose raw
   * value is stored.
   */
  function TierFor(d: Defaults): (r: Option<SubscriptionType>)
    ensures SubscriptionTypeKey !in d ==> r.None?
    ensures r.Some? <==> SubscriptionTypeKey in d && d[SubscriptionTypeKey].StringValue?
                         && FromRawValue(d[SubscriptionTypeKey].s).Some?
    ensures r.Some? ==> d[SubscriptionTypeKey] == StringValue(RawValue(r.value))
  {
    match StringFor(d, SubscriptionTypeKey)
    case None => None
    case Some(raw) =>
      var t := FromRawValue(raw);
      if t.Some? then RawValueDetermines(raw, t.value); t else t
  }

  /** The store as the app sees it: typed reads and writes over the three keys. */
  class UserDefaultsStorage {
    var defaults: Defaults

    constructor (initial: Defaults)
      ensures defaults == initial
    {
      defaults := initial;
    }

    function HasActiveSubscription(): (r: bool)
      reads this
      ensures r <==> HasSubscriptionKey in defaults && defaults[HasSubscriptionKey] == BoolValue(true)
    {
      BoolFor(defaults, HasSubscriptionKey)
    }

    function HasCompletedOnboarding(): (r: bool)
      reads this
      ensures r <==> HasOnboardingKey in defaults && defaults[HasOnboardingKey] == BoolValue(true)
    {
      BoolFor(defaults, HasOnboardingKey)
    }

    function GetSubscriptionType(): (r: Option<SubscriptionType>)
      reads this
      ensures SubscriptionTypeKey !in defaults ==> r.None?
      ensures SubscriptionTypeKey in defaults && defaults[SubscriptionTypeKey].StringValue? ==>
                r == FromRawValue(defaults[SubscriptionTypeKey].s)
      ensures r.Some? ==> defaults[SubscriptionTypeKey] == StringValue(RawValue(r.value))
    {
      TierFor(defaults)
    }

    /** Writes only the onboarding key. */
    method SetOnboardingCompleted(completed: bool)
      modifies this
      ensures defaults == old(defaults)[HasOnboardingKey := BoolValue(completed)]
      ensures HasCompletedOnboarding() == completed
      ensures HasActiveSubscription() == old(HasActiveSubscription())
      ensures GetSubscriptionType() == old(GetSubscriptionType())
    {
      defaults := defaults[HasOnboardingKey := BoolValue(completed)];
    }

    /** Writes exactly the two subscription keys. */
    method SetSubscription(active: bool, t: SubscriptionType)
      modifies this
      ensures defaults == old(defaults)[HasSubscriptionKey := BoolValue(active)]
                                       [SubscriptionTypeKey := StringValue(RawValue(t))]
      ensures HasActiveSubscription() == active
      ensures GetSubscriptionType() == Some(t)
      ensures HasCompletedOnboarding() == old(HasCompletedOnboarding())
    {
      defaults := defaults[HasSubscriptionKey := BoolValue(active)];
      defaults := defaults[SubscriptionTypeKey := StringValue(RawValue(t))];
    }

    /** Both flags written false and the tier key removed; other keys are kept. */
    method ClearAll()
      modifies this
      ensures defaults == old(defaults)[HasSubscriptionKey := BoolValue(false)]
                                       [HasOnboardingKey := BoolValue(false)]
                         - {SubscriptionTypeKey}
      ensures !HasActiveSubscription() && !HasCompletedOnboarding()
      ensures GetSubscriptionType() == None
    {
      defaults := defaults[HasSubscriptionKey := BoolValue(false)];
      defaults := defaults[HasOnboardingKey := BoolValue(false)];
      defaults := defaults - {SubscriptionTypeKey};
    }
  }

  /** On a fresh, empty store both flags read false and there is no tier. */
  lemma EmptyStoreReadsDefaults()
    ensures !BoolFor(map[], HasSubscriptionKey) && !BoolFor(map[], HasOnboardingKey)
    ensures TierFor(map[]) == None
  {
  }

  /**
   * Loading reads the keys independently: a store that says "active" with no
   * tier key loads as active with no tier.
   */
  lemma LoadDoesNotPairTierWithActive()
    ensures var d := map[HasSubscriptionKey := BoolValue(true)];
            BoolFor(d, HasSubscriptionKey) && TierFor(d) == None
  {
  }

  /** The state manager: the single source of truth for which screen to show. */
  class SubscriptionManager {
    var hasActiveSubscription: bool
    var hasCompletedOnboarding: bool
    var subscriptionType: Option<SubscriptionType>
    const storage: UserDefaultsStorage

    /** The in-memory fields are what a load from the store would give. */
    ghost predicate Synced()
      reads this, storage
    {
      hasActiveSubscription == storage.HasActiveSubscription() &&
      hasCompletedOnboarding == storage.HasCompletedOnboarding() &&
      subscriptionType == storage.GetSubscriptionType()
    }

    /** A tier is held exactly when the subscription is active. */
    predicate TierMatchesActive()
      reads this
    {
      subscriptionType.Some? <==> hasActiveSubscription
    }

    constructor (storage: UserDefaultsStorage)
      ensures this.storage == storage
      ensures hasActiveSubscription == storage.HasActiveSubscription()
      ensures hasCompletedOnboarding == storage.HasCompletedOnboarding()
      ensures subscriptionType == storage.GetSubscriptionType()
      ensures Synced()
    {
      hasActiveSubscription := false;
      hasCompletedOnboarding := false;
      subscriptionType := None;
      this.storage := storage;
      new;
      LoadSubscriptionState();
    }

    method CompleteOnboarding()
      modifies this, storage
      ensures hasCompletedOnboarding
      ensures hasActiveSubscription == old(hasActiveSubscription)
      ensures subscriptionType == old(subscriptionType)
      ensures storage.defaults == old(storage.defaults)[HasOnboardingKey := BoolValue(true)]
      ensures old(Synced()) ==> Synced()
      ensures old(TierMatchesActive()) ==> TierMatchesActive()
    {
      hasCompletedOnboarding := true;
      storage.SetOnboardingCompleted(true);
    }

    method PurchaseSubscription(t: SubscriptionType)
      modifies this, storage
      ensures hasActiveSubscription && subscriptionType == Some(t)
      ensures hasCompletedOnboarding == old(hasCompletedOnboarding)
      ensures storage.defaults == old(storage.defaults)[HasSubscriptionKey := BoolValue(true)]
                                                       [SubscriptionTypeKey := StringValue(RawValue(t))]
      ensures TierMatchesActive()
      ensures old(Synced()) ==> Synced()
    {
      hasActiveSubscription := true;
      subscriptionType := Some(t);
      storage.SetSubscription(true, t);
    }

    method ResetSubscription()
      modifies this, storage
      ensures !hasActiveSubscription && !hasCompletedOnboarding && subscriptionType == None
      ensures storage.defaults == old(storage.defaults)[HasSubscriptionKey := BoolValue(false)]
                                                       [HasOnboardingKey := BoolValue(false)]
                                  - {SubscriptionTypeKey}
      ensures TierMatchesActive()
      ensures Synced()
    {
      hasActiveSubscription := false;
      hasCompletedOnboarding := false;
      subscriptionType := None;
      storage.ClearAll();
    }

    /** Re-reads the three fields from the store; the store is not written. */
    method LoadSubscriptionState()
      modifies this
      ensures hasActiveSubscription == storage.HasActiveSubscription()
      ensures hasCompletedOnboarding == storage.HasCompletedOnboarding()
      ensures subscriptionType == storage.GetSubscriptionType()
      ensures Synced()
    {
      hasActiveSubscription := storage.HasActiveSubscription();
      hasCompletedOnboarding := storage.HasCompletedOnboarding();
      subscriptionType := storage.GetSubscriptionType();
    }
  }

  /**
   * Round trip: a manager constructed afresh on the store of a manager whose
   * fields are in step with it reads back exactly those fields.
   */
  method Reopen(m: SubscriptionManager) returns (reopened: SubscriptionManager)
    requires m.Synced()
    ensures fresh(reopened) && reopened.storage == m.storage
    ensures reopened.hasActiveSubscription == m.hasActiveSubscription
    ensures reopened.hasCompletedOnboarding == m.hasCompletedOnboarding
    ensures reopened.subscriptionType == m.subscriptionType
  {
    reopened := new SubscriptionManager(m.storage);
  }

  /**
   * Each command's writes are read back by a manager constructed afterwards,
   * starting from an empty store; completing onboarding a second time changes
   * neither the fields nor the store.
   */
  method CommandsSurviveRestart(t: SubscriptionType)
    returns (onboardedAfterRestart: bool, tierAfterPurchase: Option<SubscriptionType>,
             tierAfterReset: Option<SubscriptionType>, onboardedAfterReset: bool)
    ensures onboardedAfterRestart
    ensures tierAfterPurchase == Some(t)
    ensures tierAfterReset == None && !onboardedAfterReset
  {
    var store := new UserDefaultsStorage(map[]);
    var m := new SubscriptionManager(store);
    assert !m.hasActiveSubscription && !m.hasCompletedOnboarding && m.subscriptionType == None;

    m.CompleteOnboarding();
    var again := Reopen(m);
    assert again.hasCompletedOnboarding && !again.hasActiveSubscription;
    onboardedAfterRestart := again.hasCompletedOnboarding;

    ghost var active, onboarded, tier, defaults :=
      m.hasActiveSubscription, m.hasCompletedOnboarding, m.subscriptionType, store.defaults;
    m.CompleteOnboarding();
    assert m.hasActiveSubscription == active && m.hasCompletedOnboarding == onboarded;
    assert m.subscriptionType == tier && store.defaults == defaults;
    assert m.Synced();

    m.PurchaseSubscription(t);
    again := Reopen(m);
    assert again.hasActiveSubscription && again.hasCompletedOnboarding;
    tierAfterPurchase := again.subscriptionType;

    m.ResetSubscription();
    again := Reopen(m);
    assert !again.hasActiveSubscription;
    tierAfterReset, onboardedAfterReset := again.subscriptionType, again.hasCompletedOnboarding;
  }
}
