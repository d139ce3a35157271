/**
 * Supporting data of the app: the subscription tier with its raw string value
 * and display lookups, and the fixed tables that size the onboarding pager and
 * the main screen.  Display strings are kept as they are; only their presence
 * or absence matters to the rest of the model.
 */
module Models {
  import opened Wrappers

  /** A purchasable subscription level; its raw value is what the store keeps. */
  datatype SubscriptionType = Monthly | Yearly

  /** The raw value of a tier, and its inverse: every tier survives the trip. */
  function RawValue(t: SubscriptionType): (raw: string)
    ensures FromRawValue(raw) == Some(t)
  {
    match t
    case Monthly => "monthly"
    case Yearly => "yearly"
  }

  /**
   * Decoding a raw value (the failable initializer of a raw-value enum):
   * exactly the two raw values decode, and each decodes to the tier whose raw
   * value it is; every other string gives None.
   */
  function FromRawValue(raw: string): (r: Option<SubscriptionType>)
    ensures r.Some? <==> raw == "monthly" || raw == "yearly"
    ensures r == Some(Monthly) <==> raw == "monthly"
    ensures r == Some(Yearly) <==> raw == "yearly"
  {
    if raw == "monthly" then Some(Monthly)
    else if raw == "yearly" then Some(Yearly)
    else None
  }

  /** Decoding is injective on what it accepts: one tier per raw value. */
  lemma RawValueDetermines(raw: string, t: SubscriptionType)
    requires FromRawValue(raw) == Some(t)
    ensures raw == RawValue(t)
  {
  }

  /** Every title names the plan as a subscription ("подписка"). */
  function Title(t: SubscriptionType): (s: string)
    ensures |s| > |"подписка"| && s[|s| - |"подписка"|..] == "подписка"
  {
    match t
    case Monthly => "Месячная подписка"
    case Yearly => "Годовая подписка"
  }

  /** Every price is given in roubles. */
  function Price(t: SubscriptionType): (s: string)
    ensures |s| > 0 && s[|s| - 1] == '₽'
  {
    match t
    case Monthly => "990 ₽"
    case Yearly => "4 990 ₽"
  }

  function Period(t: SubscriptionType): (s: string)
    ensures |s| > 0
  {
    match t
    case Monthly => "месяц"
    case Yearly => "год"
  }

  /** Only the yearly plan advertises a discount. */
  function Discount(t: SubscriptionType): (s: Option<string>)
    ensures s.Some? <==> t == Yearly
    ensures s.Some? ==> |s.value| > 0
  {
    match t
    case Monthly => None
    case Yearly => Some("Скидка 50%")
  }

  /** Only the yearly plan advertises a per-month price. */
  function PricePerMonth(t: SubscriptionType): (s: Option<string>)
    ensures s.Some? <==> t == Yearly
    ensures s.Some? ==> |s.value| > |Period(Monthly)|
                        && s.value[|s.value| - |Period(Monthly)|..] == Period(Monthly)
  {
    match t
    case Monthly => None
    case Yearly => Some("~416 ₽/месяц")
  }

  /** Each display lookup tells the two tiers apart. */
  lemma DisplayLookupsDistinguishTiers()
    ensures Title(Monthly) != Title(Yearly)
    ensures Price(Monthly) != Price(Yearly)
    ensures Period(Monthly) != Period(Yearly)
  {
  }

  datatype OnboardingPage = OnboardingPage(icon: string, title: string, description: string)

  datatype Feature = Feature(icon: string, text: string)

  datatype ContentItem = ContentItem(icon: string, title: string, description: string, colorIndex: int)

  /** The onboarding pages, in the order they are shown. */
  const Pages: seq<OnboardingPage> := [
    OnboardingPage(
      "star.circle.fill",
      "Добро пожаловать",
      "Откройте для себя все возможности приложения с премиум подпиской от MSTech"),
    OnboardingPage(
      "crown.fill",
      "Премиум опыт",
      "Получите доступ ко всем функциям и эксклюзивному контенту без ограничений")
  ]

  /** The benefits listed on the paywall. */
  const PremiumFeatures: seq<Feature> := [
    Feature("checkmark.circle.fill", "Полный доступ к контенту"),
    Feature("checkmark.circle.fill", "Без рекламы"),
    Feature("checkmark.circle.fill", "Эксклюзивные материалы"),
    Feature("checkmark.circle.fill", "Приоритетная поддержка")
  ]

  /** The cards on the main screen. */
  const MainContent: seq<ContentItem> := [
    ContentItem("book.fill", "Эксклюзивные статьи", "Доступ к премиум контенту и материалам", 0),
    ContentItem("play.circle.fill", "Видео уроки", "Обучающие видео от профессионалов", 1),
    ContentItem("chart.line.uptrend.xyaxis", "Аналитика", "Подробная статистика и отчеты", 2),
    ContentItem("bell.badge.fill", "Уведомления", "Получайте важные обновления первыми", 3)
  ]

  /** The pager has two pages, so it is never empty and its last index is 1. */
  lemma PagesShape()
    ensures |Pages| == 2
  {
  }

  /** Four main-screen cards, each coloured by its own position. */
  lemma MainContentShape()
    ensures |MainContent| == 4
    ensures forall i :: 0 <= i < |MainContent| ==> MainContent[i].colorIndex == i
  {
  }

  lemma PremiumFeaturesShape()
    ensures |PremiumFeatures| == 4
  {
  }
}
