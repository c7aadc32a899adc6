/**
 * The decisions of the billing scene (frontend/src/scenes/billing/Billing.tsx):
 * which of its four top-level branches is shown and, on the dashboard, which
 * blocks appear, which amounts and labels they carry and which products are
 * listed. Rendering itself, formatting and the store behind the inputs are
 * not modelled.
 */
module BillingScene {
  import opened Wrappers

  const PlatformAndSupport := "platform_and_support"
  const PaidLevel := "paid"
  const AutosubscribeTrial := "autosubscribe"
  const SalesMailto := "mailto:sales@posthog.com"
  const ManageCardLabel := "Manage card details and invoices"
  const PastInvoicesLabel := "View past invoices"
  const BillingPeriodLabel := "Billing period"
  const CycleLabel := "Cycle"

  /** An amount in USD as the billing service sends it: a decimal string, or missing. */
  type UsdAmount = Option<string>

  datatype Plan = Plan(includedIf: Option<string>)
  datatype Product = Product(productType: string, inclusionOnly: bool, plans: seq<Plan>)
  datatype Trial = Trial(target: string, expiresAt: string, trialType: string)
  datatype BillingPeriod = BillingPeriod(interval: string, currentPeriodStart: string, currentPeriodEnd: string)

  /** The billing snapshot read from the billing store. */
  datatype BillingSnapshot = BillingSnapshot(
    hasActiveSubscription: bool,
    subscriptionLevel: string,
    trial: Option<Trial>,
    billingPeriod: Option<BillingPeriod>,
    currentTotalAmountUsd: UsdAmount,
    currentTotalAmountUsdAfterDiscount: UsdAmount,
    projectedTotalAmountUsd: UsdAmount,
    projectedTotalAmountUsdAfterDiscount: UsdAmount,
    discountPercent: Option<real>,
    discountAmountUsd: UsdAmount,
    customerId: Option<string>,
    stripePortalUrl: Option<string>,
    products: seq<Product>)

  datatype BillingError = BillingError(status: string, message: string)
  datatype Preflight = Preflight(cloud: bool)

  /** Everything the component reads from its stores. */
  datatype BillingInputs = BillingInputs(
    billing: Option<BillingSnapshot>,
    billingLoading: bool,
    isOnboarding: bool,
    billingError: Option<BillingError>,
    isManagedAccount: bool,
    preflight: Option<Preflight>,
    restrictionReason: Option<string>)

  /** JavaScript truthiness of an optional string: present and non-empty. */
  predicate StringTruthy(s: Option<string>) {
    s.Some? && s.value != ""
  }

  /** JavaScript truthiness of an optional number: present and non-zero (NaN is not modelled). */
  predicate NumberTruthy(x: Option<real>) {
    x.Some? && x.value != 0.0
  }

  // ---------------------------------------------------------------- products

  /** `plans.some((plan) => !plan.included_if)` */
  function HasUnconditionalPlan(plans: seq<Plan>): (r: bool)
    ensures r <==> exists i :: 0 <= i < |plans| && !StringTruthy(plans[i].includedIf)
  {
    if plans == [] then false
    else !StringTruthy(plans[0].includedIf) || HasUnconditionalPlan(plans[1..])
  }

  /** The product-list filter condition (Billing.tsx:307). */
  predicate IsListed(product: Product) {
    !product.inclusionOnly || HasUnconditionalPlan(product.plans)
  }

  /**
   * The products listed on the dashboard (Billing.tsx:306-312): a product is
   * kept exactly when it is not inclusion-only or one of its plans has no
   * `included_if` condition.
   */
  function ListedProducts(products: seq<Product>): (listed: seq<Product>)
    ensures |listed| <= |products|
    ensures forall p :: p in listed <==> p in products && IsListed(p)
  {
    if products == [] then []
    else (if IsListed(products[0]) then [products[0]] else []) + ListedProducts(products[1..])
  }

  /** Lemma: the filter works element by element, so it keeps the products' order. */
  lemma {:induction false} ListedProductsAppend(a: seq<Product>, b: seq<Product>)
    ensures ListedProducts(a + b) == ListedProducts(a) + ListedProducts(b)
  {
    if a == [] {
      assert a + b == b;
    } else {
      assert (a + b)[1..] == a[1..] + b;
      ListedProductsAppend(a[1..], b);
    }
  }

  /** Lemma: listing is idempotent: every listed product passes the filter again. */
  lemma {:induction false} ListedProductsIdempotent(products: seq<Product>)
    ensures ListedProducts(ListedProducts(products)) == ListedProducts(products)
  {
    if products != [] {
      ListedProductsIdempotent(products[1..]);
      var head := if IsListed(products[0]) then [products[0]] else [];
      ListedProductsAppend(head, ListedProducts(products[1..]));
      if IsListed(products[0]) {
        assert [products[0]][1..] == [];
      }
    }
  }

  /** `products.find((product) => product.type === 'platform_and_support')` (Billing.tsx:111) */
  function PlatformAndSupportProduct(products: seq<Product>): (found: Option<Product>)
    ensures found.None? <==> forall i :: 0 <= i < |products| ==> products[i].productType != PlatformAndSupport
    ensures found.Some? ==>
              exists i :: 0 <= i < |products| && products[i] == found.value &&
                          found.value.productType == PlatformAndSupport &&
                          forall j :: 0 <= j < i ==> products[j].productType != PlatformAndSupport
  {
    if products == [] then None
    else if products[0].productType == PlatformAndSupport then Some(products[0])
    else
      var rest := PlatformAndSupportProduct(products[1..]);
      assert forall i :: 1 <= i < |products| ==> products[i] == products[1..][i - 1];
      rest
  }

  /** Whether some product is the platform-and-support product. */
  predicate HasPlatformAndSupport(products: seq<Product>) {
    exists i :: 0 <= i < |products| && products[i].productType == PlatformAndSupport
  }

  // ---------------------------------------------------------------- dashboard blocks

  datatype TrialBanner = TrialBanner(target: string, expiresAt: string, autosubscribeNote: bool)

  /** The trial banner (Billing.tsx:145-160): shown while on a trial. */
  function TrialBannerOf(b: BillingSnapshot): (banner: Option<TrialBanner>)
    ensures banner.Some? <==> b.trial.Some?
    ensures banner.Some? ==> banner.value.target == b.trial.value.target &&
                             banner.value.expiresAt == b.trial.value.expiresAt
    ensures banner.Some? ==> (banner.value.autosubscribeNote <==> b.trial.value.trialType == AutosubscribeTrial)
  {
    match b.trial
    case None => None
    case Some(t) => Some(TrialBanner(t.target, t.expiresAt, t.trialType == AutosubscribeTrial))
  }

  /**
   * The product offered by the call-to-action hero (Billing.tsx:162-166):
   * none for a managed account, an active subscription or a trial, or when
   * there is no platform-and-support product.
   */
  function CtaHero(b: BillingSnapshot, isManagedAccount: bool): (hero: Option<Product>)
    ensures hero.Some? <==> !isManagedAccount && !b.hasActiveSubscription && b.trial.None? &&
                            HasPlatformAndSupport(b.products)
    ensures hero.Some? ==> hero.value in b.products && hero.value.productType == PlatformAndSupport
    ensures hero.Some? ==> hero == PlatformAndSupportProduct(b.products)
  {
    if !isManagedAccount && !b.hasActiveSubscription && b.trial.None? then
      PlatformAndSupportProduct(b.products)
    else None
  }

  /**
   * The product offered by the unsubscribe card (Billing.tsx:314-319): shown
   * only on the paid level and only when there is a platform-and-support product.
   */
  function UnsubscribeCard(b: BillingSnapshot): (card: Option<Product>)
    ensures card.Some? <==> b.subscriptionLevel == PaidLevel && HasPlatformAndSupport(b.products)
    ensures card.Some? ==> card.value in b.products && card.value.productType == PlatformAndSupport
    ensures card.Some? ==> card == PlatformAndSupportProduct(b.products)
  {
    if b.subscriptionLevel == PaidLevel then PlatformAndSupportProduct(b.products) else None
  }

  datatype PortalButton = PortalButton(url: string, title: string)

  /**
   * The button to the payment portal (Billing.tsx:280-296): shown outside
   * onboarding when the customer has an id and a portal URL.
   */
  function PortalButtonOf(b: BillingSnapshot, isOnboarding: bool): (button: Option<PortalButton>)
    ensures button.Some? <==> !isOnboarding && StringTruthy(b.customerId) && StringTruthy(b.stripePortalUrl)
    ensures button.Some? ==> button.value.url == b.stripePortalUrl.value
    ensures button.Some? ==> (button.value.title == ManageCardLabel <==> b.hasActiveSubscription)
    ensures button.Some? ==> (button.value.title == PastInvoicesLabel <==> !b.hasActiveSubscription)
  {
    if !isOnboarding && StringTruthy(b.customerId) && StringTruthy(b.stripePortalUrl) then
      Some(PortalButton(b.stripePortalUrl.value,
                        if b.hasActiveSubscription then ManageCardLabel else PastInvoicesLabel))
    else None
  }

  /**
   * The amount shown for a total (Billing.tsx:196-204 and 217-223): the amount
   * due after the discount when a discount percent is set and non-zero,
   * otherwise the total before credits.
   */
  function DisplayedTotal(discountPercent: Option<real>, total: UsdAmount, totalAfterDiscount: UsdAmount): (shown: UsdAmount)
    ensures NumberTruthy(discountPercent) ==> shown == totalAfterDiscount
    ensures !NumberTruthy(discountPercent) ==> shown == total
  {
    if NumberTruthy(discountPercent) then totalAfterDiscount else total
  }

  /**
   * The applied-discount block (Billing.tsx:245-257), as intended: shown
   * exactly when the discount percent is set and non-zero.
   */
  function AppliedDiscount(discountPercent: Option<real>): (shown: Option<real>)
    ensures shown.Some? <==> NumberTruthy(discountPercent)
    ensures shown.Some? ==> shown == discountPercent && shown.value != 0.0
  {
    if NumberTruthy(discountPercent) then discountPercent else None
  }

  /** What React renders for `{billing?.discount_percent && (<div>…</div>)}`. */
  datatype DiscountSlot = NothingRendered | StrayNumber(n: real) | AppliedDiscountBlock(percent: real)

  /**
   * The applied-discount slot as written (Billing.tsx:245): `&&` yields its
   * left operand when that is falsy, and React prints a number, so a discount
   * percent of 0 puts a bare "0" on the page.
   */
  function AppliedDiscountAsWritten(discountPercent: Option<real>): (slot: DiscountSlot)
    ensures slot.AppliedDiscountBlock? <==> NumberTruthy(discountPercent)
    ensures slot.StrayNumber? <==> discountPercent == Some(0.0)
    ensures slot.AppliedDiscountBlock? ==> slot.percent == discountPercent.value
    ensures slot.StrayNumber? ==> slot.n == 0.0
  {
    match discountPercent
    case None => NothingRendered
    case Some(p) => if p != 0.0 then AppliedDiscountBlock(p) else StrayNumber(p)
  }

  /**
   * Lemma: a zero discount percent renders a stray number as written, and
   * nothing in the intended block; on every other input the two agree.
   */
  lemma ZeroDiscountRendersStrayNumber(discountPercent: Option<real>)
    ensures AppliedDiscountAsWritten(Some(0.0)) == StrayNumber(0.0) && AppliedDiscount(Some(0.0)).None?
    ensures discountPercent != Some(0.0) ==>
              (AppliedDiscountAsWritten(discountPercent).AppliedDiscountBlock? <==> AppliedDiscount(discountPercent).Some?) &&
              (AppliedDiscountAsWritten(discountPercent).NothingRendered? <==> AppliedDiscount(discountPercent).None?)
  {
  }

  datatype BillTotals = BillTotals(
    currentTotal: UsdAmount,
    projectedTotal: Option<UsdAmount>,
    availableCredits: UsdAmount,
    appliedDiscount: Option<real>)

  datatype PeriodSummary = PeriodSummary(
    totals: Option<BillTotals>, periodLabel: string, period: BillingPeriod, freeAllocationNote: bool)

  /**
   * The bill totals (Billing.tsx:186-260). `parsesPositive` stands for
   * `parseFloat(amount) > 0`, which is not modelled.
   */
  function BillTotalsOf(b: BillingSnapshot, parsesPositive: string -> bool): (totals: BillTotals)
    ensures totals.currentTotal ==
            DisplayedTotal(b.discountPercent, b.currentTotalAmountUsd, b.currentTotalAmountUsdAfterDiscount)
    ensures totals.projectedTotal.Some? <==>
            StringTruthy(b.projectedTotalAmountUsd) && parsesPositive(b.projectedTotalAmountUsd.value)
    ensures totals.projectedTotal.Some? ==>
              totals.projectedTotal.value ==
              DisplayedTotal(b.discountPercent, b.projectedTotalAmountUsd, b.projectedTotalAmountUsdAfterDiscount)
    ensures totals.availableCredits.Some? <==> StringTruthy(b.discountAmountUsd)
    ensures totals.availableCredits.Some? ==> totals.availableCredits == b.discountAmountUsd
    ensures totals.appliedDiscount == AppliedDiscount(b.discountPercent)
  {
    var projectedShown := StringTruthy(b.projectedTotalAmountUsd) && parsesPositive(b.projectedTotalAmountUsd.value);
    BillTotals(
      DisplayedTotal(b.discountPercent, b.currentTotalAmountUsd, b.currentTotalAmountUsdAfterDiscount),
      if projectedShown then
        Some(DisplayedTotal(b.discountPercent, b.projectedTotalAmountUsd, b.projectedTotalAmountUsdAfterDiscount))
      else None,
      if StringTruthy(b.discountAmountUsd) then b.discountAmountUsd else None,
      AppliedDiscount(b.discountPercent))
  }

  /**
   * The billing-period summary (Billing.tsx:183-277): shown outside
   * onboarding when the snapshot has a billing period; the totals only with
   * an active subscription.
   */
  function PeriodSummaryOf(b: BillingSnapshot, isOnboarding: bool, parsesPositive: string -> bool)
    : (summary: Option<PeriodSummary>)
    ensures summary.Some? <==> !isOnboarding && b.billingPeriod.Some?
    ensures summary.Some? ==> summary.value.period == b.billingPeriod.value
    ensures summary.Some? ==>
              summary.value.totals == (if b.hasActiveSubscription then Some(BillTotalsOf(b, parsesPositive)) else None)
    ensures summary.Some? ==> (summary.value.periodLabel == BillingPeriodLabel <==> b.hasActiveSubscription)
    ensures summary.Some? ==> (summary.value.periodLabel == CycleLabel <==> !b.hasActiveSubscription)
    ensures summary.Some? ==> (summary.value.freeAllocationNote <==> !b.hasActiveSubscription)
  {
    if isOnboarding || b.billingPeriod.None? then None
    else
      Some(PeriodSummary(
        if b.hasActiveSubscription then Some(BillTotalsOf(b, parsesPositive)) else None,
        if b.hasActiveSubscription then BillingPeriodLabel else CycleLabel,
        b.billingPeriod.value,
        !b.hasActiveSubscription))
  }

  // ---------------------------------------------------------------- the page

  datatype DashboardView = DashboardView(
    errorBanner: Option<BillingError>,
    trialBanner: Option<TrialBanner>,
    ctaHero: Option<Product>,
    summary: Option<PeriodSummary>,
    portalButton: Option<PortalButton>,
    products: seq<Product>,
    unsubscribeCard: Option<Product>)

  /** The dashboard for a loaded snapshot (Billing.tsx:110-322). */
  function DashboardOf(b: BillingSnapshot, inputs: BillingInputs, parsesPositive: string -> bool)
    : (view: DashboardView)
    ensures view.errorBanner == inputs.billingError
    ensures view.trialBanner == TrialBannerOf(b)
    ensures view.ctaHero == CtaHero(b, inputs.isManagedAccount)
    ensures view.summary == PeriodSummaryOf(b, inputs.isOnboarding, parsesPositive)
    ensures view.portalButton == PortalButtonOf(b, inputs.isOnboarding)
    ensures view.products == ListedProducts(b.products)
    ensures view.unsubscribeCard == UnsubscribeCard(b)
  {
    DashboardView(
      inputs.billingError,
      TrialBannerOf(b),
      CtaHero(b, inputs.isManagedAccount),
      PeriodSummaryOf(b, inputs.isOnboarding, parsesPositive),
      PortalButtonOf(b, inputs.isOnboarding),
      ListedProducts(b.products),
      UnsubscribeCard(b))
  }

  /** How the fetch-error banner lets the user follow up. */
  datatype Remediation = BugReport | ContactSales(mailto: string)

  /** Billing.tsx:97-103: a bug report on cloud, the sales address otherwise (also without preflight). */
  function ErrorRemediation(preflight: Option<Preflight>): (remedy: Remediation)
    ensures remedy.BugReport? <==> preflight.Some? && preflight.value.cloud
    ensures remedy.ContactSales? ==> remedy.mailto == SalesMailto
  {
    if preflight.Some? && preflight.value.cloud then BugReport else ContactSales(SalesMailto)
  }

  datatype Page =
    | Spinner
    | Restricted(reason: string)
    | FetchError(remediation: Remediation)
    | Dashboard(view: DashboardView)

  /**
   * The component (Billing.tsx:68-108): the spinner while the first snapshot
   * loads, then the restriction notice, then the fetch-error banner when
   * loading ended without a snapshot, and otherwise the dashboard.
   */
  function Billing(inputs: BillingInputs, parsesPositive: string -> bool): (page: Page)
    ensures page.Spinner? <==> inputs.billing.None? && inputs.billingLoading
    ensures page.Restricted? <==>
              StringTruthy(inputs.restrictionReason) && !(inputs.billing.None? && inputs.billingLoading)
    ensures page.FetchError? <==>
              inputs.billing.None? && !inputs.billingLoading && !StringTruthy(inputs.restrictionReason)
    ensures page.Dashboard? <==> inputs.billing.Some? && !StringTruthy(inputs.restrictionReason)
    ensures page.Restricted? ==> page.reason == inputs.restrictionReason.value
    ensures page.FetchError? ==> page.remediation == ErrorRemediation(inputs.preflight)
    ensures page.Dashboard? ==> page.view == DashboardOf(inputs.billing.value, inputs, parsesPositive)
  {
    if inputs.billing.None? && inputs.billingLoading then Spinner
    else if StringTruthy(inputs.restrictionReason) then Restricted(inputs.restrictionReason.value)
    else if inputs.billing.None? && !inputs.billingLoading then FetchError(ErrorRemediation(inputs.preflight))
    else Dashboard(DashboardOf(inputs.billing.value, inputs, parsesPositive))
  }

  /**
   * Lemma: on the dashboard, the product list is the snapshot's products
   * after the filter, and the hero and the unsubscribe card both offer the
   * first platform-and-support product.
   */
  lemma {:induction false} DashboardOffersPlatformProduct(inputs: BillingInputs, parsesPositive: string -> bool)
    requires Billing(inputs, parsesPositive).Dashboard?
    ensures var view := Billing(inputs, parsesPositive).view;
            view.products == ListedProducts(inputs.billing.value.products) &&
            (view.ctaHero.Some? ==> view.ctaHero == PlatformAndSupportProduct(inputs.billing.value.products)) &&
            (view.unsubscribeCard.Some? ==> view.unsubscribeCard == PlatformAndSupportProduct(inputs.billing.value.products))
  {
  }
}
