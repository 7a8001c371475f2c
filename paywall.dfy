/** PaywallFeature: the state of the paywall screen and the reducer that updates it in
    response to user actions and to the results of the purchases service. */
module Paywall {
  import opened Wrappers
  import opened Purchases

  /** A package on sale, known by its identifier. */
  datatype Package = Package(identifier: string)

  /** An offering: the packages it makes available, in display order. */
  datatype Offering = Offering(identifier: string, availablePackages: seq<Package>)

  /** `PaywallFeature.State`. */
  datatype State = State(
    isPremiumUser: bool,
    premiumEntitlement: string,
    privacyPolicyUrl: string,
    termsOfServiceUrl: string,
    showSavePercentBadge: bool,
    currentOffering: Option<Offering>,
    selectedPackage: Option<Package>,
    isLoadingOffering: bool,
    isSubscribeButtonLoading: bool,
    isRestoreButtonLoading: bool,
    destination: Option<Alert>)

  /** `State.init` with every defaulted argument left at its default. */
  function NewState(isPremiumUser: bool, premiumEntitlement: string, privacyPolicyUrl: string, termsOfServiceUrl: string): (s: State)
    ensures s.isPremiumUser == isPremiumUser && s.premiumEntitlement == premiumEntitlement
    ensures s.privacyPolicyUrl == privacyPolicyUrl && s.termsOfServiceUrl == termsOfServiceUrl
    ensures s.showSavePercentBadge
    ensures s.currentOffering.None? && s.selectedPackage.None? && s.destination.None?
    ensures !s.isLoadingOffering && !s.isSubscribeButtonLoading && !s.isRestoreButtonLoading
    ensures IsPackagesEmpty(s)
  {
    State(isPremiumUser, premiumEntitlement, privacyPolicyUrl, termsOfServiceUrl, true, None, None, false, false, false, None)
  }

  /** `isPackagesEmpty`: no offering, or an offering without packages. */
  function IsPackagesEmpty(s: State): (empty: bool)
    ensures empty <==> s.currentOffering.None? || |s.currentOffering.value.availablePackages| == 0
  {
    (s.currentOffering.Some? && s.currentOffering.value.availablePackages == []) || s.currentOffering.None?
  }

  /** Messages to the parent feature. */
  datatype Delegate = PurchaseCompleted | PremiumUserStatusChanged(isPremium: bool)

  /** Presentation actions of the alert destination: the alert has no buttons of its own,
      so the only one is its dismissal. */
  datatype PresentationAction = Dismiss

  /** `PaywallFeature.Action`. A service failure is a `ServiceError` code. */
  datatype Action =
    | OnAppear
    | PackageSelected(package: Package)
    | SubscribeButtonTapped
    | RestoreButtonTapped
    | OfferingLoaded(offering: Result<Option<Offering>, int>)
    | PurchaseFinished(purchase: Result<CustomerInfo, int>)
    | RestoreFinished(restore: Result<CustomerInfo, int>)
    | DestinationAction(presentation: PresentationAction)
    | DelegateAction(delegate: Delegate)

  /** The effects the reducer returns, in order: service calls, whose results come back
      as actions, and messages sent to the parent. */
  datatype Effect = LoadOffering | Purchase(package: Package) | Restore | Send(delegate: Delegate)

  /** The only way the subscribe button starts loading is with a package selected. */
  predicate SubscribeNeedsPackage(s: State) {
    s.isSubscribeButtonLoading ==> s.selectedPackage.Some?
  }

  /** The reducer's answer to a completed purchase or restore: both buttons stop loading,
      the premium flag follows the entitlement, an inactive entitlement raises an alert,
      and the parent hears the new status and then that the purchase completed. */
  method CompletePurchase(state: State, info: CustomerInfo) returns (next: State, effects: seq<Effect>)
    ensures next.isPremiumUser == IsEntitled(info, state.premiumEntitlement)
    ensures !next.isSubscribeButtonLoading && !next.isRestoreButtonLoading
    ensures next.destination == if next.isPremiumUser then state.destination else Some(ErrorAlert(NoActiveEntitlement))
    ensures next == state.(isPremiumUser := next.isPremiumUser, isSubscribeButtonLoading := false,
                           isRestoreButtonLoading := false, destination := next.destination)
    ensures effects == [Send(PremiumUserStatusChanged(next.isPremiumUser)), Send(PurchaseCompleted)]
  {
    next := state;
    next := next.(isSubscribeButtonLoading := false);
    next := next.(isRestoreButtonLoading := false);
    var statusChanged: seq<Effect> := [];
    if IsEntitled(info, next.premiumEntitlement) {
      next := next.(isPremiumUser := true);
      statusChanged := [Send(PremiumUserStatusChanged(true))];
    } else {
      next := next.(isPremiumUser := false);
      statusChanged := [Send(PremiumUserStatusChanged(false))];
      next := next.(destination := Some(ErrorAlert(NoActiveEntitlement)));
    }
    effects := statusChanged + [Send(PurchaseCompleted)];
  }

  /** The paywall reducer, followed by the alert's presentation handling (a dismissal
      clears the destination). */
  method Reduce(state: State, action: Action) returns (next: State, effects: seq<Effect>)
    // what each action does
    ensures action.OnAppear? ==> next == state.(isLoadingOffering := true) && effects == [LoadOffering]
    ensures action.PackageSelected? ==> next == state.(selectedPackage := Some(action.package)) && effects == []
    ensures action.SubscribeButtonTapped? && state.selectedPackage.None? ==> next == state && effects == []
    ensures action.SubscribeButtonTapped? && state.selectedPackage.Some? ==>
              next == state.(isSubscribeButtonLoading := true) && effects == [Purchase(state.selectedPackage.value)]
    ensures action.RestoreButtonTapped? ==> next == state.(isRestoreButtonLoading := true) && effects == [Restore]
    ensures action.OfferingLoaded? && action.offering.Success? ==>
              && next.currentOffering == action.offering.value
              && !next.isLoadingOffering
              && effects == []
              && next.selectedPackage == (if next.currentOffering.Some? && next.currentOffering.value.availablePackages != []
                                          then Some(next.currentOffering.value.availablePackages[0])
                                          else state.selectedPackage)
              && next == state.(currentOffering := next.currentOffering, isLoadingOffering := false,
                                selectedPackage := next.selectedPackage)
    ensures action.OfferingLoaded? && action.offering.Failure? ==>
              next == state.(isLoadingOffering := false, destination := Some(ErrorAlert(ServiceError(action.offering.error))))
              && effects == []
    ensures (action.PurchaseFinished? && action.purchase.Success?) || (action.RestoreFinished? && action.restore.Success?) ==>
              var info := if action.PurchaseFinished? then action.purchase.value else action.restore.value;
              && next.isPremiumUser == IsEntitled(info, state.premiumEntitlement)
              && !next.isSubscribeButtonLoading && !next.isRestoreButtonLoading
              && effects == [Send(PremiumUserStatusChanged(next.isPremiumUser)), Send(PurchaseCompleted)]
              && (next.isPremiumUser ==> next.destination == state.destination)
              && (!next.isPremiumUser ==> next.destination == Some(ErrorAlert(NoActiveEntitlement)))
              && next == state.(isPremiumUser := next.isPremiumUser, isSubscribeButtonLoading := false,
                                isRestoreButtonLoading := false, destination := next.destination)
    ensures (action.PurchaseFinished? && action.purchase.Failure?) || (action.RestoreFinished? && action.restore.Failure?) ==>
              var code := if action.PurchaseFinished? then action.purchase.error else action.restore.error;
              next == state.(isSubscribeButtonLoading := false, isRestoreButtonLoading := false,
                             destination := Some(ErrorAlert(ServiceError(code))))
              && effects == []
    ensures action.DestinationAction? ==> next == state.(destination := None) && effects == []
    ensures action.DelegateAction? ==> next == state && effects == []
    // what holds for every action
    ensures next.premiumEntitlement == state.premiumEntitlement && next.showSavePercentBadge == state.showSavePercentBadge
    ensures next.privacyPolicyUrl == state.privacyPolicyUrl && next.termsOfServiceUrl == state.termsOfServiceUrl
    ensures state.selectedPackage.Some? ==> next.selectedPackage.Some?
    ensures SubscribeNeedsPackage(state) ==> SubscribeNeedsPackage(next)
    ensures next.isPremiumUser != state.isPremiumUser ==> Send(PremiumUserStatusChanged(next.isPremiumUser)) in effects
    ensures forall b :: Send(PremiumUserStatusChanged(b)) in effects ==> b == next.isPremiumUser
  {
    next := state;
    effects := [];
    match action
    case OnAppear =>
      next := next.(isLoadingOffering := true);
      effects := [LoadOffering];
    case PackageSelected(package) =>
      next := next.(selectedPackage := Some(package));
    case SubscribeButtonTapped =>
      match next.selectedPackage {
        case None =>
        case Some(package) =>
          next := next.(isSubscribeButtonLoading := true);
          effects := [Purchase(package)];
      }
    case RestoreButtonTapped =>
      next := next.(isRestoreButtonLoading := true);
      effects := [Restore];
    case OfferingLoaded(Success(offering)) =>
      next := next.(isLoadingOffering := false);
      next := next.(currentOffering := offering);
      if offering.Some? && |offering.value.availablePackages| > 0 {
        next := next.(selectedPackage := Some(offering.value.availablePackages[0]));
      }
    case OfferingLoaded(Failure(code)) =>
      next := next.(isLoadingOffering := false);
      next := next.(destination := Some(ErrorAlert(ServiceError(code))));
    case PurchaseFinished(Success(info)) =>
      next, effects := CompletePurchase(next, info);
    case RestoreFinished(Success(info)) =>
      next, effects := CompletePurchase(next, info);
    case PurchaseFinished(Failure(code)) =>
      next := next.(isSubscribeButtonLoading := false);
      next := next.(isRestoreButtonLoading := false);
      next := next.(destination := Some(ErrorAlert(ServiceError(code))));
    case RestoreFinished(Failure(code)) =>
      next := next.(isSubscribeButtonLoading := false);
      next := next.(isRestoreButtonLoading := false);
      next := next.(destination := Some(ErrorAlert(ServiceError(code))));
    case DestinationAction(Dismiss) =>
      next := next.(destination := None);
    case DelegateAction(_) =>
  }
}
