/** What the reducers see of the purchases service: customer info with its entitlements,
    and the errors they present. */
module Purchases {

  /** One entitlement of a customer. */
  datatype EntitlementInfo = EntitlementInfo(isActive: bool)

  /** `CustomerInfo`, reduced to its entitlements by identifier. */
  datatype CustomerInfo = CustomerInfo(entitlements: map<string, EntitlementInfo>)

  /** `customerInfo.entitlements[id]?.isActive == true`: present and active. */
  function IsEntitled(info: CustomerInfo, id: string): (active: bool)
    ensures active <==> id in info.entitlements && info.entitlements[id].isActive
  {
    if id in info.entitlements then info.entitlements[id].isActive else false
  }

  /** The errors an alert can show: one thrown by a service the model does not see,
      identified by a code, or one of the features' own. */
  datatype PresentedError = ServiceError(code: int) | NoActiveEntitlement | FailedToRestore | FailedToCompose

  /** The alerts the features present. */
  datatype Alert = ErrorAlert(error: PresentedError) | PurchasesRestoredAlert
}
