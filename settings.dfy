/** SettingsFeature: the settings list, grouped by section, and the reducer behind its
    items (feedback mail, App Store review, restoring purchases, legal links). */
module Settings {
  import opened Wrappers
  import opened Purchases

  datatype Section = Appearance | Feedback | Purchase | Legal

  const AllSections: set<Section> := {Appearance, Feedback, Purchase, Legal}

  /** `SettingsItem.ItemType`, which is also an item's identifier. */
  datatype ItemType = SendFeedback | RateAndReview | RestorePurchase | PrivacyPolicy | TermsOfService

  /** The symbol names an indicator can show. */
  datatype Symbol = ArrowUpRight

  datatype Indicator = SymbolIndicator(symbol: Symbol) | NoIndicator | Progress

  datatype SettingsItem = SettingsItem(itemType: ItemType, section: Section, indicator: Indicator)

  /** `IdentifiedArrayOf<SettingsItem>`: an ordered list in which no two items share a type. */
  predicate UniqueIds(items: seq<SettingsItem>) {
    forall i, j :: 0 <= i < j < |items| ==> items[i].itemType != items[j].itemType
  }

  /** The default item list: two feedback items, the restore item, two legal links. */
  function DefaultSettingsItems(): (items: seq<SettingsItem>)
    ensures |items| == 5 && UniqueIds(items)
    ensures forall i :: 0 <= i < |items| ==> (items[i].indicator.SymbolIndicator? <==> items[i].section == Legal)
    ensures forall i :: 0 <= i < |items| ==> items[i].indicator == SymbolIndicator(ArrowUpRight) || items[i].indicator == NoIndicator
    ensures items[2] == SettingsItem(RestorePurchase, Purchase, NoIndicator)
  {
    [ SettingsItem(SendFeedback, Feedback, NoIndicator),
      SettingsItem(RateAndReview, Feedback, NoIndicator),
      SettingsItem(RestorePurchase, Purchase, NoIndicator),
      SettingsItem(PrivacyPolicy, Legal, SymbolIndicator(ArrowUpRight)),
      SettingsItem(TermsOfService, Legal, SymbolIndicator(ArrowUpRight)) ]
  }

  datatype EmailConfiguration = EmailConfiguration(recipient: string, subject: string, body: string)

  /** What the settings screen presents: an alert, or a mail composer pre-filled with the
      configured recipient, subject and body. */
  datatype Destination = AlertDestination(alert: Alert) | MailComposer(recipient: string, subject: string, body: string)

  /** `SettingsFeature.State`. */
  datatype State = State(
    settingsItems: seq<SettingsItem>,
    isPremiumUser: bool,
    premiumEntitlement: string,
    emailConfiguration: EmailConfiguration,
    appId: string,
    privacyPolicyUrl: string,
    termsOfServiceUrl: string,
    destination: Option<Destination>)

  /** The state with its declared defaults: the default items, not premium, nothing shown. */
  function NewState(premiumEntitlement: string, emailConfiguration: EmailConfiguration, appId: string,
                    privacyPolicyUrl: string, termsOfServiceUrl: string): (s: State)
    ensures s.settingsItems == DefaultSettingsItems() && !s.isPremiumUser && s.destination.None?
    ensures s.premiumEntitlement == premiumEntitlement && s.emailConfiguration == emailConfiguration && s.appId == appId
    ensures s.privacyPolicyUrl == privacyPolicyUrl && s.termsOfServiceUrl == termsOfServiceUrl
  {
    State(DefaultSettingsItems(), false, premiumEntitlement, emailConfiguration, appId, privacyPolicyUrl, termsOfServiceUrl, None)
  }

  /** The filter in `groupedSettingsItems`: a premium user is not offered the restore item. */
  predicate IsShown(isPremiumUser: bool, item: SettingsItem) {
    !(isPremiumUser && item.itemType == RestorePurchase)
  }

  /** The items the list shows, in order. */
  function ShownItems(items: seq<SettingsItem>, isPremiumUser: bool): (r: seq<SettingsItem>)
    ensures |r| <= |items|
    ensures forall x :: multiset(r)[x] == if IsShown(isPremiumUser, x) then multiset(items)[x] else 0
  {
    if items == [] then []
    else
      assert items == [items[0]] + items[1..];
      (if IsShown(isPremiumUser, items[0]) then [items[0]] else []) + ShownItems(items[1..], isPremiumUser)
  }

  /** The items of one section, in order. */
  function ItemsIn(items: seq<SettingsItem>, section: Section): (r: seq<SettingsItem>)
    ensures |r| <= |items|
    ensures forall x :: multiset(r)[x] == if x.section == section then multiset(items)[x] else 0
  {
    if items == [] then []
    else
      assert items == [items[0]] + items[1..];
      (if items[0].section == section then [items[0]] else []) + ItemsIn(items[1..], section)
  }

  /** `groupedSettingsItems`: `Dictionary(grouping:by: \.section)` of the shown items, so a
      section is a key only when it has at least one shown item. */
  function GroupedSettingsItems(s: State): (g: map<Section, seq<SettingsItem>>)
    ensures forall section :: section in g ==> g[section] != []
    ensures forall section :: section in g ==> forall y :: y in g[section] ==> multiset(g[section])[y] > 0 && y.section == section
  {
    var shown := ShownItems(s.settingsItems, s.isPremiumUser);
    map section | section in AllSections && ItemsIn(shown, section) != [] :: ItemsIn(shown, section)
  }

  /** Every item of the list is shown exactly as often as it occurs, under its own section,
      unless it is the restore item of a premium user, which is nowhere; and every group
      holds only items of its own section. */
  lemma GroupingPlacesEveryShownItem(s: State, x: SettingsItem)
    ensures var g := GroupedSettingsItems(s);
            && (IsShown(s.isPremiumUser, x) && x in s.settingsItems ==> x.section in g && multiset(g[x.section])[x] == multiset(s.settingsItems)[x])
            && (!IsShown(s.isPremiumUser, x) ==> forall section :: section in g ==> x !in g[section])
            && (forall section :: section in g ==> forall y: SettingsItem :: y in g[section] ==> y.section == section && y in s.settingsItems && IsShown(s.isPremiumUser, y))
  {
    var g := GroupedSettingsItems(s);
    var shown := ShownItems(s.settingsItems, s.isPremiumUser);
    if IsShown(s.isPremiumUser, x) && x in s.settingsItems {
      assert x.section in AllSections by {
        assert x.section.Appearance? || x.section.Feedback? || x.section.Purchase? || x.section.Legal?;
      }
      assert multiset(ItemsIn(shown, x.section))[x] > 0;
    }
    forall section: Section | section in g
      ensures forall y: SettingsItem :: y in g[section] ==> y.section == section && y in s.settingsItems && IsShown(s.isPremiumUser, y)
    {
      forall y: SettingsItem | y in g[section]
        ensures y.section == section && y in s.settingsItems && IsShown(s.isPremiumUser, y)
      {
        assert multiset(g[section])[y] > 0;
        assert multiset(shown)[y] > 0;
      }
    }
  }

  /** In a list with unique ids, every item occurs exactly once. */
  lemma {:induction false} UniqueItemsOccurOnce(items: seq<SettingsItem>, x: SettingsItem)
    requires UniqueIds(items) && x in items
    ensures multiset(items)[x] == 1
  {
    assert items == [items[0]] + items[1..];
    assert UniqueIds(items[1..]);
    if items[0] == x {
      assert x !in items[1..];
    } else {
      UniqueItemsOccurOnce(items[1..], x);
    }
  }

  /** On the default list: the restore item is listed, under the purchase section, exactly
      when the user is not premium; every other item is listed once under its own section. */
  lemma DefaultGroupingDropsRestoreIffPremium(s: State)
    requires s.settingsItems == DefaultSettingsItems()
    ensures var g := GroupedSettingsItems(s);
            (Purchase in g && SettingsItem(RestorePurchase, Purchase, NoIndicator) in g[Purchase]) <==> !s.isPremiumUser
    ensures var g := GroupedSettingsItems(s);
            forall x :: x in s.settingsItems && x.itemType != RestorePurchase ==> x.section in g && multiset(g[x.section])[x] == 1
  {
    var restore := SettingsItem(RestorePurchase, Purchase, NoIndicator);
    assert restore == s.settingsItems[2];
    GroupingPlacesEveryShownItem(s, restore);
    forall x | x in s.settingsItems && x.itemType != RestorePurchase
      ensures x.section in GroupedSettingsItems(s) && multiset(GroupedSettingsItems(s)[x.section])[x] == 1
    {
      GroupingPlacesEveryShownItem(s, x);
      UniqueItemsOccurOnce(s.settingsItems, x);
    }
  }

  /** `j` is the first position holding an item of type `t`. */
  predicate IsFirstOfType(items: seq<SettingsItem>, t: ItemType, j: int) {
    0 <= j < |items| && items[j].itemType == t && forall k :: 0 <= k < j ==> items[k].itemType != t
  }

  predicate HasItem(items: seq<SettingsItem>, t: ItemType) {
    exists j :: 0 <= j < |items| && items[j].itemType == t
  }

  /** `settingsItems[id:]` and `firstIndex(where: { $0.type == ... })`: a search from the
      front for the first item of type `t`. */
  method FindItem(items: seq<SettingsItem>, t: ItemType) returns (index: Option<nat>)
    ensures index.Some? ==> IsFirstOfType(items, t, index.value)
    ensures index.None? <==> !HasItem(items, t)
  {
    var i := 0;
    while i < |items|
      invariant 0 <= i <= |items|
      invariant forall k :: 0 <= k < i ==> items[k].itemType != t
    {
      if items[i].itemType == t {
        return Some(i);
      }
      i := i + 1;
    }
    return None;
  }

  /** The list with the indicator of the item at `index` replaced. */
  function SetIndicator(items: seq<SettingsItem>, index: Option<nat>, indicator: Indicator): seq<SettingsItem> {
    if index.Some? && index.value < |items| then items[index.value := items[index.value].(indicator := indicator)] else items
  }

  /** The two lists hold the same items in the same order, up to their indicators. */
  predicate SameItemsUpToIndicator(a: seq<SettingsItem>, b: seq<SettingsItem>) {
    |a| == |b| && forall i :: 0 <= i < |a| ==> a[i].itemType == b[i].itemType && a[i].section == b[i].section
  }

  /** The review URL of an App Store id. */
  function ReviewUrl(appId: string): (url: string)
    ensures |url| == |ReviewUrlPrefix| + |appId| + |ReviewUrlSuffix|
  {
    ReviewUrlPrefix + appId + ReviewUrlSuffix
  }

  const ReviewUrlPrefix: string := "https://apps.apple.com/app/id"
  const ReviewUrlSuffix: string := "?action=write-review"

  /** The App Store id a review URL was built from, if it is one. */
  function ReviewAppId(url: string): (appId: Option<string>)
    ensures appId.Some? ==> ReviewUrl(appId.value) == url
  {
    var n, m := |ReviewUrlPrefix|, |ReviewUrlSuffix|;
    if |url| >= n + m && url[..n] == ReviewUrlPrefix && url[|url| - m..] == ReviewUrlSuffix then
      assert url == url[..n] + url[n..|url| - m] + url[|url| - m..];
      Some(url[n..|url| - m])
    else None
  }

  /** Every App Store id is recovered from its review URL. */
  lemma ReviewUrlRoundTrip(appId: string)
    ensures ReviewAppId(ReviewUrl(appId)) == Some(appId)
  {
    var url := ReviewUrl(appId);
    var n := |ReviewUrlPrefix|;
    assert url[..n] == ReviewUrlPrefix;
    assert url[n..|url| - |ReviewUrlSuffix|] == appId;
    assert url[|url| - |ReviewUrlSuffix|..] == ReviewUrlSuffix;
  }

  datatype Delegate = PremiumUserStatusChanged(isPremium: bool)

  /** Presentation actions of the destination: the alert has no buttons of its own and the
      mail composer's only action ends in its dismissal, so the one handled is `dismiss`. */
  datatype PresentationAction = Dismiss

  /** `SettingsFeature.Action`. A service failure is a `ServiceError` code. */
  datatype Action =
    | ItemSelected(id: ItemType)
    | MailComposerCheckCompleted(canSendMail: bool)
    | PurchaseRestored(restore: Result<CustomerInfo, int>)
    | DestinationAction(presentation: PresentationAction)
    | DelegateAction(delegate: Delegate)

  /** The effects the reducer returns: service calls, URL openings and parent messages. */
  datatype Effect = CheckMailComposer | OpenUrl(url: string) | RestorePurchases | Send(delegate: Delegate)

  /** The settings reducer, followed by the destination's presentation handling (a
      dismissal clears the destination). */
  method Reduce(state: State, action: Action) returns (next: State, effects: seq<Effect>)
    // item selection
    ensures action.ItemSelected? && !HasItem(state.settingsItems, action.id) ==> next == state && effects == []
    ensures action.ItemSelected? && HasItem(state.settingsItems, action.id) ==>
              match action.id
              case SendFeedback => next == state && effects == [CheckMailComposer]
              case RateAndReview => next == state && effects == [OpenUrl(ReviewUrl(state.appId))]
              case PrivacyPolicy => next == state && effects == [OpenUrl(state.privacyPolicyUrl)]
              case TermsOfService => next == state && effects == [OpenUrl(state.termsOfServiceUrl)]
              case RestorePurchase =>
                && effects == [RestorePurchases]
                && next == state.(settingsItems := next.settingsItems)
                && |next.settingsItems| == |state.settingsItems|
                && forall j :: 0 <= j < |state.settingsItems| ==>
                     next.settingsItems[j] == if IsFirstOfType(state.settingsItems, RestorePurchase, j)
                                              then state.settingsItems[j].(indicator := Progress)
                                              else state.settingsItems[j]
    // the mail check
    ensures action.MailComposerCheckCompleted? && action.canSendMail ==>
              var mail := state.emailConfiguration;
              next == state.(destination := Some(MailComposer(mail.recipient, mail.subject, mail.body))) && effects == []
    ensures action.MailComposerCheckCompleted? && !action.canSendMail ==>
              next == state.(destination := Some(AlertDestination(ErrorAlert(FailedToCompose)))) && effects == []
    // the restore result
    ensures action.PurchaseRestored? ==>
              && |next.settingsItems| == |state.settingsItems|
              && forall j :: 0 <= j < |state.settingsItems| ==>
                   next.settingsItems[j] == if IsFirstOfType(state.settingsItems, RestorePurchase, j)
                                            then state.settingsItems[j].(indicator := NoIndicator)
                                            else state.settingsItems[j]
    ensures action.PurchaseRestored? && action.restore.Success? ==>
              && next.isPremiumUser == IsEntitled(action.restore.value, state.premiumEntitlement)
              && next.destination == Some(AlertDestination(if next.isPremiumUser then PurchasesRestoredAlert else ErrorAlert(FailedToRestore)))
              && effects == [Send(PremiumUserStatusChanged(next.isPremiumUser))]
              && next == state.(settingsItems := next.settingsItems, isPremiumUser := next.isPremiumUser, destination := next.destination)
    ensures action.PurchaseRestored? && action.restore.Failure? ==>
              && next == state.(settingsItems := next.settingsItems,
                                destination := Some(AlertDestination(ErrorAlert(ServiceError(action.restore.error)))))
              && effects == []
    ensures action.DestinationAction? ==> next == state.(destination := None) && effects == []
    ensures action.DelegateAction? ==> next == state && effects == []
    // for every action
    ensures SameItemsUpToIndicator(state.settingsItems, next.settingsItems)
    ensures UniqueIds(state.settingsItems) ==> UniqueIds(next.settingsItems)
    ensures next.premiumEntitlement == state.premiumEntitlement && next.emailConfiguration == state.emailConfiguration
    ensures next.appId == state.appId && next.privacyPolicyUrl == state.privacyPolicyUrl && next.termsOfServiceUrl == state.termsOfServiceUrl
    ensures next.isPremiumUser != state.isPremiumUser ==> Send(PremiumUserStatusChanged(next.isPremiumUser)) in effects
  {
    next := state;
    effects := [];
    match action
    case ItemSelected(id) =>
      var index := FindItem(next.settingsItems, id);
      if index.Some? {
        match next.settingsItems[index.value].itemType {
          case SendFeedback =>
            effects := [CheckMailComposer];
          case RateAndReview =>
            effects := [OpenUrl(ReviewUrl(next.appId))];
          case RestorePurchase =>
            next := next.(settingsItems := SetIndicator(next.settingsItems, index, Progress));
            effects := [RestorePurchases];
          case PrivacyPolicy =>
            effects := [OpenUrl(next.privacyPolicyUrl)];
          case TermsOfService =>
            effects := [OpenUrl(next.termsOfServiceUrl)];
        }
      }
    case MailComposerCheckCompleted(canSendMail) =>
      if canSendMail {
        var mail := next.emailConfiguration;
        next := next.(destination := Some(MailComposer(mail.recipient, mail.subject, mail.body)));
      } else {
        next := next.(destination := Some(AlertDestination(ErrorAlert(FailedToCompose))));
      }
    case PurchaseRestored(Success(info)) =>
      var index := FindItem(next.settingsItems, RestorePurchase);
      next := next.(settingsItems := SetIndicator(next.settingsItems, index, NoIndicator));
      if IsEntitled(info, next.premiumEntitlement) {
        next := next.(isPremiumUser := true);
        effects := [Send(PremiumUserStatusChanged(true))];
        next := next.(destination := Some(AlertDestination(PurchasesRestoredAlert)));
      } else {
        next := next.(isPremiumUser := false);
        effects := [Send(PremiumUserStatusChanged(false))];
        next := next.(destination := Some(AlertDestination(ErrorAlert(FailedToRestore))));
      }
    case PurchaseRestored(Failure(code)) =>
      var index := FindItem(next.settingsItems, RestorePurchase);
      next := next.(settingsItems := SetIndicator(next.settingsItems, index, NoIndicator));
      next := next.(destination := Some(AlertDestination(ErrorAlert(ServiceError(code)))));
    case DestinationAction(Dismiss) =>
      next := next.(destination := None);
    case DelegateAction(_) =>
  }
}
