/** Keeps a redeployed panel where the user last placed it: the order of an
    already-installed panel with the same id wins over the configured preference. */
module OrderResolver {
  import opened Wrappers
  import opened JsStrings
  import opened Configuration

  /** One entry of the host's custom-panel listing */
  datatype PanelRecord = PanelRecord(panelId: string, order: string)

  function OrderElement(text: string): (e: string)
    ensures |e| == |text| + 15 && e[..7] == "<Order>" && e[7..|e| - 8] == text && e[|e| - 8..] == "</Order>"
  {
    "<Order>" + text + "</Order>"
  }

  /** The configured preference as a directive: an Order element holding the
      Number's decimal rendering, or nothing for any other value */
  function PreferredDirective(p: OrderSetting): (d: string)
    ensures d == "" <==> p.NotNumber?
    ensures p.Number? ==>
              && |d| > |"<Order></Order>"|
              && d[..7] == "<Order>" && d[|d| - 8..] == "</Order>"
              && RendersInteger(d[7..|d| - 8], p.n)
  {
    match p
    case Number(n) => OrderElement(NumberToString(n))
    case NotNumber => ""
  }

  /** `k` is the position of the first panel with id `id` */
  ghost predicate IsFirstMatch(panels: seq<PanelRecord>, id: string, k: int) {
    && 0 <= k < |panels|
    && panels[k].panelId == id
    && forall j :: 0 <= j < k ==> panels[j].panelId != id
  }

  /** `panels.find(panel => panel.PanelId == id)`, as a position */
  function FindPanel(panels: seq<PanelRecord>, id: string): (k: Option<nat>)
    ensures k.Some? ==> IsFirstMatch(panels, id, k.value)
    ensures k.None? ==> forall j :: 0 <= j < |panels| ==> panels[j].panelId != id
    decreases |panels|
  {
    if |panels| == 0 then None
    else if panels[0].panelId == id then Some(0)
    else match FindPanel(panels[1..], id)
      case None => None
      case Some(k) => Some(k + 1)
  }

  /** The order directive for panel `id`, given the listing the host returned
      (None when the listing carries no panels at all) */
  function ResolveOrder(id: string, preferred: OrderSetting, listing: Option<seq<PanelRecord>>): (d: string)
    ensures forall k :: listing.Some? && IsFirstMatch(listing.value, id, k) ==>
              d == OrderElement(listing.value[k].order)
    ensures (listing.None? || forall j :: 0 <= j < |listing.value| ==> listing.value[j].panelId != id) ==>
              d == PreferredDirective(preferred)
  {
    match listing
    case None => PreferredDirective(preferred)
    case Some(panels) =>
      match FindPanel(panels, id)
      case None => PreferredDirective(preferred)
      case Some(k) => OrderElement(panels[k].order)
  }

  /** What the custom-panel listing call produced: a reply, whose panel list may be
      absent, or a rejection, which nothing catches */
  datatype ListingOutcome = ListingReturned(panels: Option<seq<PanelRecord>>) | ListingRejected

  /** `panelOrder`: the order directive, or None when the listing call rejects and
      the rejection propagates to the caller */
  function PanelOrder(id: string, preferred: OrderSetting, listing: ListingOutcome): (d: Option<string>)
    ensures d.None? <==> listing.ListingRejected?
    ensures listing.ListingReturned? ==> d == Some(ResolveOrder(id, preferred, listing.panels))
  {
    match listing
    case ListingRejected => None
    case ListingReturned(panels) => Some(ResolveOrder(id, preferred, panels))
  }

  /** The existing panel's order wins whatever the preference is */
  lemma ExistingOrderIgnoresPreference(id: string, p1: OrderSetting, p2: OrderSetting, panels: seq<PanelRecord>, i: int)
    requires 0 <= i < |panels| && panels[i].panelId == id
    ensures ResolveOrder(id, p1, Some(panels)) == ResolveOrder(id, p2, Some(panels))
  {
  }

  /** Records of other panels around the match do not change the outcome */
  lemma {:induction false} OtherPanelsDoNotMatter(id: string, p: OrderSetting, before: seq<PanelRecord>, r: PanelRecord, after: seq<PanelRecord>)
    requires r.panelId == id
    requires forall j :: 0 <= j < |before| ==> before[j].panelId != id
    ensures ResolveOrder(id, p, Some(before + [r] + after)) == OrderElement(r.order)
  {
    var panels := before + [r] + after;
    assert panels[|before|] == r;
    assert IsFirstMatch(panels, id, |before|) by {
      forall j | 0 <= j < |before| ensures panels[j].panelId != id {
        assert panels[j] == before[j];
      }
    }
  }

  /** An empty listing behaves like an absent one */
  lemma EmptyListingIsNotFound(id: string, p: OrderSetting)
    ensures ResolveOrder(id, p, Some([])) == ResolveOrder(id, p, None)
  {
  }

  /** A stored order of 7 beats the configured preference of 1 */
  lemma StoredOrderExample()
    ensures ResolveOrder("appleTV", Number(1), Some([PanelRecord("appleTV", "7")])) == "<Order>7</Order>"
  {
  }

  /** With no listing, the configured preference of 1 is used */
  lemma PreferredOrderExample()
    ensures ResolveOrder("appleTV", Number(1), None) == "<Order>1</Order>"
  {
  }

  /** With no listing and no Number preference, there is no directive */
  lemma NoOrderExample()
    ensures ResolveOrder("appleTV", NotNumber, None) == ""
  {
  }

  /** A negative preference renders with its sign when no record matches */
  lemma NegativeOrderExample()
    ensures ResolveOrder("appleTV", Number(-12), Some([PanelRecord("other", "3")])) == "<Order>-12</Order>"
  {
  }
}
