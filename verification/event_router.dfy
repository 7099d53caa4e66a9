/** The two event subscriptions: page open/close events control the presentation on
    the configured connector, and widget clicks become CEC key presses. */
module EventRouter {
  import opened Wrappers
  import opened JsStrings
  import opened Configuration
  import opened KeyMapper

  /** A widget action event as the host delivers it */
  datatype WidgetEvent = WidgetEvent(actionType: string, widgetId: string, value: string)

  /** A page action event as the host delivers it */
  datatype PageEvent = PageEvent(pageId: string, actionType: string)

  /** The `NamedKey` argument of a key click: a string, or `undefined` when the
      widget id had no second `-`-separated component */
  datatype KeyArg = Named(key: string) | Undefined

  /** The outbound commands the handlers issue */
  datatype Command =
    | KeyClick(connectorId: int, logicalAddress: int, namedKey: KeyArg)
    | PresentationStart(connector: int)
    | PresentationStop

  const ClickedType: string := "clicked"

  /** The transition literal the page handler compares against before stopping
      the presentation, exactly as the macro spells it */
  const CloseCheckLiteral: string := "Cpened"

  /** The event passes both filters of the widget handler */
  predicate Accepted(panelId: string, ev: WidgetEvent) {
    panelId <= ev.widgetId && ev.actionType == ClickedType
  }

  /** The named key a widget event sends, or None when the handler returns early */
  function RouteWidget(panelId: string, ev: WidgetEvent): (r: Option<KeyArg>)
    ensures r.None? <==> !(panelId <= ev.widgetId) || ev.actionType != ClickedType
    ensures r == Some(Undefined) <==> Accepted(panelId, ev) && Dash !in ev.widgetId
    ensures r.Some? && SecondComponent(ev.widgetId) == Some(NavigatorRole) ==>
              r == Some(Named(NavigatorKey(ev.value)))
    ensures forall w :: r.Some? && SecondComponent(ev.widgetId) == Some(w) && w != NavigatorRole ==>
              r == Some(Named(w))
  {
    if !(panelId <= ev.widgetId) then None
    else if ev.actionType != ClickedType then None
    else match SecondComponent(ev.widgetId)
      case None => Some(Undefined)
      case Some(w) => if w == NavigatorRole then Some(Named(NavigatorKey(ev.value))) else Some(Named(w))
  }

  /** The widget handler: the routed key, sent to the configured connector and address */
  function HandleWidgetAction(cfg: Config, ev: WidgetEvent): (r: Option<Command>)
    ensures r.None? <==> !Accepted(cfg.panelId, ev)
    ensures r.Some? ==>
              && r.value.KeyClick?
              && r.value.connectorId == cfg.cecDevice.connectorId
              && r.value.logicalAddress == cfg.cecDevice.logicalAddress
              && Some(r.value.namedKey) == RouteWidget(cfg.panelId, ev)
  {
    match RouteWidget(cfg.panelId, ev)
    case None => None
    case Some(k) => Some(KeyClick(cfg.cecDevice.connectorId, cfg.cecDevice.logicalAddress, k))
  }

  /** The commands a stream of widget events produces, each handled on its own */
  function WidgetCommands(cfg: Config, evs: seq<WidgetEvent>): (cmds: seq<Command>)
    ensures |cmds| <= |evs|
    ensures (forall i :: 0 <= i < |evs| ==> Accepted(cfg.panelId, evs[i])) ==> |cmds| == |evs|
    ensures forall i :: 0 <= i < |cmds| ==>
              && cmds[i].KeyClick?
              && cmds[i].connectorId == cfg.cecDevice.connectorId
              && cmds[i].logicalAddress == cfg.cecDevice.logicalAddress
    decreases |evs|
  {
    if |evs| == 0 then []
    else
      assert forall i :: 0 <= i < |evs[1..]| ==> evs[1..][i] == evs[i + 1];
      HandleWidgetAction(cfg, evs[0]).ToSeq() + WidgetCommands(cfg, evs[1..])
  }

  /** One event yields exactly its key click when accepted and nothing otherwise;
      with WidgetCommandsConcat this fixes the commands of every stream */
  lemma WidgetCommandsOfOne(cfg: Config, ev: WidgetEvent)
    ensures WidgetCommands(cfg, [ev]) ==
              if Accepted(cfg.panelId, ev)
              then [KeyClick(cfg.cecDevice.connectorId, cfg.cecDevice.logicalAddress,
                             RouteWidget(cfg.panelId, ev).value)]
              else []
  {
    assert [ev][1..] == [];
  }

  /** The handler keeps no state: the commands of two event streams in a row are
      the commands of the first followed by those of the second */
  lemma {:induction false} WidgetCommandsConcat(cfg: Config, a: seq<WidgetEvent>, b: seq<WidgetEvent>)
    ensures WidgetCommands(cfg, a + b) == WidgetCommands(cfg, a) + WidgetCommands(cfg, b)
    decreases |a|
  {
    if |a| > 0 {
      assert (a + b)[0] == a[0];
      assert (a + b)[1..] == a[1..] + b;
      WidgetCommandsConcat(cfg, a[1..], b);
    } else {
      assert a + b == b;
    }
  }

  /** No key is ever sent for a stream of events the filters reject */
  lemma {:induction false} RejectedEventsSendNothing(cfg: Config, evs: seq<WidgetEvent>)
    requires forall i :: 0 <= i < |evs| ==> !Accepted(cfg.panelId, evs[i])
    ensures WidgetCommands(cfg, evs) == []
    decreases |evs|
  {
    if |evs| > 0 {
      assert forall i :: 0 <= i < |evs[1..]| ==> evs[1..][i] == evs[i + 1];
      RejectedEventsSendNothing(cfg, evs[1..]);
    }
  }

  /** The filter is a bare prefix test: a widget of another panel whose id merely
      extends this one's, such as `appleTVX-Back`, is handled as this panel's */
  lemma PrefixFilterAdmitsLongerPanelIds(cfg: Config, other: string, suffix: string, value: string)
    requires Dash !in cfg.panelId + other && Dash !in suffix && suffix != NavigatorRole
    ensures HandleWidgetAction(cfg, WidgetEvent(ClickedType, cfg.panelId + other + [Dash] + suffix, value))
            == Some(KeyClick(cfg.cecDevice.connectorId, cfg.cecDevice.logicalAddress, Named(suffix)))
  {
    SecondComponentAfterPrefix(cfg.panelId + other, suffix);
    assert cfg.panelId + other + [Dash] + suffix == cfg.panelId + (other + [Dash] + suffix);
  }

  /** The page handler as the macro writes it */
  function HandlePageAction(cfg: Config, ev: PageEvent): (r: Option<Command>)
    ensures r.None? <==> ev.pageId != cfg.panelId
    ensures r == Some(PresentationStop) <==> ev.pageId == cfg.panelId && ev.actionType == CloseCheckLiteral
    ensures r.Some? && ev.actionType != CloseCheckLiteral ==>
              r == Some(PresentationStart(cfg.cecDevice.connectorId))
  {
    if ev.pageId != cfg.panelId then None
    else if ev.actionType == CloseCheckLiteral then Some(PresentationStop)
    else Some(PresentationStart(cfg.cecDevice.connectorId))
  }

  const OpenedType: string := "Opened"
  const ClosedType: string := "Closed"

  /** The page transitions the host reports */
  predicate IsHostTransition(t: string) {
    t == OpenedType || t == ClosedType
  }

  /** As written, no transition the host reports stops the presentation: closing the
      page starts it again on the configured connector */
  lemma ClosingThePageStartsPresentation(cfg: Config, t: string)
    requires IsHostTransition(t)
    ensures HandlePageAction(cfg, PageEvent(cfg.panelId, t)) == Some(PresentationStart(cfg.cecDevice.connectorId))
    ensures HandlePageAction(cfg, PageEvent(cfg.panelId, ClosedType)) != Some(PresentationStop)
  {
    assert ClosedType != CloseCheckLiteral && OpenedType != CloseCheckLiteral;
  }

  /** The page handler with the close check spelled `Closed`: opening the page starts
      the presentation, closing it stops it */
  function HandlePageActionIntended(cfg: Config, ev: PageEvent): (r: Option<Command>)
    ensures r.None? <==> ev.pageId != cfg.panelId
    ensures r == Some(PresentationStop) <==> ev.pageId == cfg.panelId && ev.actionType == ClosedType
    ensures r.Some? && ev.actionType != ClosedType ==>
              r == Some(PresentationStart(cfg.cecDevice.connectorId))
  {
    if ev.pageId != cfg.panelId then None
    else if ev.actionType == ClosedType then Some(PresentationStop)
    else Some(PresentationStart(cfg.cecDevice.connectorId))
  }

  /** The corrected handler stops on close and starts on open; it differs from the
      written one only on the two literals `Closed` and `Cpened` */
  lemma IntendedHandlerPairsOpenAndClose(cfg: Config, ev: PageEvent)
    ensures HandlePageActionIntended(cfg, PageEvent(cfg.panelId, ClosedType)) == Some(PresentationStop)
    ensures HandlePageActionIntended(cfg, PageEvent(cfg.panelId, OpenedType))
            == Some(PresentationStart(cfg.cecDevice.connectorId))
    ensures ev.actionType != ClosedType && ev.actionType != CloseCheckLiteral ==>
              HandlePageActionIntended(cfg, ev) == HandlePageAction(cfg, ev)
  {
    assert OpenedType != ClosedType;
  }
}
