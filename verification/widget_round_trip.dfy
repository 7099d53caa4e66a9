/** The contract between the panel builder and the event router: the ids the
    builder gives the widgets are the ids the router parses back into keys. */
module WidgetRoundTrip {
  import opened Wrappers
  import opened JsStrings
  import opened Configuration
  import opened KeyMapper
  import opened EventRouter
  import opened OrderResolver
  import opened PanelBuilder

  /** The key a click on a widget with role `suffix` is meant to send */
  function KeyForRole(suffix: string, value: string): string {
    if suffix == NavigatorRole then NavigatorKey(value) else suffix
  }

  /** Clicking a widget built from a dash-free panel id and role sends the role's key */
  lemma RouteBuiltWidgetId(panelId: string, suffix: string, value: string)
    requires Dash !in panelId && Dash !in suffix
    ensures RouteWidget(panelId, WidgetEvent(ClickedType, WidgetIdFor(panelId, suffix), value))
            == Some(Named(KeyForRole(suffix, value)))
  {
    SecondComponentAfterPrefix(panelId, suffix);
  }

  /** Clicking any of the three widgets of the saved panel sends `Back`, `Play`, or the
      mapped direction for the navigator, to the configured device */
  lemma ClickingBuiltWidgetsSendsTheirKeys(cfg: Config, download: DownloadOutcome,
                                           listing: ListingOutcome, probe: ProbeOutcome,
                                           i: nat, value: string)
    requires Dash !in cfg.panelId && i < 3
    ensures var r := CreatePanel(cfg, download, listing, probe);
            r.Some? ==>
              HandleWidgetAction(cfg, WidgetEvent(ClickedType, r.value.panel.page.widgets[i].widgetId, value))
              == Some(KeyClick(cfg.cecDevice.connectorId, cfg.cecDevice.logicalAddress,
                               Named(KeyForRole(WidgetRole(i), value))))
    ensures i == 1 ==> KeyForRole(WidgetRole(i), value) == "Back"
    ensures i == 2 ==> KeyForRole(WidgetRole(i), value) == "Play"
    ensures i == 0 ==> KeyForRole(WidgetRole(i), value) == NavigatorKey(value)
  {
    assert BuildWidgets(cfg.panelId)[i].widgetId == WidgetIdFor(cfg.panelId, WidgetRole(i));
    RouteBuiltWidgetId(cfg.panelId, WidgetRole(i), value);
  }

  /** Every widget the builder creates passes the router's filters, whatever the panel id */
  lemma BuiltWidgetsPassFilter(cfg: Config, value: string)
    ensures forall w :: w in BuildWidgets(cfg.panelId) ==>
              HandleWidgetAction(cfg, WidgetEvent(ClickedType, w.widgetId, value)).Some?
  {
    forall w | w in BuildWidgets(cfg.panelId)
      ensures cfg.panelId <= w.widgetId
    {
      assert cfg.panelId <= cfg.panelId + [Dash];
    }
  }

  /** The saved page's open and close events reach the page handler */
  lemma BuiltPageIsHandled(cfg: Config, download: DownloadOutcome,
                           listing: ListingOutcome, probe: ProbeOutcome, t: string)
    ensures var r := CreatePanel(cfg, download, listing, probe);
            r.Some? ==> HandlePageAction(cfg, PageEvent(r.value.panel.page.pageId, t)).Some?
  {
  }

  /** A dash inside the panel id breaks the round trip: with id `apple-tv` the back
      button sends `tv` */
  lemma DashInPanelIdBreaksRouting()
    ensures RouteWidget("apple-tv", WidgetEvent(ClickedType, WidgetIdFor("apple-tv", BackRole), ""))
            == Some(Named("tv"))
  {
    var id := WidgetIdFor("apple-tv", BackRole);
    assert id == "apple" + [Dash] + ("tv" + [Dash] + BackRole);
    SecondComponentAfterPrefix("apple", "tv" + [Dash] + BackRole);
    SplitAfterPrefix("tv", Dash, BackRole);
    assert "apple-tv" <= id;
  }

  /** Clicks on the shipped configuration's pad and buttons */
  lemma DefaultClickExamples()
    ensures HandleWidgetAction(DefaultConfig, WidgetEvent(ClickedType, WidgetIdFor("appleTV", NavigatorRole), "left"))
            == Some(KeyClick(2, 4, Named("Left")))
    ensures HandleWidgetAction(DefaultConfig, WidgetEvent(ClickedType, WidgetIdFor("appleTV", NavigatorRole), "center"))
            == Some(KeyClick(2, 4, Named("Ok")))
    ensures HandleWidgetAction(DefaultConfig, WidgetEvent(ClickedType, WidgetIdFor("appleTV", PlayRole), ""))
            == Some(KeyClick(2, 4, Named("Play")))
    ensures HandleWidgetAction(DefaultConfig, WidgetEvent("pressed", WidgetIdFor("appleTV", PlayRole), "")) == None
    ensures HandleWidgetAction(DefaultConfig, WidgetEvent(ClickedType, "appleTV", "")) == Some(KeyClick(2, 4, Undefined))
  {
    assert Dash !in "appleTV";
    RouteBuiltWidgetId("appleTV", NavigatorRole, "left");
    RouteBuiltWidgetId("appleTV", NavigatorRole, "center");
    RouteBuiltWidgetId("appleTV", PlayRole, "");
    assert Capitalize("left") == "Left";
  }
}
