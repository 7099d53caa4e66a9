/** Builds the panel descriptor the macro saves at startup: its icon, placement,
    order and the page of three widgets whose ids the widget handler later parses.
    The results of the icon download, the panel listing and the Teams probe are
    inputs rather than calls. */
module PanelBuilder {
  import opened Wrappers
  import opened JsStrings
  import opened Configuration
  import opened OrderResolver

  /** What the icon download returned: a custom icon id, or a failure */
  datatype DownloadOutcome = Downloaded(iconId: string) | DownloadFailed

  /** Whether the Teams-integration listing call succeeded */
  datatype ProbeOutcome = ProbeSucceeded | ProbeFailed

  /** The JavaScript value held in `icon`: a markup string, or `false` */
  datatype IconValue = Markup(text: string) | False

  datatype Location = ControlPanel | HomeScreen

  datatype WidgetKind = DirectionalPad | PushButton

  datatype Widget = Widget(widgetId: string, kind: WidgetKind, options: string)

  datatype Page = Page(name: string, widgets: seq<Widget>, pageId: string, options: string)

  /** The descriptor; `iconSlot` and `orderSlot` are the text interpolated into it */
  datatype Panel = Panel(panelId: string, location: Location, iconSlot: string, orderSlot: string,
                         name: string, page: Page)

  /** The save request: the panel id and the descriptor */
  datatype SaveCommand = Save(panelId: string, panel: Panel)


  predicate IsUrl(icon: string) {
    "http" <= icon
  }

  function CustomIconMarkup(iconId: string): string {
    "<Icon>Custom</Icon><CustomIcon><Id>" + iconId + "</Id></CustomIcon>"
  }

  /** The download the builder requests, if any: only an `http` icon is fetched */
  function IconDownloadUrl(icon: string): (url: Option<string>)
    ensures url.Some? <==> IsUrl(icon)
    ensures url.Some? ==> url.value == icon
  {
    if IsUrl(icon) then Some(icon) else None
  }

  /** The icon value: an inline icon name, the custom icon on a successful
      download, `false` on a failed one */
  function ResolveIcon(icon: string, download: DownloadOutcome): (v: IconValue)
    ensures !IsUrl(icon) ==> v == Markup("<Icon>" + icon + "</Icon>")
    ensures IsUrl(icon) && download.Downloaded? ==> v == Markup(CustomIconMarkup(download.iconId))
    ensures IsUrl(icon) && download.DownloadFailed? ==> v == False
  {
    if !IsUrl(icon) then Markup("<Icon>" + icon + "</Icon>")
    else match download
      case Downloaded(id) => Markup(CustomIconMarkup(id))
      case DownloadFailed => False
  }

  /** `${icon}`: a markup string is inserted as it is, and the value `false` is
      rendered by its name rather than leaving the slot empty */
  function Interpolate(v: IconValue): (t: string)
    ensures v.Markup? ==> t == v.text
    ensures v.False? ==> t == "false"
  {
    match v
    case Markup(t) => t
    case False => "false"
  }

  /** Placement: inside the control panel when the Teams listing call succeeds,
      on the home screen when it rejects */
  function ResolveLocation(probe: ProbeOutcome): (loc: Location)
    ensures loc == ControlPanel <==> probe.ProbeSucceeded?
    ensures loc == HomeScreen <==> probe.ProbeFailed?
  {
    if probe.ProbeSucceeded? then ControlPanel else HomeScreen
  }

  /** A widget id: the base panel id, a dash, the widget's role */
  function WidgetIdFor(panelId: string, suffix: string): (id: string)
    ensures panelId + [Dash] <= id
    ensures id[|panelId| + 1..] == suffix
  {
    panelId + [Dash] + suffix
  }

  /** The role each of the three widgets is built with */
  function WidgetRole(i: nat): string
    requires i < 3
  {
    [NavigatorRole, BackRole, PlayRole][i]
  }

  /** The page's row: a directional pad, a Back button and a Play button, each with
      an id namespaced by the panel id */
  function BuildWidgets(panelId: string): (ws: seq<Widget>)
    ensures |ws| == 3
    ensures forall i :: 0 <= i < 3 ==> ws[i].widgetId == panelId + [Dash] + WidgetRole(i)
    ensures forall w :: w in ws ==> panelId + [Dash] <= w.widgetId
    ensures ws[0].kind == DirectionalPad && ws[0].options == "size=4"
    ensures ws[1].kind == PushButton && ws[1].options == "size=1;icon=list"
    ensures ws[2].kind == PushButton && ws[2].options == "size=1;icon=play_pause"
  {
    [ Widget(WidgetIdFor(panelId, NavigatorRole), DirectionalPad, "size=4"),
      Widget(WidgetIdFor(panelId, BackRole), PushButton, "size=1;icon=list"),
      Widget(WidgetIdFor(panelId, PlayRole), PushButton, "size=1;icon=play_pause") ]
  }

  /** The save request issued at startup, from the configuration and the outcomes of
      the icon download, the panel listing and the Teams probe; None when the
      listing call rejects, since that rejection is not caught and the save is
      never reached */
  function CreatePanel(cfg: Config, download: DownloadOutcome, listing: ListingOutcome,
                       probe: ProbeOutcome): (r: Option<SaveCommand>)
    ensures r.None? <==> listing.ListingRejected?
    ensures r.Some? ==>
              && r.value.panelId == cfg.panelId
              && r.value.panel.panelId == cfg.panelId
              && r.value.panel.page.pageId == cfg.panelId
              && r.value.panel.name == cfg.button.name
              && r.value.panel.page.name == cfg.button.name
              && r.value.panel.page.widgets == BuildWidgets(cfg.panelId)
    ensures r.Some? ==> (r.value.panel.location == ControlPanel <==> probe.ProbeSucceeded?)
    ensures r.Some? && !IsUrl(cfg.button.icon) ==>
              r.value.panel.iconSlot == "<Icon>" + cfg.button.icon + "</Icon>"
    ensures r.Some? && IsUrl(cfg.button.icon) && download.Downloaded? ==>
              r.value.panel.iconSlot == CustomIconMarkup(download.iconId)
    ensures r.Some? && IsUrl(cfg.button.icon) && download.DownloadFailed? ==>
              r.value.panel.iconSlot == "false"
    ensures r.Some? ==>
              r.value.panel.orderSlot == ResolveOrder(cfg.panelId, cfg.button.order, listing.panels)
  {
    var panelId := cfg.panelId;
    var icon := ResolveIcon(cfg.button.icon, download);
    match PanelOrder(panelId, cfg.button.order, listing)
    case None => None
    case Some(order) =>
      var location := ResolveLocation(probe);
      var page := Page(cfg.button.name, BuildWidgets(panelId), panelId, "hideRowNames=1");
      Some(Save(panelId, Panel(panelId, location, Interpolate(icon), order, cfg.button.name, page)))
  }

  /** A named icon needs no download: the save is the same whatever the download
      would have returned */
  lemma NamedIconIgnoresDownload(cfg: Config, d1: DownloadOutcome, d2: DownloadOutcome,
                                 listing: ListingOutcome, probe: ProbeOutcome)
    requires !IsUrl(cfg.button.icon)
    ensures IconDownloadUrl(cfg.button.icon).None?
    ensures CreatePanel(cfg, d1, listing, probe) == CreatePanel(cfg, d2, listing, probe)
  {
  }

  /** A failed download still publishes the panel, with the text `false` in the icon
      slot and the same page as a successful one */
  lemma FailedDownloadKeepsPanel(cfg: Config, panels: Option<seq<PanelRecord>>, probe: ProbeOutcome)
    requires IsUrl(cfg.button.icon)
    ensures CreatePanel(cfg, DownloadFailed, ListingReturned(panels), probe).Some?
    ensures CreatePanel(cfg, DownloadFailed, ListingReturned(panels), probe).value.panel.iconSlot == "false"
    ensures CreatePanel(cfg, DownloadFailed, ListingReturned(panels), probe).value.panel.page
            == CreatePanel(cfg, Downloaded("1"), ListingReturned(panels), probe).value.panel.page
  {
  }

  /** The shipped configuration on a non-Teams device with no earlier panel */
  lemma DefaultPanelExample()
    ensures var r := CreatePanel(DefaultConfig, DownloadFailed, ListingReturned(None), ProbeFailed);
            && r.Some?
            && r.value.panel.iconSlot == "<Icon>Tv</Icon>"
            && r.value.panel.orderSlot == "<Order>1</Order>"
            && r.value.panel.location == HomeScreen
            && r.value.panel.page.widgets[1].widgetId == "appleTV-Back"
  {
    assert !IsUrl("Tv");
    PreferredOrderExample();
    assert PanelOrder("appleTV", Number(1), ListingReturned(None)) == Some("<Order>1</Order>");
    assert BuildWidgets("appleTV")[1].widgetId == "appleTV" + [Dash] + BackRole;
  }
}
