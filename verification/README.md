# CEC control macro — a Dafny model of its decision logic

The macro runs on a collaboration endpoint. It publishes a touch-panel extension
(a directional pad, a Back button and a Play button) and turns taps on it into
HDMI-CEC key clicks sent to a playback device on one video input connector.
Opening the panel's page starts the presentation of that connector. The model
covers the pure logic between the host's events and the outbound commands:

- the widget-action router and the navigator key mapping;
- the page-action dispatcher, with its literal `Cpened` comparison;
- the order resolver, which reuses the order of an already-installed panel;
- the icon and location choices made while building the panel;
- the widget ids the panel builder emits, and the round trip from those ids
  back to keys through the router.

Modules: `JsStrings` (the JavaScript string built-ins used: `split('-')`, the
capitalise idiom, number rendering), `Configuration`, `KeyMapper`,
`EventRouter`, `OrderResolver`, `PanelBuilder`, and `WidgetRoundTrip`, which
ties the builder to the router. Every host call is abstracted:

- outbound calls (key click, presentation start/stop, panel save) are
  returned as `Command` / `SaveCommand` values;
- the icon download, the custom-panel listing and the Teams listing probe are
  inputs (`DownloadOutcome`, `ListingOutcome`, `ProbeOutcome`).

Three behaviours of the code are modelled as written, though they may surprise
a reader:

- The page handler stops the presentation only for the transition type `Cpened`,
  so `Closed` and `Opened` both start it. See Findings.
- When the icon download fails, the icon slot of the descriptor holds the text
  `false`, because `${icon}` renders the value `false` by name.
- A widget id with no `-` that passes the prefix filter still sends a key click,
  with an `undefined` named key (`KeyArg.Undefined`).

A rejected custom-panel listing call is not caught, so no panel is saved; the
model returns `None` from `PanelBuilder.CreatePanel` in that case.

## Model

| member | source | states |
|---|---|---|
| JsStrings.Split | cec-control-macro.js:58 | splitting on `-` yields at least one piece; no piece contains the separator; there is exactly one piece iff the string has no separator |
| JsStrings.JoinSplit | cec-control-macro.js:58 | joining the pieces of a split with the separator gives back the original widget id |
| JsStrings.SplitJoin | cec-control-macro.js:58 | splitting a join of separator-free pieces gives back exactly those pieces |
| JsStrings.SplitWithoutSeparator | cec-control-macro.js:58 | a string without `-` splits into itself alone |
| JsStrings.SplitAfterPrefix | cec-control-macro.js:58 | `p-x` with a dash-free `p` splits into `p` followed by the pieces of `x` |
| JsStrings.SecondComponent | cec-control-macro.js:58 | the destructured `widget` is undefined iff the id has no `-`; when present it holds no `-` |
| JsStrings.SecondComponentAfterPrefix | cec-control-macro.js:58 | for a dash-free `p`, the second component of `p-x` is the first piece of `x`, and it is `x` itself when `x` is dash-free |
| JsStrings.Capitalize | cec-control-macro.js:60 | same length as the value; the first character is `UpperChar` of the value's first character, and the rest is unchanged; a value already starting with a non-lower-case character is returned unchanged |
| JsStrings.UpperChar | cec-control-macro.js:60 | a lower-case ASCII letter becomes the upper-case letter at the same alphabet position; every other character is unchanged |
| JsStrings.NatToString | cec-control-macro.js:146 | the rendering is a decimal string, with no leading zero unless it is `0`, whose digits denote exactly n |
| JsStrings.NumberToString | cec-control-macro.js:146 | `${n}` for an integer (exact as JavaScript while abs(n) ≤ 2^53): a minus sign before the decimal digits of -n for a negative n, otherwise the decimal digits of n |
| JsStrings.RenderingIsInjective | cec-control-macro.js:146 | two integers with the same rendering are equal, so the Order element determines the preference |
| KeyMapper.NavigatorKey | cec-control-macro.js:59-61 | `center` maps to exactly `Ok`; any other value maps to a string of the same length whose first character is upper-cased and whose other characters are unchanged; a non-empty key never starts with a lower-case letter |
| KeyMapper.NavigatorKeyMatchesDirectionTable | cec-control-macro.js:60 | the pad values up, down, left, right and center map to Up, Down, Left, Right and Ok |
| EventRouter.RouteWidget | cec-control-macro.js:55-63 | no key iff the widget id does not start with the panel id or the type is not `clicked`; an undefined key iff the event is accepted and the id has no `-`; the mapped direction for the `navigator` component; otherwise exactly the second `-`-separated component |
| EventRouter.HandleWidgetAction | cec-control-macro.js:55-76 | a command is issued iff both filters pass, and it is a key click carrying the configured connector id, the configured logical address and the routed key |
| EventRouter.WidgetCommands | cec-control-macro.js:55-64 | a stream of widget events yields at most one command per event, and exactly one per event when all are accepted; each is a key click to the configured connector and logical address |
| EventRouter.WidgetCommandsOfOne | cec-control-macro.js:55-64 | a single event yields exactly its routed key click when it passes both filters, and nothing otherwise |
| EventRouter.WidgetCommandsConcat | cec-control-macro.js:55-64 | the handler keeps no state: the commands of two consecutive event streams are the commands of the first followed by those of the second |
| EventRouter.RejectedEventsSendNothing | cec-control-macro.js:56-57 | events with a foreign prefix or a type other than `clicked` never produce a key click |
| EventRouter.PrefixFilterAdmitsLongerPanelIds | cec-control-macro.js:56 | the prefix filter does not require the separator: a click on `appleTVX-Back` sends `Back` to this device |
| EventRouter.HandlePageAction | cec-control-macro.js:47-52 | nothing iff the page id differs from the panel id; Stop iff the page matches and the type is the literal `Cpened`; every other type on the page starts the presentation on the configured connector |
| EventRouter.ClosingThePageStartsPresentation | cec-control-macro.js:50-51 | for the host's transitions `Opened` and `Closed`, the written handler starts the presentation, and `Closed` never stops it |
| EventRouter.HandlePageActionIntended | cec-control-macro.js:50-51 | with the close check spelled `Closed`: nothing for other pages; Stop iff the type is `Closed`; Start on the configured connector otherwise |
| EventRouter.IntendedHandlerPairsOpenAndClose | cec-control-macro.js:50-51 | the corrected handler stops on `Closed` and starts on `Opened`, and agrees with the written one on every type other than `Closed` and `Cpened` |
| OrderResolver.OrderElement | cec-control-macro.js:152 | the element is `<Order>`, the text unchanged, then `</Order>` |
| OrderResolver.PreferredDirective | cec-control-macro.js:146 | empty iff the preference is not a Number; for a Number, an Order element whose content is the decimal rendering of that number |
| OrderResolver.FindPanel | cec-control-macro.js:150 | the position found holds the first record with the panel id; none is found only if no record has it |
| OrderResolver.ResolveOrder | cec-control-macro.js:148-153 | when the listing has a record with the panel id, the result is the Order element of the first such record; when the listing is absent or has no match, the result is the preferred directive |
| OrderResolver.PanelOrder | cec-control-macro.js:145-153 | no directive iff the listing call rejects; otherwise the directive resolved from the listing's panels |
| OrderResolver.ExistingOrderIgnoresPreference | cec-control-macro.js:150-152 | with a matching record present, the preferred value does not affect the result |
| OrderResolver.OtherPanelsDoNotMatter | cec-control-macro.js:150-152 | non-matching records before the match, and any records after it, do not change the order taken from the match |
| OrderResolver.EmptyListingIsNotFound | cec-control-macro.js:148-151 | an empty panel list gives the same directive as an absent one |
| OrderResolver.StoredOrderExample | cec-control-macro.js:150-152 | a stored order 7 for `appleTV` beats the preference 1 |
| OrderResolver.PreferredOrderExample | cec-control-macro.js:146-149 | with no listing, the preference 1 gives `<Order>1</Order>` |
| OrderResolver.NoOrderExample | cec-control-macro.js:146-149 | with no listing, a preference that is not a Number gives the empty string |
| OrderResolver.NegativeOrderExample | cec-control-macro.js:146-151 | with no matching record, the preference -12 gives `<Order>-12</Order>` |
| PanelBuilder.IconDownloadUrl | cec-control-macro.js:85 | a download is requested iff the icon starts with `http`, and for that URL |
| PanelBuilder.ResolveIcon | cec-control-macro.js:132-139 | a name not starting with `http` becomes `<Icon>name</Icon>`; a URL becomes the custom-icon fragment holding the downloaded icon id on success, and `false` on failure |
| PanelBuilder.Interpolate | cec-control-macro.js:96 | a markup icon is inserted unchanged; the value `false` is rendered as the non-empty text `false` |
| PanelBuilder.ResolveLocation | cec-control-macro.js:87-89 | ControlPanel iff the Teams listing call succeeds, HomeScreen iff it rejects |
| PanelBuilder.WidgetIdFor | cec-control-macro.js:103-113 | a widget id is the panel id and a dash followed by exactly the role |
| PanelBuilder.BuildWidgets | cec-control-macro.js:101-117 | three widgets: `panelId-navigator` as a directional pad of size 4, `panelId-Back` with the list icon and `panelId-Play` with the play/pause icon; each id starts with the panel id and a dash |
| PanelBuilder.CreatePanel | cec-control-macro.js:82-126 | nothing is saved iff the listing call rejects; otherwise the save targets the panel id; the page id is the panel id; the location is ControlPanel iff the Teams probe succeeds; the icon slot is the resolved icon as interpolated (`false` on a failed download); the order slot is the resolved order; the widgets are the three built ones |
| PanelBuilder.NamedIconIgnoresDownload | cec-control-macro.js:85 | a named icon requests no download, and the descriptor does not depend on what a download would return |
| PanelBuilder.FailedDownloadKeepsPanel | cec-control-macro.js:85-96 | a failed download still publishes the panel, with the text `false` in the icon slot and the same page |
| PanelBuilder.DefaultPanelExample | cec-control-macro.js:82-98 | the shipped configuration on a non-Teams device with no earlier panel yields `<Icon>Tv</Icon>`, `<Order>1</Order>`, HomeScreen and the widget id `appleTV-Back` |
| WidgetRoundTrip.RouteBuiltWidgetId | cec-control-macro.js:103-113 | a click on a widget id built from a dash-free panel id and role sends the role itself, or the mapped direction for `navigator` |
| WidgetRoundTrip.ClickingBuiltWidgetsSendsTheirKeys | cec-control-macro.js:103-116 | for a dash-free panel id, clicking the widgets of a saved panel sends the mapped direction, `Back` and `Play` to the configured connector and address |
| WidgetRoundTrip.BuiltWidgetsPassFilter | cec-control-macro.js:56 | every widget the builder creates passes the router's filters when clicked, whatever the panel id |
| WidgetRoundTrip.BuiltPageIsHandled | cec-control-macro.js:118 | page events of a saved page always reach the page handler |
| WidgetRoundTrip.DashInPanelIdBreaksRouting | cec-control-macro.js:58 | with the panel id `apple-tv`, the Back button sends `tv`, so the round trip needs a dash-free panel id |
| WidgetRoundTrip.DefaultClickExamples | cec-control-macro.js:55-64 | with the shipped configuration: left sends `Left`, center sends `Ok`, Play sends `Play` to connector 2 at address 4; a non-click sends nothing; a bare `appleTV` id sends an undefined key |

## Left out

- Host calls are not modelled as calls. The `KeyClick`, `Presentation.Start/Stop` and `Panel.Save` requests are returned as command values. The `Icon.Download` request appears as the URL `IconDownloadUrl` returns. The `Extensions.List` and `MicrosoftTeams.List` requests, with their arguments, are not modelled; only their outcomes are inputs (`ListingOutcome`, `ProbeOutcome`). A rejection of `Panel.Save` itself, and whether the device accepts a key, are outside the model.
- The `async`/`await` ordering in `createPanel` (icon, then order, then location, then save) is left out: it is host-runtime sequencing with no effect on the values computed.
- The `console.log` traces are left out: they have no effect on the commands.
- The whitespace and layout of the panel XML template are left out. The descriptor is a datatype holding the interpolated icon and order slots, the location, the names, the widget ids, the widget types and the widget options.
- `button.color` is left out because nothing reads it.
- JsStrings.Capitalize: upper-cases only the ASCII letters `a`–`z`. JavaScript's `toUpperCase` applies full Unicode case mapping, which can change the length (`ß` becomes `SS`). Values carried by UTF-16 surrogate pairs are not modelled either.
- JsStrings.UpperChar: maps only the ASCII letters `a`–`z`; every other character, including non-ASCII letters, is returned unchanged.
- KeyMapper.NavigatorKey: inherits the ASCII-only upper-casing of Capitalize. Its same-length promise holds for the model, not for every Unicode value.
- JsStrings.NumberToString: matches JavaScript's `${n}` only for integers with abs(n) ≤ 2^53. A JavaScript Number is a double: above 2^53 it prints the shortest digits that round-trip, padded with zeros (2^60 prints as 1152921504606847000, not 1152921504606846976), and many such integers have no Number at all. Fractions, `NaN`, infinities and the exponent form are not modelled either.
- OrderResolver.PreferredDirective: a Number preference is modelled as an unbounded integer rendered in decimal. This matches the macro only while abs(n) ≤ 2^53, where every integer is an exact double; larger values render differently in JavaScript (see JsStrings.NumberToString). Fractional values, `NaN`, infinities and the exponent form JavaScript uses from 1e21 are not modelled.
- Listing records are taken to carry `PanelId` and `Order` as strings, as the host reports them. A record missing `Order` would render as `undefined`; that case is not modelled.
- Event fields are taken to be strings. A navigator click without a `Value` would throw in the handler; that case is not modelled.

## Findings

| source | as written | input that shows it | evidently intended | confidence | as-written member | corrected member |
|---|---|---|---|---|---|---|
| cec-control-macro.js:50 | the stop branch compares the transition type with the literal `Cpened`, which the host never reports | page event with the panel's page id and type `Closed`: the presentation is started on connector 2 instead of stopped | closing the page stops the presentation and opening it starts it, as the comment at line 46 about page open and close events suggests | medium; not executed | EventRouter.ClosingThePageStartsPresentation | EventRouter.HandlePageActionIntended |
