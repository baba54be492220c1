# weather_rs: the "Get Weather" callback, modelled in Dafny

weather_rs is a small desktop widget: the user types a city name and presses
"Get Weather", the program asks the OpenWeatherMap API for the current
weather and shows the temperature, the wind speed, an emoji for the
weather condition and its description, or an alert when the request fails.
All the behaviour worth stating lives in the button callback of
`src/main.rs`, and this project models exactly that:

- `icons.dfy` (module `Icons`): the rule that maps the integer id of the
  first condition entry to an icon glyph. `IconFor` is the ordered `match`
  as the source writes it (`None` is the wildcard arm that leaves the icon
  label alone). Its partner is `IconTable`, the same arms as data, with the
  first-match scan `FirstMatch`. The lemmas prove the two agree, that the
  arms never overlap, and that the arms can therefore be read in any
  order. They also pin down every exact code, every inclusive range
  boundary and every gap.
- `status.dfy` (module `Status`): the rule that maps the HTTP status
  (section 15 of RFC 9110) to "decode the body" or an alert text. Its
  partner is the table `AlertTable` with the lookup `Lookup`.
- `widget.dfy` (module `Widget`): the callback as a state update. The class
  `WeatherWindow` holds the text field, the five labels and the alert of
  the latest click. `OnClick` performs the callback's steps in the source's
  order. Its postcondition ties the new state to the specification function
  `Step` applied to the old state. The lemmas about `Step` state what a click
  changes and what it leaves alone.
- `wrappers.dfy` (module `Wrappers`): `Option` and `Result`.

The alert for status 400 is "Bad Request.Check the city name", with no
space after the full stop, as src/main.rs:148 writes it.

## Model

| member | source | states |
|---|---|---|
| `Icons.FirstMatch` | src/main.rs:132-141 | first-match evaluation of ordered arms gives no icon exactly when no arm covers the id, and otherwise the icon of an arm that covers it |
| `Icons.FirstCoveringArmDecides` | src/main.rs:132-141 | when arm k covers the id and no earlier arm does, first-match evaluation selects arm k's icon |
| `Icons.IconForIsFirstMatch` | src/main.rs:132-141 | the source's `match` and the first-match scan of its arm table select the same icon for every id |
| `Icons.IconTableDisjoint` | src/main.rs:132-141 | no id is covered by two arms of the source's `match` |
| `Icons.ReorderedArmsAgree` | src/main.rs:132-141 | for disjoint arms, any list holding the same arms (any order, any repetition) selects the same icon for every id |
| `Icons.IconRuleOrderIndependent` | src/main.rs:132-141 | every permutation of the source's arms selects the icon the source selects, for every id |
| `Icons.ExactArms` | src/main.rs:133-136 | Sun exactly for 800, FewClouds exactly for 801, Cloud exactly for 802, 803 and 804 |
| `Icons.RangeArmsInclusive` | src/main.rs:135-140 | Umbrella exactly on 300..321, Rain on 500..532, Thunder on 200..232, Snow on 600..622, Fog on 701..781, both ends included |
| `Icons.UncoveredIds` | src/main.rs:141 | no icon exactly for ids below 200, in the gaps 233..299, 322..499, 533..599, 623..700, 782..799, and above 804 |
| `Icons.GlyphInjective` | src/main.rs:133-140 | different icons write different label texts |
| `Status.Lookup` | src/main.rs:147-152 | the lookup finds no text exactly when no entry has the status, and otherwise the text of an entry for it |
| `Status.LookupIsFirst` | src/main.rs:147-152 | when entry k has the status and no earlier entry does, the lookup gives entry k's text |
| `Status.ClassifyIsTableLookup` | src/main.rs:127-153 | 200 decodes; any other status alerts with its table text, or "HTTP Error" when the table has none |
| `Status.OnlyOkDecodes` | src/main.rs:127-128 | the body is decoded exactly when the status is 200 |
| `Status.NamedAlerts` | src/main.rs:147-152 | the exact alert texts for 404, 400, 403, 502, 500 and 301 |
| `Status.GenericAlertExactly` | src/main.rs:153 | "HTTP Error" exactly for statuses other than 200, 301, 400, 403, 404, 500, 502 |
| `Status.AlertIdentifiesStatus` | src/main.rs:147-153 | a named status's verdict is shared by no other status |
| `Widget.ClickEchoesCity` | src/main.rs:115-117 | every click moves the typed city into the city label and clears the text field |
| `Widget.AlertIffNotRendered` | src/main.rs:127-154 | a click raises an alert exactly when the status is not 200 or the body fails to decode |
| `Widget.HttpErrorTouchesNoReading` | src/main.rs:147-153 | a non-200 status leaves temperature, wind, icon and description labels unchanged and raises the status's alert |
| `Widget.DecodeErrorTouchesNoReading` | src/main.rs:128-145 | a 200 whose body fails to decode leaves the four reading labels unchanged and raises the decoder's error text |
| `Widget.SuccessRendersResponse` | src/main.rs:129-143 | a decoded 200 shows the first entry's description, a temperature ending in "°C ", a wind ending in "m/s", the glyph of the icon the rule selects, and no alert |
| `Widget.UncoveredIdKeepsIcon` | src/main.rs:141 | a condition id no arm covers leaves the icon label as it was |
| `Widget.WeatherWindow.constructor` | src/main.rs:88-109 | the window starts with every widget text empty and no alert |
| `Widget.WeatherWindow.OnClick` | src/main.rs:114-155 | the callback's updates produce exactly the screen `Step` computes from the previous screen |

## Left out

- Window, widget and theme construction, the window icon, the Enter shortcut and the event loop: layout with no stated behaviour.
- Reading the API key from the environment: the key only goes into the URL, which is not modelled.
- Building the URL and the blocking HTTP GET, including the panic when the transport fails: the status arrives as a plain input.
- Moving keyboard focus back to the text field, and its `unwrap`: no visible state in the model.
- JSON decoding of the response: it arrives as a `Result` of a record or the decoder's error text. The record keeps only the fields the callback reads: the condition entries, the temperature and the wind speed. Coordinates, base, pressure, humidity, visibility, clouds, timestamps, the system block, timezone, city id, name and `cod` are not modelled.
- Widget.Response: the temperature and the wind speed are the text that default `f64` formatting produces, taken as given, so only the "°C " and "m/s" suffixes are stated.
- Widget.Renderable: a decoded response with an empty condition list makes the source panic after it has already set the temperature and wind labels; the model requires the list to be non-empty instead of modelling the panic.
- The alert dialog is modal; the model records its text in the window's `alert` and does not model blocking.
- The `constants` module is not part of this model; it holds layout values and the window icon's SVG data (`APP_LOGO`).
