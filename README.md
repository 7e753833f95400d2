# WME GMAPS Layers — a Dafny model of its toggle and sync core

WME GMAPS Layers is a user script for the Waze Map Editor (WME). It lays a
Google Maps layer over the editor's map. A settings panel lets the user
choose which Google feature categories are drawn. Three surfaces show
whether the overlay is on: an on/off switch in the panel, a checkbox in
the editor's layer list, and the overlay div itself. An Alt+G shortcut
also flips it. The Google map follows the editor's map in centre and zoom.

This project models the logic of `WME-GMAPS-LAYERS.js` that goes beyond
building DOM elements:

- `Persist.dfy`: how booleans are read from and written to local storage.
  The enabled flag uses `(getItem ?? 'false') === 'true'`. Feature flags
  use `saved ? saved === 'true' : default`. Both are written as
  JavaScript's `String(b)`.
- `Styles.dfy`: the feature checkboxes. It covers their ids, which are
  also their storage keys: JavaScript `replace` with a string pattern
  changes only the first `.`. It covers loading them from storage, the
  style list `updateMapStyles` builds (six fixed "off" entries, then one
  "on" entry per checked box, in order), and the `#road` test that decides
  whether the traffic layer is attached.
- `Position.dfy`: one `synchronizeMapPosition` step as a function. The
  overlay takes the host's zoom and its projected centre. The projection
  from EPSG:900913 to EPSG:4326 is a parameter.
- `Layers.dfy`: the script's module-level state as the class
  `LayerController`. Local storage is a `map<string, string>` with a ghost
  count of writes. Each surface is an `Option` record. The registered
  checkbox callback is a flag, `callbackIsToggle`, because the only
  function the script ever stores there is `toggleLayer`.
  `SyncToggleState` really calls `ToggleLayer` while the guard
  `programmaticChange` is raised. The proof therefore covers the re-entrant
  call: it changes nothing, there is exactly one storage write per outer
  toggle, and the guard is lowered again on exit.
  `Reloadable()` says that reloading the page from the current storage
  would restore the current enabled flag and feature checkboxes. Every
  handler preserves it.
  `FirstSessionScenario` is a client that uses only these contracts. It
  starts from empty storage, ticks the host checkbox and then presses
  Alt+G. It follows the flag, the surfaces, the write count and the
  swallowed callback through each step.

Inputs from outside the script become parameters. These are the host
map's position (`HostView`), the checkbox that `querySelector` finds in
the host page (`found`), and the projection (`project`).

Notes on what the code does and does not do:

- The position sync does not skip its work while the overlay is hidden.
  Line 227 checks only that both maps exist.
- Showing the overlay does not trigger a position sync.
- Calling `toggleLayer(true)` twice writes storage twice. There is no
  de-duplication.
- A `setItem` that throws is not caught.
- This version has no style themes or presets.
- Traffic has no checkbox of its own. It follows the "Roads & Traffic"
  (`road`) checkbox.
- Each setting is stored under its own key, not in one blob.

## Model

| member | source | states |
|---|---|---|
| `Persist.GetItem` | WME-GMAPS-LAYERS.js:39 | `getItem` returns a value exactly when the key was written, and that value is the stored string |
| `Persist.BoolString` | WME-GMAPS-LAYERS.js:83 | the string `setItem` stores for a boolean is never empty, so the feature parse reads it as saved, and it is "true" exactly when the boolean is true |
| `Persist.ParseEnabled` | WME-GMAPS-LAYERS.js:39 | the startup parse is true exactly when the saved string is "true"; an absent key or any other string gives false |
| `Persist.ParseFeature` | WME-GMAPS-LAYERS.js:137-138 | an absent or empty saved value gives the feature's default; any other value gives true exactly when it is "true" |
| `Persist.EnabledRoundTrip` | WME-GMAPS-LAYERS.js:83 | reading the flag back with the startup parse, after `setItem(layerEnabledKey, b)`, gives `b` |
| `Persist.FeatureRoundTrip` | WME-GMAPS-LAYERS.js:149 | reading a feature flag back after `setItem(id, b)` gives `b`, whatever the default |
| `Styles.ReplaceFirstSpec` | WME-GMAPS-LAYERS.js:135 | `replace('.', '_')` changes the first '.' to '_' and keeps every other character, later dots included |
| `Styles.ReplaceFirstAbsent` | WME-GMAPS-LAYERS.js:135 | a string without '.' is left as it is |
| `Styles.ReplaceFirstAt` | WME-GMAPS-LAYERS.js:135 | for `a + "." + b` where `a` has no '.', the result is `a + "_" + b` |
| `Styles.FeatureId` | WME-GMAPS-LAYERS.js:135 | the id is as long as the feature type plus, for a non-empty element type, one '_' and the element type; it starts with the feature type with its first '.' replaced |
| `Styles.FeatureIdSuffix` | WME-GMAPS-LAYERS.js:135 | after the feature type, a non-empty element type adds '_' and its own text with the first '.' replaced; an absent or empty one adds nothing |
| `Styles.MakeInput` | WME-GMAPS-LAYERS.js:140-147 | the rendered checkbox has the derived id, the feature type, the given checked state, and an element type exactly when the spec's element type is non-empty |
| `Styles.LoadInput` | WME-GMAPS-LAYERS.js:135-138 | the checkbox for a spec reads its state from storage under its own id: an absent or empty value gives the default, any other value gives true exactly when it is "true" |
| `Styles.LoadInputs` | WME-GMAPS-LAYERS.js:249-256 | the panel's checkboxes are the specs' checkboxes, one per spec, in order, each loaded from storage |
| `Styles.PlainFeatureId` | WME-GMAPS-LAYERS.js:135 | a feature type without '.' and without an element type is its own id |
| `Styles.LandParcelId` | WME-GMAPS-LAYERS.js:251 | "administrative.land_parcel" gets the id "administrative_land_parcel" |
| `Styles.DefaultFeatureIds` | WME-GMAPS-LAYERS.js:250-255 | the six features of the panel get the ids road, administrative_land_parcel, landscape, poi, transit, water |
| `Styles.DefaultIdsDistinct` | WME-GMAPS-LAYERS.js:250-255 | no two panel features share a storage key, and none uses the enabled flag's key |
| `Styles.LoadAfterFeatureWrite` | WME-GMAPS-LAYERS.js:149 | after feature `i` writes its state, loading the panel from storage changes exactly checkbox `i`, to the written state |
| `Styles.LoadAfterOtherWrite` | WME-GMAPS-LAYERS.js:83 | writing a key that is no feature's id, such as the enabled flag, does not change what the panel loads |
| `Styles.InputStyles` | WME-GMAPS-LAYERS.js:176-185 | there is one entry per checked input, and each entry's styler is visibility "on" |
| `Styles.MapStyles` | WME-GMAPS-LAYERS.js:166-187 | the list has 6 + (number of checked inputs) entries; the first 6 are the fixed "off" base styles; every later entry is "on" |
| `Styles.CheckedInputHasStyle` | WME-GMAPS-LAYERS.js:176-185 | checked input `j` has its entry at 6 + (checked inputs before `j`), with its feature type, visibility "on", and an element type exactly when the input has one |
| `Styles.CheckedInputsKeepOrder` | WME-GMAPS-LAYERS.js:176-185 | a checked input's entry comes before the entry of every later checked input |
| `Styles.StyleComesFromCheckedInput` | WME-GMAPS-LAYERS.js:176-185 | every entry after the base styles is the "on" entry of some checked input, at that input's position |
| `Styles.FirstWithId` | WME-GMAPS-LAYERS.js:196 | `querySelector('#id')` finds the first input with that id, or none when no input has it |
| `Styles.TrafficShown` | WME-GMAPS-LAYERS.js:195-203 | traffic is attached exactly when there is an input with id "road" and the first such input is checked |
| `Styles.TrafficFollowsRoad` | WME-GMAPS-LAYERS.js:195-203 | with the panel's features, traffic follows the saved state of "Roads & Traffic", which is on by default |
| `Styles.FirstLoad` | WME-GMAPS-LAYERS.js:250-255 | with empty storage every feature takes its default: only road is "on" after the base styles, and traffic is shown |
| `Position.Synced` | WME-GMAPS-LAYERS.js:229-231 | the overlay takes the host's zoom and the projected host centre; its styles are untouched |
| `Position.SyncedIdempotent` | WME-GMAPS-LAYERS.js:226-233 | a second sync against an unchanged host gives the same overlay as one sync |
| `Position.SyncedIgnoresOverlayPosition` | WME-GMAPS-LAYERS.js:229-231 | the result does not depend on the overlay's previous centre or zoom |
| `Layers.NewSwitch` | WME-GMAPS-LAYERS.js:112 | a new switch has class "toggle-switch", and has class "on" exactly when the layer is enabled |
| `Layers.ShowOnSwitch` | WME-GMAPS-LAYERS.js:57 | `classList.toggle('on', b)` leaves "on" present exactly when `b`, and keeps every other class |
| `Layers.SwitchAlreadyShowing` | WME-GMAPS-LAYERS.js:112 | pushing the state onto a switch just built for it changes nothing |
| `Layers.PushIdempotent` | WME-GMAPS-LAYERS.js:52-74 | pushing the same state onto a surface twice equals pushing it once; an absent surface stays absent |
| `Layers.LayerController.constructor` | WME-GMAPS-LAYERS.js:37-47 | at module load the flag is parsed from storage, the guard is down, every surface, the callback and the maps are absent, and the state is reloadable |
| `Layers.LayerController.SetItem` | WME-GMAPS-LAYERS.js:83 | one `setItem` updates one key and adds one to the write count |
| `Layers.LayerController.SyncToggleState` | WME-GMAPS-LAYERS.js:52-74 | each present surface shows the flag (switch class "on", checkbox `checked` and "on"/"off" value, div "block"/"none"); absent surfaces stay absent; the callback is invoked once while the guard is raised, and it changes nothing; no storage write; the guard ends lowered |
| `Layers.LayerController.ToggleLayer` | WME-GMAPS-LAYERS.js:80-86 | with the guard raised nothing changes; otherwise the flag becomes `checked`, or its negation when `checked` is None; exactly one storage write records it; every surface agrees; the guard ends lowered; reloadability is preserved |
| `Layers.LayerController.OnLayerCheckbox` | WME-GMAPS-LAYERS.js:297-313 | registers the found checkbox and the `toggleLayer` callback; when the checkbox agrees with the flag nothing else changes and nothing is written; otherwise it toggles to `checked` with one write, and the callback's re-entry is swallowed |
| `Layers.LayerController.UpdateMapStyles` | WME-GMAPS-LAYERS.js:166-203 | the overlay map gets `MapStyles(inputs)` and traffic is attached exactly when `TrafficShown(inputs)` |
| `Layers.LayerController.OnFeatureChange` | WME-GMAPS-LAYERS.js:148-152 | the checkbox takes the new state, one write stores it under the checkbox's id, the styles and traffic are recomputed, and reloadability is preserved |
| `Layers.LayerController.SynchronizeMapPosition` | WME-GMAPS-LAYERS.js:226-233 | nothing happens when either map is absent; otherwise the overlay becomes `Synced(overlay, host)` |
| `Layers.LayerController.StartupSync` | WME-GMAPS-LAYERS.js:327-333 | the found host checkbox and every other present surface show the flag; no storage write; the guard stays lowered |
| `Layers.LayerController.BuildOverlay` | WME-GMAPS-LAYERS.js:243-288 | the switch shows the flag; the feature checkboxes are loaded from storage; the div exists; the overlay map starts at the host's zoom and projected centre, with the computed styles and traffic |
| `Layers.LayerController.Initialize` | WME-GMAPS-LAYERS.js:243-333 | after initialisation every surface agrees with the flag, the page is reloadable from storage, and nothing was written |

## Left out

- DOM construction and styling are not modelled: the script header, labels and descriptions, the form, the div's position styles, and the injected CSS (lines 92-101, 115-122, 154-158, 243-244, 262-268, 347-429). They hold no logic.
- The `pointerEvents` and background-colour settings in `updateTrafficLayer` (lines 204-207) are left out. They are styling.
- The debug logging, the scan of script tags and the API-key extraction (lines 21-32, 272-277) are left out. `isDebugMode` is the constant false, and this code only logs.
- The EPSG:900913 to EPSG:4326 projection (lines 214-221) is floating-point math inside OpenLayers. It is the constructor parameter `project`.
- Google Maps calls (`new google.maps.Map`, `setOptions`, `panTo`, `setZoom`, `TrafficLayer.setMap`) appear only through their effect on `gmap` and `trafficAttached`. The animation of `panTo` and the map's other options are not modelled.
- Listener wiring is not modelled: `addListenerOnce('tilesloaded')`, the `moveend`/`zoomend` registrations, the shortcut registration, and registering the host checkbox handler (lines 285, 290-291, 293-296, 317-325). The handlers are methods, and a caller invokes them for each event.
- When WazeWrap's `AddLayerCheckbox` calls its handler is WazeWrap's choice. WazeWrap is not part of this model.
- Tab registration and the asynchronous start (`registerSidebarTab`, `waitForElementConnected(...).then/catch`, the `wme-ready` listener; lines 239-242, 335-345) are not modelled. `Initialize` is the body that runs after readiness.
- Layers.LayerController.Initialize: takes the host map as present. Without it the source throws inside the promise, and the `catch` only logs.
- Layers.LayerController.OnFeatureChange: requires the overlay map and the traffic layer to exist (`Ready()`). `BuildOverlay` is one atomic step, so the model has no state in which the panel is live but the overlay is missing. In the source, the panel is attached at line 259 before the provider calls at lines 270-287. If one of those throws, the `catch` at lines 335-337 only logs. A later feature change then writes storage (line 149) and throws at `gmap.setOptions` (line 187) or `trafficLayer.setMap` (lines 198 and 201). `UpdateMapStyles` has the same precondition.
- Layers.LayerController.ToggleLayer: requires the overlay div to exist. The source reaches `googleMapsDiv.style` without a check (line 73). The body of the `.then` at lines 243-333 runs in one synchronous step, so no click or shortcut handler (the switch's listener is attached at line 113, called from line 248) can run before the div is created at line 261.
- The document-wide lookups `document.querySelectorAll('.style-input')` (line 176) and `querySelector('#road')` (line 196) search only the modelled feature checkboxes, `inputs`. The host checkbox that is looked up (lines 298 and 327) is the parameter `found`.
- Exceptions from `localStorage.setItem`, such as a full quota, are not modelled.
- Coordinates and zoom are exact reals and integers. No floating-point rounding is modelled.
