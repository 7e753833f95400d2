/**
 * The overlay's persisted settings: the browser's local storage holds
 * strings under string keys; booleans are written as JavaScript's
 * `String(b)` and read back by comparing with "true".
 */
module Persist {
  import opened Wrappers

  /** Key of the persisted "overlay enabled" flag (WME-GMAPS-LAYERS.js:37). */
  const LayerEnabledKey: string := "WMEGoogleMapsLayers-enabled"

  /** `localStorage.getItem(key)`: null when the key was never written. */
  function GetItem(store: map<string, string>, key: string): (r: Option<string>)
    ensures r.Some? <==> key in store
    ensures key in store ==> r.value == store[key]
  {
    if key in store then Some(store[key]) else None
  }

  /** The string `localStorage.setItem(key, b)` stores for a boolean `b`. */
  function BoolString(b: bool): (s: string)
    ensures s != ""
    ensures s == "true" <==> b
  {
    if b then "true" else "false"
  }

  /** JavaScript truthiness of a string that may be null: null and "" are falsy. */
  predicate Truthy(s: Option<string>) {
    s.Some? && s.value != ""
  }

  /** The startup parse `(getItem(key) ?? 'false') === 'true'`. */
  function ParseEnabled(saved: Option<string>): (enabled: bool)
    ensures enabled <==> saved == Some("true")
  {
    saved.GetOr("false") == "true"
  }

  /** The per-feature parse `savedState ? savedState === 'true' : defaultChecked`. */
  function ParseFeature(saved: Option<string>, defaultChecked: bool): (checked: bool)
    ensures !Truthy(saved) ==> checked == defaultChecked
    ensures Truthy(saved) ==> (checked <==> saved == Some("true"))
  {
    if Truthy(saved) then saved.value == "true" else defaultChecked
  }

  /** Reading the enabled flag back after it was written yields the written value. */
  lemma EnabledRoundTrip(store: map<string, string>, b: bool)
    ensures ParseEnabled(GetItem(store[LayerEnabledKey := BoolString(b)], LayerEnabledKey)) == b
  {
  }

  /** Reading a feature flag back after it was written yields the written value, whatever the default. */
  lemma FeatureRoundTrip(store: map<string, string>, id: string, b: bool, defaultChecked: bool)
    ensures ParseFeature(GetItem(store[id := BoolString(b)], id), defaultChecked) == b
  {
  }
}
