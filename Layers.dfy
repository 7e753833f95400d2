/**
 * The overlay's visibility controller and position sync: the module-level
 * state of the user script and the handlers that change it. The host
 * editor, the map provider and the browser are reached only through the
 * fields below and the parameters of the methods.
 */
module Layers {
  import opened Wrappers
  import opened Persist
  import opened Styles
  import opened Position

  /** The settings panel's toggle switch: the CSS classes of its element. */
  datatype ToggleSwitch = ToggleSwitch(classes: set<string>)

  /** The host's layer-list checkbox: its `checked` property and its `value`. */
  datatype LayerCheckbox = LayerCheckbox(checked: bool, value: string)

  /** The host checkbox's `value` for a state. */
  function CheckboxValue(enabled: bool): string {
    if enabled then "on" else "off"
  }

  /** The overlay div's `style.display` for a state. */
  function Display(enabled: bool): string {
    if enabled then "block" else "none"
  }

  /** The switch as `createLayerToggleInput` builds it (WME-GMAPS-LAYERS.js:112). */
  function NewSwitch(enabled: bool): (s: ToggleSwitch)
    ensures "toggle-switch" in s.classes
    ensures "on" in s.classes <==> enabled
  {
    ToggleSwitch({"toggle-switch"} + (if enabled then {"on"} else {}))
  }

  /** `classList.toggle('on', enabled)`: sets the presence of "on", keeps every other class. */
  function ShowOnSwitch(s: ToggleSwitch, enabled: bool): (r: ToggleSwitch)
    ensures "on" in r.classes <==> enabled
    ensures r.classes - {"on"} == s.classes - {"on"}
  {
    ToggleSwitch(if enabled then s.classes + {"on"} else s.classes - {"on"})
  }

  /** The host checkbox after `checked` and `value` are set (WME-GMAPS-LAYERS.js:64-65). */
  function CheckboxShowing(enabled: bool): LayerCheckbox {
    LayerCheckbox(enabled, CheckboxValue(enabled))
  }

  /** A present switch shows `enabled`; an absent one stays absent. */
  function PushSwitch(s: Option<ToggleSwitch>, enabled: bool): Option<ToggleSwitch> {
    if s.Some? then Some(ShowOnSwitch(s.value, enabled)) else None
  }

  /** A present host checkbox shows `enabled`; an absent one stays absent. */
  function PushCheckbox(c: Option<LayerCheckbox>, enabled: bool): Option<LayerCheckbox> {
    if c.Some? then Some(CheckboxShowing(enabled)) else None
  }

  /** A switch built for a state already shows it. */
  lemma SwitchAlreadyShowing(enabled: bool)
    ensures PushSwitch(Some(NewSwitch(enabled)), enabled) == Some(NewSwitch(enabled))
  {
    assert ShowOnSwitch(NewSwitch(enabled), enabled).classes == NewSwitch(enabled).classes;
  }

  /** Pushing the same state onto a surface twice is the same as pushing it once. */
  lemma PushIdempotent(s: Option<ToggleSwitch>, c: Option<LayerCheckbox>, enabled: bool)
    ensures PushSwitch(PushSwitch(s, enabled), enabled) == PushSwitch(s, enabled)
    ensures PushCheckbox(PushCheckbox(c, enabled), enabled) == PushCheckbox(c, enabled)
    ensures PushSwitch(None, enabled) == None && PushCheckbox(None, enabled) == None
  {
  }

  class LayerController {
    /** The EPSG:900913 to EPSG:4326 projection of the geometry library (WME-GMAPS-LAYERS.js:214-221). */
    const project: Mercator -> LonLat

    /** `localStorage`, and how many `setItem` calls have been made on it. */
    var store: map<string, string>
    ghost var writes: nat

    var layerEnabled: bool
    /** Raised while `syncToggleState` updates the host checkbox, so that re-entry is swallowed. */
    var programmaticChange: bool

    /** `elements.toggleSwitch` and `elements.tabCheckbox`; None while the element is not there. */
    var toggleSwitch: Option<ToggleSwitch>
    var tabCheckbox: Option<LayerCheckbox>
    /** Whether `elements.checkboxCallback` is set; the one function ever stored there is `toggleLayer`. */
    var callbackIsToggle: bool
    /** How often `syncToggleState` has invoked that callback. */
    ghost var callbackCalls: nat

    /** `googleMapsDiv.style.display`; None until the div is created. */
    var divDisplay: Option<string>
    /** The feature checkboxes of the settings panel, in document order. */
    var inputs: seq<FeatureInput>
    /** `gmap`; None until the overlay map is created. */
    var gmap: Option<MapView>
    /** Whether `trafficLayer` is attached to `gmap`. */
    var trafficAttached: bool

    /** Initialisation has created the overlay div and the overlay map. */
    predicate Ready()
      reads this
    {
      divDisplay.Some? && gmap.Some?
    }

    /** Every surface that is present shows `layerEnabled`. */
    predicate Consistent()
      reads this
    {
      && (toggleSwitch.Some? ==> ("on" in toggleSwitch.value.classes <==> layerEnabled))
      && (tabCheckbox.Some? ==>
            tabCheckbox.value.checked == layerEnabled && tabCheckbox.value.value == CheckboxValue(layerEnabled))
      && divDisplay == Some(Display(layerEnabled))
    }

    /** A reload of the page starting from `store` would restore the current state. */
    ghost predicate Reloadable()
      reads this
    {
      && ParseEnabled(GetItem(store, LayerEnabledKey)) == layerEnabled
      && (Ready() ==> inputs == LoadInputs(store, DefaultFeatures))
    }

    /** Module load: the enabled flag is read from storage; nothing else exists yet (WME-GMAPS-LAYERS.js:37-47). */
    constructor (storage: map<string, string>, project: Mercator -> LonLat)
      ensures this.project == project && store == storage && writes == 0
      ensures layerEnabled == ParseEnabled(GetItem(storage, LayerEnabledKey))
      ensures !programmaticChange
      ensures toggleSwitch.None? && tabCheckbox.None? && !callbackIsToggle && callbackCalls == 0
      ensures divDisplay.None? && gmap.None? && inputs == [] && !trafficAttached
      ensures Reloadable()
    {
      this.project := project;
      store := storage;
      writes := 0;
      layerEnabled := ParseEnabled(GetItem(storage, LayerEnabledKey));
      programmaticChange := false;
      toggleSwitch, tabCheckbox, callbackIsToggle, callbackCalls := None, None, false, 0;
      divDisplay, gmap, inputs, trafficAttached := None, None, [], false;
    }

    /** `localStorage.setItem(key, value)`. */
    method SetItem(key: string, value: string)
      modifies this`store, this`writes
      ensures store == old(store)[key := value] && writes == old(writes) + 1
    {
      store := store[key := value];
      writes := writes + 1;
    }

    /**
     * `syncToggleState` (WME-GMAPS-LAYERS.js:52-74): pushes `layerEnabled`
     * to every surface that is present. While it updates the host checkbox
     * the guard is raised, so the registered callback, `toggleLayer`,
     * returns at once.
     */
    method SyncToggleState()
      requires divDisplay.Some?
      modifies this
      decreases 1
      ensures layerEnabled == old(layerEnabled) && store == old(store) && writes == old(writes)
      ensures toggleSwitch == PushSwitch(old(toggleSwitch), layerEnabled)
      ensures tabCheckbox == PushCheckbox(old(tabCheckbox), layerEnabled)
      ensures divDisplay == Some(Display(layerEnabled))
      ensures programmaticChange == (old(programmaticChange) && old(tabCheckbox).None?)
      ensures callbackCalls == old(callbackCalls) + (if old(tabCheckbox).Some? && callbackIsToggle then 1 else 0)
      ensures Consistent()
      ensures callbackIsToggle == old(callbackIsToggle) && inputs == old(inputs)
      ensures gmap == old(gmap) && trafficAttached == old(trafficAttached)
    {
      if toggleSwitch.Some? {
        toggleSwitch := Some(ShowOnSwitch(toggleSwitch.value, layerEnabled));
      }
      if tabCheckbox.Some? {
        programmaticChange := true;
        tabCheckbox := Some(CheckboxShowing(layerEnabled));
        if callbackIsToggle {
          callbackCalls := callbackCalls + 1;
          ToggleLayer(Some(layerEnabled));
        }
        programmaticChange := false;
      }
      divDisplay := Some(Display(layerEnabled));
    }

    /**
     * `toggleLayer(checked)` (WME-GMAPS-LAYERS.js:80-86): unless the guard is
     * raised, sets the flag (inverts it when `checked` is None), writes it
     * to storage once and pushes it to the surfaces. The panel switch and
     * the Alt+G shortcut call it with None (lines 113 and 323).
     */
    method ToggleLayer(checked: Option<bool>)
      requires divDisplay.Some?
      modifies this
      decreases if programmaticChange then 0 else 2
      ensures old(programmaticChange) ==> unchanged(this)
      ensures !old(programmaticChange) ==>
        && layerEnabled == (if checked.Some? then checked.value else !old(layerEnabled))
        && store == old(store)[LayerEnabledKey := BoolString(layerEnabled)]
        && writes == old(writes) + 1
        && !programmaticChange
        && toggleSwitch == PushSwitch(old(toggleSwitch), layerEnabled)
        && tabCheckbox == PushCheckbox(old(tabCheckbox), layerEnabled)
        && divDisplay == Some(Display(layerEnabled))
        && callbackCalls == old(callbackCalls) + (if old(tabCheckbox).Some? && callbackIsToggle then 1 else 0)
        && Consistent()
      ensures callbackIsToggle == old(callbackIsToggle) && inputs == old(inputs)
      ensures gmap == old(gmap) && trafficAttached == old(trafficAttached)
      ensures old(Reloadable()) ==> Reloadable()
    {
      if !programmaticChange {
        ghost var before := store;
        layerEnabled := if checked.Some? then checked.value else !layerEnabled;
        SetItem(LayerEnabledKey, BoolString(layerEnabled));
        EnabledRoundTrip(before, layerEnabled);
        DefaultIdsDistinct();
        LoadAfterOtherWrite(before, LayerEnabledKey, BoolString(layerEnabled));
        SyncToggleState();
      }
    }

    /**
     * The host layer-checkbox handler (WME-GMAPS-LAYERS.js:297-313):
     * registers the checkbox found in the page and `toggleLayer` as its
     * callback, then toggles only when the checkbox disagrees with the flag.
     */
    method OnLayerCheckbox(checked: bool, found: Option<LayerCheckbox>)
      requires divDisplay.Some?
      modifies this
      ensures callbackIsToggle
      ensures old(layerEnabled) == checked || old(programmaticChange) ==>
        && layerEnabled == old(layerEnabled) && store == old(store) && writes == old(writes)
        && tabCheckbox == found && toggleSwitch == old(toggleSwitch) && divDisplay == old(divDisplay)
        && programmaticChange == old(programmaticChange) && callbackCalls == old(callbackCalls)
      ensures old(layerEnabled) != checked && !old(programmaticChange) ==>
        && layerEnabled == checked
        && store == old(store)[LayerEnabledKey := BoolString(checked)]
        && writes == old(writes) + 1
        && !programmaticChange
        && toggleSwitch == PushSwitch(old(toggleSwitch), checked)
        && tabCheckbox == PushCheckbox(found, checked)
        && divDisplay == Some(Display(checked))
        && callbackCalls == old(callbackCalls) + (if found.Some? then 1 else 0)
        && Consistent()
      ensures inputs == old(inputs) && gmap == old(gmap) && trafficAttached == old(trafficAttached)
      ensures old(Reloadable()) ==> Reloadable()
    {
      tabCheckbox := found;
      callbackIsToggle := true;
      if layerEnabled != checked {
        ToggleLayer(Some(checked));
      }
    }

    /** `updateMapStyles` with `updateTrafficLayer` (WME-GMAPS-LAYERS.js:166-203). */
    method UpdateMapStyles()
      requires Ready()
      modifies this`gmap, this`trafficAttached
      ensures gmap == Some(old(gmap).value.(styles := MapStyles(inputs)))
      ensures trafficAttached == TrafficShown(inputs)
    {
      gmap := Some(gmap.value.(styles := MapStyles(inputs)));
      trafficAttached := TrafficShown(inputs);
    }

    /**
     * The change handler of feature checkbox `i` (WME-GMAPS-LAYERS.js:148-152),
     * after the browser has set its `checked` to `checked`.
     */
    method OnFeatureChange(i: nat, checked: bool)
      requires Ready() && i < |inputs|
      modifies this`inputs, this`store, this`writes, this`gmap, this`trafficAttached
      ensures inputs == old(inputs)[i := old(inputs)[i].(checked := checked)]
      ensures store == old(store)[old(inputs)[i].id := BoolString(checked)] && writes == old(writes) + 1
      ensures gmap == Some(old(gmap).value.(styles := MapStyles(inputs)))
      ensures trafficAttached == TrafficShown(inputs)
      ensures old(Reloadable()) ==> Reloadable()
    {
      ghost var before := store;
      ghost var wasReloadable := Reloadable();
      var id := inputs[i].id;
      inputs := inputs[i := inputs[i].(checked := checked)];
      SetItem(id, BoolString(checked));
      UpdateMapStyles();
      if wasReloadable {
        DefaultFeatureIds();
        DefaultIdsDistinct();
        assert id == DefaultIds[i];
        LoadAfterFeatureWrite(before, i, checked);
        assert GetItem(store, LayerEnabledKey) == GetItem(before, LayerEnabledKey);
      }
    }

    /**
     * `synchronizeMapPosition` (WME-GMAPS-LAYERS.js:226-233): with both maps
     * present, the overlay takes the host's zoom and projected centre;
     * otherwise nothing happens.
     */
    method SynchronizeMapPosition(host: Option<HostView>)
      modifies this`gmap
      ensures old(gmap).None? || host.None? ==> gmap == old(gmap)
      ensures old(gmap).Some? && host.Some? ==> gmap == Some(Synced(old(gmap).value, host.value, project))
    {
      if gmap.None? || host.None? {
        return;
      }
      gmap := Some(Synced(gmap.value, host.value, project));
    }

    /**
     * The startup sync (WME-GMAPS-LAYERS.js:327-333): registers the host
     * checkbox found in the page, makes it show the flag, then syncs every
     * surface. It writes nothing to storage.
     */
    method StartupSync(found: Option<LayerCheckbox>)
      requires divDisplay.Some? && !programmaticChange
      modifies this
      ensures Consistent() && !programmaticChange
      ensures layerEnabled == old(layerEnabled) && store == old(store) && writes == old(writes)
      ensures toggleSwitch == PushSwitch(old(toggleSwitch), layerEnabled)
      ensures tabCheckbox == PushCheckbox(found, layerEnabled)
      ensures callbackCalls == old(callbackCalls) + (if found.Some? && callbackIsToggle then 1 else 0)
      ensures callbackIsToggle == old(callbackIsToggle) && inputs == old(inputs)
      ensures gmap == old(gmap) && trafficAttached == old(trafficAttached)
    {
      tabCheckbox := found;
      if tabCheckbox.Some? {
        tabCheckbox := Some(CheckboxShowing(layerEnabled));
      }
      SyncToggleState();
    }

    /**
     * The settings form and the overlay (WME-GMAPS-LAYERS.js:243-288): the
     * switch and the feature checkboxes are built from the current state and
     * storage, then the overlay div and map are created at the host's
     * position and the styles are applied.
     */
    method BuildOverlay(host: HostView)
      modifies this`toggleSwitch, this`inputs, this`divDisplay, this`gmap, this`trafficAttached
      ensures Ready()
      ensures toggleSwitch == Some(NewSwitch(layerEnabled))
      ensures inputs == LoadInputs(store, DefaultFeatures)
      ensures divDisplay == Some("")
      ensures gmap == Some(MapView(ToLatLng(project(host.center)), host.zoom, MapStyles(inputs)))
      ensures trafficAttached == TrafficShown(inputs)
    {
      toggleSwitch := Some(NewSwitch(layerEnabled));
      inputs := LoadInputs(store, DefaultFeatures);
      divDisplay := Some("");
      gmap := Some(MapView(ToLatLng(project(host.center)), host.zoom, []));
      trafficAttached := false;
      UpdateMapStyles();
    }

    /**
     * Initialisation once the host is ready and the settings pane is
     * attached (WME-GMAPS-LAYERS.js:243-333). Registering the map and
     * shortcut listeners and the host checkbox handler is left to the
     * callers of the handler methods above.
     */
    method Initialize(host: HostView, found: Option<LayerCheckbox>)
      requires !programmaticChange && Reloadable()
      modifies this
      ensures Ready() && Consistent() && Reloadable() && !programmaticChange
      ensures layerEnabled == old(layerEnabled) && store == old(store) && writes == old(writes)
      ensures toggleSwitch == Some(NewSwitch(layerEnabled))
      ensures tabCheckbox == PushCheckbox(found, layerEnabled)
      ensures inputs == LoadInputs(store, DefaultFeatures)
      ensures gmap == Some(MapView(ToLatLng(project(host.center)), host.zoom, MapStyles(inputs)))
      ensures trafficAttached == TrafficShown(inputs)
      ensures callbackIsToggle == old(callbackIsToggle)
      ensures callbackCalls == old(callbackCalls) + (if found.Some? && callbackIsToggle then 1 else 0)
    {
      BuildOverlay(host);
      StartupSync(found);
      SwitchAlreadyShowing(layerEnabled);
    }
  }

  /**
   * A first session: empty storage, the host checkbox present. The user
   * ticks the host checkbox, then presses Alt+G. Each toggle writes storage
   * once; the callback's re-entry during the first one is swallowed.
   */
  method FirstSessionScenario(host: HostView, project: Mercator -> LonLat)
  {
    var c := new LayerController(map[], project);
    assert !c.layerEnabled;
    c.Initialize(host, Some(LayerCheckbox(false, "off")));
    assert c.divDisplay == Some("none") && c.writes == 0;
    c.OnLayerCheckbox(true, Some(LayerCheckbox(true, "off")));
    assert c.layerEnabled && c.writes == 1 && c.callbackCalls == 1;
    assert c.tabCheckbox == Some(LayerCheckbox(true, "on")) && c.divDisplay == Some("block");
    c.ToggleLayer(None);
    assert !c.layerEnabled && c.writes == 2 && c.callbackCalls == 2;
    assert ParseEnabled(GetItem(c.store, LayerEnabledKey)) == false;
  }
}
