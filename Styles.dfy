/**
 * The feature checkboxes of the settings panel, the storage keys derived
 * from them, and the style list and traffic layer computed from them.
 */
module Styles {
  import opened Wrappers
  import opened Persist

  /** One entry of the fixed feature list given to `createFeatureInput`. */
  datatype FeatureSpec = FeatureSpec(featureType: string, elementType: Option<string>, defaultChecked: bool)

  /**
   * A rendered feature checkbox: its DOM id (also its storage key), the
   * `data-feature-type` / `data-element-type` attributes and its `checked` state.
   */
  datatype FeatureInput = FeatureInput(id: string, featureType: string, elementType: Option<string>, checked: bool)

  /** One styler `{ visibility: ... }` of a style entry. */
  datatype Styler = Styler(visibility: string)

  /** One entry of the style list given to the overlay map. */
  datatype Style = Style(featureType: string, elementType: Option<string>, stylers: seq<Styler>)

  /** JavaScript's `s.replace(from, to)` with a one-character string pattern: only the first occurrence. */
  function ReplaceFirst(s: string, from: char, to: char): (r: string)
    ensures |r| == |s|
  {
    if s == [] then []
    else if s[0] == from then [to] + s[1..]
    else [s[0]] + ReplaceFirst(s[1..], from, to)
  }

  /** Position by position: the first `from` becomes `to`, every other character is kept. */
  lemma {:induction false} ReplaceFirstSpec(s: string, from: char, to: char)
    ensures forall j | 0 <= j < |s| ::
      ReplaceFirst(s, from, to)[j] == if s[j] == from && from !in s[..j] then to else s[j]
  {
    if s != [] && s[0] != from {
      ReplaceFirstSpec(s[1..], from, to);
      assert forall j | 1 <= j < |s| :: s[1..][..j - 1] == s[..j][1..];
    }
  }

  /** `ReplaceFirst` leaves a string without the character unchanged. */
  lemma {:induction false} ReplaceFirstAbsent(s: string, from: char, to: char)
    requires from !in s
    ensures ReplaceFirst(s, from, to) == s
  {
    if s != [] {
      assert s[0] in s;
      assert forall c | c in s[1..] :: c in s;
      ReplaceFirstAbsent(s[1..], from, to);
    }
  }

  /** `ReplaceFirst` replaces the first occurrence and keeps everything after it, later occurrences included. */
  lemma {:induction false} ReplaceFirstAt(a: string, b: string, from: char, to: char)
    requires from !in a
    ensures ReplaceFirst(a + [from] + b, from, to) == a + [to] + b
  {
    if a != [] {
      assert a[0] in a;
      assert forall c | c in a[1..] :: c in a;
      ReplaceFirstAt(a[1..], b, from, to);
      assert (a + [from] + b)[1..] == a[1..] + [from] + b;
    }
  }

  /** The checkbox id of a feature (WME-GMAPS-LAYERS.js:135); it is also the feature's storage key. */
  function FeatureId(featureType: string, elementType: Option<string>): (id: string)
    ensures |id| == |featureType| + (if Truthy(elementType) then 1 + |elementType.value| else 0)
    ensures id[..|featureType|] == ReplaceFirst(featureType, '.', '_')
  {
    ReplaceFirst(featureType, '.', '_')
      + (if Truthy(elementType) then "_" + ReplaceFirst(elementType.value, '.', '_') else "")
  }

  /** After the feature type, a non-empty element type adds '_' and its own text with the first '.' replaced. */
  lemma FeatureIdSuffix(featureType: string, elementType: Option<string>)
    ensures Truthy(elementType) ==> FeatureId(featureType, elementType)[|featureType|..]
                                    == "_" + ReplaceFirst(elementType.value, '.', '_')
    ensures !Truthy(elementType) ==> FeatureId(featureType, elementType) == ReplaceFirst(featureType, '.', '_')
  {
  }

  /** The checkbox `createFeatureInput` renders for `spec` in state `checked`. */
  function MakeInput(spec: FeatureSpec, checked: bool): (input: FeatureInput)
    ensures input.id == FeatureId(spec.featureType, spec.elementType)
    ensures input.featureType == spec.featureType && input.checked == checked
    ensures input.elementType.Some? <==> Truthy(spec.elementType)
    ensures input.elementType.Some? ==> input.elementType == spec.elementType && input.elementType.value != ""
  {
    FeatureInput(FeatureId(spec.featureType, spec.elementType), spec.featureType,
                 if Truthy(spec.elementType) then spec.elementType else None, checked)
  }

  /** The checkbox for `spec`, checked as its saved state says (WME-GMAPS-LAYERS.js:137-138). */
  function LoadInput(store: map<string, string>, spec: FeatureSpec): (input: FeatureInput)
    ensures input == MakeInput(spec, input.checked)
    ensures (input.id !in store || store[input.id] == "") ==> input.checked == spec.defaultChecked
    ensures input.id in store && store[input.id] != "" ==> (input.checked <==> store[input.id] == "true")
  {
    var id := FeatureId(spec.featureType, spec.elementType);
    MakeInput(spec, ParseFeature(GetItem(store, id), spec.defaultChecked))
  }

  /** The checkboxes for `specs`, in order, each loaded from `store`. */
  function LoadInputs(store: map<string, string>, specs: seq<FeatureSpec>): (inputs: seq<FeatureInput>)
    ensures |inputs| == |specs|
    ensures forall i | 0 <= i < |specs| :: inputs[i] == LoadInput(store, specs[i])
  {
    seq(|specs|, i requires 0 <= i < |specs| => LoadInput(store, specs[i]))
  }

  /** The feature list of the settings panel (WME-GMAPS-LAYERS.js:250-255). */
  const DefaultFeatures: seq<FeatureSpec> := [
    FeatureSpec("road", None, true),
    FeatureSpec("administrative.land_parcel", None, false),
    FeatureSpec("landscape", None, false),
    FeatureSpec("poi", None, false),
    FeatureSpec("transit", None, false),
    FeatureSpec("water", None, false)
  ]

  /** The ids, and storage keys, of `DefaultFeatures`. */
  const DefaultIds: seq<string> := ["road", "administrative_land_parcel", "landscape", "poi", "transit", "water"]

  lemma PlainFeatureId(featureType: string)
    requires '.' !in featureType
    ensures FeatureId(featureType, None) == featureType
  {
    ReplaceFirstAbsent(featureType, '.', '_');
  }

  /** Only the first '.' of a feature type becomes '_', so the panel's ids are `DefaultIds`. */
  lemma DefaultFeatureIds()
    ensures |DefaultIds| == |DefaultFeatures|
    ensures forall i | 0 <= i < |DefaultFeatures| ::
      FeatureId(DefaultFeatures[i].featureType, DefaultFeatures[i].elementType) == DefaultIds[i]
  {
    forall i | 0 <= i < |DefaultFeatures|
      ensures FeatureId(DefaultFeatures[i].featureType, DefaultFeatures[i].elementType) == DefaultIds[i]
    {
      if i == 1 {
        LandParcelId(DefaultFeatures[i].featureType);
      } else {
        PlainFeatureId(DefaultFeatures[i].featureType);
      }
    }
  }

  /**
   * The one default feature type with a '.': it becomes "administrative_land_parcel".
   * The string is a parameter fixed by the precondition rather than a literal argument,
   * so the verifier does not unfold `ReplaceFirst` over all 26 characters at once.
   */
  lemma LandParcelId(featureType: string)
    requires featureType == "administrative.land_parcel"
    ensures FeatureId(featureType, None) == "administrative_land_parcel"
  {
    ReplaceFirstAt("administrative", "land_parcel", '.', '_');
    assert "administrative" + ['.'] + "land_parcel" == featureType;
    assert "administrative" + ['_'] + "land_parcel" == "administrative_land_parcel";
  }

  /** Distinct features of the panel are persisted under distinct keys, none of them the enabled flag's key. */
  lemma DefaultIdsDistinct()
    ensures forall i, j | 0 <= i < j < |DefaultIds| :: DefaultIds[i] != DefaultIds[j]
    ensures LayerEnabledKey !in DefaultIds
  {
  }

  /** Writing one feature's key changes exactly that feature's loaded checkbox. */
  lemma {:induction false} LoadAfterFeatureWrite(store: map<string, string>, i: nat, b: bool)
    requires i < |DefaultFeatures|
    ensures LoadInputs(store[DefaultIds[i] := BoolString(b)], DefaultFeatures)
         == LoadInputs(store, DefaultFeatures)[i := MakeInput(DefaultFeatures[i], b)]
  {
    DefaultFeatureIds();
    DefaultIdsDistinct();
    var store' := store[DefaultIds[i] := BoolString(b)];
    var after := LoadInputs(store', DefaultFeatures);
    var expected := LoadInputs(store, DefaultFeatures)[i := MakeInput(DefaultFeatures[i], b)];
    forall k | 0 <= k < |DefaultFeatures| ensures after[k] == expected[k] {
      if k == i {
        FeatureRoundTrip(store, DefaultIds[i], b, DefaultFeatures[i].defaultChecked);
      } else {
        assert DefaultIds[k] != DefaultIds[i];
        assert GetItem(store', DefaultIds[k]) == GetItem(store, DefaultIds[k]);
      }
    }
  }

  /** Writing a key that is no feature's id leaves every loaded checkbox as it was. */
  lemma {:induction false} LoadAfterOtherWrite(store: map<string, string>, key: string, v: string)
    requires key !in DefaultIds
    ensures LoadInputs(store[key := v], DefaultFeatures) == LoadInputs(store, DefaultFeatures)
  {
    DefaultFeatureIds();
    var after := LoadInputs(store[key := v], DefaultFeatures);
    var before := LoadInputs(store, DefaultFeatures);
    forall k | 0 <= k < |DefaultFeatures| ensures after[k] == before[k] {
      assert DefaultIds[k] in DefaultIds;
      assert GetItem(store[key := v], DefaultIds[k]) == GetItem(store, DefaultIds[k]);
    }
  }

  /** The fixed "off" styles that start every style list (WME-GMAPS-LAYERS.js:167-174). */
  const BaseStyles: seq<Style> := [
    Style("administrative", None, [Styler("off")]),
    Style("poi", None, [Styler("off")]),
    Style("road", None, [Styler("off")]),
    Style("transit", None, [Styler("off")]),
    Style("landscape", None, [Styler("off")]),
    Style("water", None, [Styler("off")])
  ]

  /** The "on" style entry of one checked input (WME-GMAPS-LAYERS.js:179-184). */
  function OnStyle(input: FeatureInput): Style {
    Style(input.featureType, if Truthy(input.elementType) then input.elementType else None, [Styler("on")])
  }

  /** How many of `inputs` are checked. */
  function CountChecked(inputs: seq<FeatureInput>): nat {
    if inputs == [] then 0
    else (if inputs[0].checked then 1 else 0) + CountChecked(inputs[1..])
  }

  /** `filter(input => input.checked).map(...)` over the feature inputs (WME-GMAPS-LAYERS.js:176-185). */
  function InputStyles(inputs: seq<FeatureInput>): (styles: seq<Style>)
    ensures |styles| == CountChecked(inputs)
    ensures forall k | 0 <= k < |styles| :: styles[k].stylers == [Styler("on")]
  {
    if inputs == [] then []
    else (if inputs[0].checked then [OnStyle(inputs[0])] else []) + InputStyles(inputs[1..])
  }

  /** The style list `updateMapStyles` gives the overlay map (WME-GMAPS-LAYERS.js:187). */
  function MapStyles(inputs: seq<FeatureInput>): (styles: seq<Style>)
    ensures |styles| == |BaseStyles| + CountChecked(inputs)
    ensures styles[..|BaseStyles|] == BaseStyles
    ensures forall k | |BaseStyles| <= k < |styles| :: styles[k].stylers == [Styler("on")]
  {
    BaseStyles + InputStyles(inputs)
  }

  lemma {:induction false} CountCheckedPrefix(inputs: seq<FeatureInput>, j: nat)
    requires j < |inputs|
    ensures CountChecked(inputs[..j + 1]) == CountChecked(inputs[..j]) + (if inputs[j].checked then 1 else 0)
    ensures CountChecked(inputs[..j]) + (if inputs[j].checked then 1 else 0) <= CountChecked(inputs)
  {
    if j > 0 {
      assert inputs[..j + 1][1..] == inputs[1..][..j];
      assert inputs[..j][1..] == inputs[1..][..j - 1];
      CountCheckedPrefix(inputs[1..], j - 1);
    }
  }

  lemma {:induction false} InputStylesAt(inputs: seq<FeatureInput>, j: nat)
    requires j < |inputs| && inputs[j].checked
    ensures CountChecked(inputs[..j]) < |InputStyles(inputs)|
    ensures InputStyles(inputs)[CountChecked(inputs[..j])] == OnStyle(inputs[j])
  {
    CountCheckedPrefix(inputs, j);
    if j > 0 {
      assert inputs[..j][1..] == inputs[1..][..j - 1];
      InputStylesAt(inputs[1..], j - 1);
    }
  }

  /**
   * Every checked input has its "on" entry in the style list, right after
   * the base styles and the entries of the checked inputs before it; the
   * entry carries an element type exactly when the input has one.
   */
  lemma CheckedInputHasStyle(inputs: seq<FeatureInput>, j: nat)
    requires j < |inputs| && inputs[j].checked
    ensures |BaseStyles| + CountChecked(inputs[..j]) < |MapStyles(inputs)|
    ensures var s := MapStyles(inputs)[|BaseStyles| + CountChecked(inputs[..j])];
      && s.featureType == inputs[j].featureType
      && s.stylers == [Styler("on")]
      && (s.elementType.Some? <==> Truthy(inputs[j].elementType))
      && (Truthy(inputs[j].elementType) ==> s.elementType == inputs[j].elementType)
  {
    InputStylesAt(inputs, j);
  }

  /** Checked inputs keep their order in the style list. */
  lemma {:induction false} CheckedInputsKeepOrder(inputs: seq<FeatureInput>, i: nat, j: nat)
    requires i < j < |inputs| && inputs[i].checked
    ensures CountChecked(inputs[..i]) < CountChecked(inputs[..j])
  {
    CountCheckedPrefix(inputs, i);
    if i + 1 < j {
      CountCheckedMonotone(inputs, i + 1, j);
    }
  }

  lemma {:induction false} CountCheckedMonotone(inputs: seq<FeatureInput>, i: nat, j: nat)
    requires i <= j <= |inputs|
    ensures CountChecked(inputs[..i]) <= CountChecked(inputs[..j])
    decreases j - i
  {
    if i < j {
      CountCheckedPrefix(inputs, i);
      CountCheckedMonotone(inputs, i + 1, j);
    }
  }

  /** Every entry after the base styles is the "on" entry of a checked input. */
  lemma {:induction false} StyleComesFromCheckedInput(inputs: seq<FeatureInput>, k: nat)
    requires |BaseStyles| <= k < |MapStyles(inputs)|
    ensures exists j ::
      (0 <= j < |inputs| && inputs[j].checked
       && |BaseStyles| + CountChecked(inputs[..j]) == k && MapStyles(inputs)[k] == OnStyle(inputs[j]))
  {
    var j := FindChecked(inputs, k - |BaseStyles|);
    InputStylesAt(inputs, j);
  }

  /** The input whose entry sits at position `n` of `InputStyles(inputs)`. */
  lemma {:induction false} FindChecked(inputs: seq<FeatureInput>, n: nat) returns (j: nat)
    requires n < CountChecked(inputs)
    ensures j < |inputs| && inputs[j].checked && CountChecked(inputs[..j]) == n
  {
    assert inputs != [];
    if inputs[0].checked && n == 0 {
      j := 0;
    } else {
      var n' := if inputs[0].checked then n - 1 else n;
      var j' := FindChecked(inputs[1..], n');
      j := j' + 1;
      assert inputs[..j][1..] == inputs[1..][..j'];
    }
  }

  /** The DOM id that `updateTrafficLayer` looks up (WME-GMAPS-LAYERS.js:196). */
  const TrafficInputId: string := "road"

  /** `document.querySelector('#' + id)` over the inputs: the first one with that id, searching from `from`. */
  function FirstWithId(inputs: seq<FeatureInput>, id: string, from: nat): (r: Option<nat>)
    requires from <= |inputs|
    ensures r.Some? ==>
      (from <= r.value < |inputs| && inputs[r.value].id == id
       && forall i | from <= i < r.value :: inputs[i].id != id)
    ensures r.None? ==> forall i | from <= i < |inputs| :: inputs[i].id != id
    decreases |inputs| - from
  {
    if from == |inputs| then None
    else if inputs[from].id == id then Some(from)
    else FirstWithId(inputs, id, from + 1)
  }

  /** Whether `updateTrafficLayer` attaches the traffic layer (WME-GMAPS-LAYERS.js:195-203). */
  function TrafficShown(inputs: seq<FeatureInput>): (shown: bool)
    ensures shown <==> exists j ::
      (0 <= j < |inputs| && inputs[j].id == TrafficInputId && inputs[j].checked
       && forall i | 0 <= i < j :: inputs[i].id != TrafficInputId)
  {
    var road := FirstWithId(inputs, TrafficInputId, 0);
    road.Some? && inputs[road.value].checked
  }

  /** With the panel's features, traffic follows the saved state of "Roads & Traffic", by default shown. */
  lemma TrafficFollowsRoad(store: map<string, string>)
    ensures TrafficShown(LoadInputs(store, DefaultFeatures)) == ParseFeature(GetItem(store, "road"), true)
  {
    DefaultFeatureIds();
    var inputs := LoadInputs(store, DefaultFeatures);
    assert inputs[0].id == TrafficInputId;
  }

  lemma {:induction false} NoneChecked(inputs: seq<FeatureInput>)
    requires forall i | 0 <= i < |inputs| :: !inputs[i].checked
    ensures InputStyles(inputs) == []
  {
    if inputs != [] {
      NoneChecked(inputs[1..]);
    }
  }

  /** With empty storage only "Roads & Traffic" is checked: one "on" entry, and traffic is shown. */
  lemma FirstLoad()
    ensures var inputs := LoadInputs(map[], DefaultFeatures);
      && (forall i | 0 <= i < |inputs| :: inputs[i].checked == DefaultFeatures[i].defaultChecked)
      && MapStyles(inputs) == BaseStyles + [Style("road", None, [Styler("on")])]
      && TrafficShown(inputs)
  {
    var inputs := LoadInputs(map[], DefaultFeatures);
    forall i | 0 <= i < |inputs| ensures inputs[i].checked == DefaultFeatures[i].defaultChecked {
      assert GetItem(map[], FeatureId(DefaultFeatures[i].featureType, DefaultFeatures[i].elementType)) == None;
    }
    NoneChecked(inputs[1..]);
    assert InputStyles(inputs) == [OnStyle(inputs[0])];
    TrafficFollowsRoad(map[]);
  }
}
