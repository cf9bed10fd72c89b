/** The Elasticsearch allocation setting: two layers, how a response body is
    read, how a restoration is written, and how the server renders both. */
module AllocationSettings {
  import opened Wrappers

  /** A decoded response body. */
  datatype Json =
    | JNull
    | JBool(b: bool)
    | JNumber(n: int)
    | JString(s: string)
    | JArray(items: seq<Json>)
    | JObject(fields: Fields)

  type Fields = map<string, Json>

  const ALLOCATION_ENABLE_SETTING := "cluster.routing.allocation.enable"
  const SEGMENTS: seq<string> := ["cluster", "routing", "allocation", "enable"]
  const PRIMARIES := "primaries"

  /** The setting in its persistent and its transient layer; an absent layer
      is None, so presence and value cannot disagree. */
  datatype Layers = Layers(persistent: Option<string>, transient: Option<string>) {
    /** The value Elasticsearch acts on: transient beats persistent, and an
        empty string counts as the default. */
    function Effective(): string {
      if transient.Some? then OrAll(transient.value)
      else if persistent.Some? then OrAll(persistent.value)
      else "all"
    }
  }

  function OrAll(value: string): string {
    if value == "" then "all" else value
  }

  datatype Read<+T> = Good(value: T) | Malformed

  /** Follows the segments through nested objects; None when the path breaks. */
  function Walk(value: Json, path: seq<string>): Option<Json>
    decreases |path|
  {
    if path == [] then Some(value)
    else if value.JObject? && path[0] in value.fields then Walk(value.fields[path[0]], path[1..])
    else None
  }

  function LayerObject(settings: Fields, layer: string): Json {
    if layer !in settings || settings[layer].JNull? then JObject(map[]) else settings[layer]
  }

  /** The raw value of the setting in one layer: the flat key wins. */
  function RawValue(fields: Fields): Option<Json> {
    if ALLOCATION_ENABLE_SETTING in fields then Some(fields[ALLOCATION_ENABLE_SETTING])
    else Walk(JObject(fields), SEGMENTS)
  }

  function LayerValue(settings: Fields, layer: string): Read<Option<string>> {
    var body := LayerObject(settings, layer);
    if !body.JObject? then Malformed
    else
      match RawValue(body.fields)
      case None => Good(None)
      case Some(raw) =>
        if raw.JNull? then Good(None)
        else if raw.JString? then Good(Some(raw.s))
        else Malformed
  }

  function CaptureSetting(body: Json): Read<Layers> {
    if !body.JObject? then Malformed
    else
      var persistent := LayerValue(body.fields, "persistent");
      var transient := LayerValue(body.fields, "transient");
      if persistent.Good? && transient.Good? then Good(Layers(persistent.value, transient.value))
      else Malformed
  }

  /** A settings write. A layer that is not sent stays as it is; a sent null
      removes the setting from that layer. */
  datatype PutBody = PutBody(persistent: Option<Option<string>>, transient: Option<Option<string>>)

  function ApplyPut(layers: Layers, body: PutBody): Layers {
    Layers(
      if body.persistent.Some? then body.persistent.value else layers.persistent,
      if body.transient.Some? then body.transient.value else layers.transient)
  }

  const GUARD_PUT := PutBody(Some(Some(PRIMARIES)), None)

  function RestorationPayload(captured: Layers): PutBody {
    PutBody(Some(captured.persistent), Some(captured.transient))
  }

  /** The two layouts a server may answer in. `persistentRest` and
      `transientRest` are the other settings of each layer, `rest` the other
      members of the response. */
  datatype Layout = Flat | Nested
  datatype Rendering = Rendering(layout: Layout, rest: Fields, persistentRest: Fields, transientRest: Fields)

  /** Writes a value under a path of nested objects, keeping every sibling. */
  function Plant(fields: Fields, path: seq<string>, value: string): Fields
    requires path != []
    decreases |path|
  {
    if |path| == 1 then fields[path[0] := JString(value)]
    else
      var inner := if path[0] in fields && fields[path[0]].JObject? then fields[path[0]].fields else map[];
      fields[path[0] := JObject(Plant(inner, path[1..], value))]
  }

  /** Other settings that say nothing about the allocation setting. */
  predicate Silent(fields: Fields) {
    RawValue(fields) == None
  }

  function RenderLayer(layout: Layout, others: Fields, value: Option<string>): Json {
    match value
    case None => JObject(others)
    case Some(text) =>
      match layout
      case Flat => JObject(others[ALLOCATION_ENABLE_SETTING := JString(text)])
      case Nested => JObject(Plant(others, SEGMENTS, text))
  }

  function Render(r: Rendering, layers: Layers): Json {
    JObject(r.rest
      ["persistent" := RenderLayer(r.layout, r.persistentRest, layers.persistent)]
      ["transient" := RenderLayer(r.layout, r.transientRest, layers.transient)])
  }

  predicate Faithful(r: Rendering) {
    Silent(r.persistentRest) && Silent(r.transientRest)
  }

  lemma {:induction false} PlantedIsFound(fields: Fields, path: seq<string>, value: string)
    requires path != []
    ensures Walk(JObject(Plant(fields, path, value)), path) == Some(JString(value))
    decreases |path|
  {
    if |path| == 1 {
      assert Walk(JString(value), path[1..]) == Some(JString(value));
    } else {
      var inner := if path[0] in fields && fields[path[0]].JObject? then fields[path[0]].fields else map[];
      PlantedIsFound(inner, path[1..], value);
    }
  }

  lemma RenderedLayerIsRead(settings: Fields, layer: string, layout: Layout, others: Fields, value: Option<string>)
    requires Silent(others)
    requires layer in settings && settings[layer] == RenderLayer(layout, others, value)
    ensures LayerValue(settings, layer) == Good(value)
  {
    if value.Some? && layout.Nested? {
      PlantedIsFound(others, SEGMENTS, value.value);
      assert SEGMENTS[0] != ALLOCATION_ENABLE_SETTING;
    }
  }

  /** Whatever else the cluster has configured and in either layout, reading a
      rendered response gives back both layers. */
  lemma CaptureReadsTheLayers(r: Rendering, layers: Layers)
    requires Faithful(r)
    ensures CaptureSetting(Render(r, layers)) == Good(layers)
  {
    var body := Render(r, layers);
    assert "persistent" != "transient" by { assert |"persistent"| != |"transient"|; }
    RenderedLayerIsRead(body.fields, "persistent", r.layout, r.persistentRest, layers.persistent);
    RenderedLayerIsRead(body.fields, "transient", r.layout, r.transientRest, layers.transient);
  }

  /** Round trip: whatever was there before, writing a capture's restoration
      payload and reading the cluster back gives the captured layers. */
  lemma RestorationRoundTrip(before: Layers, captured: Layers, r: Rendering)
    requires Faithful(r)
    ensures CaptureSetting(Render(r, ApplyPut(before, RestorationPayload(captured)))) == Good(captured)
  {
    CaptureReadsTheLayers(r, captured);
  }

  /** The guard write sets the persistent layer and nothing else. It makes the
      effective value `primaries` exactly when no other transient value stands
      above it. */
  lemma GuardPutTakesEffect(before: Layers)
    ensures ApplyPut(before, GUARD_PUT) == Layers(Some(PRIMARIES), before.transient)
    ensures ApplyPut(before, GUARD_PUT).Effective() == PRIMARIES
       <==> (before.transient.None? || before.transient.value == PRIMARIES)
  {
    if before.transient.Some? {
      assert ApplyPut(before, GUARD_PUT).Effective() == OrAll(before.transient.value);
      assert |PRIMARIES| == 9 && |"all"| == 3;
    }
  }
}
