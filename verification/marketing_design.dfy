/** The marketing design agent: the visual-generation request it sends, and
    the normalisation of the returned payload into visuals with defaults. */
module MarketingDesign {
  import opened Wrappers
  import opened Values
  import opened Sequences
  import opened AgentActions

  datatype Visual = Visual(channel: Value, url: Value, kind: Value, targetDate: Value)

  /** The `analysis` request of `createVisuals`. */
  function VisualsRequest(copy: Value, strategy: Value, channels: seq<string>): (r: ActionRequest)
    ensures r.category == Analysis && r.kind == "visual_generation"
    ensures r.data.Keys == {"copy", "strategy", "channels", "style", "format"}
    ensures r.data["copy"] == copy && r.data["strategy"] == strategy && r.data["channels"] == Strings(channels)
    ensures r.data["style"] == Str("modern") && r.data["format"] == Str("channel_optimized")
  {
    ActionRequest(Analysis, "visual_generation", map[
      "copy" := copy,
      "strategy" := strategy,
      "channels" := Strings(channels),
      "style" := Str("modern"),
      "format" := Str("channel_optimized")])
  }

  /** One payload item as a visual: a falsy `channel`, `url` or `type`
      becomes `""`, a falsy `targetDate` becomes `undefined`. A `null` or
      `undefined` item throws at its first property read. */
  function ToVisual(item: Value): (r: Result<Visual, TypeError>)
    ensures r.Err? <==> Nullish(item)
    ensures r.Err? ==> r.error == PropertyOfNullish("channel")
    ensures r.Ok? ==> && r.value.channel == Or(OptGet(item, "channel"), Str(""))
                      && r.value.url == Or(OptGet(item, "url"), Str(""))
                      && r.value.kind == Or(OptGet(item, "type"), Str(""))
                      && r.value.targetDate == Or(OptGet(item, "targetDate"), Undefined)
                      && (Truthy(r.value.targetDate) <==> Truthy(OptGet(item, "targetDate")))
  {
    match Get(item, "channel")
    case Err(e) => Err(e)
    case Ok(channel) =>
      var url := Get(item, "url").value;
      var kind := Get(item, "type").value;
      var targetDate := Get(item, "targetDate").value;
      Ok(Visual(Or(channel, Str("")), Or(url, Str("")), Or(kind, Str("")), Or(targetDate, Undefined)))
  }

  /** The result handling of `createVisuals`: a truthy array payload is
      mapped item by item; anything else yields no visuals. */
  function NormaliseVisuals(payload: Value): (r: Result<seq<Visual>, TypeError>)
    ensures !payload.Arr? ==> r == Ok([])
    ensures payload.Arr? ==> (r.Ok? <==> forall i :: 0 <= i < |payload.items| ==> !Nullish(payload.items[i]))
    ensures payload.Arr? && r.Ok? ==>
              && |r.value| == |payload.items|
              && forall i :: 0 <= i < |payload.items| ==> Ok(r.value[i]) == ToVisual(payload.items[i])
    ensures r.Err? ==> r.error == PropertyOfNullish("channel")
  {
    if Truthy(payload) && IsArray(payload) then
      var visual := (i: nat, item: Value) => ToVisual(item);
      assert forall i: nat :: i < |payload.items| ==> visual(i, payload.items[i]) == ToVisual(payload.items[i]);
      TryMap(payload.items, visual)
    else Ok([])
  }

  /** `createVisuals`: the request it sends and how it settles. It has no
      `catch`, so a rejected dispatch or a throwing item rejects it too. */
  function CreateVisuals(copy: Value, strategy: Value, channels: seq<string>, reply: Reply)
    : (r: (ActionRequest, Result<seq<Visual>, FacadeError>))
    ensures r.0 == VisualsRequest(copy, strategy, channels)
    ensures reply.Rejected? ==> r.1 == Err(DispatchFailed)
    ensures reply.Replied? ==> match NormaliseVisuals(reply.payload)
                               case Ok(visuals) => r.1 == Ok(visuals)
                               case Err(e) => r.1 == Err(ItemTypeError(e))
  {
    var request := VisualsRequest(copy, strategy, channels);
    match reply
    case Rejected => (request, Err(DispatchFailed))
    case Replied(payload) =>
      match NormaliseVisuals(payload)
      case Ok(visuals) => (request, Ok(visuals))
      case Err(e) => (request, Err(ItemTypeError(e)))
  }

  /** Normalising is idempotent: a visual written back as a payload item
      comes out unchanged, provided its fields are strings. */
  lemma VisualRoundTrip(v: Visual)
    requires v.channel.Str? && v.url.Str? && v.kind.Str? && (v.targetDate == Undefined || Truthy(v.targetDate))
    ensures var item := Obj(map["channel" := v.channel, "url" := v.url, "type" := v.kind, "targetDate" := v.targetDate]);
            ToVisual(item) == Ok(v)
  {
  }
}
