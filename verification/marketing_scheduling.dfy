/** The marketing scheduling agent: the schedule-creation request it sends,
    and the normalisation of the returned payload into schedule entries with
    defaults. Entries pass the payload's truthy values through unchecked. */
module MarketingScheduling {
  import opened Wrappers
  import opened Values
  import opened Sequences
  import opened AgentActions

  datatype ScheduleEntry = ScheduleEntry(date: Value, channel: Value, contentId: Value, status: Value)

  /** The `analysis` request of `createSchedule`. */
  function ScheduleRequest(content: Value, duration: string, channels: seq<string>): (r: ActionRequest)
    ensures r.category == Analysis && r.kind == "schedule_creation"
    ensures r.data.Keys == {"content", "duration", "channels", "optimizeFor"}
    ensures r.data["content"] == content && r.data["duration"] == Str(duration)
    ensures r.data["channels"] == Strings(channels)
    ensures r.data["optimizeFor"] == Str("engagement")
  {
    ActionRequest(Analysis, "schedule_creation", map[
      "content" := content,
      "duration" := Str(duration),
      "channels" := Strings(channels),
      "optimizeFor" := Str("engagement")])
  }

  /** One payload item as a schedule entry: a falsy `date` becomes the clock
      reading `now`, a falsy `channel` or `contentId` becomes `""`, a falsy
      `status` becomes `failed`. A `null` or `undefined` item throws at its
      first property read. */
  function ToEntry(item: Value, now: int): (r: Result<ScheduleEntry, TypeError>)
    ensures r.Err? <==> Nullish(item)
    ensures r.Err? ==> r.error == PropertyOfNullish("date")
    ensures r.Ok? ==> && r.value.date == Or(OptGet(item, "date"), Date(Clock(now)))
                      && r.value.channel == Or(OptGet(item, "channel"), Str(""))
                      && r.value.contentId == Or(OptGet(item, "contentId"), Str(""))
                      && r.value.status == Or(OptGet(item, "status"), Str("failed"))
  {
    match Get(item, "date")
    case Err(e) => Err(e)
    case Ok(date) =>
      var channel := Get(item, "channel").value;
      var contentId := Get(item, "contentId").value;
      var status := Get(item, "status").value;
      Ok(ScheduleEntry(Or(date, Date(Clock(now))), Or(channel, Str("")), Or(contentId, Str("")), Or(status, Str("failed"))))
  }

  /** The result handling of `createSchedule`, with `clock(i)` the clock
      reading while item `i` is mapped: a truthy array payload is mapped item
      by item; anything else yields no entries. */
  function NormaliseSchedule(payload: Value, clock: nat -> int): (r: Result<seq<ScheduleEntry>, TypeError>)
    ensures !payload.Arr? ==> r == Ok([])
    ensures payload.Arr? ==> (r.Ok? <==> forall i :: 0 <= i < |payload.items| ==> !Nullish(payload.items[i]))
    ensures payload.Arr? && r.Ok? ==>
              && |r.value| == |payload.items|
              && forall i :: 0 <= i < |payload.items| ==> Ok(r.value[i]) == ToEntry(payload.items[i], clock(i))
    ensures r.Err? ==> r.error == PropertyOfNullish("date")
  {
    if Truthy(payload) && IsArray(payload) then
      var entry := (i: nat, item: Value) => ToEntry(item, clock(i));
      assert forall i: nat :: i < |payload.items| ==> entry(i, payload.items[i]) == ToEntry(payload.items[i], clock(i));
      TryMap(payload.items, entry)
    else Ok([])
  }

  /** `createSchedule`: the request it sends and how it settles. It has no
      `catch`, so a rejected dispatch or a throwing item rejects it too. */
  function CreateSchedule(content: Value, duration: string, channels: seq<string>, reply: Reply, clock: nat -> int)
    : (r: (ActionRequest, Result<seq<ScheduleEntry>, FacadeError>))
    ensures r.0 == ScheduleRequest(content, duration, channels)
    ensures reply.Rejected? ==> r.1 == Err(DispatchFailed)
    ensures reply.Replied? ==> match NormaliseSchedule(reply.payload, clock)
                               case Ok(entries) => r.1 == Ok(entries)
                               case Err(e) => r.1 == Err(ItemTypeError(e))
  {
    var request := ScheduleRequest(content, duration, channels);
    match reply
    case Rejected => (request, Err(DispatchFailed))
    case Replied(payload) =>
      match NormaliseSchedule(payload, clock)
      case Ok(entries) => (request, Ok(entries))
      case Err(e) => (request, Err(ItemTypeError(e)))
  }

  /** Normalising is idempotent: an entry written back as a payload item
      comes out unchanged, provided its date and status are set and its
      channel and content id are strings. */
  lemma EntryRoundTrip(e: ScheduleEntry, now: int)
    requires Truthy(e.date) && e.channel.Str? && e.contentId.Str? && Truthy(e.status)
    ensures var item := Obj(map["date" := e.date, "channel" := e.channel, "contentId" := e.contentId, "status" := e.status]);
            ToEntry(item, now) == Ok(e)
  {
  }

  /** An empty object gets every default. */
  lemma EmptyItemDefaults(now: int)
    ensures ToEntry(Obj(map[]), now) == Ok(ScheduleEntry(Date(Clock(now)), Str(""), Str(""), Str("failed")))
  {
  }

  /** `executeCampaign`: a `task` request to run the campaign on schedule. */
  function ExecuteCampaignRequest(campaignId: string): (r: ActionRequest)
    ensures r.category == Task && r.kind == "campaign_execution"
    ensures r.data == map["campaignId" := Str(campaignId), "executeType" := Str("scheduled")]
  {
    ActionRequest(Task, "campaign_execution", map["campaignId" := Str(campaignId), "executeType" := Str("scheduled")])
  }

  /** `updateSchedule`: a `task` request carrying the new content. */
  function UpdateScheduleRequest(campaignId: string, newContent: Value): (r: ActionRequest)
    ensures r.category == Task && r.kind == "schedule_update"
    ensures r.data == map["campaignId" := Str(campaignId), "newContent" := newContent, "updateType" := Str("optimization")]
  {
    ActionRequest(Task, "schedule_update", map["campaignId" := Str(campaignId), "newContent" := newContent, "updateType" := Str("optimization")])
  }
}
