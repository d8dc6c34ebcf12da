/** The lead-generation agent of the sales suite: the three analysis
    requests it sends, the decoding of raw payload leads with defaults, and
    the merge of enrichment or scoring data into a lead. Leads are built
    from untyped payloads without validation, so their fields are payload
    values. The ids and clock readings drawn for raw leads are parameters. */
module LeadGeneration {
  import opened Wrappers
  import opened Values
  import opened Sequences
  import opened AgentActions

  datatype Lead = Lead(
    id: Value,
    source: Value,
    company: map<string, Value>,
    contact: map<string, Value>,
    score: Value,
    status: Value,
    notes: Value,
    createdAt: Value)

  const DefaultThreshold := 60.0

  /** A lead as the payload object the requests carry. */
  function LeadValue(l: Lead): Value {
    Obj(map[
      "id" := l.id, "source" := l.source, "company" := Obj(l.company), "contact" := Obj(l.contact),
      "score" := l.score, "status" := l.status, "notes" := l.notes, "createdAt" := l.createdAt])
  }

  // --------------------------------------------------------------- decoding

  /** `company: { name: raw.company?.name || '', ... }` */
  function DecodeCompany(raw: Value): (r: map<string, Value>)
    ensures r.Keys == {"name", "industry", "size", "location"}
    ensures forall k :: k in r ==> r[k] == Or(OptGet(OptGet(raw, "company"), k), Str(""))
  {
    var company := OptGet(raw, "company");
    map k | k in {"name", "industry", "size", "location"} :: Or(OptGet(company, k), Str(""))
  }

  /** `contact: { name: raw.contact?.name || '', ..., phone: ... || undefined }` */
  function DecodeContact(raw: Value): (r: map<string, Value>)
    ensures r.Keys == {"name", "title", "email", "phone"}
    ensures forall k :: k in r && k != "phone" ==> r[k] == Or(OptGet(OptGet(raw, "contact"), k), Str(""))
    ensures r["phone"] == Or(OptGet(OptGet(raw, "contact"), "phone"), Undefined)
    ensures !Truthy(OptGet(OptGet(raw, "contact"), "phone")) ==> r["phone"] == Undefined
    ensures Truthy(r["phone"]) <==> Truthy(OptGet(OptGet(raw, "contact"), "phone"))
  {
    var contact := OptGet(raw, "contact");
    map k | k in {"name", "title", "email", "phone"} ::
      if k == "phone" then Or(OptGet(contact, k), Undefined) else Or(OptGet(contact, k), Str(""))
  }

  /** `transformToLead`: a lead from a raw payload item, `freshId` and `now`
      standing in for the uuid and the date drawn when the item lacks them.
      Falsy strings default to `""`, a falsy status to `new`, a score that is
      not a number to 0. A `null` or `undefined` item throws at `id`. */
  function TransformToLead(raw: Value, freshId: string, now: int): (r: Result<Lead, TypeError>)
    ensures r.Err? <==> Nullish(raw)
    ensures r.Err? ==> r.error == PropertyOfNullish("id")
    ensures r.Ok? ==> r.value.company == DecodeCompany(raw) && r.value.contact == DecodeContact(raw)
    ensures r.Ok? ==>
              var l := r.value;
              && l.id == Or(OptGet(raw, "id"), Str(freshId))
              && l.source == Or(OptGet(raw, "source"), Str(""))
              && (OptGet(raw, "score").Num? ==> l.score == OptGet(raw, "score"))
              && (!OptGet(raw, "score").Num? ==> l.score == Num(0.0))
              && l.status == Or(OptGet(raw, "status"), Str("new"))
              && l.notes == Or(OptGet(raw, "notes"), Str(""))
              && (Truthy(OptGet(raw, "createdAt")) ==> l.createdAt == Date(Parsed(OptGet(raw, "createdAt"))))
              && (!Truthy(OptGet(raw, "createdAt")) ==> l.createdAt == Date(Clock(now)))
  {
    match Get(raw, "id")
    case Err(e) => Err(e)
    case Ok(id) =>
      var score := OptGet(raw, "score");
      var createdAt := OptGet(raw, "createdAt");
      Ok(Lead(
        Or(id, Str(freshId)),
        Or(OptGet(raw, "source"), Str("")),
        DecodeCompany(raw),
        DecodeContact(raw),
        if score.Num? then score else Num(0.0),
        Or(OptGet(raw, "status"), Str("new")),
        Or(OptGet(raw, "notes"), Str("")),
        if Truthy(createdAt) then Date(Parsed(createdAt)) else Date(Clock(now))))
  }

  /** A value `x || d` leaves as it is: a truthy value, or `d` itself. */
  predicate KeptBy(v: Value, d: Value) {
    Truthy(v) || v == d
  }

  /** The leads `transformToLead` produces: every field is one its own
      defaulting leaves unchanged, and the creation date is a `Date`. */
  predicate Decoded(l: Lead) {
    && Truthy(l.id)
    && KeptBy(l.source, Str(""))
    && l.company.Keys == {"name", "industry", "size", "location"}
    && (forall k :: k in l.company ==> KeptBy(l.company[k], Str("")))
    && l.contact.Keys == {"name", "title", "email", "phone"}
    && (forall k :: k in l.contact && k != "phone" ==> KeptBy(l.contact[k], Str("")))
    && KeptBy(l.contact["phone"], Undefined)
    && l.score.Num?
    && Truthy(l.status)
    && KeptBy(l.notes, Str(""))
    && l.createdAt.Date?
  }

  /** Every lead decoded with a non-empty fresh id has that shape. */
  lemma TransformIsDecoded(raw: Value, freshId: string, now: int)
    requires freshId != ""
    ensures TransformToLead(raw, freshId, now).Ok? ==> Decoded(TransformToLead(raw, freshId, now).value)
  {
  }

  /** Decoding a lead written back as a payload item gives the lead again,
      except that its creation date becomes `new Date(date)` of itself: the
      decoding is idempotent on the leads it produces. */
  lemma TransformRoundTrip(l: Lead, freshId: string, now: int)
    requires Decoded(l)
    ensures TransformToLead(LeadValue(l), freshId, now) == Ok(l.(createdAt := Date(Parsed(l.createdAt))))
  {
    var raw := LeadValue(l);
    CompanyRoundTrip(l);
    ContactRoundTrip(l);
    var r := TransformToLead(raw, freshId, now);
    assert r.Ok?;
    assert OptGet(raw, "id") == l.id && OptGet(raw, "source") == l.source && OptGet(raw, "score") == l.score;
    assert OptGet(raw, "status") == l.status && OptGet(raw, "notes") == l.notes && OptGet(raw, "createdAt") == l.createdAt;
  }

  lemma CompanyRoundTrip(l: Lead)
    requires l.company.Keys == {"name", "industry", "size", "location"}
    requires forall k :: k in l.company ==> KeptBy(l.company[k], Str(""))
    ensures DecodeCompany(LeadValue(l)) == l.company
  {
    var company := OptGet(LeadValue(l), "company");
    assert company == Obj(l.company);
    var r := DecodeCompany(LeadValue(l));
    assert forall k :: k in r ==> r[k] == l.company[k] by {
      forall k | k in r ensures r[k] == l.company[k] {
        assert OptGet(company, k) == l.company[k];
      }
    }
  }

  lemma ContactRoundTrip(l: Lead)
    requires l.contact.Keys == {"name", "title", "email", "phone"}
    requires forall k :: k in l.contact && k != "phone" ==> KeptBy(l.contact[k], Str(""))
    requires KeptBy(l.contact["phone"], Undefined)
    ensures DecodeContact(LeadValue(l)) == l.contact
  {
    var contact := OptGet(LeadValue(l), "contact");
    assert contact == Obj(l.contact);
    var r := DecodeContact(LeadValue(l));
    assert forall k :: k in r ==> r[k] == l.contact[k] by {
      forall k | k in r ensures r[k] == l.contact[k] {
        assert OptGet(contact, k) == l.contact[k];
      }
    }
  }

  // ------------------------------------------------------------------ merge

  /** The fields `...(newData[key] || {})` spreads over a nested record. */
  function Overrides(newData: Value, key: string): map<string, Value> {
    Own(Or(OptGet(newData, key), Obj(map[])))
  }

  /** `mergeLead`: company and contact merged field by field with the new
      fields winning; a new score wins whenever it is not nullish (even 0),
      a new status or note only when truthy; id, source and creation date
      always stay. The callers never pass `null` or `undefined`. */
  function MergeLead(original: Lead, newData: Value): (r: Lead)
    requires !Nullish(newData)
    ensures r.id == original.id && r.source == original.source && r.createdAt == original.createdAt
    ensures r.company.Keys == original.company.Keys + Overrides(newData, "company").Keys
    ensures forall k :: k in r.company ==>
              r.company[k] == if k in Overrides(newData, "company") then Overrides(newData, "company")[k] else original.company[k]
    ensures r.contact.Keys == original.contact.Keys + Overrides(newData, "contact").Keys
    ensures forall k :: k in r.contact ==>
              r.contact[k] == if k in Overrides(newData, "contact") then Overrides(newData, "contact")[k] else original.contact[k]
    ensures r.score == if Nullish(OptGet(newData, "score")) then original.score else OptGet(newData, "score")
    ensures r.status == if Truthy(OptGet(newData, "status")) then OptGet(newData, "status") else original.status
    ensures r.notes == if Truthy(OptGet(newData, "notes")) then OptGet(newData, "notes") else original.notes
  {
    original.(
      company := Spread(original.company, Overrides(newData, "company")),
      contact := Spread(original.contact, Overrides(newData, "contact")),
      score := Coalesce(Get(newData, "score").value, original.score),
      status := Or(Get(newData, "status").value, original.status),
      notes := Or(Get(newData, "notes").value, original.notes))
  }

  /** Merging an empty object changes nothing. */
  lemma MergeEmpty(l: Lead)
    ensures MergeLead(l, Obj(map[])) == l
  {
    var r := MergeLead(l, Obj(map[]));
    assert Overrides(Obj(map[]), "company") == map[];
    assert r.company == l.company;
    assert r.contact == l.contact;
  }

  /** Merging the same data a second time changes nothing more. */
  lemma MergeIdempotent(l: Lead, d: Value)
    requires !Nullish(d)
    ensures MergeLead(MergeLead(l, d), d) == MergeLead(l, d)
  {
    var once := MergeLead(l, d);
    var twice := MergeLead(once, d);
    assert twice.company == once.company;
    assert twice.contact == once.contact;
  }

  /** A new score of 0 replaces the old score, while an empty new status or
      note leaves the old one. */
  lemma ZeroScoreWinsEmptyStatusLoses(l: Lead)
    ensures var d := Obj(map["score" := Num(0.0), "status" := Str(""), "notes" := Str("")]);
            var r := MergeLead(l, d);
            r.score == Num(0.0) && r.status == l.status && r.notes == l.notes
  {
    var d := Obj(map["score" := Num(0.0), "status" := Str(""), "notes" := Str("")]);
    assert OptGet(d, "score") == Num(0.0);
    assert OptGet(d, "status") == Str("") && OptGet(d, "notes") == Str("");
  }

  // ---------------------------------------------------------------- requests

  /** `criteria.minScore || 60` */
  function ScoreThreshold(criteria: Value): (r: Value)
    ensures Truthy(OptGet(criteria, "minScore")) ==> r == OptGet(criteria, "minScore")
    ensures !Truthy(OptGet(criteria, "minScore")) ==> r == Num(DefaultThreshold)
  {
    Or(OptGet(criteria, "minScore"), Num(DefaultThreshold))
  }

  function FindLeadsRequest(criteria: Value): (r: ActionRequest)
    ensures r.category == Analysis && r.kind == "lead_generation"
    ensures r.data.Keys == {"searchCriteria", "sources", "enrichData", "scoreThreshold"}
    ensures r.data["searchCriteria"] == criteria && r.data["enrichData"] == Bool(true)
    ensures r.data["sources"] == Strings(["linkedin", "clearbit", "zoominfo"])
    ensures r.data["scoreThreshold"] == ScoreThreshold(criteria)
  {
    ActionRequest(Analysis, "lead_generation", map[
      "searchCriteria" := criteria,
      "sources" := Strings(["linkedin", "clearbit", "zoominfo"]),
      "enrichData" := Bool(true),
      "scoreThreshold" := ScoreThreshold(criteria)])
  }

  function EnrichRequest(lead: Lead): (r: ActionRequest)
    ensures r.category == Analysis && r.kind == "lead_enrichment"
    ensures r.data.Keys == {"lead", "enrichmentSources", "includeFinancials", "includeTechnographics"}
    ensures r.data["lead"] == LeadValue(lead) && r.data["enrichmentSources"] == Strings(["clearbit", "zoominfo"])
    ensures r.data["includeFinancials"] == Bool(true) && r.data["includeTechnographics"] == Bool(true)
  {
    ActionRequest(Analysis, "lead_enrichment", map[
      "lead" := LeadValue(lead),
      "enrichmentSources" := Strings(["clearbit", "zoominfo"]),
      "includeFinancials" := Bool(true),
      "includeTechnographics" := Bool(true)])
  }

  function ScoreRequest(leads: seq<Lead>): (r: ActionRequest)
    ensures r.category == Analysis && r.kind == "lead_scoring"
    ensures r.data.Keys == {"leads", "scoringModel", "includePredictions"}
    ensures r.data["leads"].Arr? && |r.data["leads"].items| == |leads|
    ensures forall i :: 0 <= i < |leads| ==> r.data["leads"].items[i] == LeadValue(leads[i])
    ensures r.data["scoringModel"] == Str("default") && r.data["includePredictions"] == Bool(true)
  {
    ActionRequest(Analysis, "lead_scoring", map[
      "leads" := Arr(seq(|leads|, i requires 0 <= i < |leads| => LeadValue(leads[i]))),
      "scoringModel" := Str("default"),
      "includePredictions" := Bool(true)])
  }

  // -------------------------------------------------------------- operations

  /** The items of an array payload; any other payload has none. */
  function PayloadItems(payload: Value): (items: seq<Value>)
    ensures payload.Arr? ==> items == payload.items
    ensures !payload.Arr? ==> items == []
  {
    if IsArray(payload) then payload.items else []
  }

  /** `findLeads`: the decoded leads of an array payload; no leads when the
      dispatch rejects, the payload is not an array, or an item is `null` or
      `undefined` (the throw is caught). `freshId(i)` and `clock(i)` are drawn
      for item `i`. */
  function FindLeads(criteria: Value, reply: Reply, freshId: nat -> string, clock: nat -> int): (r: (ActionRequest, seq<Lead>))
    ensures r.0 == FindLeadsRequest(criteria)
    ensures reply.Rejected? ==> r.1 == []
    ensures reply.Replied? && !reply.payload.Arr? ==> r.1 == []
    ensures reply.Replied? && reply.payload.Arr? ==>
              var items := reply.payload.items;
              if forall i :: 0 <= i < |items| ==> !Nullish(items[i]) then
                |r.1| == |items| && forall i :: 0 <= i < |items| ==> Ok(r.1[i]) == TransformToLead(items[i], freshId(i), clock(i))
              else r.1 == []
  {
    var request := FindLeadsRequest(criteria);
    match reply
    case Rejected => (request, [])
    case Replied(payload) =>
      match DecodeLeads(PayloadItems(payload), freshId, clock)
      case Ok(leads) => (request, leads)
      case Err(_) => (request, [])
  }

  /** `items.map(transformToLead)`: every lead, or the first item's throw. */
  function DecodeLeads(items: seq<Value>, freshId: nat -> string, clock: nat -> int): (r: Result<seq<Lead>, TypeError>)
    ensures r.Ok? <==> forall i :: 0 <= i < |items| ==> !Nullish(items[i])
    ensures r.Ok? ==>
              |r.value| == |items|
              && forall i :: 0 <= i < |items| ==> Ok(r.value[i]) == TransformToLead(items[i], freshId(i), clock(i))
  {
    var decode := (i: nat, raw: Value) => TransformToLead(raw, freshId(i), clock(i));
    assert forall i: nat :: i < |items| ==> decode(i, items[i]) == TransformToLead(items[i], freshId(i), clock(i));
    TryMap(items, decode)
  }

  /** `enrichLeadData`: the lead merged with the payload (an empty object
      when the payload is falsy), or the lead unchanged when the dispatch
      rejects. */
  function EnrichLeadData(lead: Lead, reply: Reply): (r: (ActionRequest, Lead))
    ensures r.0 == EnrichRequest(lead)
    ensures reply.Rejected? ==> r.1 == lead
    ensures reply.Replied? && !Truthy(reply.payload) ==> r.1 == lead
    ensures reply.Replied? && Truthy(reply.payload) ==> r.1 == MergeLead(lead, reply.payload)
  {
    var request := EnrichRequest(lead);
    match reply
    case Rejected => (request, lead)
    case Replied(payload) =>
      if Truthy(payload) then (request, MergeLead(lead, payload))
      else
        MergeEmpty(lead);
        (request, MergeLead(lead, Obj(map[])))
  }

  /** The data scored lead `i` is merged with: item `i` of an array payload
      when truthy, otherwise an empty object. */
  function ScoredData(payload: Value, i: nat): (d: Value)
    ensures !Nullish(d)
    ensures payload.Arr? && i < |payload.items| && Truthy(payload.items[i]) ==> d == payload.items[i]
    ensures !(payload.Arr? && i < |payload.items| && Truthy(payload.items[i])) ==> d == Obj(map[])
  {
    var items := PayloadItems(payload);
    Or(if i < |items| then items[i] else Undefined, Obj(map[]))
  }

  /** `scoreLeads`: every lead merged with the data at its index; the leads
      unchanged when the dispatch rejects, and in effect unchanged when the
      payload is not an array. */
  function ScoreLeads(leads: seq<Lead>, reply: Reply): (r: (ActionRequest, seq<Lead>))
    ensures r.0 == ScoreRequest(leads)
    ensures |r.1| == |leads|
    ensures reply.Rejected? ==> r.1 == leads
    ensures reply.Replied? ==> forall i :: 0 <= i < |leads| ==> r.1[i] == MergeLead(leads[i], ScoredData(reply.payload, i))
    ensures reply.Replied? && !reply.payload.Arr? ==> r.1 == leads
  {
    var request := ScoreRequest(leads);
    match reply
    case Rejected => (request, leads)
    case Replied(payload) =>
      var scored := seq(|leads|, i requires 0 <= i < |leads| => MergeLead(leads[i], ScoredData(payload, i)));
      if !payload.Arr? then
        assert forall i :: 0 <= i < |leads| ==> scored[i] == leads[i] by {
          forall i | 0 <= i < |leads| ensures scored[i] == leads[i] {
            MergeEmpty(leads[i]);
          }
        }
        (request, scored)
      else (request, scored)
  }
}
