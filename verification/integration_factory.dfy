/** The integration factory: routes an integration category and provider
    type to the client it constructs, handing the client the configuration
    (or the configuration properties) it needs. The clients themselves are
    outside this model; a constructed client is its kind and its
    constructor arguments. */
module IntegrationFactory {
  import opened Wrappers
  import opened Values

  datatype ProviderKind = Gmail | Slack | Twilio | Salesforce | Trello | Asana | GoogleDrive

  /** A constructed client: which one, and what it was given. */
  datatype Provider = Provider(kind: ProviderKind, args: seq<Value>)

  datatype FactoryError =
    | Unsupported(message: string)
    | ConfigTypeError(error: TypeError)

  /** The supported pairs, as a reference table from (category, type) to the
      client kind. */
  const Routes: map<(string, string), ProviderKind> := map[
    ("email", "gmail") := Gmail,
    ("messaging", "slack") := Slack,
    ("messaging", "twilio") := Twilio,
    ("crm", "salesforce") := Salesforce,
    ("project", "trello") := Trello,
    ("project", "asana") := Asana,
    ("storage", "google-drive") := GoogleDrive]

  const Categories: set<string> := {"email", "messaging", "crm", "project", "storage"}

  /** The error a supported category raises for a type it does not know. */
  function UnsupportedType(category: string, kind: string): string {
    match category
    case "email" => "Unsupported email provider: " + kind
    case "messaging" => "Unsupported messaging provider: " + kind
    case "crm" => "Unsupported CRM provider: " + kind
    case "project" => "Unsupported project management provider: " + kind
    case _ => "Unsupported storage provider: " + kind
  }

  /** The constructor arguments: the whole configuration, or properties read
      from it (which throws when the configuration is `null` or
      `undefined`). */
  function Construct(kind: ProviderKind, config: Value): (r: Result<Provider, TypeError>)
    ensures r.Ok? ==> r.value.kind == kind
    ensures kind in {Gmail, Salesforce, GoogleDrive} ==> r == Ok(Provider(kind, [config]))
    ensures kind in {Slack, Twilio, Trello, Asana} ==> (r.Err? <==> Nullish(config))
  {
    match kind
    case Gmail => Ok(Provider(Gmail, [config]))
    case Salesforce => Ok(Provider(Salesforce, [config]))
    case GoogleDrive => Ok(Provider(GoogleDrive, [config]))
    case Slack =>
      (match Get(config, "token")
       case Err(e) => Err(e)
       case Ok(token) => Ok(Provider(Slack, [token])))
    case Twilio =>
      (match Get(config, "accountSid")
       case Err(e) => Err(e)
       case Ok(sid) => Ok(Provider(Twilio, [sid, Get(config, "authToken").value])))
    case Trello =>
      (match Get(config, "apiKey")
       case Err(e) => Err(e)
       case Ok(key) => Ok(Provider(Trello, [key, Get(config, "token").value])))
    case Asana =>
      match Get(config, "accessToken")
      case Err(e) => Err(e)
      case Ok(token) => Ok(Provider(Asana, [token]))
  }

  /** `createProvider(type, category, config)` with its `create*Provider`
      helpers: the switch on the category, then the switch on the type. */
  function CreateProvider(kind: string, category: string, config: Value): (r: Result<Provider, FactoryError>)
    ensures category !in Categories ==> r == Err(Unsupported("Unsupported integration category: " + category))
    ensures category in Categories && (category, kind) !in Routes ==>
              r == Err(Unsupported(UnsupportedType(category, kind)))
    ensures r.Ok? ==> (category, kind) in Routes && r.value.kind == Routes[(category, kind)]
    ensures (category, kind) in Routes && !Nullish(config) ==> r.Ok?
    ensures r.Err? && r.error.ConfigTypeError? ==> (category, kind) in Routes && Nullish(config)
  {
    match category
    case "email" =>
      (match kind
       case "gmail" => Built(Construct(Gmail, config))
       case _ => Err(Unsupported("Unsupported email provider: " + kind)))
    case "messaging" =>
      (match kind
       case "slack" => Built(Construct(Slack, config))
       case "twilio" => Built(Construct(Twilio, config))
       case _ => Err(Unsupported("Unsupported messaging provider: " + kind)))
    case "crm" =>
      (match kind
       case "salesforce" => Built(Construct(Salesforce, config))
       case _ => Err(Unsupported("Unsupported CRM provider: " + kind)))
    case "project" =>
      (match kind
       case "trello" => Built(Construct(Trello, config))
       case "asana" => Built(Construct(Asana, config))
       case _ => Err(Unsupported("Unsupported project management provider: " + kind)))
    case "storage" =>
      (match kind
       case "google-drive" => Built(Construct(GoogleDrive, config))
       case _ => Err(Unsupported("Unsupported storage provider: " + kind)))
    case _ => Err(Unsupported("Unsupported integration category: " + category))
  }

  function Built(r: Result<Provider, TypeError>): (b: Result<Provider, FactoryError>)
    ensures b.Ok? <==> r.Ok?
    ensures r.Ok? ==> b.value == r.value
    ensures r.Err? ==> b.error == ConfigTypeError(r.error)
  {
    match r
    case Ok(p) => Ok(p)
    case Err(e) => Err(ConfigTypeError(e))
  }

  /** The configuration never decides the route: two calls with the same
      category and type either build the same kind of client or fail with
      the same routing error. */
  lemma RoutingIgnoresConfig(kind: string, category: string, config: Value, config': Value)
    ensures var r, r' := CreateProvider(kind, category, config), CreateProvider(kind, category, config');
            && (r.Ok? && r'.Ok? ==> r.value.kind == r'.value.kind)
            && (r.Err? && r.error.Unsupported? ==> r' == r)
  {
  }
}
