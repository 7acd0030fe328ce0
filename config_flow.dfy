/** The setup and options forms: the user step that probes the server and creates the entry,
    the options steps that merge what was submitted, the model list offered for selection and
    the suggested values of the option forms. URL validation and the HTTP session are
    parameters; the form widgets themselves are reduced to their keys and values. */
module ConfigFlow {
  import opened Values
  import opened Const
  import opened Api
  import opened Conversation

  // ---------------------------------------------------------------- forms and results

  /** One field of a form: its key, whether it is required, the value suggested to the user
      (if any) and the value used when the field is left empty. */
  datatype FormField = FormField(key: string, required: bool, suggested: Option<Json>, default: Json)

  /** A form: its step, its fields and, for the model step, the choices offered. */
  datatype Form = Form(stepId: string, fields: seq<FormField>, choices: seq<Json>)

  datatype FlowResult =
    | ShowForm(form: Form, errors: map<string, string>)
    | Abort(reason: string)
    | CreateEntry(title: string, data: map<string, Json>, options: map<string, Json>)
    | SaveOptions(options: map<string, Json>)   // an options step's entry: its data become the options
    | Raised                                      // an exception the step does not handle reaches the host

  function Keys(fields: seq<FormField>): seq<string> {
    seq(|fields|, i requires 0 <= i < |fields| => fields[i].key)
  }

  function Defaults(fields: seq<FormField>): seq<Json> {
    seq(|fields|, i requires 0 <= i < |fields| => fields[i].default)
  }

  function Required(fields: seq<FormField>): seq<bool> {
    seq(|fields|, i requires 0 <= i < |fields| => fields[i].required)
  }

  /** The setup form: every field required, with the integration's defaults. */
  const USER_FORM: Form := Form("user", [
    FormField(CONF_SERVICE_NAME, true, None, JStr(DEFAULT_SERVICE_NAME)),
    FormField(CONF_BASE_URL, true, None, JStr(DEFAULT_BASE_URL)),
    FormField(CONF_API_KEY, true, None, JStr("")),
    FormField(CONF_TIMEOUT, true, None, JNum(DEFAULT_TIMEOUT)),
    FormField(CONF_VERIFY_SSL, true, None, JBool(DEFAULT_VERIFY_SSL))], [])

  // ---------------------------------------------------------------- the user step

  /** What the setup form yields once it has been validated by its schema. */
  datatype UserInput = UserInput(serviceName: string, baseUrl: string, apiKey: string, timeout: int, verifySsl: bool)

  /** An existing entry's data compares equal on the service name (a missing name never does). */
  predicate SameServiceName(data: map<string, Json>, name: string)
    ensures SameServiceName(data, name) <==> Values.Get(data, CONF_SERVICE_NAME, JNull) == JStr(name)
  {
    CONF_SERVICE_NAME in data && data[CONF_SERVICE_NAME] == JStr(name)
  }

  /** Some existing entry has the service name. */
  predicate IsDuplicate(existing: seq<map<string, Json>>, name: string)
    ensures IsDuplicate(existing, name) <==> exists j :: 0 <= j < |existing| && SameServiceName(existing[j], name)
    decreases |existing|
  {
    if existing == [] then false
    else SameServiceName(existing[0], name) || IsDuplicate(existing[1..], name)
  }

  /** Why the server was not accepted: the URL (or the server's health answer) is invalid, or
      the client raised one of its errors. */
  datatype SetupFailure = InvalidUrl | ClientFailure(error: ApiError)

  /** The handlers of the user step, in order, as error keys. */
  function ErrorKey(f: SetupFailure): (k: string)
    ensures k == "invalid_url" <==> f.InvalidUrl?
    ensures k == "timeout_connect" <==> f == ClientFailure(TimeoutError)
    ensures k == "cannot_connect" <==> f == ClientFailure(CommError)
    ensures k == "unknown" <==> f.ClientFailure? && (f.error.ClientError? || f.error.JsonError?)
  {
    match f
    case InvalidUrl => "invalid_url"
    case ClientFailure(TimeoutError) => "timeout_connect"
    case ClientFailure(CommError) => "cannot_connect"
    case ClientFailure(_) => "unknown"
  }

  /** How probing the server ends. */
  datatype Probe = Healthy | Rejected(failure: SetupFailure) | Escaped

  /** The client the user step builds from the submitted settings. URL validation either
      rejects the URL or returns it unchanged, so the client is built on the URL as typed. */
  function ProbeClient(u: UserInput): (c: Client)
    ensures c == NewClient(u.baseUrl, u.apiKey, u.timeout, u.verifySsl)
  {
    NewClient(u.baseUrl, u.apiKey, u.timeout, u.verifySsl)
  }

  /** Validate the URL (`acceptsUrl` says whether URL validation lets it through: it must
      be a URL without a path), then ask the server for its health. */
  function ProbeServer(u: UserInput, acceptsUrl: string -> bool, send: Request -> Outcome): (p: Probe)
    ensures !acceptsUrl(u.baseUrl) ==> p == Rejected(InvalidUrl)
    ensures acceptsUrl(u.baseUrl) ==>
      var o := send(HeartbeatRequest(ProbeClient(u)));
      && (p.Healthy? <==> Succeeds(o, true) && Field(o.body.json.value, "status").Some?
                          && EqualsTrue(Field(o.body.json.value, "status").value))
      && (p == Rejected(ClientFailure(TimeoutError)) <==> o.TimedOut?)
      && (p.Escaped? <==> Succeeds(o, true) && Field(o.body.json.value, "status").None?)
    // a false health answer is an invalid server; a client error is kept as it was raised
    ensures acceptsUrl(u.baseUrl) ==>
      var h := Heartbeat(ProbeClient(u), send);
      && (h == Ok(false) ==> p == Rejected(InvalidUrl))
      && (h.Err? && h.error.Api? ==> p == Rejected(ClientFailure(h.error.error)))
  {
    if !acceptsUrl(u.baseUrl) then Rejected(InvalidUrl)
    else
      match Heartbeat(ProbeClient(u), send)
      case Ok(alive) => if alive then Healthy else Rejected(InvalidUrl)
      case Err(Api(e)) => Rejected(ClientFailure(e))
      case Err(Lookup) => Escaped
  }

  /** The entry the user step creates: the connection in the data, the tunables in the options. */
  function NewEntry(u: UserInput): (r: FlowResult)
    ensures r.CreateEntry? && r.title == "OpenWebUI - " + u.serviceName
    ensures r.data.Keys == {CONF_SERVICE_NAME, CONF_BASE_URL, CONF_API_KEY}
    ensures r.options.Keys == {CONF_TIMEOUT, CONF_VERIFY_SSL}
  {
    CreateEntry("OpenWebUI - " + u.serviceName,
                map[CONF_SERVICE_NAME := JStr(u.serviceName), CONF_BASE_URL := JStr(u.baseUrl),
                    CONF_API_KEY := JStr(u.apiKey)],
                map[CONF_TIMEOUT := JNum(u.timeout), CONF_VERIFY_SSL := JBool(u.verifySsl)])
  }

  /** Reads the submitted settings back from an entry's data and options. */
  function InputFromEntry(data: map<string, Json>, options: map<string, Json>): Option<UserInput> {
    if && CONF_SERVICE_NAME in data && data[CONF_SERVICE_NAME].JStr?
       && CONF_BASE_URL in data && data[CONF_BASE_URL].JStr?
       && CONF_API_KEY in data && data[CONF_API_KEY].JStr?
       && CONF_TIMEOUT in options && options[CONF_TIMEOUT].JNum?
       && CONF_VERIFY_SSL in options && options[CONF_VERIFY_SSL].JBool?
    then Some(UserInput(data[CONF_SERVICE_NAME].s, data[CONF_BASE_URL].s, data[CONF_API_KEY].s,
                        options[CONF_TIMEOUT].n, options[CONF_VERIFY_SSL].b))
    else None
  }

  /** The entry splits the submission without loss: the data and the options share no key,
      and together they give the submission back (the base URL as typed, not trimmed). */
  lemma NewEntryKeepsInput(u: UserInput)
    ensures var e := NewEntry(u);
      e.data.Keys !! e.options.Keys && InputFromEntry(e.data, e.options) == Some(u)
  {
  }

  /** The created entry is one the agent accepts, and the agent talks to the server through
      the very client the probe used. */
  lemma NewEntryConfiguresAgent(u: UserInput)
    ensures var e := NewEntry(u);
      && EntryDataValid(e.data) && OptionsWellTyped(e.options)
      && ConfigFromEntry(e.data, e.options).client == ProbeClient(u)
      && ConfigFromEntry(e.data, e.options).model == DEFAULT_MODEL
      && !ConfigFromEntry(e.data, e.options).searchEnabled
  {
    var e := NewEntry(u);
    assert CONF_MODEL !in e.options && CONF_SEARCH_ENABLED !in e.options;
  }

  /** The user step once no existing entry has the submitted service name. */
  function Submit(u: UserInput, acceptsUrl: string -> bool, send: Request -> Outcome): (r: FlowResult)
    ensures r.CreateEntry? <==> ProbeServer(u, acceptsUrl, send).Healthy?
    ensures r.CreateEntry? ==> r == NewEntry(u)
    ensures r.Raised? <==> ProbeServer(u, acceptsUrl, send).Escaped?
    // a rejected server re-shows the form with exactly one error, under "base"
    ensures r.ShowForm? <==> ProbeServer(u, acceptsUrl, send).Rejected?
    ensures r.ShowForm? ==>
      && r.form == USER_FORM && r.errors.Keys == {"base"}
      && r.errors["base"] == ErrorKey(ProbeServer(u, acceptsUrl, send).failure)
    ensures !r.Abort? && !r.SaveOptions?
  {
    match ProbeServer(u, acceptsUrl, send)
    case Healthy => NewEntry(u)
    case Rejected(f) => ShowForm(USER_FORM, map["base" := ErrorKey(f)])
    case Escaped => Raised
  }

  /** The requests the user step sends once no duplicate was found: the health probe, when
      the URL is valid. */
  function ProbeRequests(u: UserInput, acceptsUrl: string -> bool): seq<Request> {
    if acceptsUrl(u.baseUrl) then [HeartbeatRequest(ProbeClient(u))] else []
  }

  /** A server that never answers in time is reported as a connection timeout. */
  lemma DeadlineReportsTimeout(u: UserInput, acceptsUrl: string -> bool, send: Request -> Outcome)
    requires acceptsUrl(u.baseUrl)
    requires forall req :: send(req) == TimedOut
    ensures Submit(u, acceptsUrl, send) == ShowForm(USER_FORM, map["base" := "timeout_connect"])
  {
    var p := ProbeServer(u, acceptsUrl, send);
    assert p == Rejected(ClientFailure(TimeoutError));
  }

  /** `async_step_user`. `existing` holds the data of the entries already set up; `sent` is
      what the step asked of the server. */
  method StepUser(input: Option<UserInput>, existing: seq<map<string, Json>>,
                  acceptsUrl: string -> bool, send: Request -> Outcome)
    returns (r: FlowResult, sent: seq<Request>)
    ensures input.None? ==> r == ShowForm(USER_FORM, map[]) && sent == []
    // a duplicate service name aborts before the server is contacted
    ensures input.Some? && IsDuplicate(existing, input.value.serviceName) ==>
      r == Abort("already_configured") && sent == []
    ensures input.Some? && !IsDuplicate(existing, input.value.serviceName) ==>
      r == Submit(input.value, acceptsUrl, send) && sent == ProbeRequests(input.value, acceptsUrl)
  {
    sent := [];
    if input.None? {
      r := ShowForm(USER_FORM, map[]);
      return;
    }
    var u := input.value;

    var i := 0;
    while i < |existing|
      invariant 0 <= i <= |existing|
      invariant forall j :: 0 <= j < i ==> !SameServiceName(existing[j], u.serviceName)
    {
      if SameServiceName(existing[i], u.serviceName) {
        r := Abort("already_configured");
        return;
      }
      i := i + 1;
    }

    var errors: map<string, string> := map[];
    var failure: Option<SetupFailure> := None;
    if !acceptsUrl(u.baseUrl) {
      failure := Some(InvalidUrl);
    } else {
      var client := ProbeClient(u);
      sent := sent + [HeartbeatRequest(client)];
      var response := Heartbeat(client, send);
      if response.Err? {
        if response.error.Lookup? {
          r := Raised;
          return;
        }
        failure := Some(ClientFailure(response.error.error));
      } else if !response.value {
        failure := Some(InvalidUrl);
      }
    }
    if failure.None? {
      r := NewEntry(u);
      return;
    }
    errors := errors["base" := ErrorKey(failure.value)];
    r := ShowForm(USER_FORM, errors);
  }

  // ---------------------------------------------------------------- the option forms

  /** What the option forms fall back to when the entry has no options at all. */
  const DEFAULT_OPTIONS: map<string, Json> := map[
    CONF_TIMEOUT := JNum(DEFAULT_TIMEOUT),
    CONF_MODEL := JStr(DEFAULT_MODEL),
    CONF_SEARCH_ENABLED := JBool(DEFAULT_SEARCH_ENABLED),
    CONF_SEARCH_SENTENCES := JStr(DEFAULT_SEARCH_SENTENCES),
    CONF_SEARCH_RESULT_PREFIX := JStr(DEFAULT_SEARCH_RESULT_PREFIX),
    CONF_STRIP_MARKDOWN := JBool(DEFAULT_STRIP_MARKDOWN)]

  /** An empty options mapping is replaced by the default options. */
  function Effective(options: map<string, Json>): (r: map<string, Json>)
    ensures r != map[]
    ensures options != map[] ==> r == options
    ensures options == map[] ==> r == DEFAULT_OPTIONS
  {
    if options == map[] then
      assert CONF_TIMEOUT in DEFAULT_OPTIONS;
      DEFAULT_OPTIONS
    else options
  }

  /** A field suggesting the effective option for its key, or the field's default. */
  function Offer(options: map<string, Json>, key: string, required: bool, default: Json): FormField {
    FormField(key, required, Some(Values.Get(Effective(options), key, default)), default)
  }

  /** Every field suggests the entry's own option, or the field's default when the entry has
      none for its key: the default options put in place of empty options never change what
      is suggested. */
  predicate SuggestsOptions(f: Form, options: map<string, Json>) {
    forall i :: 0 <= i < |f.fields| ==> f.fields[i].suggested == Some(Values.Get(options, f.fields[i].key, f.fields[i].default))
  }

  function GeneralForm(options: map<string, Json>): (f: Form)
    ensures f.stepId == "general_config" && f.choices == []
    ensures Keys(f.fields) == [CONF_TIMEOUT, CONF_LANGUAGE_CODE, CONF_VERIFY_SSL]
    ensures Required(f.fields) == [false, false, true]
    ensures Defaults(f.fields) == [JNum(DEFAULT_TIMEOUT), JStr(DEFAULT_LANGUAGE_CODE), JBool(DEFAULT_VERIFY_SSL)]
    ensures SuggestsOptions(f, options)
  {
    Form("general_config", [
      Offer(options, CONF_TIMEOUT, false, JNum(DEFAULT_TIMEOUT)),
      Offer(options, CONF_LANGUAGE_CODE, false, JStr(DEFAULT_LANGUAGE_CODE)),
      Offer(options, CONF_VERIFY_SSL, true, JBool(DEFAULT_VERIFY_SSL))], [])
  }

  function ModelForm(options: map<string, Json>, models: seq<Json>): (f: Form)
    ensures f.stepId == "model_config" && f.choices == models
    ensures Keys(f.fields) == [CONF_MODEL, CONF_STRIP_MARKDOWN]
    ensures Required(f.fields) == [true, true]
    ensures Defaults(f.fields) == [JStr(DEFAULT_MODEL), JBool(DEFAULT_STRIP_MARKDOWN)]
    ensures SuggestsOptions(f, options)
  {
    Form("model_config", [
      Offer(options, CONF_MODEL, true, JStr(DEFAULT_MODEL)),
      Offer(options, CONF_STRIP_MARKDOWN, true, JBool(DEFAULT_STRIP_MARKDOWN))], models)
  }

  function SearchForm(options: map<string, Json>): (f: Form)
    ensures f.stepId == "search_config" && f.choices == []
    ensures Keys(f.fields) == [CONF_SEARCH_ENABLED, CONF_SEARCH_SENTENCES, CONF_SEARCH_RESULT_PREFIX]
    ensures Required(f.fields) == [true, true, false]
    ensures Defaults(f.fields) == [JBool(DEFAULT_SEARCH_ENABLED), JStr(DEFAULT_SEARCH_SENTENCES), JStr(DEFAULT_SEARCH_RESULT_PREFIX)]
    ensures SuggestsOptions(f, options)
  {
    Form("search_config", [
      Offer(options, CONF_SEARCH_ENABLED, true, JBool(DEFAULT_SEARCH_ENABLED)),
      Offer(options, CONF_SEARCH_SENTENCES, true, JStr(DEFAULT_SEARCH_SENTENCES)),
      Offer(options, CONF_SEARCH_RESULT_PREFIX, false, JStr(DEFAULT_SEARCH_RESULT_PREFIX))], [])
  }

  /** `dict.update`: submitted keys overwrite, every other option is kept. */
  function Update(options: map<string, Json>, input: map<string, Json>): (r: map<string, Json>)
    ensures r.Keys == options.Keys + input.Keys
    ensures forall k :: k in input ==> r[k] == input[k]
    ensures forall k :: k in options && k !in input ==> r[k] == options[k]
  {
    options + input
  }

  /** The ids of the listed models, in order; None when one of them has no id (the lookup
      raises). */
  function ModelIds(models: seq<Json>): (r: Option<seq<Json>>)
    ensures r.Some? <==> forall k :: 0 <= k < |models| ==> Field(models[k], "id").Some?
    ensures r.Some? ==>
      && |r.value| == |models|
      && forall k :: 0 <= k < |models| ==> r.value[k] == models[k].fields["id"]
    decreases |models|
  {
    if models == [] then Some([])
    else
      var rest := ModelIds(models[1..]);
      if Field(models[0], "id").Some? && rest.Some? then Some([models[0].fields["id"]] + rest.value)
      else None
  }

  /** The choices the model step offers: the id of every model the server lists, in order,
      or none when the client raised. None when reading the listing raises outside the
      client (no "data", a model without an id, a listing that cannot be iterated). */
  function ModelChoices(fetched: Result<Json, ApiError>): (r: Option<seq<Json>>)
    ensures fetched.Err? ==> r == Some([])
    ensures fetched.Ok? && Field(fetched.value, "data").None? ==> r.None?
    ensures fetched.Ok? && Field(fetched.value, "data").Some? && Field(fetched.value, "data").value.JArr? ==>
      r == ModelIds(Field(fetched.value, "data").value.items)
    // any other listing is iterated as Python does: an empty mapping or text gives no
    // choices, and anything else raises
    ensures fetched.Ok? && Field(fetched.value, "data").Some? && !Field(fetched.value, "data").value.JArr? ==>
      var d := Field(fetched.value, "data").value;
      r == (if d == JObj(map[]) || d == JStr("") then Some([]) else None)
  {
    match fetched
    case Err(_) => Some([])
    case Ok(response) =>
      match Field(response, "data")
      case None => None
      case Some(models) =>
        match models
        case JArr(items) => ModelIds(items)
        // iterating a mapping or a text yields strings, whose "id" lookup raises
        case JObj(fields) => if fields == map[] then Some([]) else None
        case JStr(s) => if s == [] then Some([]) else None
        case _ => None
  }

  /** The models the model step offers, fetched with the entry's connection settings. */
  function AvailableModels(data: map<string, Json>, options: map<string, Json>,
                           acceptsUrl: string -> bool, send: Request -> Outcome): (r: Option<seq<Json>>)
    requires EntryDataValid(data) && OptionsWellTyped(options)
    // a URL that validation rejects raises out of the step
    ensures !acceptsUrl(data[CONF_BASE_URL].s) ==> r.None?
    // the listing is asked of the server through the same client the agent uses
    ensures acceptsUrl(data[CONF_BASE_URL].s) ==>
      r == ModelChoices(GetModels(ConfigFromEntry(data, options).client, send))
  {
    if !acceptsUrl(data[CONF_BASE_URL].s) then None
    else
      var client := NewClient(data[CONF_BASE_URL].s, data[CONF_API_KEY].s,
                              IntOption(options, CONF_TIMEOUT, DEFAULT_TIMEOUT),
                              BoolOption(options, CONF_VERIFY_SSL, DEFAULT_VERIFY_SSL));
      ModelChoices(GetModels(client, send))
  }

  /** A server that cannot be reached still lets the model be chosen, from no choices. */
  lemma UnreachableServerOffersNoModels(data: map<string, Json>, options: map<string, Json>,
                                        acceptsUrl: string -> bool, send: Request -> Outcome)
    requires EntryDataValid(data) && OptionsWellTyped(options)
    requires acceptsUrl(data[CONF_BASE_URL].s)
    requires forall req :: !send(req).Response?
    ensures AvailableModels(data, options, acceptsUrl, send) == Some([])
  {
  }

  /** The options flow. `options` starts as a copy of the entry's options; the forms suggest
      the entry's options as they were when the flow started. */
  class OptionsFlow {
    const entryData: map<string, Json>
    const entryOptions: map<string, Json>
    var options: map<string, Json>

    constructor (data: map<string, Json>, entryOpts: map<string, Json>)
      ensures entryData == data && entryOptions == entryOpts && options == entryOpts
    {
      entryData := data;
      entryOptions := entryOpts;
      options := entryOpts;
    }

    /** `async_step_general_config`. */
    method StepGeneralConfig(input: Option<map<string, Json>>) returns (r: FlowResult)
      modifies this
      ensures input.Some? ==> options == Update(old(options), input.value) && r == SaveOptions(options)
      ensures input.None? ==> options == old(options) && r == ShowForm(GeneralForm(entryOptions), map[])
    {
      if input.Some? {
        options := Update(options, input.value);
        r := SaveOptions(options);
        return;
      }
      r := ShowForm(GeneralForm(entryOptions), map[]);
    }

    /** `async_step_model_config`: the form offers the models the server lists. */
    method StepModelConfig(input: Option<map<string, Json>>, acceptsUrl: string -> bool,
                           send: Request -> Outcome) returns (r: FlowResult)
      requires EntryDataValid(entryData) && OptionsWellTyped(entryOptions)
      modifies this
      ensures input.Some? ==> options == Update(old(options), input.value) && r == SaveOptions(options)
      ensures input.None? ==> options == old(options)
      ensures input.None? ==>
        match AvailableModels(entryData, entryOptions, acceptsUrl, send)
        case None => r == Raised
        case Some(models) => r == ShowForm(ModelForm(entryOptions, models), map[])
    {
      if input.Some? {
        options := Update(options, input.value);
        r := SaveOptions(options);
        return;
      }
      var models := AvailableModels(entryData, entryOptions, acceptsUrl, send);
      if models.None? {
        r := Raised;
        return;
      }
      r := ShowForm(ModelForm(entryOptions, models.value), map[]);
    }

    /** `async_step_search_config`. */
    method StepSearchConfig(input: Option<map<string, Json>>) returns (r: FlowResult)
      modifies this
      ensures input.Some? ==> options == Update(old(options), input.value) && r == SaveOptions(options)
      ensures input.None? ==> options == old(options) && r == ShowForm(SearchForm(entryOptions), map[])
    {
      if input.Some? {
        options := Update(options, input.value);
        r := SaveOptions(options);
        return;
      }
      r := ShowForm(SearchForm(entryOptions), map[]);
    }
  }
}
