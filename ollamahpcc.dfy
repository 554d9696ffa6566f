/**
  The decision logic of `OllamaServer` and `OllamaClient`: which role maps to
  which port and model, which HTTP requests and container commands are
  issued, and how every outcome folds into a plain return value.
 */
module OllamaHpcc {
  import opened Assoc
  import opened Json
  import opened Http
  import opened Decimal

  // ---------------------------------------------------------------------------
  // The role tables
  // ---------------------------------------------------------------------------

  /** `OllamaServer.PORTS`, in declaration order (the order `get_status` walks). */
  const Ports: Dict<string, nat> :=
    [("granite", 55077), ("think", 55088), ("qwen", 66044), ("code", 66033)]

  /** `OllamaServer.MODELS`, in declaration order. */
  const Models: Dict<string, string> :=
    [("granite", "granite4"), ("think", "deepseek-r1"), ("qwen", "qwen2.5-coder"), ("code", "codellama")]

  const TagsPath := "/api/tags"
  const GeneratePath := "/api/generate"
  const ChatPath := "/api/chat"

  const HealthTimeout: nat := 2
  const ListTimeout: nat := 5
  const GenerateTimeout: nat := 120

  /** A role resolved to the server port and the model it runs. */
  datatype Target = Target(port: nat, model: string)

  /**
    What the code relies on in its two tables: they list the same roles in the
    same order, no role twice, every port nonzero and distinct, every model
    name nonempty.
   */
  ghost predicate TablesAgree(ports: Dict<string, nat>, models: Dict<string, string>) {
    && |ports| == |models|
    && (forall i :: 0 <= i < |ports| ==> ports[i].0 == models[i].0 && ports[i].1 > 0 && models[i].1 != "")
    && UniqueKeys(ports)
    && (forall i, j :: 0 <= i < j < |ports| ==> ports[i].1 != ports[j].1)
  }

  /**
    The source's tables agree: `PORTS` and `MODELS` have the same four roles,
    so `MODELS[name]` in `get_status` cannot fail, and no two roles share a
    port. (Two of the ports, 66044 and 66033, lie above the TCP range;
    nothing here claims otherwise.)
   */
  lemma SourceTablesAgree()
    ensures TablesAgree(Ports, Models)
    ensures Keys(Ports) == Keys(Models) == ["granite", "think", "qwen", "code"]
  {
  }

  /** While `get_status` walks the table, the role it is about to record is not yet in the report. */
  lemma RoleNotYetRecorded<V>(ports: Dict<string, nat>, status: Dict<string, V>, i: nat)
    requires UniqueKeys(ports) && i == |status| < |ports|
    requires forall j :: 0 <= j < i ==> status[j].0 == ports[j].0
    ensures ports[i].0 !in Keys(status)
  {
    forall j | 0 <= j < i ensures Keys(status)[j] != ports[i].0 {
      assert Keys(status)[j] == ports[j].0;
    }
  }

  /**
    For a report whose entries carry the table's distinct ports in order,
    the trace asks for a role's inventory exactly when that role was healthy.
   */
  lemma HealthyRolesQueried(host: string, ports: Dict<string, nat>, status: Dict<string, RoleStatus>)
    requires |status| == |ports|
    requires forall j :: 0 <= j < |status| ==> status[j].1.port == ports[j].1
    requires forall i, j :: 0 <= i < j < |ports| ==> ports[i].1 != ports[j].1
    ensures forall i :: 0 <= i < |status| ==>
      (InventoryQuery(host, ports[i].1) in TraceOf(host, status) <==> status[i].1.healthy)
  {
    forall i | 0 <= i < |status|
      ensures InventoryQuery(host, ports[i].1) in TraceOf(host, status) <==> status[i].1.healthy
    {
      InventoryOnlyWhenHealthy(host, status, i);
    }
  }

  /** In a dict with unique keys, looking up the key of row `i` answers row `i`'s value. */
  lemma {:induction false} UniqueRowLookup<V>(d: Dict<string, V>, i: nat)
    requires UniqueKeys(d) && i < |d|
    ensures Get(d, d[i].0) == Some(d[i].1)
  {
    if i > 0 {
      assert d[1..][i - 1] == d[i];
      UniqueRowLookup(d[1..], i - 1);
    }
  }

  /** When the tables agree, looking up the role of row `i` in either table answers row `i`. */
  lemma RowLookup(ports: Dict<string, nat>, models: Dict<string, string>, i: nat)
    requires TablesAgree(ports, models) && i < |ports|
    ensures Get(ports, ports[i].0) == Some(ports[i].1)
    ensures Get(models, ports[i].0) == Some(models[i].1)
  {
    UniqueRowLookup(ports, i);
    assert UniqueKeys(models) by {
      forall j, k | 0 <= j < k < |models| ensures models[j].0 != models[k].0 {
        assert ports[j].0 == models[j].0 && ports[k].0 == models[k].0;
      }
    }
    UniqueRowLookup(models, i);
  }

  // ---------------------------------------------------------------------------
  // Requests
  // ---------------------------------------------------------------------------

  /** The liveness probe of `check_health`: `GET /api/tags` with a 2-second timeout. */
  function HealthProbe(host: string, port: nat): Request {
    HttpGet(host, port, TagsPath, HealthTimeout)
  }

  /** The inventory query of `list_models`: `GET /api/tags` with a 5-second timeout. */
  function InventoryQuery(host: string, port: nat): Request {
    HttpGet(host, port, TagsPath, ListTimeout)
  }

  /** `{"model": model, "prompt": prompt, **kwargs}`. */
  function GeneratePayload(model: string, prompt: string, kwargs: Dict<string, Json>): Json {
    JObj(Merge([("model", JStr(model)), ("prompt", JStr(prompt))], kwargs))
  }

  /** `{"model": model, "messages": messages}`. */
  function ChatPayload(model: string, messages: seq<Dict<string, string>>): Json {
    JObj([("model", JStr(model)),
          ("messages", JArr(seq(|messages|, i requires 0 <= i < |messages| => StrDict(messages[i]))))])
  }

  /**
    The chat payload holds `model`, then `messages`: the model sent, and one
    JSON object per message, in order, each with that message's keys in order
    and its string values.
   */
  lemma ChatPayloadFields(model: string, messages: seq<Dict<string, string>>)
    ensures ChatPayload(model, messages).JObj?
    ensures var f := ChatPayload(model, messages).fields;
      && Keys(f) == ["model", "messages"]
      && Get(f, "model") == Some(JStr(model))
      && Get(f, "messages").Some? && Get(f, "messages").value.JArr?
      && |Get(f, "messages").value.items| == |messages|
    ensures var items := Get(ChatPayload(model, messages).fields, "messages").value.items;
      forall i :: 0 <= i < |messages| ==>
        && items[i].JObj? && Keys(items[i].fields) == Keys(messages[i])
        && forall k :: Get(messages[i], k).Some? ==> Get(items[i].fields, k) == Some(JStr(Get(messages[i], k).value))
  {
    var f := ChatPayload(model, messages).fields;
    assert Keys(f) == ["model", "messages"];
  }

  /**
    The keyword arguments Python can bind to `**kwargs` of
    `generate(self, model_type, prompt, **kwargs)`: unique names, none of them
    a named parameter.
   */
  ghost predicate KeywordArguments(kwargs: Dict<string, Json>) {
    UniqueKeys(kwargs) && "self" !in Keys(kwargs) && "model_type" !in Keys(kwargs) && "prompt" !in Keys(kwargs)
  }

  /**
    The generation payload starts with `model` and `prompt`. A keyword
    argument `model` overrides the table's model; the prompt is always the
    argument, and every other key is a keyword argument.
   */
  lemma GeneratePayloadFields(model: string, prompt: string, kwargs: Dict<string, Json>, k: string)
    requires KeywordArguments(kwargs)
    ensures GeneratePayload(model, prompt, kwargs).JObj?
    ensures var f := GeneratePayload(model, prompt, kwargs).fields;
      && |f| >= 2 && f[0].0 == "model" && f[1].0 == "prompt"
      && UniqueKeys(f)
      && Get(f, k) == if k in Keys(kwargs) then Get(kwargs, k)
                      else if k == "model" then Some(JStr(model))
                      else if k == "prompt" then Some(JStr(prompt))
                      else None
    ensures var f := GeneratePayload(model, prompt, kwargs).fields;
      && Get(f, "prompt") == Some(JStr(prompt))
      && Get(f, "model") == (if "model" in Keys(kwargs) then Get(kwargs, "model") else Some(JStr(model)))
  {
    var base: Dict<string, Json> := [("model", JStr(model)), ("prompt", JStr(prompt))];
    var f := Merge(base, kwargs);
    MergeKeepsPrefix(base, kwargs);
    assert Keys(f)[0] == "model" && Keys(f)[1] == "prompt";
    assert base[0].0 != base[1].0;
    MergeUnique(base, kwargs);
    GetMerge(base, kwargs, k);
    assert Get(base, k) == if k == "model" then Some(JStr(model)) else Get(base[1..], k);
    assert Get(base[1..], k) == if k == "prompt" then Some(JStr(prompt)) else Get(base[2..], k);
    GetMerge(base, kwargs, "prompt");
    GetMerge(base, kwargs, "model");
    assert Get(base[1..], "prompt") == Some(JStr(prompt));
  }

  // ---------------------------------------------------------------------------
  // Folding a response into a return value
  // ---------------------------------------------------------------------------

  /** `resp.status_code == 200`, with every exception read as `False`. */
  predicate HealthOf(resp: Response) {
    resp.Resp? && resp.status == 200
  }

  /**
    A 200 reply whose body decodes to a JSON object: the only reply on which
    `resp.json().get(...)` does not raise.
   */
  predicate ObjectReply(resp: Response) {
    HealthOf(resp) && resp.body.Some? && resp.body.value.JObj?
  }

  /**
    `[m["name"] for m in models]`: `None` (the comprehension raises) unless
    every entry is an object with a `"name"` key.
   */
  function NamesOf(entries: seq<Json>): (r: Option<seq<Json>>)
    ensures r.Some? <==> forall i :: 0 <= i < |entries| ==> entries[i].JObj? && Get(entries[i].fields, "name").Some?
    ensures r.Some? ==> |r.value| == |entries|
    ensures r.Some? ==> forall i :: 0 <= i < |entries| ==> Get(entries[i].fields, "name") == Some(r.value[i])
  {
    if entries == [] then Some([])
    else
      var rest := NamesOf(entries[1..]);
      if entries[0].JObj? && Get(entries[0].fields, "name").Some? && rest.Some? then
        Some([Get(entries[0].fields, "name").value] + rest.value)
      else
        None
  }

  /**
    The value `list_models` returns for the inventory response: the names of
    the `"models"` entries on 200, otherwise (and on every exception) `[]`.
    A `"models"` value that is not an array either iterates to nothing or
    raises, so it also gives `[]`.
   */
  function ModelNamesOf(resp: Response): (names: seq<Json>)
    ensures !ObjectReply(resp) ==> names == []
  {
    if ObjectReply(resp) then
      var models: Option<Json> := Get(resp.body.value.fields, "models");
      match models
      case None => []
      case Some(JArr(entries)) => NamesOf(entries).GetOr([])
      case Some(_) => []
    else []
  }

  /** `resp.json().get("response", "")` on 200, `None` otherwise and on every exception. */
  function GeneratedTextOf(resp: Response): (text: Json)
    ensures !ObjectReply(resp) ==> text == JNull
  {
    if ObjectReply(resp) then
      Get(resp.body.value.fields, "response").GetOr(JStr(""))
    else JNull
  }

  /** `resp.json().get("message", {}).get("content", "")` on 200, `None` otherwise and on every exception. */
  function ChatContentOf(resp: Response): (text: Json)
    ensures !ObjectReply(resp) ==> text == JNull
  {
    if ObjectReply(resp) then
      var message: Json := Get(resp.body.value.fields, "message").GetOr(JObj([]));
      match message
      case JObj(g) => Get(g, "content").GetOr(JStr(""))
      case _ => JNull
    else JNull
  }

  /** The body an Ollama server sends for `/api/tags`: `{"models": [{"name": n}, ...]}`. */
  function TagsBody(names: seq<Json>): Json {
    JObj([("models", JArr(seq(|names|, i requires 0 <= i < |names| => JObj([("name", names[i])]))))])
  }

  /** Reading the names back out of a well-formed inventory reply gives exactly the names, in order. */
  lemma ModelNamesOfTagsBody(names: seq<Json>)
    ensures ModelNamesOf(Resp(200, Some(TagsBody(names)))) == names
  {
    var entries := seq(|names|, i requires 0 <= i < |names| => JObj([("name", names[i])]));
    assert Get(TagsBody(names).fields, "models") == Some(JArr(entries));
    forall i | 0 <= i < |entries|
      ensures entries[i].JObj? && Get(entries[i].fields, "name").Some?
      ensures Get(entries[i].fields, "name") == Some(names[i])
    {
    }
    var r := NamesOf(entries);
    assert r.Some?;
    assert r.value == names;
  }

  /** Every failure, and every non-200 status, yields the fallback and never the server's data. */
  lemma FailuresFallBack(resp: Response)
    requires !(resp.Resp? && resp.status == 200)
    ensures !HealthOf(resp)
    ensures ModelNamesOf(resp) == []
    ensures GeneratedTextOf(resp) == JNull
    ensures ChatContentOf(resp) == JNull
  {
  }

  /**
    A 200 reply that is healthy by `check_health` but whose body is not JSON,
    or not a JSON object, makes `resp.json()` or `.get` raise: no models, no
    text.
   */
  lemma MalformedReplyFallsBack(resp: Response)
    requires HealthOf(resp) && !ObjectReply(resp)
    ensures resp.body.None? || !resp.body.value.JObj?
    ensures ModelNamesOf(resp) == []
    ensures GeneratedTextOf(resp) == JNull
    ensures ChatContentOf(resp) == JNull
  {
  }

  /**
    On a 200 object reply the inventory is the names of the `"models"` array,
    whatever other keys the reply or its entries carry; a missing `"models"`
    lists nothing, and so does a `"models"` value that is not an array.
   */
  lemma ModelNamesOn200(fields: Dict<string, Json>)
    ensures var models := Get(fields, "models");
      models.Some? && models.value.JArr? ==>
        ModelNamesOf(Resp(200, Some(JObj(fields)))) == NamesOf(models.value.items).GetOr([])
    ensures var models := Get(fields, "models");
      models.Some? && !models.value.JArr? ==> ModelNamesOf(Resp(200, Some(JObj(fields)))) == []
    ensures "models" !in Keys(fields) ==> ModelNamesOf(Resp(200, Some(JObj(fields)))) == []
  {
    GetKeys(fields, "models");
  }

  /** On 200 the generated text is the `"response"` field, `""` when that key is missing. */
  lemma GeneratedTextOn200(fields: Dict<string, Json>)
    ensures Get(fields, "response").Some? ==> GeneratedTextOf(Resp(200, Some(JObj(fields)))) == Get(fields, "response").value
    ensures "response" !in Keys(fields) ==> GeneratedTextOf(Resp(200, Some(JObj(fields)))) == JStr("")
  {
    GetKeys(fields, "response");
  }

  /**
    On a 200 object reply the chat answer is the `"content"` of the
    `"message"` object, whatever else either carries; `""` when either key is
    missing, and `None` when `"message"` is not an object (its `.get` raises).
   */
  lemma ChatContentOn200(fields: Dict<string, Json>)
    ensures var message := Get(fields, "message");
      message.Some? && message.value.JObj? && Get(message.value.fields, "content").Some? ==>
        ChatContentOf(Resp(200, Some(JObj(fields)))) == Get(message.value.fields, "content").value
    ensures var message := Get(fields, "message");
      message.Some? && message.value.JObj? && "content" !in Keys(message.value.fields) ==>
        ChatContentOf(Resp(200, Some(JObj(fields)))) == JStr("")
    ensures var message := Get(fields, "message");
      message.Some? && !message.value.JObj? ==> ChatContentOf(Resp(200, Some(JObj(fields)))) == JNull
    ensures "message" !in Keys(fields) ==> ChatContentOf(Resp(200, Some(JObj(fields)))) == JStr("")
  {
    GetKeys(fields, "message");
    var message := Get(fields, "message");
    if message.Some? && message.value.JObj? {
      GetKeys(message.value.fields, "content");
    }
  }

  // ---------------------------------------------------------------------------
  // Container commands
  // ---------------------------------------------------------------------------

  /** `container_name or f"ollama-{model_type}"`: `None` and `""` both pick the default. */
  function ContainerName(role: string, containerName: Option<string>): (name: string)
    ensures name != ""
    ensures containerName.Some? && containerName.value != "" ==> name == containerName.value
    ensures (containerName.None? || containerName.value == "") ==> name == "ollama-" + role
  {
    if containerName.Some? && containerName.value != "" then containerName.value else "ollama-" + role
  }

  /** The detached `podman run` that starts the server container. */
  function RunArgv(name: string, port: nat): seq<string> {
    var p := NatToString(port);
    ["podman", "run", "-d", "--name", name, "-p", p + ":" + p,
     "-v", "ollama:/root/.ollama", "-e", "OLLAMA_HOST=0.0.0.0:" + p,
     "quay.io/ollama/ollama", "serve"]
  }

  /** The `podman exec ... ollama pull` that fetches the model into that container. */
  function PullArgv(name: string, model: string): seq<string> {
    ["podman", "exec", name, "ollama", "pull", model]
  }

  /**
    The run command names the container, publishes the port on the same host
    port and binds the server to all interfaces on it; the pull command
    addresses the same container.
   */
  lemma StartCommandsShape(name: string, port: nat, model: string)
    ensures var run := RunArgv(name, port);
      && |run| == 13 && run[0] == "podman" && run[1] == "run"
      && run[3] == "--name" && run[4] == name
      && run[5] == "-p" && run[6] == NatToString(port) + ":" + NatToString(port)
      && run[9] == "-e" && run[10] == "OLLAMA_HOST=0.0.0.0:" + NatToString(port)
    ensures Parse(NatToString(port)) == port
    ensures var pull := PullArgv(name, model);
      pull[2] == RunArgv(name, port)[4] && pull[|pull| - 1] == model
  {
    ParseNatToString(port);
  }

  /** The entry `get_status` records for one role. */
  datatype RoleStatus = RoleStatus(port: nat, model: string, healthy: bool, models: seq<Json>)

  /** The requests `get_status` makes for one role: the probe, then the inventory only when healthy. */
  function RoleCalls(host: string, e: RoleStatus): seq<Request> {
    [HealthProbe(host, e.port)] + if e.healthy then [InventoryQuery(host, e.port)] else []
  }

  /** The requests behind a status report built so far, role after role. */
  function TraceOf(host: string, status: Dict<string, RoleStatus>): seq<Request> {
    if status == [] then []
    else TraceOf(host, status[..|status| - 1]) + RoleCalls(host, status[|status| - 1].1)
  }

  /** Recording one more role extends the trace by that role's requests. */
  lemma TraceAppend(host: string, status: Dict<string, RoleStatus>, name: string, e: RoleStatus)
    ensures TraceOf(host, status + [(name, e)]) == TraceOf(host, status) + RoleCalls(host, e)
  {
    assert (status + [(name, e)])[..|status|] == status;
  }

  /** A request is in the trace exactly when it is some role's probe, or a healthy role's inventory query. */
  lemma {:induction false} TraceContents(host: string, status: Dict<string, RoleStatus>, r: Request)
    ensures r in TraceOf(host, status) <==>
      exists j :: 0 <= j < |status| &&
        (r == HealthProbe(host, status[j].1.port) || (status[j].1.healthy && r == InventoryQuery(host, status[j].1.port)))
  {
    if status != [] {
      var n := |status| - 1;
      var front := status[..n];
      TraceContents(host, front, r);
      assert forall j :: 0 <= j < n ==> front[j] == status[j];
    }
  }

  /**
    When no two roles share a port, a role's inventory is queried if and only
    if its probe said healthy: an unhealthy server is never asked for its models.
   */
  lemma InventoryOnlyWhenHealthy(host: string, status: Dict<string, RoleStatus>, i: nat)
    requires i < |status|
    requires forall j, k :: 0 <= j < k < |status| ==> status[j].1.port != status[k].1.port
    ensures HealthProbe(host, status[i].1.port) in TraceOf(host, status)
    ensures InventoryQuery(host, status[i].1.port) in TraceOf(host, status) <==> status[i].1.healthy
  {
    TraceContents(host, status, HealthProbe(host, status[i].1.port));
    TraceContents(host, status, InventoryQuery(host, status[i].1.port));
  }

  class OllamaServer {
    const host: string
    /** `PORTS`: role to port, in declaration order. */
    const ports: Dict<string, nat>
    /** `MODELS`: role to model name, in declaration order. */
    const models: Dict<string, string>

    ghost predicate Valid() {
      TablesAgree(ports, models)
    }

    constructor(host: string := "localhost")
      ensures this.host == host && ports == Ports && models == Models
      ensures Valid()
    {
      this.host := host;
      ports := Ports;
      models := Models;
      new;
      SourceTablesAgree();
    }

    /**
      The lookup `generate`, `chat` and `start_local` each begin with:
      `PORTS.get(role)` and `MODELS.get(role)`, refused when either is falsy.
     */
    function Resolve(role: string): (t: Option<Target>)
      ensures t.Some? ==> Get(ports, role) == Some(t.value.port) && Get(models, role) == Some(t.value.model)
    {
      var port := Get(ports, role);
      var model := Get(models, role);
      if port.None? || port.value == 0 || model.None? || model.value == "" then None
      else Some(Target(port.value, model.value))
    }

    /** A role resolves exactly when it is in the table, and then to its own row. */
    lemma ResolveTable(role: string)
      requires Valid()
      ensures Resolve(role).Some? <==> role in Keys(ports)
      ensures forall i :: 0 <= i < |ports| && ports[i].0 == role ==>
                Resolve(role) == Some(Target(ports[i].1, models[i].1))
    {
      GetKeys(ports, role);
      if role in Keys(ports) {
        var i :| 0 <= i < |ports| && ports[i].0 == role;
        RowLookup(ports, models, i);
        forall j | 0 <= j < |ports| && ports[j].0 == role
          ensures j == i
        {
        }
      }
    }

    /**
      With the source's tables, exactly the four roles resolve, each to its
      own port and model; every other name is refused.
     */
    lemma SourceRoles(role: string)
      requires ports == Ports && models == Models
      ensures Resolve(role).Some? <==> role in ["granite", "think", "qwen", "code"]
      ensures Resolve("granite") == Some(Target(55077, "granite4"))
      ensures Resolve("think") == Some(Target(55088, "deepseek-r1"))
      ensures Resolve("qwen") == Some(Target(66044, "qwen2.5-coder"))
      ensures Resolve("code") == Some(Target(66033, "codellama"))
    {
      SourceTablesAgree();
      ResolveTable(role);
      assert Keys(ports) == ["granite", "think", "qwen", "code"];
      ResolveTable("granite");
      ResolveTable("think");
      ResolveTable("qwen");
      ResolveTable("code");
      assert ports[0].0 == "granite" && ports[1].0 == "think" && ports[2].0 == "qwen" && ports[3].0 == "code";
    }

    /** A role missing from the table is refused by `generate` and `chat` whatever the network would answer. */
    lemma UnknownRoleRefused(net: Network, role: string, prompt: string, kwargs: Dict<string, Json>,
                             messages: seq<Dict<string, string>>)
      requires Valid() && role !in Keys(ports)
      ensures Generate(net, role, prompt, kwargs) == JNull
      ensures Chat(net, role, messages) == JNull
    {
      ResolveTable(role);
    }

    /** `check_health(port)`: true exactly when the probe answers 200. */
    function CheckHealth(net: Network, port: nat): (healthy: bool)
      ensures healthy <==> net(HealthProbe(host, port)).Resp? && net(HealthProbe(host, port)).status == 200
    {
      HealthOf(net(HealthProbe(host, port)))
    }

    /** `list_models(port)`. */
    function ListModels(net: Network, port: nat): (names: seq<Json>)
      ensures names == ModelNamesOf(net(InventoryQuery(host, port)))
      ensures !HealthOf(net(InventoryQuery(host, port))) ==> names == []
    {
      ModelNamesOf(net(InventoryQuery(host, port)))
    }

    function GenerateRequest(t: Target, prompt: string, kwargs: Dict<string, Json>): Request {
      HttpPost(host, t.port, GeneratePath, GeneratePayload(t.model, prompt, kwargs), GenerateTimeout)
    }

    /** `generate(role, prompt, **kwargs)`: `None` for an unknown role, whatever the network would say. */
    function Generate(net: Network, role: string, prompt: string, kwargs: Dict<string, Json>): (text: Json)
      ensures Resolve(role).None? ==> text == JNull
      ensures Resolve(role).Some? ==> text == GeneratedTextOf(net(GenerateRequest(Resolve(role).value, prompt, kwargs)))
      ensures text != JNull ==> HealthOf(net(GenerateRequest(Resolve(role).value, prompt, kwargs)))
    {
      match Resolve(role)
      case None => JNull
      case Some(t) => GeneratedTextOf(net(GenerateRequest(t, prompt, kwargs)))
    }

    function ChatRequest(t: Target, messages: seq<Dict<string, string>>): Request {
      HttpPost(host, t.port, ChatPath, ChatPayload(t.model, messages), GenerateTimeout)
    }

    /** `chat(role, messages)`: `None` for an unknown role, whatever the network would say. */
    function Chat(net: Network, role: string, messages: seq<Dict<string, string>>): (text: Json)
      ensures Resolve(role).None? ==> text == JNull
      ensures Resolve(role).Some? ==> text == ChatContentOf(net(ChatRequest(Resolve(role).value, messages)))
      ensures text != JNull ==> HealthOf(net(ChatRequest(Resolve(role).value, messages)))
    {
      match Resolve(role)
      case None => JNull
      case Some(t) => ChatContentOf(net(ChatRequest(t, messages)))
    }

    /**
      `start_local(role, container_name)`: for a known role, start the
      container and, only if that succeeded, pull the model into it; true
      only when both steps succeed. An unknown role runs nothing.
     */
    method StartLocal(shell: Shell, role: string, containerName: Option<string> := None)
      returns (ok: bool, ghost commands: seq<seq<string>>)
      ensures Resolve(role).None? ==> !ok
      ensures Resolve(role).None? ==> commands == []
      ensures Resolve(role).Some? ==>
        var name := ContainerName(role, containerName);
        (ok <==> shell(RunArgv(name, Resolve(role).value.port)) && shell(PullArgv(name, Resolve(role).value.model)))
      ensures Resolve(role).Some? ==>
        var name := ContainerName(role, containerName);
        var run := RunArgv(name, Resolve(role).value.port);
        commands == (if shell(run) then [run, PullArgv(name, Resolve(role).value.model)] else [run])
    {
      commands := [];
      var target := Resolve(role);
      if target.None? {
        return false, commands;
      }
      var name := ContainerName(role, containerName);
      var run := RunArgv(name, target.value.port);
      commands := commands + [run];
      if !shell(run) {
        return false, commands;
      }
      var pull := PullArgv(name, target.value.model);
      commands := commands + [pull];
      ok := shell(pull);
    }

    /** What `get_status` records for a role served on `port` running `model`. */
    function Observed(net: Network, port: nat, model: string): RoleStatus {
      var healthy := CheckHealth(net, port);
      RoleStatus(port, model, healthy, if healthy then ListModels(net, port) else [])
    }

    /**
      `get_status()`: one entry per role, in table order, with the port copied
      from `PORTS` and the model from `MODELS[name]`; the inventory is asked
      for only when the probe said healthy. `calls` is every request made, in
      order.
     */
    method GetStatus(net: Network) returns (status: Dict<string, RoleStatus>, ghost calls: seq<Request>)
      requires Valid()
      ensures |status| == |ports|
      ensures forall i :: 0 <= i < |status| ==> status[i] == (ports[i].0, Observed(net, ports[i].1, models[i].1))
      ensures calls == TraceOf(host, status)
      ensures forall i :: 0 <= i < |status| ==> (InventoryQuery(host, ports[i].1) in calls <==> status[i].1.healthy)
    {
      status, calls := [], [];
      for i := 0 to |ports|
        invariant |status| == i
        invariant forall j :: 0 <= j < i ==> status[j] == (ports[j].0, Observed(net, ports[j].1, models[j].1))
        invariant calls == TraceOf(host, status)
      {
        var (name, port) := ports[i];
        var health := CheckHealth(net, port);
        calls := calls + [HealthProbe(host, port)];
        var found: seq<Json> := [];
        if health {
          found := ListModels(net, port);
          calls := calls + [InventoryQuery(host, port)];
        }
        assert Get(models, name) == Some(models[i].1) by {
          RowLookup(ports, models, i);
        }
        var model := Get(models, name).value;
        var entry := RoleStatus(port, model, health, found);
        assert entry == Observed(net, ports[i].1, models[i].1);
        assert calls == TraceOf(host, status + [(name, entry)]) by {
          TraceAppend(host, status, name, entry);
        }
        assert Put(status, name, entry) == status + [(name, entry)] by {
          RoleNotYetRecorded(ports, status, i);
          PutAbsent(status, name, entry);
        }
        status := Put(status, name, entry);
      }
      HealthyRolesQueried(host, ports, status);
    }
  }

  /** `OllamaClient`: a server handle fixed to one role. */
  class OllamaClient {
    const server: OllamaServer
    const modelType: string
    const model: Option<string>
    const port: Option<nat>

    constructor(modelType: string, host: string := "localhost")
      ensures server.host == host && server.ports == Ports && server.models == Models
      ensures this.modelType == modelType
      ensures model == Get(Models, modelType) && port == Get(Ports, modelType)
      ensures Valid()
    {
      server := new OllamaServer(host);
      this.modelType := modelType;
      model := Get(Models, modelType);
      port := Get(Ports, modelType);
    }

    /** The client's `model` and `port` are the server's lookups for its role. */
    ghost predicate Valid() {
      && server.Valid()
      && model == Get(server.models, modelType)
      && port == Get(server.ports, modelType)
    }

    /**
      The client's `model` and `port` are set exactly when its role resolves,
      and then to the target every request of the client goes to.
     */
    lemma AttributesMatchRole()
      requires Valid()
      ensures model.Some? <==> server.Resolve(modelType).Some?
      ensures port.Some? <==> server.Resolve(modelType).Some?
      ensures server.Resolve(modelType).Some? ==>
        model == Some(server.Resolve(modelType).value.model) && port == Some(server.Resolve(modelType).value.port)
    {
      server.ResolveTable(modelType);
      GetKeys(server.ports, modelType);
      GetKeys(server.models, modelType);
      assert Keys(server.ports) == Keys(server.models) by {
        assert forall i :: 0 <= i < |server.ports| ==> Keys(server.ports)[i] == Keys(server.models)[i];
      }
    }

    /** A client for a role the server does not know answers `""` to every prompt and every chat. */
    lemma UnknownRoleAnswersEmpty(net: Network, prompt: string, messages: seq<Dict<string, string>>)
      requires server.Valid() && modelType !in Keys(server.ports)
      ensures Invoke(net, prompt) == JStr("")
      ensures Chat(net, messages) == JStr("")
    {
      server.ResolveTable(modelType);
    }

    /** `invoke(prompt)`: never `None`; a falsy generation becomes `""`, anything else passes through. */
    function Invoke(net: Network, prompt: string): (text: Json)
      ensures text != JNull
      ensures Truthy(text) || text == JStr("")
      ensures Truthy(server.Generate(net, modelType, prompt, [])) ==> text == server.Generate(net, modelType, prompt, [])
      ensures !Truthy(server.Generate(net, modelType, prompt, [])) ==> text == JStr("")
    {
      var result := server.Generate(net, modelType, prompt, []);
      if Truthy(result) then result else JStr("")
    }

    /** `chat(messages)`: never `None`; a falsy reply becomes `""`, anything else passes through. */
    function Chat(net: Network, messages: seq<Dict<string, string>>): (text: Json)
      ensures text != JNull
      ensures Truthy(text) || text == JStr("")
      ensures Truthy(server.Chat(net, modelType, messages)) ==> text == server.Chat(net, modelType, messages)
      ensures !Truthy(server.Chat(net, modelType, messages)) ==> text == JStr("")
    {
      var result := server.Chat(net, modelType, messages);
      if Truthy(result) then result else JStr("")
    }
  }
}
