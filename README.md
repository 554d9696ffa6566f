# OllamaHpcc, modelled in Dafny

OllamaHpcc is a thin layer over Ollama inference servers. `OllamaServer` maps four
model roles (`granite`, `think`, `qwen`, `code`) to a fixed port and model name. It can:

- probe a server's health;
- list the models a server holds;
- send generation and chat requests;
- start a server in a podman container and pull the role's model into it;
- sum up every role in a status report.

`OllamaClient` binds a server handle to one role and turns every failed answer into `""`.

The model keeps the decision logic and makes the outside world a parameter:

- The network is a function `Network = Request -> Response`.
  - A `Response` is `Failure`, which covers every exception `requests` can raise, or `Resp(status, body)`.
  - The body is a decoded JSON value, or `None` when the body is not valid JSON.
- The shell is a function `Shell = seq<string> -> bool`: an argv succeeds or fails.

Modules:

- `Assoc` (assoc.dfy): Python's insertion-ordered `dict` as an association list.
  - `Get` is `dict.get`.
  - `Put` is `d[k] = v`: an existing key keeps its place and a new key goes at the end.
  - `Merge` is `{**d, **e}`.
- `Json` (json.dfy): a decoded JSON value. `JNull` is Python's `None`, and `Truthy` is Python's `bool()`.
- `Decimal` (decimal.dfy): the decimal rendering of a port inside an f-string, with its parse back.
- `Http` (http.dfy): requests, responses and the two oracle types.
- `OllamaHpcc` (ollamahpcc.dfy):
  - the role tables;
  - the requests the code sends;
  - how each response folds into a return value;
  - the podman argv lists;
  - the classes `OllamaServer` and `OllamaClient`.

The tables are the server's `ports` and `models` fields, so the class invariant `Valid()` can state what the code relies on:

- the same roles appear in the same order;
- no role appears twice;
- ports are nonzero and pairwise distinct;
- model names are nonempty.

`SourceTablesAgree` proves that the source's tables satisfy this. Ports are unbounded `nat`s: two of the source's ports, 66044 and 66033, are above 65535, and the model claims nothing about TCP ranges.

`get_status` is a method. It walks `PORTS` with a loop and builds the report with dict assignment. It also records, as a ghost trace, every request it sends. The health probe (timeout 2) and the inventory query (timeout 5) are different requests. The loop never repeats a request because ports are distinct. So a pure network function loses nothing over one call.

`start_local` is a method. It records the argv lists it hands to the shell as a ghost trace.

In two places the model follows the code where a reader might expect otherwise:

- The code does not check the type of the value under `"name"`, `"response"` or `"content"`. The model returns that JSON value as it is, not a string.
- A `"models"` value that is not an array either iterates to nothing (`""`, `{}`) or makes the comprehension raise; so does an entry that is not an object or has no `"name"`. Either way `list_models` returns `[]`.

## Model

| member | source | states |
|---|---|---|
| Assoc.GetKeys | src/python/ollamahpcc/__init__.py:43-44 | `dict.get` finds a value exactly when the key is present, and the value found is stored under that key |
| Assoc.GetPut | src/python/ollamahpcc/__init__.py:122 | after `status[name] = v`, `name` reads `v` and every other key reads what it read before |
| Assoc.PutAbsent | src/python/ollamahpcc/__init__.py:122 | assigning a key the dict lacks appends exactly one entry at the end |
| Assoc.KeysPut | src/python/ollamahpcc/__init__.py:122 | assignment keeps the existing keys in order and appends only a new key |
| Assoc.PutUnique | src/python/ollamahpcc/__init__.py:122 | assignment never creates a duplicate key |
| Assoc.MergeKeepsPrefix | src/python/ollamahpcc/__init__.py:51 | the keys of the literal part stay, in order, at the front of `{..., **kwargs}` |
| Assoc.MergeUnique | src/python/ollamahpcc/__init__.py:51 | splatting keyword arguments into a dict literal keeps keys unique |
| Assoc.GetMerge | src/python/ollamahpcc/__init__.py:51 | in `{..., **kwargs}` a key of `kwargs` reads its keyword value and any other key reads the literal's value |
| Json.StrDict | src/python/ollamahpcc/__init__.py:70 | a chat message dict is sent as a JSON object with the same keys in the same order, each with its string value |
| Decimal.NatToString | src/python/ollamahpcc/__init__.py:99 | the rendered port is a nonempty run of digits with no leading zero |
| Decimal.ParseNatToString | src/python/ollamahpcc/__init__.py:99 | parsing the rendered port gives back the port |
| Decimal.NatToStringInjective | src/python/ollamahpcc/__init__.py:99 | distinct ports render as distinct strings |
| OllamaHpcc.SourceTablesAgree | src/python/ollamahpcc/__init__.py:10-17 | `PORTS` and `MODELS` list the same four roles in the same order, with unique roles, distinct nonzero ports and nonempty model names |
| OllamaHpcc.UniqueRowLookup | src/python/ollamahpcc/__init__.py:124 | in a dict with unique keys, looking up row `i`'s key answers row `i`'s value |
| OllamaHpcc.RowLookup | src/python/ollamahpcc/__init__.py:124 | when the tables agree, `MODELS[name]` for a role taken from `PORTS` succeeds and gives that role's model |
| OllamaHpcc.RoleNotYetRecorded | src/python/ollamahpcc/__init__.py:119-122 | while `get_status` walks the table, the role it is about to record is not yet a key of the report |
| OllamaHpcc.HealthyRolesQueried | src/python/ollamahpcc/__init__.py:119-121 | for a report carrying the table's distinct ports, the trace holds a role's inventory query exactly when the role is healthy |
| OllamaHpcc.GeneratePayloadFields | src/python/ollamahpcc/__init__.py:41-51 | for any keyword arguments Python can bind (unique names, none of `self`, `model_type`, `prompt`), the payload starts with `model` and then `prompt` and has unique keys; the prompt sent is always the argument, a keyword `model` overrides the table's model, and every other key carries its keyword value |
| OllamaHpcc.ChatPayloadFields | src/python/ollamahpcc/__init__.py:70 | the chat POST body is an object with exactly `model` and then `messages`: the model sent, and one JSON object per message in order, each with that message's keys in order and its string values |
| OllamaHpcc.NamesOf | src/python/ollamahpcc/__init__.py:36 | the `name` comprehension succeeds exactly when every entry is an object with a `"name"`, and then yields those names in entry order |
| OllamaHpcc.ModelNamesOfTagsBody | src/python/ollamahpcc/__init__.py:31-39 | reading an inventory reply `{"models": [{"name": n}, ...]}` gives back exactly the names, in order |
| OllamaHpcc.ModelNamesOf | src/python/ollamahpcc/__init__.py:34-39 | the inventory read from a reply is `[]` unless the reply is a 200 whose body decodes to a JSON object |
| OllamaHpcc.GeneratedTextOf | src/python/ollamahpcc/__init__.py:54-58 | the generated text read from a reply is `None` unless the reply is a 200 whose body decodes to a JSON object |
| OllamaHpcc.ChatContentOf | src/python/ollamahpcc/__init__.py:73-77 | the chat answer read from a reply is `None` unless the reply is a 200 whose body decodes to a JSON object |
| OllamaHpcc.FailuresFallBack | src/python/ollamahpcc/__init__.py:23-77 | a failed request or a non-200 status gives unhealthy, no models, and `None` from both `generate` and `chat` |
| OllamaHpcc.MalformedReplyFallsBack | src/python/ollamahpcc/__init__.py:34-77 | a reply that `check_health` counts as healthy (status 200) but whose body is not JSON, or not a JSON object, lists no models and gives `None` from both `generate` and `chat` |
| OllamaHpcc.ModelNamesOn200 | src/python/ollamahpcc/__init__.py:36 | on a 200 object reply, whatever other keys it carries, the inventory is the names of the `"models"` array; a missing `"models"` or one that is not an array lists no models |
| OllamaHpcc.GeneratedTextOn200 | src/python/ollamahpcc/__init__.py:54-55 | on 200, `generate` answers the `"response"` field, or `""` when that key is missing |
| OllamaHpcc.ChatContentOn200 | src/python/ollamahpcc/__init__.py:73-75 | on a 200 object reply, whatever other keys it or its message carry, `chat` answers the `"content"` of the `"message"` object; `""` when `"message"` or `"content"` is missing; `None` when `"message"` is not an object |
| OllamaHpcc.ContainerName | src/python/ollamahpcc/__init__.py:88 | the container name is never empty; it is the given name when that is nonempty, otherwise `ollama-<role>` |
| OllamaHpcc.StartCommandsShape | src/python/ollamahpcc/__init__.py:91-111 | the run argv names the container, publishes `port:port` and binds `OLLAMA_HOST` to `0.0.0.0:port`, and that port string reads back as the role's port; the pull argv addresses the same container and ends with the model |
| OllamaHpcc.TraceAppend | src/python/ollamahpcc/__init__.py:119-122 | recording one more role extends the request trace by exactly that role's requests |
| OllamaHpcc.TraceContents | src/python/ollamahpcc/__init__.py:116-128 | a request is in the `get_status` trace exactly when it is some role's probe or a healthy role's inventory query |
| OllamaHpcc.InventoryOnlyWhenHealthy | src/python/ollamahpcc/__init__.py:119-121 | with distinct ports, every role is probed, and its inventory is queried if and only if the probe said healthy |
| OllamaHpcc.OllamaServer.constructor | src/python/ollamahpcc/__init__.py:19-21 | a new server keeps its host (by default `"localhost"`), holds the source's two tables, and satisfies the table invariant |
| OllamaHpcc.OllamaServer.Resolve | src/python/ollamahpcc/__init__.py:43-46 | a resolved target carries exactly the port and the model that the two `get` lookups return |
| OllamaHpcc.OllamaServer.ResolveTable | src/python/ollamahpcc/__init__.py:43-46 | a role resolves if and only if it is in the table, and then to its own row's port and model |
| OllamaHpcc.OllamaServer.SourceRoles | src/python/ollamahpcc/__init__.py:10-17 | with the source's tables, exactly the four roles resolve, each to its listed port and model |
| OllamaHpcc.OllamaServer.UnknownRoleRefused | src/python/ollamahpcc/__init__.py:62-65 | for a role missing from the table, `generate` and `chat` answer `None` whatever the network would say |
| OllamaHpcc.OllamaServer.CheckHealth | src/python/ollamahpcc/__init__.py:23-29 | healthy if and only if the 2-second `/api/tags` probe answers status 200 |
| OllamaHpcc.OllamaServer.ListModels | src/python/ollamahpcc/__init__.py:31-39 | the inventory is what `ModelNamesOf` reads from the 5-second `/api/tags` reply, so the lemmas about it apply; any reply other than a 200 lists no models |
| OllamaHpcc.OllamaServer.Generate | src/python/ollamahpcc/__init__.py:41-58 | an unresolved role gives `None`; a resolved role gives what `GeneratedTextOf` reads from the reply to the POST for the role's own target, so the lemmas about it apply; a non-`None` answer comes only from a 200 |
| OllamaHpcc.OllamaServer.Chat | src/python/ollamahpcc/__init__.py:60-77 | an unresolved role gives `None`; a resolved role gives what `ChatContentOf` reads from the reply to the POST for the role's own target, so the lemmas about it apply; a non-`None` answer comes only from a 200 |
| OllamaHpcc.OllamaServer.StartLocal | src/python/ollamahpcc/__init__.py:79-114 | with `container_name` defaulting to `None`, an unknown role runs nothing and fails; otherwise the run command goes first, the pull runs only if the run succeeded, and the result is true exactly when both succeed |
| OllamaHpcc.OllamaServer.GetStatus | src/python/ollamahpcc/__init__.py:116-128 | one entry per role in table order, carrying the table's port and model; healthy exactly when the probe answered 200; the inventory only when healthy and `[]` otherwise; the trace holds a role's inventory query exactly when the role is healthy |
| OllamaHpcc.OllamaClient.constructor | src/python/ollamahpcc/__init__.py:134-138 | the client's server (host by default `"localhost"`) holds the source's tables, and `model` and `port` are the two `get` lookups of its role |
| OllamaHpcc.OllamaClient.AttributesMatchRole | src/python/ollamahpcc/__init__.py:134-138 | `model` and `port` are set exactly when the role resolves, and then equal the resolved target |
| OllamaHpcc.OllamaClient.UnknownRoleAnswersEmpty | src/python/ollamahpcc/__init__.py:140-148 | a client for an unknown role answers `""` to every prompt and every chat |
| OllamaHpcc.OllamaClient.Invoke | src/python/ollamahpcc/__init__.py:140-143 | never `None`; a falsy generation (`None`, `""`, and every other falsy value) becomes exactly `""`, and a truthy one passes through unchanged |
| OllamaHpcc.OllamaClient.Chat | src/python/ollamahpcc/__init__.py:145-148 | never `None`; a falsy reply (`None`, `""`, and every other falsy value) becomes exactly `""`, and a truthy one passes through unchanged |

## Left out

- The HTTP transport and JSON decoding (`requests.get`, `requests.post`, `resp.json()`) are the `Network` parameter. Timeouts are request fields and are never waited for.
- The URL text (`base_url`, `f"{base_url}:{port}/..."`) is not modelled. A request carries the host, port and path as separate fields.
- `subprocess.run` is the `Shell` parameter. Container behaviour, including a name already in use, is whatever that function answers.
- The `print` of an exception in `generate` and `chat` is output only and is left out.
- `OllamaClient.llm` is left out: it imports LangChain and builds one of its objects.
- Floating-point JSON numbers and duplicate keys in a reply are not modelled. `JNum` holds an integer, and a decoded object holds each key once.
- Request bodies are JSON values by construction: keyword arguments are `Json` and message values are strings. A keyword argument or message value that `json` cannot encode makes `requests.post` raise `TypeError` before anything is sent, and `generate`/`chat` then return `None`; that path is not modelled.
- The network is a pure function, so each request always gets the same answer. A server that changes state between two calls is not modelled; within one `get_status` call no request repeats.
- The table attributes are not `OllamaServer` class attributes. They are per-instance constant fields that the constructor sets to the source's values.
- `generate` called with a keyword argument named `self`, `model_type` or `prompt` raises `TypeError` in Python before any request. `Generate` accepts any keyword list; `GeneratePayloadFields` states its facts for the lists Python can bind.
- `get_status` builds each entry as a `RoleStatus` record, not as a four-key dict.
