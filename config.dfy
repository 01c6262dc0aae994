/** Reading the bot's configuration from its environment (bot/config.py): typed
    environment variables, the Lavalink node list given as JSON or as single-node
    variables, and the range checks on the remaining settings. */
module Config {
  import opened Wrappers
  import opened Strings

  /** The environment variables the bot reads. */
  datatype Variable =
    | DiscordToken | LavalinkNodesJson | LavalinkHost | LavalinkPort | LavalinkPassword | LavalinkSecure
    | LavalinkIdentifier | WavelinkCacheCapacity | DevGuildId | DefaultVolume | IdleTimeoutSeconds
    | AnnounceNowplaying | DbPath | LogLevel | LogDir | LogFile | LogMaxBytes | LogBackupCount
    | SupportInviteUrl | VoteUrl

  /** The process environment: the value of each variable that is set. */
  type Env = map<Variable, string>

  /** A JSON value as `json.loads` returns it (floating-point numbers are not modelled). */
  datatype Json =
    | JNull
    | JBool(b: bool)
    | JInt(i: int)
    | JString(s: string)
    | JArray(items: seq<Json>)
    | JObject(fields: map<string, Json>)

  /** The port of a parsed URL: absent, a number, or one `urlparse(...).port` rejects with `ValueError`. */
  datatype UrlPort = NoPort | Port(n: int) | InvalidPort

  /** The parts of `urllib.parse.urlparse(text)` the node check reads. */
  datatype Url = Url(scheme: string, hostname: Option<string>, port: UrlPort)

  /** One Lavalink node (`LavalinkNodeConfig`). */
  datatype NodeConfig = NodeConfig(identifier: string, host: string, port: int, password: string, secure: bool)

  /** The `ValueError`s `load_config` raises. */
  datatype ConfigError =
    | MissingDiscordToken
    | NodesJsonInvalid
    | NodesNotNonEmptyArray
    | NodeNotObject(index: nat)
    | DuplicateIdentifier(identifier: string)
    | MissingNodePassword(identifier: string)
    | BadUriScheme(identifier: string, scheme: string)
    | BadUriPort(identifier: string)
    | BadNodePort(identifier: string)
    | MissingNodeHost(identifier: string)
    | NodePortOutOfRange(identifier: string, port: int)
    | MissingLavalinkPassword
    | NotAnInteger(variable: Variable)
    | DefaultVolumeOutOfRange
    | NegativeIdleTimeout

  /** The loaded configuration (`Config`). */
  datatype Config = Config(
    discordToken: string,
    lavalinkNodes: seq<NodeConfig>,
    wavelinkCacheCapacity: Option<int>,
    devGuildId: Option<int>,
    defaultVolume: int,
    idleTimeoutSeconds: int,
    announceNowPlaying: bool,
    dbPath: string,
    logLevel: string,
    logDir: string,
    logFile: string,
    logMaxBytes: int,
    logBackupCount: int,
    supportInviteUrl: Option<string>,
    voteUrl: Option<string>)
  {
    /** The `lavalink_*` properties all read the first node. */
    function LavalinkUri(): string
      requires lavalinkNodes != []
    {
      Uri(lavalinkNodes[0])
    }

    function LavalinkIdentifier(): string
      requires lavalinkNodes != []
    {
      lavalinkNodes[0].identifier
    }

    function LavalinkPassword(): string
      requires lavalinkNodes != []
    {
      lavalinkNodes[0].password
    }

    function LavalinkSecure(): bool
      requires lavalinkNodes != []
    {
      lavalinkNodes[0].secure
    }

    function LavalinkHost(): string
      requires lavalinkNodes != []
    {
      lavalinkNodes[0].host
    }

    function LavalinkPort(): int
      requires lavalinkNodes != []
    {
      lavalinkNodes[0].port
    }
  }

  const TRUE_WORDS: set<string> := {"1", "true", "yes", "y", "on"}
  const DEFAULT_LAVALINK_HOST := "127.0.0.1"
  const DEFAULT_LAVALINK_PORT := 2333
  const DEFAULT_LAVALINK_IDENTIFIER := "main"
  const MIN_PORT := 1
  const MAX_PORT := 65535

  // ---------------------------------------------------------------------------
  // Environment variables

  /** `os.getenv(name, "").strip()`: the trimmed value, or "" when unset. */
  function Required(env: Env, name: Variable): (r: string)
    ensures name !in env ==> r == []
    ensures name in env ==> r == Strip(env[name])
  {
    if name in env then Strip(env[name]) else ""
  }

  /** `_get_bool`: the default when unset, otherwise whether the trimmed, lower-cased value
      is one of the true words (a blank value is false, not the default). */
  function GetBool(env: Env, name: Variable, default: bool): (r: bool)
    ensures name !in env ==> r == default
    ensures name in env && Lower(Strip(env[name])) in TRUE_WORDS ==> r
    ensures name in env && Lower(Strip(env[name])) !in TRUE_WORDS ==> !r
  {
    if name !in env then default else Lower(Strip(env[name])) in TRUE_WORDS
  }

  /** `_get_int`: the default when unset or blank, otherwise `int(value)`, which may raise. */
  function GetInt(env: Env, name: Variable, default: int): (r: Result<int, ConfigError>)
    ensures name !in env ==> r == Success(default)
    ensures name in env && Strip(env[name]) == [] ==> r == Success(default)
    ensures name in env && Strip(env[name]) != [] ==>
              (r.Success? <==> PyInt(env[name]).Some?) && (r.Success? ==> r.value == PyInt(env[name]).value)
    ensures r.Failure? ==> r.error == NotAnInteger(name)
  {
    if name !in env || Strip(env[name]) == "" then Success(default)
    else match PyInt(env[name])
      case Some(v) => Success(v)
      case None => Failure(NotAnInteger(name))
  }

  /** `_get_optional_int`: `None` when unset or blank, otherwise `int(value)`, which may raise. */
  function GetOptionalInt(env: Env, name: Variable): (r: Result<Option<int>, ConfigError>)
    ensures name !in env ==> r == Success(None)
    ensures name in env && Strip(env[name]) == [] ==> r == Success(None)
    ensures name in env && Strip(env[name]) != [] ==>
              (r.Success? <==> PyInt(env[name]).Some?) && (r.Success? ==> r.value == Some(PyInt(env[name]).value))
    ensures r.Failure? ==> r.error == NotAnInteger(name)
  {
    if name !in env || Strip(env[name]) == "" then Success(None)
    else match PyInt(env[name])
      case Some(v) => Success(Some(v))
      case None => Failure(NotAnInteger(name))
  }

  /** `os.getenv(name, default).strip() or default`. */
  function GetText(env: Env, name: Variable, default: string): (r: string)
    requires default != []
    ensures r != []
    ensures name !in env && Strip(default) == default ==> r == default
    ensures name !in env && Strip(default) != [] ==> r == Strip(default)
    ensures name in env && Strip(env[name]) == [] ==> r == default
    ensures name in env && Strip(env[name]) != [] ==> r == Strip(env[name])
  {
    if name !in env then (if Strip(default) == [] then default else Strip(default))
    else if Strip(env[name]) == [] then default
    else Strip(env[name])
  }

  /** A trimmed value, or `None` when unset or blank (the two URL settings). */
  function GetOptionalText(env: Env, name: Variable): (r: Option<string>)
    ensures name in env && Strip(env[name]) != [] ==> r == Some(Strip(env[name]))
    ensures name !in env || Strip(env[name]) == [] ==> r == None
    ensures r.Some? ==> r.value != [] && Strip(r.value) == r.value
  {
    if name in env && Strip(env[name]) != [] then Some(Strip(env[name])) else None
  }

  /** Whitespace and letter case around a boolean variable do not matter. */
  lemma GetBoolNormalises(env: Env, name: Variable, s: string, default: bool)
    ensures GetBool(env[name := s], name, default) == GetBool(env[name := Lower(Strip(s))], name, default)
  {
    NormalisedIsFixed(s);
  }

  /** Trimming and lower-casing twice is the same as once. */
  lemma NormalisedIsFixed(s: string)
    ensures Lower(Strip(Lower(Strip(s)))) == Lower(Strip(s))
  {
    var t := Lower(Strip(s));
    if t != [] {
      assert !IsSpace(t[0]) && !IsSpace(t[|t| - 1]);
    }
    StripUnchanged(t);
    assert Lower(t) == t;
  }

  /** An integer written by `str()` reads back through `_get_int`. */
  lemma GetIntOfIntToString(env: Env, name: Variable, v: int, default: int)
    ensures GetInt(env[name := IntToString(v)], name, default) == Success(v)
  {
    PyIntOfIntToString(v);
    StripUnchanged(IntToString(v));
  }

  // ---------------------------------------------------------------------------
  // Nodes

  /** The URL scheme of a node: https when it uses TLS, http otherwise. */
  function Scheme(secure: bool): string
  {
    if secure then "https" else "http"
  }

  /** `LavalinkNodeConfig.uri`: "scheme://host:port". */
  function Uri(node: NodeConfig): (r: string)
    ensures r == Scheme(node.secure) + "://" + node.host + ":" + IntToString(node.port)
    ensures node.secure <==> |r| >= 8 && r[..8] == "https://"
  {
    var r := Scheme(node.secure) + "://" + node.host + ":" + IntToString(node.port);
    assert !node.secure ==> r[4] == ':';
    r
  }

  /** Python truthiness of a JSON value. */
  predicate Truthy(j: Json)
  {
    match j
    case JNull => false
    case JBool(b) => b
    case JInt(i) => i != 0
    case JString(s) => s != ""
    case JArray(items) => items != []
    case JObject(fields) => fields != map[]
  }

  /** `item.get(key)`: a missing key and a JSON `null` both give `None`. */
  function Get(item: map<string, Json>, key: string): Json
  {
    if key in item then item[key] else JNull
  }

  /** Python's `a or b`. */
  function Or(a: Json, b: Json): Json
  {
    if Truthy(a) then a else b
  }

  /** Python's `str()` of a JSON value (containers are rendered as a fixed placeholder). */
  function PyStr(j: Json): string
  {
    match j
    case JNull => "None"
    case JBool(b) => if b then "True" else "False"
    case JInt(i) => IntToString(i)
    case JString(s) => s
    case JArray(_) => "[...]"
    case JObject(_) => "{...}"
  }

  /** Python's `int()` of a JSON value; `None` stands for the exception it raises. */
  function JsonToInt(j: Json): Option<int>
  {
    match j
    case JBool(b) => Some(if b then 1 else 0)
    case JInt(i) => Some(i)
    case JString(s) => PyInt(s)
    case _ => None
  }

  /** `f"node{i}"`. */
  function DefaultIdentifier(index: nat): string
  {
    "node" + NatToString(index)
  }

  /** The identifier of the node at 1-based `index`: `identifier`, else `id`, else `node{index}`,
      trimmed, and `node{index}` again when the trimmed text is empty. */
  function NodeIdentifier(index: nat, item: map<string, Json>): (r: string)
    ensures r != []
    ensures !Truthy(Get(item, "identifier")) && !Truthy(Get(item, "id")) ==> r == DefaultIdentifier(index)
    ensures Truthy(Get(item, "identifier")) && Strip(PyStr(Get(item, "identifier"))) != [] ==>
              r == Strip(PyStr(Get(item, "identifier")))
    ensures Truthy(Get(item, "identifier")) && Strip(PyStr(Get(item, "identifier"))) == [] ==>
              r == DefaultIdentifier(index)
    ensures !Truthy(Get(item, "identifier")) && Truthy(Get(item, "id")) && Strip(PyStr(Get(item, "id"))) != [] ==>
              r == Strip(PyStr(Get(item, "id")))
    ensures !Truthy(Get(item, "identifier")) && Truthy(Get(item, "id")) && Strip(PyStr(Get(item, "id"))) == [] ==>
              r == DefaultIdentifier(index)
  {
    var raw := Or(Or(Get(item, "identifier"), Get(item, "id")), JString(DefaultIdentifier(index)));
    DefaultIdentifierStripped(index);
    var id := Strip(PyStr(raw));
    if id == [] then DefaultIdentifier(index) else id
  }

  lemma DefaultIdentifierStripped(index: nat)
    ensures Strip(DefaultIdentifier(index)) == DefaultIdentifier(index)
  {
    var d := DefaultIdentifier(index);
    assert d[0] == 'n';
    assert d[|d| - 1] == NatToString(index)[|NatToString(index)| - 1];
    StripUnchanged(d);
  }

  /** Where a node is reached. */
  datatype Endpoint = Endpoint(host: string, port: int, secure: bool)

  /** A node given by `uri`/`url`: the scheme must be http or https; secure iff https; the port
      defaults to 443 or 80 when the URL has none (or port 0). */
  function EndpointFromUrl(identifier: string, u: Url): (r: Result<Endpoint, ConfigError>)
    ensures r.Success? ==> Lower(u.scheme) in {"http", "https"}
    ensures r.Success? ==> (r.value.secure <==> Lower(u.scheme) == "https")
    ensures r.Success? && (u.port.NoPort? || u.port == Port(0)) ==> r.value.port == (if r.value.secure then 443 else 80)
    ensures Lower(u.scheme) !in {"http", "https"} ==> r == Failure(BadUriScheme(identifier, Lower(u.scheme)))
    ensures Lower(u.scheme) in {"http", "https"} && u.port == InvalidPort ==> r == Failure(BadUriPort(identifier))
    ensures r.Success? <==> Lower(u.scheme) in {"http", "https"} && u.port != InvalidPort
    ensures r.Success? ==> r.value.host == u.hostname.GetOr("")
    ensures r.Success? && u.port.Port? && u.port.n != 0 ==> r.value.port == u.port.n
  {
    var scheme := Lower(u.scheme);
    if scheme != "http" && scheme != "https" then Failure(BadUriScheme(identifier, scheme))
    else
      var secure := scheme == "https";
      var host := u.hostname.GetOr("");
      match u.port
      case NoPort => Success(Endpoint(host, if secure then 443 else 80, secure))
      case Port(n) => Success(Endpoint(host, if n != 0 then n else if secure then 443 else 80, secure))
      case InvalidPort => Failure(BadUriPort(identifier))
  }

  /** A node given by `host`/`port`/`secure`: `secure` is Python's `bool()` of the value
      (false when absent) and `port` is `int()` of it (0 when absent). */
  function EndpointFromFields(identifier: string, host: string, portRaw: Json, secureRaw: Json)
    : (r: Result<Endpoint, ConfigError>)
    ensures r.Success? ==> r.value.host == host && r.value.secure == Truthy(secureRaw)
    ensures r.Failure? <==> portRaw != JNull && JsonToInt(portRaw).None?
    ensures r.Failure? ==> r.error == BadNodePort(identifier)
    ensures r.Success? ==> r.value.port == (if portRaw == JNull then 0 else JsonToInt(portRaw).value)
  {
    var secure := if secureRaw == JNull then false else Truthy(secureRaw);
    if portRaw == JNull then Success(Endpoint(host, 0, secure))
    else match JsonToInt(portRaw)
      case Some(p) => Success(Endpoint(host, p, secure))
      case None => Failure(BadNodePort(identifier))
  }

  /** `str(item.get("password") or "").strip()`. */
  function NodePassword(item: map<string, Json>): string
  {
    Strip(PyStr(Or(Get(item, "password"), JString(""))))
  }

  /** Where a JSON node is reached: `uri`, else `url`, parsed as a URL when truthy; otherwise
      the `host`, `port` and `secure` fields. */
  function NodeEndpoint(identifier: string, item: map<string, Json>, urlparse: string -> Url)
    : (r: Result<Endpoint, ConfigError>)
    ensures Truthy(Get(item, "uri")) ==>
              r == EndpointFromUrl(identifier, urlparse(Strip(PyStr(Get(item, "uri")))))
    ensures !Truthy(Get(item, "uri")) && Truthy(Get(item, "url")) ==>
              r == EndpointFromUrl(identifier, urlparse(Strip(PyStr(Get(item, "url")))))
    ensures !Truthy(Get(item, "uri")) && !Truthy(Get(item, "url")) ==>
              r == EndpointFromFields(identifier, Strip(PyStr(Or(Get(item, "host"), JString("")))),
                                      Get(item, "port"), Get(item, "secure"))
  {
    var uriRaw := Or(Get(item, "uri"), Get(item, "url"));
    if Truthy(uriRaw) then EndpointFromUrl(identifier, urlparse(Strip(PyStr(uriRaw))))
    else EndpointFromFields(identifier, Strip(PyStr(Or(Get(item, "host"), JString("")))),
                            Get(item, "port"), Get(item, "secure"))
  }

  /** One JSON node object after its identifier has been settled: a password is required,
      `uri`/`url` takes precedence over `host`/`port`/`secure`, and the host must be
      non-empty and the port within 1..65535. */
  function NodeFromObject(identifier: string, item: map<string, Json>, urlparse: string -> Url)
    : (r: Result<NodeConfig, ConfigError>)
    ensures r.Success? ==> r.value.identifier == identifier && r.value.password != [] && r.value.host != []
    ensures r.Success? ==> MIN_PORT <= r.value.port <= MAX_PORT
    ensures NodePassword(item) == [] ==> r == Failure(MissingNodePassword(identifier))
    ensures r.Success? ==> r.value.password == NodePassword(item)
    ensures r.Success? ==>
              NodeEndpoint(identifier, item, urlparse) == Success(Endpoint(r.value.host, r.value.port, r.value.secure))
    ensures NodePassword(item) != [] && NodeEndpoint(identifier, item, urlparse).Failure? ==>
              r == Failure(NodeEndpoint(identifier, item, urlparse).error)
    ensures NodePassword(item) != [] && NodeEndpoint(identifier, item, urlparse).Success? ==>
              var e := NodeEndpoint(identifier, item, urlparse).value;
              && (e.host == [] ==> r == Failure(MissingNodeHost(identifier)))
              && (e.host != [] && !(MIN_PORT <= e.port <= MAX_PORT) ==>
                    r == Failure(NodePortOutOfRange(identifier, e.port)))
              && (e.host != [] && MIN_PORT <= e.port <= MAX_PORT ==> r.Success?)
  {
    var password := NodePassword(item);
    if password == [] then Failure(MissingNodePassword(identifier))
    else
      var endpoint :- NodeEndpoint(identifier, item, urlparse);
      if endpoint.host == [] then Failure(MissingNodeHost(identifier))
      else if !(MIN_PORT <= endpoint.port <= MAX_PORT) then Failure(NodePortOutOfRange(identifier, endpoint.port))
      else Success(NodeConfig(identifier, endpoint.host, endpoint.port, password, endpoint.secure))
  }

  /** What one item of the node array yields before the duplicate check: nothing when it is
      not an object, otherwise its settled identifier and the node built from it (or the error
      building it raises). */
  datatype Candidate = NotAnObject | Candidate(identifier: string, node: Result<NodeConfig, ConfigError>)

  /** The candidate of the item at 1-based `index`. */
  function ItemCandidate(index: nat, item: Json, urlparse: string -> Url): (c: Candidate)
    ensures c.Candidate? <==> item.JObject?
    ensures c.Candidate? ==> c.identifier == NodeIdentifier(index, item.fields)
    ensures c.Candidate? && c.node.Success? ==> c.node.value.identifier == c.identifier && Accepted(c.node.value)
  {
    if !item.JObject? then NotAnObject
    else
      var identifier := NodeIdentifier(index, item.fields);
      Candidate(identifier, NodeFromObject(identifier, item.fields, urlparse))
  }

  /** The candidates of all items, in order. */
  function Candidates(items: seq<Json>, urlparse: string -> Url): (cs: seq<Candidate>)
    ensures |cs| == |items|
  {
    if items == [] then []
    else Candidates(items[..|items| - 1], urlparse) + [ItemCandidate(|items|, items[|items| - 1], urlparse)]
  }

  /** The candidate at 0-based position `k` is the one of the item there, numbered `k + 1`. */
  lemma {:induction false} CandidateAt(items: seq<Json>, urlparse: string -> Url, k: nat)
    requires k < |items|
    ensures Candidates(items, urlparse)[k] == ItemCandidate(k + 1, items[k], urlparse)
  {
    if k < |items| - 1 {
      var front := items[..|items| - 1];
      CandidateAt(front, urlparse, k);
      assert front[k] == items[k];
    }
  }

  /** The node loop of `load_config` from 0-based position `i` on, with the identifiers `seen`
      so far and the nodes accepted so far: the first item that is not an object, repeats an
      identifier or fails to build ends the loop with its error. */
  function CheckNodes(cs: seq<Candidate>, i: nat, seen: set<string>, acc: seq<NodeConfig>)
    : Result<seq<NodeConfig>, ConfigError>
    requires i <= |cs|
    decreases |cs| - i
  {
    if i == |cs| then Success(acc)
    else match cs[i]
      case NotAnObject => Failure(NodeNotObject(i + 1))
      case Candidate(identifier, node) =>
        if identifier in seen then Failure(DuplicateIdentifier(identifier))
        else match node
          case Failure(e) => Failure(e)
          case Success(n) => CheckNodes(cs, i + 1, seen + {identifier}, acc + [n])
  }

  /** The node loop of `load_config` as it runs: one item at a time, keeping the set of
      identifiers seen and the list of accepted nodes. A list is accepted only as a whole: one
      node per item, in item order, each built from its own item, all identifiers distinct,
      every host non-empty and every port in 1..65535. */
  method LoadNodes(items: seq<Json>, urlparse: string -> Url) returns (r: Result<seq<NodeConfig>, ConfigError>)
    ensures r == CheckNodes(Candidates(items, urlparse), 0, {}, [])
    ensures r.Success? ==> |r.value| == |items| && DistinctIdentifiers(r.value)
    ensures r.Success? ==> forall k :: 0 <= k < |items| ==>
              items[k].JObject? && r.value[k].identifier == NodeIdentifier(k + 1, items[k].fields) &&
              NodeFromObject(r.value[k].identifier, items[k].fields, urlparse) == Success(r.value[k])
    ensures r.Success? ==> forall k :: 0 <= k < |r.value| ==> Accepted(r.value[k])
  {
    ghost var cs := Candidates(items, urlparse);
    var seen: set<string> := {};
    var nodes: seq<NodeConfig> := [];
    var i := 0;
    while i < |items|
      invariant 0 <= i <= |items|
      invariant CheckNodes(cs, i, seen, nodes) == CheckNodes(cs, 0, {}, [])
    {
      var c := ItemCandidate(i + 1, items[i], urlparse);
      CandidateAt(items, urlparse, i);
      if c.NotAnObject? {
        return Failure(NodeNotObject(i + 1));
      }
      if c.identifier in seen {
        return Failure(DuplicateIdentifier(c.identifier));
      }
      if c.node.Failure? {
        return Failure(c.node.error);
      }
      seen := seen + {c.identifier};
      nodes := nodes + [c.node.value];
      i := i + 1;
    }
    r := Success(nodes);
    JsonNodesAccepted(items, urlparse, nodes);
    forall k | 0 <= k < |items|
      ensures items[k].JObject? && nodes[k].identifier == NodeIdentifier(k + 1, items[k].fields)
      ensures NodeFromObject(nodes[k].identifier, items[k].fields, urlparse) == Success(nodes[k])
    {
      JsonNodesBuilt(items, urlparse, nodes, k);
    }
  }

  /** An accepted JSON node list has one node per item, distinct identifiers and only
      `Accepted` nodes. */
  lemma JsonNodesAccepted(items: seq<Json>, urlparse: string -> Url, ns: seq<NodeConfig>)
    requires CheckNodes(Candidates(items, urlparse), 0, {}, []) == Success(ns)
    ensures |ns| == |items| && DistinctIdentifiers(ns)
    ensures forall k :: 0 <= k < |ns| ==> Accepted(ns[k])
  {
    CandidatesWellBuilt(items, urlparse);
    NodeListAccepted(Candidates(items, urlparse), ns);
  }

  /** Each node of an accepted JSON node list is built from the item at its own position,
      under the identifier that item settles on. */
  lemma JsonNodesBuilt(items: seq<Json>, urlparse: string -> Url, ns: seq<NodeConfig>, k: nat)
    requires CheckNodes(Candidates(items, urlparse), 0, {}, []) == Success(ns) && k < |items|
    ensures k < |ns| && items[k].JObject? && ns[k].identifier == NodeIdentifier(k + 1, items[k].fields)
    ensures NodeFromObject(ns[k].identifier, items[k].fields, urlparse) == Success(ns[k])
  {
    CheckNodesAt(Candidates(items, urlparse), ns, k);
    CandidateNode(items, urlparse, k, ns[k]);
  }

  /** The node at position `k` of an accepted list is the node of candidate `k`. */
  lemma CheckNodesAt(cs: seq<Candidate>, ns: seq<NodeConfig>, k: nat)
    requires CheckNodes(cs, 0, {}, []) == Success(ns) && k < |cs|
    ensures k < |ns| && cs[k].Candidate? && cs[k].node == Success(ns[k])
  {
    CheckNodesCollects(cs, 0, {}, [], ns);
  }

  /** Two items that settle on the same identifier make the whole list fail. */
  lemma RepeatedIdentifierRejected(items: seq<Json>, urlparse: string -> Url, j: nat, k: nat)
    requires j < k < |items| && items[j].JObject? && items[k].JObject?
    requires NodeIdentifier(j + 1, items[j].fields) == NodeIdentifier(k + 1, items[k].fields)
    ensures CheckNodes(Candidates(items, urlparse), 0, {}, []).Failure?
  {
    var r := CheckNodes(Candidates(items, urlparse), 0, {}, []);
    if r.Success? {
      JsonNodesAccepted(items, urlparse, r.value);
      JsonNodesBuilt(items, urlparse, r.value, j);
      JsonNodesBuilt(items, urlparse, r.value, k);
    }
  }

  /** An item that is not an object makes the whole list fail. */
  lemma NonObjectRejected(items: seq<Json>, urlparse: string -> Url, k: nat)
    requires k < |items| && !items[k].JObject?
    ensures CheckNodes(Candidates(items, urlparse), 0, {}, []).Failure?
  {
    var r := CheckNodes(Candidates(items, urlparse), 0, {}, []);
    if r.Success? {
      JsonNodesBuilt(items, urlparse, r.value, k);
    }
  }

  lemma CandidateNode(items: seq<Json>, urlparse: string -> Url, k: nat, n: NodeConfig)
    requires k < |items| && Candidates(items, urlparse)[k].Candidate? && Candidates(items, urlparse)[k].node == Success(n)
    ensures items[k].JObject? && n.identifier == NodeIdentifier(k + 1, items[k].fields)
    ensures NodeFromObject(n.identifier, items[k].fields, urlparse) == Success(n)
  {
    CandidateAt(items, urlparse, k);
  }

  /** Every built node carries its candidate's identifier and is `Accepted`. */
  predicate WellBuilt(cs: seq<Candidate>)
  {
    forall k :: 0 <= k < |cs| && cs[k].Candidate? && cs[k].node.Success? ==>
      cs[k].node.value.identifier == cs[k].identifier && Accepted(cs[k].node.value)
  }

  lemma CandidatesWellBuilt(items: seq<Json>, urlparse: string -> Url)
    ensures WellBuilt(Candidates(items, urlparse))
  {
    var cs := Candidates(items, urlparse);
    forall k | 0 <= k < |cs| && cs[k].Candidate? && cs[k].node.Success?
      ensures cs[k].node.value.identifier == cs[k].identifier && Accepted(cs[k].node.value)
    {
      CandidateAt(items, urlparse, k);
    }
  }

  /** What the loop keeps from position `i` on: the accepted nodes so far stay in front, one
      node follows per remaining candidate, built by that candidate. */
  lemma {:induction false} CheckNodesCollects(cs: seq<Candidate>, i: nat, seen: set<string>, acc: seq<NodeConfig>, ns: seq<NodeConfig>)
    requires i <= |cs| && CheckNodes(cs, i, seen, acc) == Success(ns)
    ensures |ns| == |acc| + |cs| - i && ns[..|acc|] == acc
    ensures forall k :: i <= k < |cs| ==> cs[k].Candidate? && cs[k].node == Success(ns[|acc| + (k - i)])
    decreases |cs| - i
  {
    if i < |cs| {
      var n := cs[i].node.value;
      CheckNodesCollects(cs, i + 1, seen + {cs[i].identifier}, acc + [n], ns);
      assert ns[..|acc|] == ns[..|acc| + 1][..|acc|];
    }
  }

  /** The loop never accepts two nodes with one identifier. */
  lemma {:induction false} CheckNodesDistinct(cs: seq<Candidate>, i: nat, seen: set<string>, acc: seq<NodeConfig>, ns: seq<NodeConfig>)
    requires i <= |cs| && CheckNodes(cs, i, seen, acc) == Success(ns) && WellBuilt(cs)
    requires forall k :: 0 <= k < |acc| ==> acc[k].identifier in seen
    requires DistinctIdentifiers(acc)
    ensures DistinctIdentifiers(ns)
    decreases |cs| - i
  {
    if i < |cs| {
      var n := cs[i].node.value;
      var acc' := acc + [n];
      assert forall k :: 0 <= k < |acc'| ==> acc'[k].identifier in seen + {cs[i].identifier};
      CheckNodesDistinct(cs, i + 1, seen + {cs[i].identifier}, acc', ns);
    }
  }

  /** An accepted list has one node per candidate, each the candidate's own node, all with
      distinct identifiers. */
  lemma NodeListAccepted(cs: seq<Candidate>, ns: seq<NodeConfig>)
    requires CheckNodes(cs, 0, {}, []) == Success(ns) && WellBuilt(cs)
    ensures |ns| == |cs| && DistinctIdentifiers(ns)
    ensures forall k :: 0 <= k < |cs| ==> cs[k].Candidate? && cs[k].node == Success(ns[k])
    ensures forall k :: 0 <= k < |ns| ==> Accepted(ns[k])
  {
    CheckNodesCollects(cs, 0, {}, [], ns);
    CheckNodesDistinct(cs, 0, {}, [], ns);
  }

  /** The node built from the single-node variables when there is no node JSON. */
  function FallbackNode(env: Env): (r: Result<NodeConfig, ConfigError>)
    ensures r.Success? ==> r.value.password != [] && r.value.host != [] && r.value.identifier != []
  {
    var host := GetText(env, LavalinkHost, DEFAULT_LAVALINK_HOST);
    var port :- GetInt(env, LavalinkPort, DEFAULT_LAVALINK_PORT);
    var password := Required(env, LavalinkPassword);
    if password == [] then Failure(MissingLavalinkPassword)
    else
      var secure := GetBool(env, LavalinkSecure, false);
      var identifier := GetText(env, LavalinkIdentifier, DEFAULT_LAVALINK_IDENTIFIER);
      Success(NodeConfig(identifier, host, port, password, secure))
  }

  /** The trimmed node JSON, or "" when unset or blank. */
  function NodesJson(env: Env): string
  {
    if LavalinkNodesJson in env && Strip(env[LavalinkNodesJson]) != [] then Strip(env[LavalinkNodesJson]) else ""
  }

  /** The node list `load_config` builds, or the error it raises: the JSON array when
      `LAVALINK_NODES_JSON` is set and not blank, otherwise the single node from the
      `LAVALINK_*` variables. */
  function LavalinkNodes(env: Env, jsonLoads: string -> Option<Json>, urlparse: string -> Url)
    : Result<seq<NodeConfig>, ConfigError>
  {
    var raw := NodesJson(env);
    if raw != [] then
      match jsonLoads(raw)
      case None => Failure(NodesJsonInvalid)
      case Some(data) =>
        if !data.JArray? || data.items == [] then Failure(NodesNotNonEmptyArray)
        else CheckNodes(Candidates(data.items, urlparse), 0, {}, [])
    else
      var node :- FallbackNode(env);
      Success([node])
  }

  /** The node half of `load_config`, checking the JSON nodes one by one. */
  method LoadLavalinkNodes(env: Env, jsonLoads: string -> Option<Json>, urlparse: string -> Url)
    returns (r: Result<seq<NodeConfig>, ConfigError>)
    ensures r == LavalinkNodes(env, jsonLoads, urlparse)
    ensures NodesJson(env) != [] && jsonLoads(NodesJson(env)).None? ==> r == Failure(NodesJsonInvalid)
    ensures NodesJson(env) != [] && jsonLoads(NodesJson(env)).Some? &&
            (!jsonLoads(NodesJson(env)).value.JArray? || jsonLoads(NodesJson(env)).value.items == []) ==>
              r == Failure(NodesNotNonEmptyArray)
    ensures r.Success? ==> r.value != [] && DistinctIdentifiers(r.value)
    ensures r.Success? ==> forall k :: 0 <= k < |r.value| ==>
              r.value[k].identifier != [] && r.value[k].password != [] && r.value[k].host != []
    ensures r.Success? && NodesJson(env) != [] ==>
              jsonLoads(NodesJson(env)).Some? && jsonLoads(NodesJson(env)).value.JArray? &&
              |r.value| == |jsonLoads(NodesJson(env)).value.items| &&
              forall k :: 0 <= k < |r.value| ==> Accepted(r.value[k])
    ensures NodesJson(env) != [] && jsonLoads(NodesJson(env)).Some? && jsonLoads(NodesJson(env)).value.JArray? &&
            jsonLoads(NodesJson(env)).value.items != [] ==>
              r == CheckNodes(Candidates(jsonLoads(NodesJson(env)).value.items, urlparse), 0, {}, [])
    ensures NodesJson(env) == [] ==> r == (var node :- FallbackNode(env); Success([node]))
    ensures OptionalUnset(env) && Required(env, LavalinkPassword) != [] ==>
              r == Success([NodeConfig("main", "127.0.0.1", 2333, Required(env, LavalinkPassword), false)])
  {
    var raw := NodesJson(env);
    if raw != [] {
      var data := jsonLoads(raw);
      if data.None? {
        return Failure(NodesJsonInvalid);
      }
      if !data.value.JArray? || data.value.items == [] {
        return Failure(NodesNotNonEmptyArray);
      }
      r := LoadNodes(data.value.items, urlparse);
    } else {
      if OptionalUnset(env) && Required(env, LavalinkPassword) != [] {
        FallbackDefaults(env);
      }
      var node :- FallbackNode(env);
      r := Success([node]);
    }
  }

  /** `load_config`, with `json.loads` and `urlparse` passed in. A loaded configuration has a
      token, at least one node (so the `lavalink_*` accessors are defined), distinct node
      identifiers, a password and a host for every node, a default volume within 0..100 and a
      non-negative idle timeout; with only the token and the Lavalink password set, every other
      setting takes its default. */
  method LoadConfig(env: Env, jsonLoads: string -> Option<Json>, urlparse: string -> Url)
    returns (r: Result<Config, ConfigError>)
    ensures Required(env, DiscordToken) == [] ==> r == Failure(MissingDiscordToken)
    ensures r.Success? ==> r.value.discordToken == Required(env, DiscordToken) != []
    ensures r.Success? ==> r.value.lavalinkNodes != [] && DistinctIdentifiers(r.value.lavalinkNodes)
    ensures r.Success? ==> forall k :: 0 <= k < |r.value.lavalinkNodes| ==>
              var node := r.value.lavalinkNodes[k]; node.identifier != [] && node.password != [] && node.host != []
    ensures r.Success? ==> 0 <= r.value.defaultVolume <= 100 && r.value.idleTimeoutSeconds >= 0
    ensures r.Success? && NodesJson(env) != [] ==>
              jsonLoads(NodesJson(env)).Some? && jsonLoads(NodesJson(env)).value.JArray? &&
              |r.value.lavalinkNodes| == |jsonLoads(NodesJson(env)).value.items| &&
              forall k :: 0 <= k < |r.value.lavalinkNodes| ==> Accepted(r.value.lavalinkNodes[k])
    ensures r.Success? && NodesJson(env) == [] ==> FallbackNode(env) == Success(r.value.lavalinkNodes[0]) && |r.value.lavalinkNodes| == 1
    // Each setting is the value its getter reads.
    ensures r.Success? ==>
              && LavalinkNodes(env, jsonLoads, urlparse) == Success(r.value.lavalinkNodes)
              && GetOptionalInt(env, WavelinkCacheCapacity) == Success(r.value.wavelinkCacheCapacity)
              && GetOptionalInt(env, DevGuildId) == Success(r.value.devGuildId)
              && GetInt(env, DefaultVolume, 30) == Success(r.value.defaultVolume)
              && GetInt(env, IdleTimeoutSeconds, 300) == Success(r.value.idleTimeoutSeconds)
              && r.value.announceNowPlaying == GetBool(env, AnnounceNowplaying, false)
              && r.value.dbPath == GetText(env, DbPath, "bot.db")
              && r.value.logLevel == GetText(env, LogLevel, "INFO")
              && r.value.logDir == GetText(env, LogDir, "logs")
              && r.value.logFile == GetText(env, LogFile, "bot.log")
              && GetInt(env, LogMaxBytes, 5 * 1024 * 1024) == Success(r.value.logMaxBytes)
              && GetInt(env, LogBackupCount, 5) == Success(r.value.logBackupCount)
              && r.value.supportInviteUrl == GetOptionalText(env, SupportInviteUrl)
              && r.value.voteUrl == GetOptionalText(env, VoteUrl)
    // Loading succeeds exactly when every step does, and the range checks raise their own errors.
    ensures r.Success? <==>
              && Required(env, DiscordToken) != []
              && LavalinkNodes(env, jsonLoads, urlparse).Success?
              && GetOptionalInt(env, WavelinkCacheCapacity).Success?
              && GetOptionalInt(env, DevGuildId).Success?
              && GetInt(env, DefaultVolume, 30).Success? && 0 <= GetInt(env, DefaultVolume, 30).value <= 100
              && GetInt(env, IdleTimeoutSeconds, 300).Success? && GetInt(env, IdleTimeoutSeconds, 300).value >= 0
              && GetInt(env, LogMaxBytes, 5 * 1024 * 1024).Success?
              && GetInt(env, LogBackupCount, 5).Success?
    ensures Required(env, DiscordToken) != [] && LavalinkNodes(env, jsonLoads, urlparse).Failure? ==>
              r == Failure(LavalinkNodes(env, jsonLoads, urlparse).error)
    ensures Required(env, DiscordToken) != [] && LavalinkNodes(env, jsonLoads, urlparse).Success? &&
            GetOptionalInt(env, WavelinkCacheCapacity).Success? && GetOptionalInt(env, DevGuildId).Success? &&
            GetInt(env, DefaultVolume, 30).Success? && !(0 <= GetInt(env, DefaultVolume, 30).value <= 100) ==>
              r == Failure(DefaultVolumeOutOfRange)
    ensures Required(env, DiscordToken) != [] && LavalinkNodes(env, jsonLoads, urlparse).Success? &&
            GetOptionalInt(env, WavelinkCacheCapacity).Success? && GetOptionalInt(env, DevGuildId).Success? &&
            GetInt(env, DefaultVolume, 30).Success? && 0 <= GetInt(env, DefaultVolume, 30).value <= 100 &&
            GetInt(env, IdleTimeoutSeconds, 300).Success? && GetInt(env, IdleTimeoutSeconds, 300).value < 0 ==>
              r == Failure(NegativeIdleTimeout)
    ensures OptionalUnset(env) && Required(env, DiscordToken) != [] &&
            Required(env, LavalinkPassword) != [] ==>
              r == Success(Config(Required(env, DiscordToken),
                                  [NodeConfig("main", "127.0.0.1", 2333, Required(env, LavalinkPassword), false)],
                                  None, None, 30, 300, false, "bot.db", "INFO", "logs", "bot.log",
                                  5 * 1024 * 1024, 5, None, None))
  {
    var token := Required(env, DiscordToken);
    if token == [] {
      return Failure(MissingDiscordToken);
    }
    var nodes :- LoadLavalinkNodes(env, jsonLoads, urlparse);
    if OptionalUnset(env) {
      SettingsDefaults(env);
    }
    var cache :- GetOptionalInt(env, WavelinkCacheCapacity);
    var devGuild :- GetOptionalInt(env, DevGuildId);
    var volume :- GetInt(env, DefaultVolume, 30);
    if !(0 <= volume <= 100) {
      return Failure(DefaultVolumeOutOfRange);
    }
    var idle :- GetInt(env, IdleTimeoutSeconds, 300);
    if idle < 0 {
      return Failure(NegativeIdleTimeout);
    }
    var announce := GetBool(env, AnnounceNowplaying, false);
    var dbPath := GetText(env, DbPath, "bot.db");
    var logLevel := GetText(env, LogLevel, "INFO");
    var logDir := GetText(env, LogDir, "logs");
    var logFile := GetText(env, LogFile, "bot.log");
    var maxBytes :- GetInt(env, LogMaxBytes, 5 * 1024 * 1024);
    var backups :- GetInt(env, LogBackupCount, 5);
    return Success(Config(token, nodes, cache, devGuild, volume, idle, announce, dbPath, logLevel, logDir, logFile,
                          maxBytes, backups, GetOptionalText(env, SupportInviteUrl), GetOptionalText(env, VoteUrl)));
  }

  // ---------------------------------------------------------------------------
  // Properties of the node list

  /** What every node built from JSON satisfies. */
  predicate Accepted(node: NodeConfig)
  {
    node.identifier != [] && node.password != [] && node.host != [] && MIN_PORT <= node.port <= MAX_PORT
  }

  predicate DistinctIdentifiers(nodes: seq<NodeConfig>)
  {
    forall j, k :: 0 <= j < k < |nodes| ==> nodes[j].identifier != nodes[k].identifier
  }

  /** None of the optional variables is set. */
  predicate OptionalUnset(env: Env)
  {
    env.Keys <= {DiscordToken, LavalinkPassword}
  }

  /** Without node JSON and with only the password set, the single node is "main" at
      127.0.0.1:2333 without TLS. */
  lemma FallbackDefaults(env: Env)
    requires OptionalUnset(env) && Required(env, LavalinkPassword) != []
    ensures NodesJson(env) == []
    ensures FallbackNode(env) == Success(NodeConfig("main", "127.0.0.1", 2333, Required(env, LavalinkPassword), false))
  {
    assert LavalinkNodesJson !in env && LavalinkHost !in env && LavalinkPort !in env;
    assert LavalinkSecure !in env && LavalinkIdentifier !in env;
    StripUnchanged("127.0.0.1");
    StripUnchanged("main");
  }

  /** With only the required variables set, every general setting takes its default. */
  lemma SettingsDefaults(env: Env)
    requires OptionalUnset(env)
    ensures GetOptionalInt(env, WavelinkCacheCapacity) == Success(None)
    ensures GetOptionalInt(env, DevGuildId) == Success(None)
    ensures GetInt(env, DefaultVolume, 30) == Success(30)
    ensures GetInt(env, IdleTimeoutSeconds, 300) == Success(300)
    ensures !GetBool(env, AnnounceNowplaying, false)
    ensures GetText(env, DbPath, "bot.db") == "bot.db" && GetText(env, LogLevel, "INFO") == "INFO"
    ensures GetText(env, LogDir, "logs") == "logs" && GetText(env, LogFile, "bot.log") == "bot.log"
    ensures GetInt(env, LogMaxBytes, 5 * 1024 * 1024) == Success(5 * 1024 * 1024)
    ensures GetInt(env, LogBackupCount, 5) == Success(5)
    ensures GetOptionalText(env, SupportInviteUrl) == None && GetOptionalText(env, VoteUrl) == None
  {
    assert WavelinkCacheCapacity !in env && DevGuildId !in env && DefaultVolume !in env;
    assert IdleTimeoutSeconds !in env && AnnounceNowplaying !in env && DbPath !in env;
    assert LogLevel !in env && LogDir !in env && LogFile !in env && LogMaxBytes !in env;
    assert LogBackupCount !in env && SupportInviteUrl !in env && VoteUrl !in env;
    StripUnchanged("bot.db");
    StripUnchanged("INFO");
    StripUnchanged("logs");
    StripUnchanged("bot.log");
  }

  /** A node given by an https URL without a port is secure on port 443; an http one is plain on port 80. */
  lemma UrlDefaultPorts(identifier: string, host: string)
    ensures EndpointFromUrl(identifier, Url("https", Some(host), NoPort)) == Success(Endpoint(host, 443, true))
    ensures EndpointFromUrl(identifier, Url("HTTP", Some(host), NoPort)) == Success(Endpoint(host, 80, false))
  {
    assert Lower("https") == "https";
    assert Lower("HTTP") == "http";
  }
}
