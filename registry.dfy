/** The table of registered servers (`serverConnections`): the fold that
    loads it, the PUT, DELETE and register endpoints that change it and the
    credential-free listing. Passwords and keys that the request omits are
    the empty string, the only falsy string. */
module Registry {
  import opened Wrappers
  import opened Text

  /** A JSON port value: absent, a number or a string. `0` is falsy while
      `"0"` is truthy, so the two must stay apart. */
  datatype PortValue = NoPort | Num(n: int) | PortText(s: string)

  predicate Truthy(p: PortValue) {
    match p
    case NoPort => false
    case Num(n) => n != 0
    case PortText(s) => s != ""
  }

  /** `parseInt(p)`; `None` is `NaN`. A number is first turned into its
      string, so from 10^21 on only its first digit is read. */
  function ParseIntPort(p: PortValue): Option<int> {
    match p
    case NoPort => None
    case Num(n) => ParseIntText(NumberToString(n))
    case PortText(s) => ParseIntText(s)
  }

  const DefaultPort: int := 22
  const Redacted: string := "[REDACTED]"

  datatype Server = Server(name: string, host: string, port: PortValue, username: string,
                           authType: string, password: string, privateKey: string)

  /** `parseInt(requested || current) || 22`: the chosen raw value, parsed;
      a `NaN` or a zero becomes 22. */
  function NormalizePort(requested: PortValue, current: PortValue): (r: int)
    ensures r != 0
    ensures var raw := if Truthy(requested) then requested else current;
            ParseIntPort(raw) == Some(r) || (r == DefaultPort && ParseIntPort(raw) in {None, Some(0)})
    ensures !Truthy(requested) && !Truthy(current) ==> r == DefaultPort
    // a number is read back as itself below 10^21, and as its signed first digit from there on
    ensures Truthy(requested) && requested.Num? ==> r == ParseIntOfNumber(requested.n)
    ensures !Truthy(requested) && Truthy(current) && current.Num? ==> r == ParseIntOfNumber(current.n)
  {
    var raw := if Truthy(requested) then requested else current;
    assert raw.Num? ==> ParseIntPort(raw) == Some(ParseIntOfNumber(raw.n)) by {
      if raw.Num? {
        NumberParse(raw.n);
      }
    }
    match ParseIntPort(raw)
    case None => DefaultPort
    case Some(n) => if n == 0 then DefaultPort else n
  }

  /** A port sent as the decimal string of a number in range is taken as that number. */
  lemma DecimalPortKept(p: nat, current: PortValue)
    requires 1 <= p <= 65535
    ensures NormalizePort(PortText(NatToString(p)), current) == p
  {
    ParseIntDecimal(p);
  }

  /** A JSON number port of 10^21 is written `1e+21` by `String`, so it is stored as 1. */
  lemma ExponentPortReadsFirstDigit(current: PortValue)
    ensures NormalizePort(Num(ExponentFrom), current) == 1
  {
    PowerLeadsWithOne(21);
  }

  // ---------------------------------------------------------------------
  // Loading (`servers.reduce((acc, server) => { acc[server.name] = server; ... }, {})`)

  function Fold(list: seq<Server>): (r: map<string, Server>)
    ensures forall k :: k in r <==> exists i | 0 <= i < |list| :: list[i].name == k
    ensures forall k | k in r :: r[k].name == k
  {
    if list == [] then map[]
    else
      var last := list[|list| - 1];
      var r := Fold(list[..|list| - 1]);
      assert forall i | 0 <= i < |list| - 1 :: list[..|list| - 1][i] == list[i];
      r[last.name := last]
  }

  /** A later entry with the same name overwrites an earlier one: each name
      maps to the last server in the file that carries it. */
  lemma {:induction false} FoldLastWins(list: seq<Server>, i: nat)
    requires i < |list|
    requires forall j | i < j < |list| :: list[j].name != list[i].name
    ensures list[i].name in Fold(list) && Fold(list)[list[i].name] == list[i]
  {
    var n := |list| - 1;
    var init := list[..n];
    assert Fold(list) == Fold(init)[list[n].name := list[n]];
    if i < n {
      assert init[i] == list[i];
      forall j | i < j < |init|
        ensures init[j].name != init[i].name
      {
        assert init[j] == list[j];
      }
      FoldLastWins(init, i);
      assert list[n].name != list[i].name;
    }
  }

  /** The table at start-up: empty when the file is missing or unreadable. */
  function LoadServers(file: Option<seq<Server>>): (r: map<string, Server>)
    ensures file.None? ==> r == map[]
    ensures file.Some? ==> forall k :: k in r <==> exists i | 0 <= i < |file.value| :: file.value[i].name == k
  {
    match file
    case None => map[]
    case Some(list) => Fold(list)
  }

  // ---------------------------------------------------------------------
  // PUT /api/servers/:name

  /** The request body; a field left out is "" (or `NoPort`). */
  datatype ServerPatch = ServerPatch(host: string, port: PortValue, username: string,
                                     authType: string, password: string, privateKey: string)

  /** A server as the responses show it: each secret is "[REDACTED]" or absent (""). */
  datatype ServerView = ServerView(name: string, host: string, port: PortValue, username: string,
                                   authType: string, password: string, privateKey: string)

  datatype UpdateResponse =
    | UpdateNotFound
    | MissingFields(hostMissing: bool, usernameMissing: bool, authTypeMissing: bool)
    | InvalidPort
    | PasswordRequired
    | PrivateKeyRequired
    | Updated(server: ServerView)
  {
    function Status(): int {
      match this
      case UpdateNotFound => 404
      case Updated(_) => 200
      case _ => 400
    }
  }

  function RedactSecret(secret: string): (r: string)
    ensures r == "" <==> secret == ""
    ensures r != "" ==> r == Redacted
  {
    if secret != "" then Redacted else ""
  }

  /** The response copy of a server, with both secrets redacted. */
  function View(s: Server): (v: ServerView)
    ensures v.name == s.name && v.host == s.host && v.port == s.port
    ensures v.username == s.username && v.authType == s.authType
    ensures v.password in {"", Redacted} && (v.password == "" <==> s.password == "")
    ensures v.privateKey in {"", Redacted} && (v.privateKey == "" <==> s.privateKey == "")
  {
    ServerView(s.name, s.host, s.port, s.username, s.authType, RedactSecret(s.password), RedactSecret(s.privateKey))
  }

  /** The credentials after the update, or the 400 that refuses it. */
  function UpdatedCredentials(authType: string, current: Server, patch: ServerPatch): Result<(string, string), UpdateResponse>
  {
    if authType == "password" then
      if patch.password != "" then Success((patch.password, ""))
      else if current.password == "" then Failure(PasswordRequired)
      else Success((current.password, current.privateKey))
    else if authType == "privateKey" then
      if patch.privateKey != "" then Success(("", patch.privateKey))
      else if current.privateKey == "" then Failure(PrivateKeyRequired)
      else Success((current.password, current.privateKey))
    else Success((current.password, current.privateKey))
  }

  function UpdateServer(servers: map<string, Server>, name: string, patch: ServerPatch)
    : (r: (UpdateResponse, map<string, Server>))
    // an unknown name is a 404 and changes nothing; so does every refusal
    ensures name !in servers ==> r == (UpdateNotFound, servers)
    ensures r.0 == UpdateNotFound <==> name !in servers
    ensures !r.0.Updated? ==> r.1 == servers
    // only the entry for `name` can change, and the set of names never does
    ensures r.1.Keys == servers.Keys
    ensures forall k | k in servers && k != name :: r.1[k] == servers[k]
    // host, username and authType fall back to the stored values and must be non-empty
    ensures name in servers ==>
              var cur := servers[name];
              var host, user, auth := Or(patch.host, cur.host), Or(patch.username, cur.username), Or(patch.authType, cur.authType);
              (r.0.MissingFields? <==> host == "" || user == "" || auth == "") &&
              (r.0.MissingFields? ==> r.0 == MissingFields(host == "", user == "", auth == "")) &&
              (r.0.Updated? ==> r.1[name].host == host && r.1[name].username == user && r.1[name].authType == auth)
    // the port is `parseInt(new || old) || 22` and must lie in 1..65535
    ensures name in servers ==>
              var cur := servers[name];
              var port := NormalizePort(patch.port, cur.port);
              (r.0 == InvalidPort <==> !r.0.MissingFields? && !(1 <= port <= 65535)) &&
              (r.0.Updated? ==> r.1[name].port == Num(port) && 1 <= port <= 65535)
    // the stored entry keeps its key as its name, and the response redacts it
    ensures r.0.Updated? ==> name in servers && r.1[name].name == name && r.0.server == View(r.1[name])
    ensures r.0.Status() == 200 <==> r.0.Updated?
    // credentials: a new secret of the chosen kind replaces the old one and drops the other
    ensures r.0.Updated? && r.1[name].authType == "password" && patch.password != "" ==>
              r.1[name].password == patch.password && r.1[name].privateKey == ""
    ensures r.0.Updated? && r.1[name].authType == "privateKey" && patch.privateKey != "" ==>
              r.1[name].privateKey == patch.privateKey && r.1[name].password == ""
    // no new secret of the chosen kind: both old secrets are kept
    ensures r.0.Updated? && !(r.1[name].authType == "password" && patch.password != "")
              && !(r.1[name].authType == "privateKey" && patch.privateKey != "") ==>
              r.1[name].password == servers[name].password && r.1[name].privateKey == servers[name].privateKey
    // ...and the old secret of the chosen kind must exist
    ensures name in servers && !r.0.MissingFields? && r.0 != InvalidPort ==>
              var auth := Or(patch.authType, servers[name].authType);
              (r.0 == PasswordRequired <==> auth == "password" && patch.password == "" && servers[name].password == "") &&
              (r.0 == PrivateKeyRequired <==> auth == "privateKey" && patch.privateKey == "" && servers[name].privateKey == "")
  {
    if name !in servers then (UpdateNotFound, servers)
    else
      var cur := servers[name];
      var host := Or(patch.host, cur.host);
      var port := NormalizePort(patch.port, cur.port);
      var user := Or(patch.username, cur.username);
      var auth := Or(patch.authType, cur.authType);
      if host == "" || user == "" || auth == "" then
        (MissingFields(host == "", user == "", auth == ""), servers)
      else if port < 1 || port > 65535 then (InvalidPort, servers)
      else
        match UpdatedCredentials(auth, cur, patch)
        case Failure(refusal) => (refusal, servers)
        case Success((password, privateKey)) =>
          var updated := Server(name, host, Num(port), user, auth, password, privateKey);
          (Updated(View(updated)), servers[name := updated])
  }

  // ---------------------------------------------------------------------
  // DELETE /api/servers/:name

  datatype DeleteResponse = DeleteNotFound | Deleted {
    function Status(): int { if Deleted? then 200 else 404 }
  }

  function DeleteServer(servers: map<string, Server>, name: string): (r: (DeleteResponse, map<string, Server>))
    ensures r.0 == Deleted <==> name in servers
    ensures r.0 == DeleteNotFound ==> r.1 == servers
    ensures r.1.Keys == servers.Keys - {name}
    ensures forall k | k in r.1 :: r.1[k] == servers[k]
  {
    if name !in servers then (DeleteNotFound, servers)
    else (Deleted, map k | k in servers && k != name :: servers[k])
  }

  // ---------------------------------------------------------------------
  // POST /api/register-server

  datatype RegisterRequest = RegisterRequest(serverName: string, host: string, port: PortValue, username: string,
                                             authType: string, password: string, privateKey: string)

  datatype RegisterResponse =
    | RegisterMissingFields
    | RegisterPasswordRequired
    | RegisterPrivateKeyRequired
    | Registered(message: string)
  {
    function Status(): int { if Registered? then 200 else 400 }
  }

  function RegisterServer(servers: map<string, Server>, req: RegisterRequest): (r: (RegisterResponse, map<string, Server>))
    ensures r.0 == RegisterMissingFields <==>
              req.serverName == "" || req.host == "" || req.username == "" || req.authType == ""
    ensures r.0 == RegisterPasswordRequired <==>
              !r.0.RegisterMissingFields? && req.authType == "password" && req.password == ""
    ensures r.0 == RegisterPrivateKeyRequired <==>
              !r.0.RegisterMissingFields? && req.authType == "privateKey" && req.privateKey == ""
    ensures !r.0.Registered? ==> r.1 == servers
    // on success the entry is stored (or overwritten) under its name, port defaulting to 22
    ensures r.0.Registered? ==>
              r.0.message == "Server " + req.serverName + " registered successfully" &&
              r.1.Keys == servers.Keys + {req.serverName} &&
              r.1[req.serverName] == Server(req.serverName, req.host, if Truthy(req.port) then req.port else Num(DefaultPort),
                                            req.username, req.authType, req.password, req.privateKey) &&
              forall k | k in servers && k != req.serverName :: r.1[k] == servers[k]
  {
    if req.serverName == "" || req.host == "" || req.username == "" || req.authType == "" then
      (RegisterMissingFields, servers)
    else if req.authType == "password" && req.password == "" then (RegisterPasswordRequired, servers)
    else if req.authType == "privateKey" && req.privateKey == "" then (RegisterPrivateKeyRequired, servers)
    else
      var entry := Server(req.serverName, req.host, if Truthy(req.port) then req.port else Num(DefaultPort),
                          req.username, req.authType, req.password, req.privateKey);
      (Registered("Server " + req.serverName + " registered successfully"), servers[req.serverName := entry])
  }

  // ---------------------------------------------------------------------
  // GET /api/servers

  datatype ServerSummary = ServerSummary(name: string, host: string, username: string)

  /** One summary per registered name, carrying no port and no credentials. */
  function ListServers(servers: map<string, Server>): (r: set<ServerSummary>)
    ensures forall s :: s in r <==>
              s.name in servers && s.host == servers[s.name].host && s.username == servers[s.name].username
  {
    set name | name in servers :: ServerSummary(name, servers[name].host, servers[name].username)
  }

  // ---------------------------------------------------------------------

  /** `serverConnections`: the one table every endpoint and every agent reads. */
  class ServerTable {
    var servers: map<string, Server>

    constructor Load(file: Option<seq<Server>>)
      ensures servers == LoadServers(file)
    {
      servers := LoadServers(file);
    }

    method Update(name: string, patch: ServerPatch) returns (response: UpdateResponse)
      modifies this
      ensures (response, servers) == UpdateServer(old(servers), name, patch)
    {
      var r := UpdateServer(servers, name, patch);
      response, servers := r.0, r.1;
    }

    method Delete(name: string) returns (response: DeleteResponse)
      modifies this
      ensures (response, servers) == DeleteServer(old(servers), name)
    {
      var r := DeleteServer(servers, name);
      response, servers := r.0, r.1;
    }

    method Register(req: RegisterRequest) returns (response: RegisterResponse)
      modifies this
      ensures (response, servers) == RegisterServer(old(servers), req)
    {
      var r := RegisterServer(servers, req);
      response, servers := r.0, r.1;
    }
  }
}
