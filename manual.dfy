/** The manual recipe: which `haproxy_lb` stanzas it declares, with which
    arguments, in which order, followed by the `haproxy_config` resource. */
module Manual {
  import opened Wrappers
  import opened Attributes
  import opened ServerLines
  import opened Directives

  /** The arguments of one `haproxy_lb` declaration; `None` is an argument the
      recipe does not pass. */
  datatype Lb = Lb(
    name: string,
    lbType: Attr,
    mode: Attr,
    bind: Attr,
    servers: Option<seq<string>>,
    params: Params)

  /** A resource the recipe declares. */
  datatype Resource =
    | LoadBalancer(lb: Lb)
    | HaproxyConfig(name: string)

  /** The outcome of one run: the declared resources in order, and whether
      the global-options error was logged. */
  datatype Run = Run(resources: seq<Resource>, errorLogged: bool)

  const ConfigName: string := "Create haproxy.cfg"

  /** The name of the backend a variant declares. */
  function BackendName(v: Variant): string {
    match v
    case Http => "servers-http"
    case Https => "servers-https"
  }

  function AdminLb(admin: Admin): Lb {
    Lb("admin", None, Some("http"), Some(Endpoint(admin.addressBind, admin.port)), None, admin.options)
  }

  /** A frontend: its parameters are the literal `maxconn`/`bind`/`default_backend` hash. */
  function Frontend(name: string, mode: Attr, maxconn: Attr, bind: string, backend: string): Lb {
    Lb(name, Some("frontend"), mode, None, None,
       ParamHash([("maxconn", maxconn), ("bind", Some(bind)), ("default_backend", Some(backend))]))
  }

  function Backend(name: string, mode: Attr, servers: seq<string>, pool: seq<string>): Lb {
    Lb(name, Some("backend"), mode, None, Some(servers), ParamList(pool))
  }

  /** The HTTPS bind: the endpoint, with ` ssl crt <path>` when a certificate path is set. */
  function HttpsBind(node: Node): string {
    var endpoint := Endpoint(node.sslIncomingAddress, node.sslIncomingPort);
    if node.sslCrtPath.Some? then endpoint + " ssl crt " + node.sslCrtPath.value else endpoint
  }

  /** The admin block: the admin stanza when `enable_admin` is set. */
  function AdminBlock(node: Node): seq<Resource> {
    if node.enableAdmin then [LoadBalancer(AdminLb(node.admin))] else []
  }

  /** The HTTP block: frontend `http` and backend `servers-http` when
      `enable_default_http` is set. */
  function HttpBlock(node: Node): seq<Resource> {
    if node.enableDefaultHttp then
      [ LoadBalancer(Frontend("http", None, node.frontendMaxConnections,
                              Endpoint(node.incomingAddress, node.incomingPort), BackendName(Http))),
        LoadBalancer(Backend(BackendName(Http), None, Servers(node.members, node, Http),
                             BackendDirectives(Http, node.httpchk, node.cookie))) ]
    else []
  }

  /** The HTTPS block: frontend `https` and backend `servers-https` when
      `enable_ssl` is set. */
  function HttpsBlock(node: Node): seq<Resource> {
    if node.enableSsl then
      [ LoadBalancer(Frontend("https", node.sslMode, node.frontendSslMaxConnections,
                              HttpsBind(node), BackendName(Https))),
        LoadBalancer(Backend(BackendName(Https), node.sslMode, Servers(node.members, node, Https),
                             BackendDirectives(Https, node.sslHttpchk, node.cookie))) ]
    else []
  }

  /** The resources of one run, block by block, then the configuration file. */
  function Recipe(node: Node): Run {
    Run(AdminBlock(node) + HttpBlock(node) + HttpsBlock(node) + [HaproxyConfig(ConfigName)],
        !node.globalOptionsIsHash)
  }

  /** One run of the recipe, declaring resources one after another; the pool
      lists grow by appending, and the HTTPS bind is chosen by if/else. */
  method Converge(node: Node) returns (run: Run)
    ensures run == Recipe(node)
  {
    var declared: seq<Resource> := [];
    if node.enableAdmin {
      declared := declared + [LoadBalancer(AdminLb(node.admin))];
    }
    assert declared == AdminBlock(node);
    ghost var afterAdmin := declared;

    if node.enableDefaultHttp {
      declared := declared + [LoadBalancer(Frontend("http", None, node.frontendMaxConnections,
                                                    Endpoint(node.incomingAddress, node.incomingPort),
                                                    "servers-http"))];
      var pool: seq<string> := [];
      if node.httpchk.Some? {
        pool := pool + [HttpchkPrefix + node.httpchk.value];
      }
      if node.cookie.Some? {
        pool := pool + [CookiePrefix + node.cookie.value];
      }
      assert pool == BackendDirectives(Http, node.httpchk, node.cookie);
      var servers := Servers(node.members, node, Http);
      declared := declared + [LoadBalancer(Backend("servers-http", None, servers, pool))];
    }
    assert declared == afterAdmin + HttpBlock(node);
    ghost var afterHttp := declared;

    if node.enableSsl {
      var bind: string;
      if node.sslCrtPath.Some? {
        bind := Str(node.sslIncomingAddress) + ":" + Str(node.sslIncomingPort) + " ssl crt " + node.sslCrtPath.value;
      } else {
        bind := Str(node.sslIncomingAddress) + ":" + Str(node.sslIncomingPort);
      }
      declared := declared + [LoadBalancer(Frontend("https", node.sslMode, node.frontendSslMaxConnections,
                                                    bind, "servers-https"))];
      assert bind == HttpsBind(node);
      var pool: seq<string> := [SslHelloChk];
      if node.sslHttpchk.Some? {
        pool := pool + [HttpchkPrefix + node.sslHttpchk.value];
      }
      if node.cookie.Some? {
        pool := pool + [CookiePrefix + node.cookie.value];
      }
      assert pool == BackendDirectives(Https, node.sslHttpchk, node.cookie);
      var servers := Servers(node.members, node, Https);
      declared := declared + [LoadBalancer(Backend("servers-https", node.sslMode, servers, pool))];
    }
    assert declared == afterHttp + HttpsBlock(node);

    var errorLogged := !node.globalOptionsIsHash;
    declared := declared + [HaproxyConfig(ConfigName)];
    run := Run(declared, errorLogged);
  }

  /** The names of the load-balancer stanzas among `rs`, in order. */
  function LbNames(rs: seq<Resource>): seq<string> {
    if rs == [] then []
    else (if rs[0].LoadBalancer? then [rs[0].lb.name] else []) + LbNames(rs[1..])
  }

  /** The first stanza named `name`, if any. */
  function Find(rs: seq<Resource>, name: string): Option<Lb> {
    if rs == [] then None
    else if rs[0].LoadBalancer? && rs[0].lb.name == name then Some(rs[0].lb)
    else Find(rs[1..], name)
  }

  /** The value a hash of parameters gives `key`; `None` for a list or a missing key. */
  function Param(params: Params, key: string): Attr {
    match params
    case ParamList(_) => None
    case ParamHash(entries) => Lookup(entries, key)
  }

  /** The keys of a hash of parameters, in order; none for a list. */
  function Keys(params: Params): seq<string> {
    match params
    case ParamList(_) => []
    case ParamHash(entries) => seq(|entries|, i requires 0 <= i < |entries| => entries[i].0)
  }

  /** The value of the first entry for `key`, if any. */
  function Lookup(entries: seq<(string, Attr)>, key: string): Attr {
    if entries == [] then None
    else if entries[0].0 == key then entries[0].1
    else Lookup(entries[1..], key)
  }

  lemma {:induction false} LbNamesAppend(a: seq<Resource>, b: seq<Resource>)
    ensures LbNames(a + b) == LbNames(a) + LbNames(b)
  {
    if a != [] {
      assert (a + b)[1..] == a[1..] + b;
      LbNamesAppend(a[1..], b);
    } else {
      assert a + b == b;
    }
  }

  lemma {:induction false} FindAppend(a: seq<Resource>, b: seq<Resource>, name: string)
    ensures Find(a + b, name) == if Find(a, name).Some? then Find(a, name) else Find(b, name)
  {
    if a != [] {
      assert (a + b)[1..] == a[1..] + b;
      FindAppend(a[1..], b, name);
    } else {
      assert a + b == b;
    }
  }

  /** Whether the block of a variant is switched on. */
  function Enabled(node: Node, v: Variant): bool {
    match v
    case Http => node.enableDefaultHttp
    case Https => node.enableSsl
  }

  /** The health-check path a variant reads: `httpchk` or `ssl_httpchk`. */
  function CheckPath(node: Node, v: Variant): Attr {
    match v
    case Http => node.httpchk
    case Https => node.sslHttpchk
  }

  predicate IsFrontend(r: Resource) {
    r.LoadBalancer? && r.lb.lbType == Some("frontend")
  }

  /** A frontend's parameter hash has exactly its three keys and answers each. */
  lemma FrontendParams(name: string, mode: Attr, maxconn: Attr, bind: string, backend: string)
    ensures var params := Frontend(name, mode, maxconn, bind, backend).params;
      && Param(params, "maxconn") == maxconn
      && Param(params, "bind") == Some(bind)
      && Param(params, "default_backend") == Some(backend)
      && Keys(params) == ["maxconn", "bind", "default_backend"]
  {
    var entries := [("maxconn", maxconn), ("bind", Some(bind)), ("default_backend", Some(backend))];
    assert entries[1..] == [("bind", Some(bind)), ("default_backend", Some(backend))];
    assert entries[1..][1..] == [("default_backend", Some(backend))];
    assert "bind" != "maxconn" && "default_backend" != "maxconn" && "default_backend" != "bind";
    assert Lookup(entries, "bind") == Lookup(entries[1..], "bind") == Some(bind);
    assert Lookup(entries, "default_backend") == Lookup(entries[1..], "default_backend")
        == Lookup(entries[1..][1..], "default_backend") == Some(backend);
  }

  /** Names and lookups in a block of two stanzas. */
  lemma PairBlock(x: Lb, y: Lb, name: string)
    ensures LbNames([LoadBalancer(x), LoadBalancer(y)]) == [x.name, y.name]
    ensures Find([LoadBalancer(x), LoadBalancer(y)], name)
         == if x.name == name then Some(x) else if y.name == name then Some(y) else None
  {
    var b := [LoadBalancer(x), LoadBalancer(y)];
    assert b[1..] == [LoadBalancer(y)] && b[1..][1..] == [];
    assert LbNames(b) == [x.name] + LbNames([LoadBalancer(y)]);
    assert LbNames([LoadBalancer(y)]) == [y.name] + LbNames([]);
    assert Find(b, name) == if x.name == name then Some(x) else Find([LoadBalancer(y)], name);
    assert Find([LoadBalancer(y)], name) == if y.name == name then Some(y) else Find([], name);
  }

  /** Names and lookups in each block of a run. */
  lemma Blocks(node: Node, name: string)
    ensures LbNames(AdminBlock(node)) == if node.enableAdmin then ["admin"] else []
    ensures LbNames(HttpBlock(node)) == if node.enableDefaultHttp then ["http", "servers-http"] else []
    ensures LbNames(HttpsBlock(node)) == if node.enableSsl then ["https", "servers-https"] else []
    ensures Find(AdminBlock(node), name) == if node.enableAdmin && name == "admin" then Some(AdminLb(node.admin)) else None
    ensures Find(HttpBlock(node), name)
         == if node.enableDefaultHttp && name in {"http", "servers-http"} then Some(HttpBlock(node)[if name == "http" then 0 else 1].lb) else None
    ensures Find(HttpsBlock(node), name)
         == if node.enableSsl && name in {"https", "servers-https"} then Some(HttpsBlock(node)[if name == "https" then 0 else 1].lb) else None
    ensures LbNames([HaproxyConfig(ConfigName)]) == [] && Find([HaproxyConfig(ConfigName)], name) == None
  {
    var h, s := HttpBlock(node), HttpsBlock(node);
    assert "http" != "servers-http" && "https" != "servers-https";
    if h != [] {
      PairBlock(h[0].lb, h[1].lb, name);
      assert h == [LoadBalancer(h[0].lb), LoadBalancer(h[1].lb)];
    }
    if s != [] {
      PairBlock(s[0].lb, s[1].lb, name);
      assert s == [LoadBalancer(s[0].lb), LoadBalancer(s[1].lb)];
    }
  }

  /** Looking a stanza up in a whole run looks it up block by block. */
  lemma FindInRun(node: Node, name: string)
    ensures var a, h, s := AdminBlock(node), HttpBlock(node), HttpsBlock(node);
      Find(Recipe(node).resources, name)
      == if Find(a, name).Some? then Find(a, name)
         else if Find(h, name).Some? then Find(h, name)
         else Find(s, name)
  {
    var a, h, s := AdminBlock(node), HttpBlock(node), HttpsBlock(node);
    FindAppend(a + h + s, [HaproxyConfig(ConfigName)], name);
    FindAppend(a + h, s, name);
    FindAppend(a, h, name);
    Blocks(node, name);
  }

  /** Stanzas are declared in recipe order, each only under its flag, and
      nothing else is declared as a load balancer. */
  lemma DeclarationOrder(node: Node)
    ensures LbNames(Recipe(node).resources)
         == (if node.enableAdmin then ["admin"] else [])
          + (if node.enableDefaultHttp then ["http", "servers-http"] else [])
          + (if node.enableSsl then ["https", "servers-https"] else [])
  {
    var a, h, s := AdminBlock(node), HttpBlock(node), HttpsBlock(node);
    LbNamesAppend(a + h + s, [HaproxyConfig(ConfigName)]);
    LbNamesAppend(a + h, s);
    LbNamesAppend(a, h);
    Blocks(node, "");
  }

  /** Each stanza is declared exactly when its flag is set. */
  lemma StanzasGated(node: Node)
    ensures var names := LbNames(Recipe(node).resources);
      && ("admin" in names <==> node.enableAdmin)
      && ("http" in names <==> node.enableDefaultHttp)
      && ("servers-http" in names <==> node.enableDefaultHttp)
      && ("https" in names <==> node.enableSsl)
      && ("servers-https" in names <==> node.enableSsl)
  {
    DeclarationOrder(node);
    var names := LbNames(Recipe(node).resources);
    assert |"admin"| == 5 && |"http"| == 4 && |"servers-http"| == 12 && |"https"| == 5 && |"servers-https"| == 13;
    assert "admin"[0] != "https"[0];
    var admin := if node.enableAdmin then ["admin"] else [];
    var rest := if node.enableSsl then ["https", "servers-https"] else [];
    if node.enableDefaultHttp {
      assert names == admin + ["http", "servers-http"] + rest;
    } else {
      assert names == admin + rest;
    }
  }


  /** Every frontend among `rs` is followed by the backend its `default_backend` names. */
  predicate FrontendsReach(rs: seq<Resource>) {
    forall i | 0 <= i < |rs| && IsFrontend(rs[i]) ::
      && i + 1 < |rs| && rs[i + 1].LoadBalancer?
      && rs[i + 1].lb.lbType == Some("backend")
      && Param(rs[i].lb.params, "default_backend") == Some(rs[i + 1].lb.name)
  }

  lemma FrontendsReachAppend(x: seq<Resource>, y: seq<Resource>)
    requires FrontendsReach(x) && FrontendsReach(y)
    ensures FrontendsReach(x + y)
  {
    var rs := x + y;
    forall i | 0 <= i < |rs| && IsFrontend(rs[i])
      ensures i + 1 < |rs| && rs[i + 1].LoadBalancer? && rs[i + 1].lb.lbType == Some("backend")
      ensures Param(rs[i].lb.params, "default_backend") == Some(rs[i + 1].lb.name)
    {
      if i < |x| {
        assert rs[i] == x[i] && rs[i + 1] == x[i + 1];
      } else {
        assert rs[i] == y[i - |x|] && rs[i + 1] == y[i - |x| + 1];
      }
    }
  }

  /** Each block of a run keeps every frontend next to its backend. */
  lemma BlocksReach(node: Node)
    ensures FrontendsReach(AdminBlock(node))
    ensures FrontendsReach(HttpBlock(node))
    ensures FrontendsReach(HttpsBlock(node))
    ensures FrontendsReach([HaproxyConfig(ConfigName)])
  {
    FrontendParams("http", None, node.frontendMaxConnections,
                   Endpoint(node.incomingAddress, node.incomingPort), BackendName(Http));
    FrontendParams("https", node.sslMode, node.frontendSslMaxConnections, HttpsBind(node), BackendName(Https));
  }

  /** Every frontend names, as `default_backend`, the backend declared right after it. */
  lemma FrontendsReachTheirBackend(node: Node)
    ensures var rs := Recipe(node).resources;
      forall i | 0 <= i < |rs| && IsFrontend(rs[i]) ::
        && i + 1 < |rs| && rs[i + 1].LoadBalancer?
        && rs[i + 1].lb.lbType == Some("backend")
        && Param(rs[i].lb.params, "default_backend") == Some(rs[i + 1].lb.name)
  {
    var a, h, s := AdminBlock(node), HttpBlock(node), HttpsBlock(node);
    BlocksReach(node);
    FrontendsReachAppend(a, h);
    FrontendsReachAppend(a + h, s);
    FrontendsReachAppend(a + h + s, [HaproxyConfig(ConfigName)]);
    assert FrontendsReach(Recipe(node).resources);
  }

  /** The configuration resource is always declared, last, whether or not the
      global-options error is logged; the error is logged exactly when
      `global_options` is not a Hash. */
  lemma ConfigAlwaysDeclared(node: Node)
    ensures var run := Recipe(node);
      && |run.resources| > 0
      && run.resources[|run.resources| - 1] == HaproxyConfig(ConfigName)
      && (forall i | 0 <= i < |run.resources| - 1 :: run.resources[i].LoadBalancer?)
      && (run.errorLogged <==> !node.globalOptionsIsHash)
  {
  }

  /** The backend of a variant is declared exactly when its block is on; it
      holds one server line per member in member order, the variant's
      directive list, and the variant's mode. */
  lemma BackendContents(node: Node, v: Variant)
    ensures var found := Find(Recipe(node).resources, BackendName(v));
      && (found.Some? <==> Enabled(node, v))
      && (found.Some? ==>
            && found.value.lbType == Some("backend")
            && found.value.bind == None
            && found.value.mode == (if v == Https then node.sslMode else None)
            && found.value.servers.Some?
            && |found.value.servers.value| == |node.members|
            && (forall i | 0 <= i < |node.members| ::
                  found.value.servers.value[i] == ServerLine(node.members[i], node, v))
            && found.value.params == ParamList(BackendDirectives(v, CheckPath(node, v), node.cookie)))
  {
    var a, h, s := AdminBlock(node), HttpBlock(node), HttpsBlock(node);
    FindInRun(node, BackendName(v));
    Blocks(node, BackendName(v));
    forall i | 0 <= i < |node.members|
      ensures Servers(node.members, node, v)[i] == ServerLine(node.members[i], node, v)
    {
      ServersAt(node.members, node, v, i);
    }
  }

  /** The HTTPS bind always starts with `address:port`; it is exactly that
      when no certificate path is set, and otherwise that followed by
      ` ssl crt <path>`. */
  lemma HttpsBindShape(node: Node)
    ensures var endpoint := Endpoint(node.sslIncomingAddress, node.sslIncomingPort);
      && endpoint <= HttpsBind(node)
      && (HttpsBind(node) == endpoint <==> node.sslCrtPath.None?)
      && (node.sslCrtPath.Some? ==> HttpsBind(node)[|endpoint|..] == " ssl crt " + node.sslCrtPath.value)
  {
  }

  /** The frontends are declared exactly under their flags, typed `frontend`,
      with their arguments in a parameter hash of exactly the keys `maxconn`,
      `bind` and `default_backend`. The HTTP frontend passes
      no mode and binds `incoming_address:incoming_port`; the HTTPS one passes
      `ssl_mode` and binds the HTTPS bind string. Each passes its
      max-connections attribute through and names its own backend. */
  lemma FrontendBinds(node: Node)
    ensures var rs := Recipe(node).resources;
      && (Find(rs, "http").Some? <==> node.enableDefaultHttp)
      && (Find(rs, "https").Some? <==> node.enableSsl)
      && (node.enableDefaultHttp ==>
            && Find(rs, "http").value.lbType == Some("frontend")
            && Find(rs, "http").value.mode == None
            && Find(rs, "http").value.bind == None
            && Find(rs, "http").value.servers == None
            && Param(Find(rs, "http").value.params, "bind") == Some(Endpoint(node.incomingAddress, node.incomingPort))
            && Param(Find(rs, "http").value.params, "maxconn") == node.frontendMaxConnections
            && Param(Find(rs, "http").value.params, "default_backend") == Some("servers-http")
            && Keys(Find(rs, "http").value.params) == ["maxconn", "bind", "default_backend"])
      && (node.enableSsl ==>
            && Find(rs, "https").value.lbType == Some("frontend")
            && Find(rs, "https").value.mode == node.sslMode
            && Find(rs, "https").value.bind == None
            && Find(rs, "https").value.servers == None
            && Param(Find(rs, "https").value.params, "bind") == Some(HttpsBind(node))
            && Param(Find(rs, "https").value.params, "maxconn") == node.frontendSslMaxConnections
            && Param(Find(rs, "https").value.params, "default_backend") == Some("servers-https")
            && Keys(Find(rs, "https").value.params) == ["maxconn", "bind", "default_backend"])
  {
    var a, h, s := AdminBlock(node), HttpBlock(node), HttpsBlock(node);
    FindInRun(node, "http");
    Blocks(node, "http");
    FindInRun(node, "https");
    Blocks(node, "https");
    FrontendParams("http", None, node.frontendMaxConnections,
                   Endpoint(node.incomingAddress, node.incomingPort), BackendName(Http));
    FrontendParams("https", node.sslMode, node.frontendSslMaxConnections, HttpsBind(node), BackendName(Https));
  }

  /** The admin stanza is declared exactly under `enable_admin`, with no type
      and no servers; it binds `address_bind:port` in `http` mode and passes
      the admin options through. */
  lemma AdminStanza(node: Node)
    ensures var found := Find(Recipe(node).resources, "admin");
      && (found.Some? <==> node.enableAdmin)
      && (found.Some? ==>
            && found.value.lbType == None
            && found.value.servers == None
            && found.value.bind == Some(Endpoint(node.admin.addressBind, node.admin.port))
            && found.value.mode == Some("http")
            && found.value.params == node.admin.options)
  {
    var a, h, s := AdminBlock(node), HttpBlock(node), HttpsBlock(node);
    FindInRun(node, "admin");
    Blocks(node, "admin");
  }
}
