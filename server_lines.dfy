/** The `server` lines of the two backends: one line per pool member, each
    field taking the member's own value and falling back to the pool default. */
module ServerLines {
  import opened Wrappers
  import opened Text
  import opened Attributes

  /** The six fields one server line carries, in the order they are written. */
  datatype ServerFields = ServerFields(
    hostname: string,
    ip: string,
    port: string,
    weight: string,
    maxconn: string,
    option: string)

  /** The port attribute a variant reads: `port || member_port` for HTTP,
      `ssl_port || ssl_member_port` for HTTPS. */
  function PortAttr(m: Member, node: Node, v: Variant): Attr {
    match v
    case Http => Or(m.port, node.memberPort)
    case Https => Or(m.sslPort, node.sslMemberPort)
  }

  /** The fields of member `m`'s line after override/default resolution. */
  function Resolve(m: Member, node: Node, v: Variant): ServerFields {
    ServerFields(
      Str(m.hostname),
      Str(m.ipaddress),
      Str(PortAttr(m, node, v)),
      Str(Or(m.weight, node.memberWeight)),
      Str(Or(m.maxConnections, node.memberMaxConnections)),
      Str(node.poolMembersOption))
  }

  /** The interpolated line `<host> <ip>:<port> weight <w> maxconn <m> check <option>`. */
  function Render(f: ServerFields): string {
    f.hostname + " " + f.ip + ":" + f.port + " weight " + f.weight
      + " maxconn " + f.maxconn + " check " + f.option
  }

  function ServerLine(m: Member, node: Node, v: Variant): string {
    Render(Resolve(m, node, v))
  }

  /** `members.map { |member| ... }`: one line per member, in member order. */
  function Servers(members: seq<Member>, node: Node, v: Variant): (lines: seq<string>)
    ensures |lines| == |members|
  {
    if members == [] then []
    else [ServerLine(members[0], node, v)] + Servers(members[1..], node, v)
  }

  /** Reads a server line back into its fields the way a whitespace-separated
      reader would: host, then `ip:port` split at its last colon (so IPv6
      addresses survive), then the `weight` and `maxconn` keywords with their
      values; whatever follows `check ` is the option text. */
  function ParseServerLine(line: string): Option<ServerFields> {
    var host :- SplitFirst(line, ' ');
    var address :- SplitFirst(host.rest, ' ');
    var endpoint :- SplitLast(address.head, ':');
    var weight :- KeywordValue(address.rest, "weight");
    var maxconn :- KeywordValue(weight.rest, "maxconn");
    var option :- DropPrefix(maxconn.rest, "check ");
    Some(ServerFields(host.head, endpoint.head, endpoint.rest, weight.head, maxconn.head, option))
  }

  /** Reads `<keyword> <value> ` off the front of `s`: the value and what follows. */
  function KeywordValue(s: string, keyword: string): Option<Split> {
    var after :- DropPrefix(s, keyword + " ");
    SplitFirst(after, ' ')
  }

  /** A value that is written as one whitespace-free token. */
  predicate Token(s: string) {
    ' ' !in s
  }

  /** A port: one token with no colon in it. */
  predicate PortToken(s: string) {
    Token(s) && ':' !in s
  }

  /** Fields whose rendered line can be read back unambiguously. */
  predicate PlainFields(f: ServerFields) {
    Token(f.hostname) && Token(f.ip) && PortToken(f.port) && Token(f.weight) && Token(f.maxconn)
  }

  /** Attributes a variant's line reads whose values are single tokens, as
      host names, addresses and numbers are. */
  predicate PlainMember(m: Member, node: Node, v: Variant) {
    Token(Str(m.hostname)) && Token(Str(m.ipaddress))
    && PortToken(Str(PortAttr(m, node, v)))
    && Token(Str(Or(m.weight, node.memberWeight)))
    && Token(Str(Or(m.maxConnections, node.memberMaxConnections)))
  }

  /** The i-th rendered line is the line of the i-th member. */
  lemma {:induction false} ServersAt(members: seq<Member>, node: Node, v: Variant, i: nat)
    requires i < |members|
    ensures Servers(members, node, v)[i] == ServerLine(members[i], node, v)
  {
    if i > 0 {
      ServersAt(members[1..], node, v, i - 1);
    }
  }

  lemma KeywordValueAt(keyword: string, value: string, rest: string)
    requires Token(value)
    ensures KeywordValue(keyword + " " + value + " " + rest, keyword) == Some(Split(value, rest))
  {
    var s := keyword + " " + value + " " + rest;
    assert s == (keyword + " ") + (value + [' '] + rest);
    assert DropPrefix(s, keyword + " ") == Some(value + [' '] + rest);
    SplitFirstAt(value, rest, ' ');
  }

  /** The rendered line, grouped the way the reader consumes it. */
  lemma RenderGrouped(f: ServerFields)
    ensures Render(f) == f.hostname + [' '] + ((f.ip + [':'] + f.port) + [' ']
      + ("weight" + " " + f.weight + " " + ("maxconn" + " " + f.maxconn + " " + ("check " + f.option))))
  {
  }

  /** Rendering loses nothing: the reader recovers every field. */
  lemma ParseRender(f: ServerFields)
    requires PlainFields(f)
    ensures ParseServerLine(Render(f)) == Some(f)
  {
    var afterMaxconn := "check " + f.option;
    var afterWeight := "maxconn" + " " + f.maxconn + " " + afterMaxconn;
    var afterEndpoint := "weight" + " " + f.weight + " " + afterWeight;
    var endpoint := f.ip + [':'] + f.port;
    var afterHost := endpoint + [' '] + afterEndpoint;
    RenderGrouped(f);
    SplitFirstAt(f.hostname, afterHost, ' ');
    assert ' ' !in endpoint;
    SplitFirstAt(endpoint, afterEndpoint, ' ');
    SplitLastAt(f.ip, f.port, ':');
    KeywordValueAt("weight", f.weight, afterWeight);
    KeywordValueAt("maxconn", f.maxconn, afterMaxconn);
    assert DropPrefix(afterMaxconn, "check ") == Some(f.option);
  }

  /** Each field of a member's line is the member's own value when set (even
      an empty one) and the pool default otherwise; the port comes from
      `port`/`member_port` for HTTP and `ssl_port`/`ssl_member_port` for HTTPS. */
  lemma ServerLineReadsBack(m: Member, node: Node, v: Variant)
    requires PlainMember(m, node, v)
    ensures ParseServerLine(ServerLine(m, node, v)).Some?
    ensures var f := ParseServerLine(ServerLine(m, node, v)).value;
      && f.hostname == Str(m.hostname)
      && f.ip == Str(m.ipaddress)
      && (v == Http && m.port.Some? ==> f.port == m.port.value)
      && (v == Http && m.port.None? ==> f.port == Str(node.memberPort))
      && (v == Https && m.sslPort.Some? ==> f.port == m.sslPort.value)
      && (v == Https && m.sslPort.None? ==> f.port == Str(node.sslMemberPort))
      && (m.weight.Some? ==> f.weight == m.weight.value)
      && (m.weight.None? ==> f.weight == Str(node.memberWeight))
      && (m.maxConnections.Some? ==> f.maxconn == m.maxConnections.value)
      && (m.maxConnections.None? ==> f.maxconn == Str(node.memberMaxConnections))
      && f.option == Str(node.poolMembersOption)
  {
    ParseRender(Resolve(m, node, v));
  }

  /** For one member the HTTP and HTTPS lines carry the same fields except the port. */
  lemma VariantsDifferOnlyInPort(m: Member, node: Node)
    requires PlainMember(m, node, Http) && PlainMember(m, node, Https)
    ensures ParseServerLine(ServerLine(m, node, Http)).Some?
    ensures ParseServerLine(ServerLine(m, node, Https)).Some?
    ensures ParseServerLine(ServerLine(m, node, Http)).value.(port := "")
         == ParseServerLine(ServerLine(m, node, Https)).value.(port := "")
  {
    ParseRender(Resolve(m, node, Http));
    ParseRender(Resolve(m, node, Https));
  }

  /** The HTTPS line never reads `port` or `member_port`, the HTTP line never
      reads `ssl_port` or `ssl_member_port`, and apart from the port the two
      variants resolve the same fields. */
  lemma PortSourcesSeparate(m: Member, node: Node, p: Attr, q: Attr)
    ensures ServerLine(m.(port := p), node.(memberPort := q), Https) == ServerLine(m, node, Https)
    ensures ServerLine(m.(sslPort := p), node.(sslMemberPort := q), Http) == ServerLine(m, node, Http)
    ensures Resolve(m, node, Https).(port := "") == Resolve(m, node, Http).(port := "")
  {
  }

  /** The resolved fields of the worked example below, rendered. */
  lemma RenderExample()
    ensures Render(ServerFields("a", "10.0.0.1", "80", "1", "100", ""))
         == "a 10.0.0.1:80 weight 1 maxconn 100 check "
  {
    var endpoint := "a" + " " + "10.0.0.1" + ":" + "80";
    assert endpoint == "a 10.0.0.1:80";
    var weighted := endpoint + " weight " + "1";
    assert weighted == "a 10.0.0.1:80 weight 1";
    var limited := weighted + " maxconn " + "100";
    assert limited == "a 10.0.0.1:80 weight 1 maxconn 100";
    assert limited + " check " + "" == "a 10.0.0.1:80 weight 1 maxconn 100 check ";
  }


  /** One member with no overrides against defaults 80 / 1 / 100 and no
      `pool_members_option` renders with a trailing space after `check`. */
  lemma SingleMemberExample(node: Node)
    requires node.memberPort == Some("80") && node.memberWeight == Some("1")
    requires node.memberMaxConnections == Some("100") && node.poolMembersOption == None
    ensures Servers([Member(Some("a"), Some("10.0.0.1"), None, None, None, None)], node, Http)
         == ["a 10.0.0.1:80 weight 1 maxconn 100 check "]
  {
    var m := Member(Some("a"), Some("10.0.0.1"), None, None, None, None);
    assert Resolve(m, node, Http) == ServerFields("a", "10.0.0.1", "80", "1", "100", "");
    RenderExample();
    assert Servers([m], node, Http) == [ServerLine(m, node, Http)] + Servers([], node, Http);
  }
}
