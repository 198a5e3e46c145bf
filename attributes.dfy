/** The node attributes the manual recipe reads, as a typed record.
    Every attribute is either unset (Ruby `nil`) or a string; numbers such as
    ports and weights are carried as the text they interpolate to. */
module Attributes {
  import opened Wrappers

  /** One attribute value: `None` stands for `nil`. */
  type Attr = Option<string>

  /** Ruby string interpolation `"#{v}"`: `nil` becomes the empty string. */
  function Str(v: Attr): string {
    if v.Some? then v.value else ""
  }

  /** Ruby `a || b` on attribute values: any set value wins, even `""`. */
  function Or(a: Attr, b: Attr): Attr {
    if a.Some? then a else b
  }

  /** One entry of `node['haproxy']['members']`. */
  datatype Member = Member(
    hostname: Attr,
    ipaddress: Attr,
    port: Attr,
    sslPort: Attr,
    weight: Attr,
    maxConnections: Attr)

  /** The argument of a `params` call: a hash of directives or a list of lines. */
  datatype Params =
    | ParamHash(entries: seq<(string, Attr)>)
    | ParamList(lines: seq<string>)

  /** `node['haproxy']['admin']`. */
  datatype Admin = Admin(addressBind: Attr, port: Attr, options: Params)

  /** Which of the two pools a rendering step belongs to. */
  datatype Variant = Http | Https

  /** `node['haproxy']`, restricted to the keys the recipe reads. The three
      `enable_*` flags are the truthiness of their attribute; `globalOptionsIsHash`
      says whether `global_options` holds a Hash. */
  datatype Node = Node(
    enableAdmin: bool,
    admin: Admin,
    memberMaxConnections: Attr,
    memberWeight: Attr,
    enableDefaultHttp: bool,
    frontendMaxConnections: Attr,
    incomingAddress: Attr,
    incomingPort: Attr,
    memberPort: Attr,
    httpchk: Attr,
    cookie: Attr,
    members: seq<Member>,
    poolMembersOption: Attr,
    enableSsl: bool,
    sslCrtPath: Attr,
    sslIncomingAddress: Attr,
    sslIncomingPort: Attr,
    sslMode: Attr,
    frontendSslMaxConnections: Attr,
    sslMemberPort: Attr,
    sslHttpchk: Attr,
    globalOptionsIsHash: bool)

  /** The `"#{address}:#{port}"` string both binds are built from. */
  function Endpoint(address: Attr, port: Attr): string {
    Str(address) + ":" + Str(port)
  }
}
