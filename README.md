# HAProxy manual recipe: a Dafny model

This project models the `manual` recipe of the HAProxy cookbook. The recipe
turns the node attributes under `node['haproxy']` into the arguments of
`haproxy_lb` stanzas and then declares the `haproxy_config` resource. The
model covers:

- the admin frontend, declared only under `enable_admin`;
- the `http` frontend and the `servers-http` backend, under `enable_default_http`;
- the `https` frontend and the `servers-https` backend, under `enable_ssl`;
- the pool member `server` lines, where each field takes the member's own
  value and falls back to the pool-wide default (Ruby `||`);
- the backend directive lists (`option ssl-hello-chk`, `option httpchk <path>`,
  `cookie <name>`);
- the HTTPS bind string, with or without ` ssl crt <path>`;
- the error logged when `global_options` is not a Hash. The configuration
  resource is declared after it all the same.

Attribute values are `Option<string>`: `None` is `nil`, and a number such as a
port is carried as the text it interpolates to. `Str` models interpolation, so
`nil` becomes `""`. `Or` models `||`, so a set value wins even when it is
empty.

Files and modules:

- `wrappers.dfy` (`Wrappers`): `Option`, usable with `:-`.
- `text.dfy` (`Text`): splitting a string at its first or last separator.
- `attributes.dfy` (`Attributes`): the `Node`, `Member`, `Admin` and `Params`
  records, plus `Str`, `Or` and `Endpoint`.
- `server_lines.dfy` (`ServerLines`): how member lines are resolved and
  rendered (`Resolve`, `Render`, `ServerLine`, `Servers`). Their partner is
  `ParseServerLine`, a reader that splits a line back into its fields. It
  splits `ip:port` at the last colon, so IPv6 addresses read back correctly.
- `directives.dfy` (`Directives`): `BackendDirectives`, the `pool` list of
  each backend.
- `manual.dfy` (`Manual`): the declared resources. `Recipe` is the
  declarative specification, built block by block. `Converge` is the recipe
  body as imperative code: it declares resources one after another, grows
  each `pool` by appending, and chooses the HTTPS bind with if/else. Its
  postcondition ties it to `Recipe`. Because of that postcondition, two runs on
  the same attributes declare identical resources.

## Model

| member | source | states |
|---|---|---|
| `ServerLines.Resolve` | recipes/manual.rb:59 | the fields of a member's line after override/default resolution, for both variants (line 91). `ServerLineReadsBack` and `PortSourcesSeparate` specify it |
| `ServerLines.Render` | recipes/manual.rb:59 | the interpolated `<host> <ip>:<port> weight <w> maxconn <m> check <option>` line. `ParseRender` proves that `ParseServerLine` inverts it |
| `ServerLines.ServerLine` | recipes/manual.rb:59 | one member's line in a variant (HTTPS on line 91). `ServerLineReadsBack`, `VariantsDifferOnlyInPort` and `SingleMemberExample` specify it |
| `ServerLines.Servers` | recipes/manual.rb:58-60 | the `members.map` result has exactly one line per member |
| `ServerLines.ServersAt` | recipes/manual.rb:58-60 | line i is the line of member i, so member order is preserved |
| `ServerLines.ParseRender` | recipes/manual.rb:59 | a rendered server line reads back to exactly the fields it was rendered from, when the fields are single tokens and the port has no colon |
| `ServerLines.ServerLineReadsBack` | recipes/manual.rb:59 | each field read back from a member's line is the member's value when set (even `""`) and the default otherwise. For HTTP, the port comes from `port`, else `member_port`. For HTTPS (line 91), it comes from `ssl_port`, else `ssl_member_port`. Weight comes from `weight`, else `member_weight`. Maxconn comes from `max_connections`, else `member_max_connections`. The trailing text is `pool_members_option` |
| `ServerLines.VariantsDifferOnlyInPort` | recipes/manual.rb:91 | the HTTPS line of a member reads back to the same fields as its HTTP line (line 59), except the port |
| `ServerLines.PortSourcesSeparate` | recipes/manual.rb:86-91 | changing `port`/`member_port` never changes an HTTPS line, and changing `ssl_port`/`ssl_member_port` never changes an HTTP line. Apart from the port, both variants resolve the same fields |
| `ServerLines.SingleMemberExample` | recipes/manual.rb:59 | a member `a`/`10.0.0.1` with no overrides, against defaults 80/1/100 and no `pool_members_option`, renders as `a 10.0.0.1:80 weight 1 maxconn 100 check ` (trailing space) |
| `Directives.BackendDirectives` | recipes/manual.rb:55-57 | the pool of a variant (HTTPS on lines 87-89) has one entry per switched-on directive: `option ssl-hello-chk` for HTTPS, a health check when its path is set, a cookie when it is set. Every entry is one of these three kinds. `SslHelloChkFirst`, `HttpchkIffSet`, `CookieIffSet` and `HttpchkBeforeCookie` give which entries they are and in what order |
| `Directives.SslHelloChkFirst` | recipes/manual.rb:87 | the HTTPS pool always starts with `option ssl-hello-chk`; the HTTP pool never contains it |
| `Directives.HttpchkIffSet` | recipes/manual.rb:56 | `option httpchk <p>` is in a pool exactly when the variant's check path (`httpchk`, or `ssl_httpchk` on line 88) is set to `p` |
| `Directives.CookieIffSet` | recipes/manual.rb:57 | `cookie <n>` is in a pool exactly when `cookie` is set to `n` |
| `Directives.HttpchkBeforeCookie` | recipes/manual.rb:55-57 | in a pool, every health-check directive comes before every cookie directive |
| `Directives.HttpsExtendsHttp` | recipes/manual.rb:87-89 | for the same attributes, the HTTPS pool is the HTTP pool with `option ssl-hello-chk` in front |
| `Directives.CookieLineShared` | recipes/manual.rb:89 | when a cookie is set, both pools end with the same `cookie <name>` line, whatever their check paths |
| `Manual.AdminLb` | recipes/manual.rb:33-37 | the arguments of the admin stanza. `AdminStanza` specifies them |
| `Manual.Frontend` | recipes/manual.rb:45-51 | the arguments of a frontend (HTTPS on lines 76-84): type `frontend` and the `maxconn`/`bind`/`default_backend` hash. `FrontendBinds`, `FrontendsReachTheirBackend` and `FrontendParams` specify them |
| `Manual.Backend` | recipes/manual.rb:61-65 | the arguments of a backend (HTTPS on lines 93-98): type `backend`, servers and the pool as params. `BackendContents` specifies them |
| `Manual.HttpsBind` | recipes/manual.rb:70-74 | the HTTPS bind string. `HttpsBindShape` specifies it |
| `Manual.Recipe` | recipes/manual.rb:31-112 | the resources one run declares, block by block, and the error flag. `DeclarationOrder`, `StanzasGated`, `FrontendsReachTheirBackend`, `BackendContents`, `FrontendBinds`, `AdminStanza` and `ConfigAlwaysDeclared` specify them; `Converge` computes them step by step |
| `Manual.Converge` | recipes/manual.rb:31-112 | running the recipe body step by step declares exactly the resources of `Recipe` and sets the error flag the same way |
| `Manual.DeclarationOrder` | recipes/manual.rb:31-99 | the declared stanza names are, in order: `admin` if `enable_admin`; then `http`, `servers-http` if `enable_default_http`; then `https`, `servers-https` if `enable_ssl`. Nothing else is declared as a stanza |
| `Manual.StanzasGated` | recipes/manual.rb:31-99 | each of the five stanzas is declared if and only if its flag is set |
| `Manual.FrontendsReachTheirBackend` | recipes/manual.rb:44-98 | every frontend's `default_backend` is the name of the backend declared right after it |
| `Manual.ConfigAlwaysDeclared` | recipes/manual.rb:106-112 | the error is logged exactly when `global_options` is not a Hash; the configuration resource is declared last in every case |
| `Manual.BackendContents` | recipes/manual.rb:61-65 | a variant's backend is declared exactly when its flag is set. When declared, it has type `backend`, no `bind` argument, the variant's mode (`ssl_mode` for HTTPS, line 95), one server line per member in order, and that variant's pool |
| `Manual.HttpsBindShape` | recipes/manual.rb:70-74 | the HTTPS bind starts with `ssl_incoming_address:ssl_incoming_port`. It equals that exactly when `ssl_crt_path` is unset; otherwise it continues with ` ssl crt <path>` |
| `Manual.FrontendBinds` | recipes/manual.rb:45-52 | the HTTP frontend exists exactly under `enable_default_http`. It has type `frontend` and no mode, and its hash has exactly the keys `maxconn`, `bind`, `default_backend`, in that order. They hold `frontend_max_connections`, `incoming_address:incoming_port` and `servers-http`. The HTTPS frontend (lines 76-84) exists exactly under `enable_ssl`. It has type `frontend` and mode `ssl_mode`, and its hash has the same three keys. They hold `frontend_ssl_max_connections`, the HTTPS bind and `servers-https` |
| `Manual.AdminStanza` | recipes/manual.rb:31-38 | the admin stanza exists exactly under `enable_admin`. It has no type and no servers; it binds `address_bind:port` in `http` mode and passes the admin `options` through unchanged |

## Left out

- Installing the package through `include_recipe` (line 20): package installation belongs to the install recipes, which are not part of this model.
- `cookbook_file "/etc/default/haproxy"` and both `notifies :restart ... :delayed` (lines 22-28, 110-112): file writing and the deferred service restart are done by the configuration engine. The model records only that the `haproxy_config` resource is declared.
- How `haproxy_lb` and `haproxy_config` render `haproxy.cfg`: those resources are not part of this model. Only the arguments passed to them are modelled. An argument the recipe does not pass is `None`.
- The `node.default` write-back of `stats_socket_user`/`stats_socket_group` (lines 102-103): it only copies two attributes within the engine's attribute precedence, and nothing in this recipe reads them afterwards.
- The text of the `Chef::Log.error` message (line 107): only the fact that it is logged is modelled.
- Ruby `false` attribute values, and how integers are formatted as decimal text: every attribute is either nil or a string.
- A missing pool default is not an error: nothing in the recipe checks that a default exists, so a missing one renders as an empty field.
- Inputs on which the recipe aborts with `NoMethodError` cannot be expressed, because `Node` is typed: `members` unset (`.map` on nil, lines 58 and 90), a `nil` entry in `members` (`member['hostname']`, lines 59 and 91), and `admin` unset while `enable_admin` is set (`admin['address_bind']`, line 34). The model does not capture that the recipe aborts on these.
- `ServerLines.ServerLineReadsBack`, `ServerLines.VariantsDifferOnlyInPort` and `ServerLines.ParseRender` are stated only when the values a line reads are single tokens (no spaces, and no colon in the port it uses). For other values the rendered line cannot be read back unambiguously. `ServerLines.PortSourcesSeparate` states the variant relation for all inputs.
