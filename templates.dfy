/**
 * The three configuration templates of the provisioning script and what
 * `str.format` makes of them.  A template line is kept as a list of pieces
 * (literal text, a `{field}`, an escaped `{{` or `}}`); `Source` spells the
 * line exactly as the script writes it and `Render` is the substitution the
 * line stands for.  `FormatPieces` proves that `str.format` computes that
 * substitution; the `...Renders` lemmas apply it to each template and the
 * lemmas after them spell out the lines that name the tenant.
 *
 * Longer literal text is written as a concatenation of short literals (the
 * value is the same string); the rendered texts repeat the same split.
 */
module Templates {
  import opened Wrappers
  import opened PyFormat

  /** A character that is not a brace, so literal text needs no escaping. */
  type Plain = c: char | c != '{' && c != '}' witness 'a'

  datatype Piece = Text(s: seq<Plain>) | Field(name: string) | OpenBrace | CloseBrace

  type Line = seq<Piece>

  /** The piece as it is written in a format string. */
  function PieceSource(p: Piece): string {
    match p
    case Text(s) => s
    case Field(n) => "{" + n + "}"
    case OpenBrace => "{{"
    case CloseBrace => "}}"
  }

  /** A field piece names a key that `args` defines. */
  predicate PieceOk(p: Piece, args: map<string, string>) {
    match p
    case Field(n) => IsField(n, args)
    case _ => true
  }

  function PieceRender(p: Piece, args: map<string, string>): string
    requires PieceOk(p, args)
  {
    match p
    case Text(s) => s
    case Field(n) => args[n]
    case OpenBrace => "{"
    case CloseBrace => "}"
  }

  predicate LineOk(line: Line, args: map<string, string>) {
    forall j :: 0 <= j < |line| ==> PieceOk(line[j], args)
  }

  /** The format string of a line. */
  function Source(line: Line): string {
    if |line| == 0 then ""
    else if |line| == 1 then PieceSource(line[0])
    else Source(line[..|line| - 1]) + PieceSource(line[|line| - 1])
  }

  /** The line with every field replaced by its value and every escape by its brace. */
  function Render(line: Line, args: map<string, string>): string
    requires LineOk(line, args)
  {
    if |line| == 0 then ""
    else if |line| == 1 then PieceRender(line[0], args)
    else Render(line[..|line| - 1], args) + PieceRender(line[|line| - 1], args)
  }

  function SourceLines(ls: seq<Line>): (r: seq<string>)
    ensures |r| == |ls|
  {
    seq(|ls|, i requires 0 <= i < |ls| => Source(ls[i]))
  }

  function RenderLines(ls: seq<Line>, args: map<string, string>): (r: seq<string>)
    requires forall i :: 0 <= i < |ls| ==> LineOk(ls[i], args)
    ensures |r| == |ls|
  {
    seq(|ls|, i requires 0 <= i < |ls| => Render(ls[i], args))
  }

  lemma FormatPiece(p: Piece, args: map<string, string>)
    requires PieceOk(p, args)
    ensures Format(PieceSource(p), args) == Success(PieceRender(p, args))
  {
    match p {
      case Text(s) => FormatPlain(s, args);
      case Field(n) => FormatField(n, args);
      case OpenBrace =>
        FormatOpen("", args);
        assert "{{" + "" == "{{" && "{" + "" == "{";
      case CloseBrace =>
        FormatClose("", args);
        assert "}}" + "" == "}}" && "}" + "" == "}";
    }
  }

  /** `str.format` of a well-formed line is exactly its rendering. */
  lemma {:induction false} FormatPieces(line: Line, args: map<string, string>)
    requires LineOk(line, args)
    ensures Format(Source(line), args) == Success(Render(line, args))
    decreases |line|
  {
    if |line| == 1 {
      FormatPiece(line[0], args);
    } else if |line| > 1 {
      var init := line[..|line| - 1];
      assert LineOk(init, args);
      FormatPieces(init, args);
      FormatPiece(line[|line| - 1], args);
      FormatConcat(Source(init), PieceSource(line[|line| - 1]), args);
    }
  }

  /** `str.format` of a newline-joined template is the newline-joined rendering of its lines. */
  lemma FormatTemplate(ls: seq<Line>, args: map<string, string>)
    requires forall i :: 0 <= i < |ls| ==> LineOk(ls[i], args)
    ensures Format(Join("\n", SourceLines(ls)), args) == Success(Join("\n", RenderLines(ls, args)))
  {
    forall i | 0 <= i < |ls|
      ensures Format(SourceLines(ls)[i], args) == Success(RenderLines(ls, args)[i])
    {
      FormatPieces(ls[i], args);
    }
    FormatJoin("\n", SourceLines(ls), RenderLines(ls, args), args);
  }

  lemma RenderOne(a: Piece, args: map<string, string>)
    requires PieceOk(a, args)
    ensures LineOk([a], args) && Render([a], args) == PieceRender(a, args)
  {
  }

  lemma RenderTwo(a: Piece, b: Piece, args: map<string, string>)
    requires PieceOk(a, args) && PieceOk(b, args)
    ensures LineOk([a, b], args) && Render([a, b], args) == PieceRender(a, args) + PieceRender(b, args)
  {
    assert [a, b][..1] == [a];
  }

  lemma RenderThree(a: Piece, b: Piece, c: Piece, args: map<string, string>)
    requires PieceOk(a, args) && PieceOk(b, args) && PieceOk(c, args)
    ensures LineOk([a, b, c], args)
    ensures Render([a, b, c], args) == PieceRender(a, args) + PieceRender(b, args) + PieceRender(c, args)
  {
    assert [a, b, c][..2] == [a, b];
    RenderTwo(a, b, args);
  }

  lemma RenderFour(a: Piece, b: Piece, c: Piece, d: Piece, args: map<string, string>)
    requires PieceOk(a, args) && PieceOk(b, args) && PieceOk(c, args) && PieceOk(d, args)
    ensures LineOk([a, b, c, d], args)
    ensures Render([a, b, c, d], args)
         == PieceRender(a, args) + PieceRender(b, args) + PieceRender(c, args) + PieceRender(d, args)
  {
    assert [a, b, c, d][..3] == [a, b, c];
    RenderThree(a, b, c, args);
  }

  lemma AppendAssoc(x: string, y: string, z: string)
    ensures (x + y) + z == x + (y + z)
  {
  }

  /** The home directory of a unix user. */
  function Home(user: string): string {
    "/home/" + user
  }

  /** The unix socket the tenant's uWSGI vassal listens on. */
  function SocketPath(user: string): string {
    Home(user) + "/uwsgi.sock"
  }

  /** `UWSGI_INI`, first part: how the vassal runs. */
  const UwsgiProcessLines: seq<Line> := [
    [Text("[uwsgi]")],
    [Text("plugins = "), Field("plugins")],
    [Text("master = true")],
    [Text("uid = "), Field("domain")],
    [Text("gid = www-data")],
    [Text("processes = 2")]
  ]

  /** `UWSGI_INI`, second part: where the vassal finds the tenant's files. */
  const UwsgiPathLines: seq<Line> := [
    [Text("venv = " + "/home/"), Field("domain"), Text("/venv")],
    [Text("chdir = /home/"), Field("domain"), Text("/site-dir")],
    [Text("daemonize = " + "/home/"), Field("domain"), Text("/uwsgi.log")],
    [Text("socket = " + "/home/"), Field("domain"), Text("/uwsgi.sock")],
    [Text("wsgi-file = " + "/home/"), Field("domain"), Text("/site-dir/" + "wsgi.py")]
  ]

  /** `UWSGI_INI`: the uWSGI vassal of one tenant. */
  const UwsgiIniLines: seq<Line> := UwsgiProcessLines + UwsgiPathLines

  /** The `UWSGI_INI` format string. */
  function UwsgiIni(): string {
    Join("\n", SourceLines(UwsgiIniLines))
  }

  /** The keyword arguments `create_domain` passes to `UWSGI_INI.format`. */
  function UwsgiArgs(domain: string, plugins: string): map<string, string> {
    map["domain" := domain, "plugins" := plugins]
  }

  /** Formatting `UWSGI_INI` succeeds, for every user name and plugin list, and substitutes both. */
  lemma UwsgiIniRenders(domain: string, plugins: string)
    ensures forall i :: 0 <= i < |UwsgiIniLines| ==> LineOk(UwsgiIniLines[i], UwsgiArgs(domain, plugins))
    ensures Format(UwsgiIni(), UwsgiArgs(domain, plugins))
         == Success(Join("\n", RenderLines(UwsgiIniLines, UwsgiArgs(domain, plugins))))
  {
    assert IsField("domain", UwsgiArgs(domain, plugins)) && IsField("plugins", UwsgiArgs(domain, plugins));
    FormatTemplate(UwsgiIniLines, UwsgiArgs(domain, plugins));
  }

  lemma UwsgiIniLine1(domain: string, plugins: string)
    ensures LineOk(UwsgiIniLines[1], UwsgiArgs(domain, plugins))
    ensures Render(UwsgiIniLines[1], UwsgiArgs(domain, plugins)) == "plugins = " + plugins
  {
    assert IsField("plugins", UwsgiArgs(domain, plugins));
    RenderTwo(Text("plugins = "), Field("plugins"), UwsgiArgs(domain, plugins));
  }

  lemma UwsgiIniLine3(domain: string, plugins: string)
    ensures LineOk(UwsgiIniLines[3], UwsgiArgs(domain, plugins))
    ensures Render(UwsgiIniLines[3], UwsgiArgs(domain, plugins)) == "uid = " + domain
  {
    assert IsField("domain", UwsgiArgs(domain, plugins));
    RenderTwo(Text("uid = "), Field("domain"), UwsgiArgs(domain, plugins));
  }

  lemma UwsgiIniLine6(domain: string, plugins: string)
    ensures LineOk(UwsgiIniLines[6], UwsgiArgs(domain, plugins))
    ensures Render(UwsgiIniLines[6], UwsgiArgs(domain, plugins)) == "venv = " + Home(domain) + "/venv"
  {
    assert IsField("domain", UwsgiArgs(domain, plugins));
    RenderThree(Text("venv = " + "/home/"), Field("domain"), Text("/venv"), UwsgiArgs(domain, plugins));
    AppendAssoc("venv = ", "/home/", domain);
  }

  lemma UwsgiIniLine9(domain: string, plugins: string)
    ensures LineOk(UwsgiIniLines[9], UwsgiArgs(domain, plugins))
    ensures Render(UwsgiIniLines[9], UwsgiArgs(domain, plugins)) == "socket = " + SocketPath(domain)
  {
    assert IsField("domain", UwsgiArgs(domain, plugins));
    RenderThree(Text("socket = " + "/home/"), Field("domain"), Text("/uwsgi.sock"), UwsgiArgs(domain, plugins));
    AppendAssoc("socket = ", "/home/", domain);
    AppendAssoc("socket = ", Home(domain), "/uwsgi.sock");
  }

  /** The vassal loads the given plugins and runs as the tenant, out of the tenant's home. */
  lemma UwsgiIniTenantLines(domain: string, plugins: string)
    ensures forall i :: 0 <= i < |UwsgiIniLines| ==> LineOk(UwsgiIniLines[i], UwsgiArgs(domain, plugins))
    ensures RenderLines(UwsgiIniLines, UwsgiArgs(domain, plugins))[1] == "plugins = " + plugins
    ensures RenderLines(UwsgiIniLines, UwsgiArgs(domain, plugins))[3] == "uid = " + domain
    ensures RenderLines(UwsgiIniLines, UwsgiArgs(domain, plugins))[6] == "venv = " + Home(domain) + "/venv"
    ensures RenderLines(UwsgiIniLines, UwsgiArgs(domain, plugins))[9] == "socket = " + SocketPath(domain)
  {
    UwsgiIniRenders(domain, plugins);
    UwsgiIniLine1(domain, plugins);
    UwsgiIniLine3(domain, plugins);
    UwsgiIniLine6(domain, plugins);
    UwsgiIniLine9(domain, plugins);
  }

  /** `NGINX_CONF`, first part: the upstream that is the tenant's uWSGI socket. */
  const NginxUpstreamLines: seq<Line> := [
    [Text("upstream "), Field("domain"), Text(" "), OpenBrace],
    [Text("  server unix:/" + "/home/"), Field("domain"), Text("/uwsgi.sock;")],
    [CloseBrace]
  ]

  /** `NGINX_CONF`, second part: the server block and its logs. */
  const NginxServerLines: seq<Line> := [
    [Text("server "), OpenBrace],
    [Text("  listen 80;")],
    [Text("  server_name "), Field("domain"), Text(";")],
    [Text("  charset utf-8;")],
    [Text("  client_max_" + "body_size 75M;")],
    [Text("  access_log " + "/home/"), Field("domain"), Text("/nginx_" + "access.log;")],
    [Text("  error_log " + "/home/"), Field("domain"), Text("/nginx_" + "error.log;")]
  ]

  /** `NGINX_CONF`, third part: static files and the hand-over to uWSGI. */
  const NginxLocationLines: seq<Line> := [
    [Text("  location " + "/static "), OpenBrace],
    [Text("      alias " + "/home/"), Field("domain"), Text("/site-dir/" + "staticfiles;")],
    [Text("  "), CloseBrace],
    [Text("  location / "), OpenBrace],
    [Text("      uwsgi_pass "), Field("domain"), Text(";")],
    [Text("  include " + "uwsgi_params;")],
    [Text("  "), CloseBrace],
    [CloseBrace]
  ]

  /** `NGINX_CONF`: the nginx virtual host of one tenant; `{{` and `}}` stand for literal braces. */
  const NginxConfLines: seq<Line> := NginxUpstreamLines + NginxServerLines + NginxLocationLines

  /** The `NGINX_CONF` format string. */
  function NginxConf(): string {
    Join("\n", SourceLines(NginxConfLines))
  }

  /** The keyword arguments `create_domain` passes to `NGINX_CONF.format`. */
  function NginxArgs(domain: string): map<string, string> {
    map["domain" := domain]
  }

  /** Formatting `NGINX_CONF` succeeds for every user name and substitutes it. */
  lemma NginxConfRenders(domain: string)
    ensures forall i :: 0 <= i < |NginxConfLines| ==> LineOk(NginxConfLines[i], NginxArgs(domain))
    ensures Format(NginxConf(), NginxArgs(domain)) == Success(Join("\n", RenderLines(NginxConfLines, NginxArgs(domain))))
  {
    assert IsField("domain", NginxArgs(domain));
    FormatTemplate(NginxConfLines, NginxArgs(domain));
  }

  lemma NginxConfLine0(domain: string)
    ensures LineOk(NginxConfLines[0], NginxArgs(domain))
    ensures Render(NginxConfLines[0], NginxArgs(domain)) == "upstream " + domain + " " + "{"
  {
    assert IsField("domain", NginxArgs(domain));
    RenderFour(Text("upstream "), Field("domain"), Text(" "), OpenBrace, NginxArgs(domain));
  }

  lemma NginxConfLine1(domain: string)
    ensures LineOk(NginxConfLines[1], NginxArgs(domain))
    ensures Render(NginxConfLines[1], NginxArgs(domain)) == "  server unix:/" + SocketPath(domain) + ";"
  {
    assert IsField("domain", NginxArgs(domain));
    RenderThree(Text("  server unix:/" + "/home/"), Field("domain"), Text("/uwsgi.sock;"), NginxArgs(domain));
    AppendAssoc("  server unix:/", "/home/", domain);
    AppendAssoc("  server unix:/", Home(domain), "/uwsgi.sock;");
    AppendAssoc(Home(domain), "/uwsgi.sock", ";");
  }

  lemma NginxConfLine2(domain: string)
    ensures LineOk(NginxConfLines[2], NginxArgs(domain))
    ensures Render(NginxConfLines[2], NginxArgs(domain)) == "}"
  {
    RenderOne(CloseBrace, NginxArgs(domain));
  }

  lemma NginxConfLine5(domain: string)
    ensures LineOk(NginxConfLines[5], NginxArgs(domain))
    ensures Render(NginxConfLines[5], NginxArgs(domain)) == "  server_name " + domain + ";"
  {
    assert IsField("domain", NginxArgs(domain));
    RenderThree(Text("  server_name "), Field("domain"), Text(";"), NginxArgs(domain));
  }

  lemma NginxConfLine14(domain: string)
    ensures LineOk(NginxConfLines[14], NginxArgs(domain))
    ensures Render(NginxConfLines[14], NginxArgs(domain)) == "      uwsgi_pass " + domain + ";"
  {
    assert IsField("domain", NginxArgs(domain));
    RenderThree(Text("      uwsgi_pass "), Field("domain"), Text(";"), NginxArgs(domain));
  }

  /**
   * The virtual host is named after the tenant, hands requests to the
   * upstream named after the tenant, and that upstream is the socket the
   * tenant's vassal listens on; the escaped braces come out single.
   */
  lemma NginxConfTenantLines(domain: string)
    ensures forall i :: 0 <= i < |NginxConfLines| ==> LineOk(NginxConfLines[i], NginxArgs(domain))
    ensures RenderLines(NginxConfLines, NginxArgs(domain))[0] == "upstream " + domain + " " + "{"
    ensures RenderLines(NginxConfLines, NginxArgs(domain))[1] == "  server unix:/" + SocketPath(domain) + ";"
    ensures RenderLines(NginxConfLines, NginxArgs(domain))[2] == "}"
    ensures RenderLines(NginxConfLines, NginxArgs(domain))[5] == "  server_name " + domain + ";"
    ensures RenderLines(NginxConfLines, NginxArgs(domain))[14] == "      uwsgi_pass " + domain + ";"
  {
    NginxConfRenders(domain);
    NginxConfLine0(domain);
    NginxConfLine1(domain);
    NginxConfLine2(domain);
    NginxConfLine5(domain);
    NginxConfLine14(domain);
  }

  /** `README_FILE`, first part: the credentials. */
  const ReadmeCredentialLines: seq<Line> := [
    [Text("UNIX:")],
    [Text("  Username= "), Field("user_unix")],
    [Text("  Password= "), Field("pass_unix")],
    [Text("POSTGRESQL:")],
    [Text("  Username= "), Field("user_pql")],
    [Text("  Password= "), Field("pass_pql")],
    [Text("  DB Name = "), Field("name_pql")],
    []
  ]

  /** `README_FILE`, second part: what the application must provide. */
  const ReadmeAppLines: seq<Line> := [
    [Text("Webserver needs "), Text("a wsgi.py file "), Text("in site-dir")],
    [Text("wsgi.py file "), Text("must have a "), Text("variable, "), Text("named as "), Text("\"application\"")],
    [Text("Django's "), Text("wsgi.py is okay "), Text("but for flask "), Text("you should "), Text("do this:")],
    [Text("  application"), Text(" = app")],
    []
  ]

  /** `README_FILE`, third part: where the rest of the setup lives. */
  const ReadmeLayoutLines: seq<Line> := [
    [Text("staticfiles "), Text("folder in "), Text("site-dir is "), Text("served by nginx "), Text("as /static")],
    [Text("uwsgi.ini file "), Text("is for uwsgi "), Text("configuration "), Text("and dynamic")],
    [Text("nginx "), Text("configuration "), Text("is at "), Text("/etc/nginx/"), Text("sites-enabled")]
  ]

  /** `README_FILE`: the credentials manifest left in the tenant's home. */
  const ReadmeFileLines: seq<Line> := ReadmeCredentialLines + ReadmeAppLines + ReadmeLayoutLines

  /** The `README_FILE` format string. */
  function ReadmeFile(): string {
    Join("\n", SourceLines(ReadmeFileLines))
  }

  /** The keyword arguments `create_domain` passes to `README_FILE.format`. */
  function ReadmeArgs(userUnix: string, passUnix: string, userPql: string, passPql: string, namePql: string)
    : map<string, string>
  {
    map["user_unix" := userUnix, "pass_unix" := passUnix, "user_pql" := userPql,
        "pass_pql" := passPql, "name_pql" := namePql]
  }

  lemma ReadmeArgsFields(userUnix: string, passUnix: string, userPql: string, passPql: string, namePql: string)
    ensures var args := ReadmeArgs(userUnix, passUnix, userPql, passPql, namePql);
      IsField("user_unix", args) && IsField("pass_unix", args) && IsField("user_pql", args) &&
      IsField("pass_pql", args) && IsField("name_pql", args)
  {
  }

  lemma ReadmeFileLinesOk(args: map<string, string>)
    requires IsField("user_unix", args) && IsField("pass_unix", args) && IsField("user_pql", args)
    requires IsField("pass_pql", args) && IsField("name_pql", args)
    ensures forall i :: 0 <= i < |ReadmeFileLines| ==> LineOk(ReadmeFileLines[i], args)
  {
    assert forall i :: 0 <= i < |ReadmeCredentialLines| ==> LineOk(ReadmeCredentialLines[i], args);
    assert forall i :: 0 <= i < |ReadmeAppLines| ==> LineOk(ReadmeAppLines[i], args);
    assert forall i :: 0 <= i < |ReadmeLayoutLines| ==> LineOk(ReadmeLayoutLines[i], args);
  }

  /** Formatting `README_FILE` succeeds for all five credentials and substitutes them. */
  lemma ReadmeFileRenders(userUnix: string, passUnix: string, userPql: string, passPql: string, namePql: string)
    ensures forall i :: 0 <= i < |ReadmeFileLines| ==>
      LineOk(ReadmeFileLines[i], ReadmeArgs(userUnix, passUnix, userPql, passPql, namePql))
    ensures Format(ReadmeFile(), ReadmeArgs(userUnix, passUnix, userPql, passPql, namePql))
         == Success(Join("\n", RenderLines(ReadmeFileLines, ReadmeArgs(userUnix, passUnix, userPql, passPql, namePql))))
  {
    var args := ReadmeArgs(userUnix, passUnix, userPql, passPql, namePql);
    ReadmeArgsFields(userUnix, passUnix, userPql, passPql, namePql);
    ReadmeFileLinesOk(args);
    FormatTemplate(ReadmeFileLines, args);
  }

  lemma ReadmeFileLine1(userUnix: string, passUnix: string, userPql: string, passPql: string, namePql: string)
    ensures LineOk(ReadmeFileLines[1], ReadmeArgs(userUnix, passUnix, userPql, passPql, namePql))
    ensures Render(ReadmeFileLines[1], ReadmeArgs(userUnix, passUnix, userPql, passPql, namePql)) == "  Username= " + userUnix
  {
    ReadmeArgsFields(userUnix, passUnix, userPql, passPql, namePql);
    assert ReadmeFileLines[1] == ReadmeCredentialLines[1];
    RenderTwo(Text("  Username= "), Field("user_unix"), ReadmeArgs(userUnix, passUnix, userPql, passPql, namePql));
  }

  lemma ReadmeFileLine2(userUnix: string, passUnix: string, userPql: string, passPql: string, namePql: string)
    ensures LineOk(ReadmeFileLines[2], ReadmeArgs(userUnix, passUnix, userPql, passPql, namePql))
    ensures Render(ReadmeFileLines[2], ReadmeArgs(userUnix, passUnix, userPql, passPql, namePql)) == "  Password= " + passUnix
  {
    ReadmeArgsFields(userUnix, passUnix, userPql, passPql, namePql);
    assert ReadmeFileLines[2] == ReadmeCredentialLines[2];
    RenderTwo(Text("  Password= "), Field("pass_unix"), ReadmeArgs(userUnix, passUnix, userPql, passPql, namePql));
  }

  lemma ReadmeFileLine4(userUnix: string, passUnix: string, userPql: string, passPql: string, namePql: string)
    ensures LineOk(ReadmeFileLines[4], ReadmeArgs(userUnix, passUnix, userPql, passPql, namePql))
    ensures Render(ReadmeFileLines[4], ReadmeArgs(userUnix, passUnix, userPql, passPql, namePql)) == "  Username= " + userPql
  {
    ReadmeArgsFields(userUnix, passUnix, userPql, passPql, namePql);
    assert ReadmeFileLines[4] == ReadmeCredentialLines[4];
    RenderTwo(Text("  Username= "), Field("user_pql"), ReadmeArgs(userUnix, passUnix, userPql, passPql, namePql));
  }

  lemma ReadmeFileLine5(userUnix: string, passUnix: string, userPql: string, passPql: string, namePql: string)
    ensures LineOk(ReadmeFileLines[5], ReadmeArgs(userUnix, passUnix, userPql, passPql, namePql))
    ensures Render(ReadmeFileLines[5], ReadmeArgs(userUnix, passUnix, userPql, passPql, namePql)) == "  Password= " + passPql
  {
    ReadmeArgsFields(userUnix, passUnix, userPql, passPql, namePql);
    assert ReadmeFileLines[5] == ReadmeCredentialLines[5];
    RenderTwo(Text("  Password= "), Field("pass_pql"), ReadmeArgs(userUnix, passUnix, userPql, passPql, namePql));
  }

  lemma ReadmeFileLine6(userUnix: string, passUnix: string, userPql: string, passPql: string, namePql: string)
    ensures LineOk(ReadmeFileLines[6], ReadmeArgs(userUnix, passUnix, userPql, passPql, namePql))
    ensures Render(ReadmeFileLines[6], ReadmeArgs(userUnix, passUnix, userPql, passPql, namePql)) == "  DB Name = " + namePql
  {
    ReadmeArgsFields(userUnix, passUnix, userPql, passPql, namePql);
    assert ReadmeFileLines[6] == ReadmeCredentialLines[6];
    RenderTwo(Text("  DB Name = "), Field("name_pql"), ReadmeArgs(userUnix, passUnix, userPql, passPql, namePql));
  }

  /** The manifest lists the unix account, then the database role, password and database name. */
  lemma ReadmeFileCredentials(userUnix: string, passUnix: string, userPql: string, passPql: string, namePql: string)
    ensures forall i :: 0 <= i < |ReadmeFileLines| ==> LineOk(ReadmeFileLines[i], ReadmeArgs(userUnix, passUnix, userPql, passPql, namePql))
    ensures RenderLines(ReadmeFileLines, ReadmeArgs(userUnix, passUnix, userPql, passPql, namePql))[1] == "  Username= " + userUnix
    ensures RenderLines(ReadmeFileLines, ReadmeArgs(userUnix, passUnix, userPql, passPql, namePql))[2] == "  Password= " + passUnix
    ensures RenderLines(ReadmeFileLines, ReadmeArgs(userUnix, passUnix, userPql, passPql, namePql))[4] == "  Username= " + userPql
    ensures RenderLines(ReadmeFileLines, ReadmeArgs(userUnix, passUnix, userPql, passPql, namePql))[5] == "  Password= " + passPql
    ensures RenderLines(ReadmeFileLines, ReadmeArgs(userUnix, passUnix, userPql, passPql, namePql))[6] == "  DB Name = " + namePql
  {
    ReadmeFileRenders(userUnix, passUnix, userPql, passPql, namePql);
    ReadmeFileLine1(userUnix, passUnix, userPql, passPql, namePql);
    ReadmeFileLine2(userUnix, passUnix, userPql, passPql, namePql);
    ReadmeFileLine4(userUnix, passUnix, userPql, passPql, namePql);
    ReadmeFileLine5(userUnix, passUnix, userPql, passPql, namePql);
    ReadmeFileLine6(userUnix, passUnix, userPql, passPql, namePql);
  }
}
