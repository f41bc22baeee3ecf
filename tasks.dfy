/**
 * The remote host as the Fabric tasks see it, and what each task does to it,
 * written as functions from the state before to the state after.  The class
 * `Provision.Host` carries out the same steps in place and is proved to end
 * in exactly these states.
 *
 * Randomness (`os.urandom`, called locally by `gen_pass`) is a finite pool of
 * bytes that the tasks draw from in order; running out of it stands for
 * `os.urandom` raising.
 */
module Tasks {
  import opened Wrappers
  import opened Base58
  import opened PyFormat
  import opened Templates
  import opened Fabfile

  datatype Account = Account(group: string, extraGroups: seq<string>, shell: string, home: string, password: string)

  datatype Role = Role(password: string, createdb: bool)

  /** `run` executes a command as the connected user, `sudo` as root. */
  datatype Via = Run | Sudo

  /** A command the tasks issue on the host, by the user Fabric is connected as. */
  datatype Command = Shell(via: Via, user: string, line: string) | Reload(service: string)

  /** The exceptions the tasks raise. */
  datatype Error = KeyError(message: string) | NoEntropy

  datatype HostState = HostState(
    users: map<string, Account>,
    roles: map<string, Role>,
    databases: map<string, string>,   // database name -> owning role
    venvs: set<string>,               // directories that hold a virtualenv
    files: map<string, string>,       // path -> content
    symlinks: map<string, string>,    // link -> target
    enabledSites: set<string>,        // nginx sites linked into sites-enabled
    authorizedKeys: map<string, set<string>>,
    log: seq<Command>)

  /** What a task leaves behind: the host, the unused random bytes and what it returned or raised. */
  datatype Outcome<T> = Outcome(state: HostState, pool: seq<Byte>, result: Result<T, Error>)

  const SitesAvailable: string := "/etc/nginx/sites-available/"

  const Vassals: string := "/etc/uwsgi-emperor/vassals/"

  /** A path relative to the home of `user`, where Fabric runs that user's commands. */
  function HomeFile(user: string, name: string): string {
    Home(user) + "/" + name
  }

  /** Every database belongs to an existing role; every enabled site and every link target exists. */
  ghost predicate Valid(s: HostState) {
    (forall d :: d in s.databases ==> s.databases[d] in s.roles) &&
    (forall site :: site in s.enabledSites ==> SitesAvailable + site in s.files) &&
    (forall link :: link in s.symlinks ==> s.symlinks[link] in s.files)
  }

  /** The content of `path`, empty when there is no such file. */
  function Content(files: map<string, string>, path: string): string {
    if path in files then files[path] else ""
  }

  /** `files.append(path, text)`: the text and a newline are added at the end of the file. */
  function AppendText(files: map<string, string>, path: string, text: string): (r: map<string, string>)
    ensures r.Keys == files.Keys + {path}
    ensures r[path] == Content(files, path) + text + "\n"
    ensures forall p :: p in files && p != path ==> r[p] == files[p]
  {
    files[path := Content(files, path) + text + "\n"]
  }

  function Taken(name: string): Error {
    Error.KeyError("Username " + name + " is taken")
  }

  const VersionError: Error := Error.KeyError("Version must be a string ('2', '3')")

  /** The account `create_user` creates. */
  function NewAccount(name: string, password: string): Account {
    Account("www-data", ["sudo"], "/bin/bash", Home(name), password)
  }

  /** The given password, or `gen_pass(10)` drawn from the pool. */
  function ResolvePassword(password: Option<string>, pool: seq<Byte>): (r: Option<(string, seq<Byte>)>)
    ensures password.Some? ==> r == Some((password.value, pool))
    ensures password.None? && |pool| < PasswordLength ==> r.None?
    ensures password.None? && PasswordLength <= |pool| ==>
      r == Some((GenPass(PasswordLength, pool[..PasswordLength]), pool[PasswordLength..]))
  {
    if password.Some? then Some((password.value, pool))
    else if |pool| < PasswordLength then None
    else Some((GenPass(PasswordLength, pool[..PasswordLength]), pool[PasswordLength..]))
  }

  /** `create_user(username, password)`. */
  function CreateUser(s: HostState, pool: seq<Byte>, username: string, password: Option<string>)
    : Outcome<(string, string)>
  {
    if username in s.users then Outcome(s, pool, Failure(Taken(username)))
    else
      match ResolvePassword(password, pool)
      case None => Outcome(s, pool, Failure(NoEntropy))
      case Some((pw, rest)) =>
        Outcome(s.(users := s.users[username := NewAccount(username, pw)]), rest, Success((username, pw)))
  }

  /** The bytes left once the name loop has drawn every whole 12-byte block. */
  function Drained(pool: seq<Byte>): (r: seq<Byte>)
    ensures |r| < DbRandomLength
    decreases |pool|
  {
    if |pool| < DbRandomLength then pool else Drained(pool[DbRandomLength..])
  }

  /** `create_pgsql_user(username, password)`. */
  function CreatePgsqlUser(s: HostState, pool: seq<Byte>, username: string, password: Option<string>)
    : Outcome<(string, string, string)>
  {
    if username in s.roles then Outcome(s, pool, Failure(Taken(username)))
    else
      match ResolvePassword(password, pool)
      case None => Outcome(s, pool, Failure(NoEntropy))
      case Some((pw, rest)) =>
        var withRole := s.(roles := s.roles[username := Role(pw, true)]);
        match AllocateDbName(rest, s.databases.Keys)
        case None => Outcome(withRole, Drained(rest), Failure(NoEntropy))
        case Some((name, k)) =>
          Outcome(withRole.(databases := s.databases[name := username]), rest[DbRandomLength * k..],
                  Success((username, pw, name)))
  }

  /** `create_venv(name, version)`, run as `user`. */
  function CreateVenv(s: HostState, user: string, name: string, version: string): (HostState, Option<Error>) {
    var path := HomeFile(user, name);
    if path !in s.venvs && VirtualenvCommand(name, version).None? then (s, Some(VersionError))
    else
      var created :=
        if path in s.venvs then s
        else s.(log := s.log + [Shell(Run, user, VirtualenvCommand(name, version).value)],
                venvs := s.venvs + {path},
                files := AppendText(s.files, HomeFile(user, ".bashrc"), Activate(name)));
      (created.(log := created.log + [Shell(Run, user, InVirtualenv(name, GetPip))]), None)
  }

  /** The keys authorised for `user`. */
  function KeysOf(s: HostState, user: string): set<string> {
    if user in s.authorizedKeys then s.authorizedKeys[user] else {}
  }

  /** `push_key`: the public key becomes one of the user's authorised keys. */
  function PushKey(s: HostState, user: string, key: string): HostState {
    s.(authorizedKeys := s.authorizedKeys[user := KeysOf(s, user) + {key}])
  }

  /** `pip_install(*packages)` in virtualenv `venv` of `user`. */
  function PipInstall(s: HostState, user: string, venv: string, packages: seq<string>): HostState {
    s.(log := s.log + [Shell(Run, user, InVirtualenv(venv, PipInstallCommand(packages)))])
  }

  /** `pip_install_requirements`, in the `venv` virtualenv of `user`. */
  function PipInstallRequirements(s: HostState, user: string): HostState {
    s.(log := s.log + [Shell(Run, user, InVirtualenv("venv", PipRequirementsCommand))])
  }

  function Reloads(services: seq<string>): (r: seq<Command>)
    ensures |r| == |services| && forall i :: 0 <= i < |r| ==> r[i] == Reload(services[i])
  {
    seq(|services|, i requires 0 <= i < |services| => Reload(services[i]))
  }

  /** `reload_services(*apps)`. */
  function ReloadServices(s: HostState, apps: seq<string>): HostState {
    s.(log := s.log + Reloads(ReloadTargets(apps)))
  }

  /** `UWSGI_INI` formatted for `user` and the plugins of `version`. */
  function UwsgiText(user: string, version: string): string {
    UwsgiIniRenders(user, PluginsValue(version));
    Format(UwsgiIni(), UwsgiArgs(user, PluginsValue(version))).value
  }

  /** `NGINX_CONF` formatted for `user`. */
  function NginxText(user: string): string {
    NginxConfRenders(user);
    Format(NginxConf(), NginxArgs(user)).value
  }

  /** `README_FILE` formatted with the two sets of credentials. */
  function ReadmeText(userUnix: string, passUnix: string, userPql: string, passPql: string, namePql: string)
    : string
  {
    ReadmeFileRenders(userUnix, passUnix, userPql, passPql, namePql);
    Format(ReadmeFile(), ReadmeArgs(userUnix, passUnix, userPql, passPql, namePql)).value
  }

  /** The commands `create_domain` runs between creating the virtualenv and writing `uwsgi.ini`. */
  function SiteCommands(user: string): seq<Command> {
    [Shell(Run, user, "chmod 775 ~/"),
     Shell(Run, user, "mkdir site-dir"),
     Shell(Run, user, "mkdir site-dir/staticfiles"),
     Shell(Run, user, "touch ~/nginx_access.log"),
     Shell(Sudo, user, "chgrp root nginx_access.log"),
     Shell(Run, user, "touch ~/nginx_error.log"),
     Shell(Sudo, user, "chgrp root nginx_error.log")]
  }

  /** The middle of `create_domain`: home directory, site folders, log files, uWSGI vassal and nginx site. */
  function PublishSite(s: HostState, user: string, version: string): HostState {
    var bashrc := AppendText(s.files, HomeFile(user, ".bashrc"), "umask 002");
    var ini := AppendText(bashrc, HomeFile(user, "uwsgi.ini"), UwsgiText(user, version));
    var site := AppendText(ini, SitesAvailable + user, NginxText(user));
    s.(log := s.log + SiteCommands(user),
       files := site,
       symlinks := s.symlinks[Vassals + user + ".ini" := HomeFile(user, "uwsgi.ini")],
       enabledSites := s.enabledSites + {user})
  }

  /**
   * The end of `create_domain`: `create_pgsql_user` for the new user (with the password
   * `dbPassword`, or a generated one), then the README with both sets of credentials.
   */
  function RegisterDatabase(s: HostState, pool: seq<Byte>, user: string, pw: string, dbPassword: Option<string>)
    : Outcome<()>
  {
    var db := CreatePgsqlUser(s, pool, user, dbPassword);
    if db.result.Failure? then Outcome(db.state, db.pool, Failure(db.result.error))
    else
      var (dbUser, dbPass, dbName) := db.result.value;
      var readme := ReadmeText(user, pw, dbUser, dbPass, dbName);
      Outcome(db.state.(files := AppendText(db.state.files, HomeFile(user, "README.txt"), readme)), db.pool,
              Success(()))
  }

  /** The body of `create_domain` that runs as the new user (`with settings(user=unix_u, ...)`). */
  function SetUpDomain(s: HostState, pool: seq<Byte>, user: string, pw: string, dbPassword: Option<string>,
                       version: string, key: string): Outcome<()>
  {
    var (withVenv, error) := CreateVenv(PushKey(s, user, key), user, "venv", version);
    if error.Some? then Outcome(withVenv, pool, Failure(error.value))
    else RegisterDatabase(PublishSite(withVenv, user, version), pool, user, pw, dbPassword)
  }

  /**
   * `create_domain(domain, password, version)`, pushing `key` as the new user's ssh key.
   * The PostgreSQL role gets the UNIX password only when that password was given.
   */
  function CreateDomain(s: HostState, pool: seq<Byte>, domain: string, password: Option<string>, version: string,
                        key: string): Outcome<()>
  {
    var account := CreateUser(s, pool, domain, password);
    if account.result.Failure? then Outcome(account.state, account.pool, Failure(account.result.error))
    else
      var (user, pw) := account.result.value;
      SetUpDomain(account.state, account.pool, user, pw, if password == Some(pw) then password else None, version, key)
  }
}
