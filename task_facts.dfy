/**
 * What each task guarantees about the host: when it raises and that it then
 * changes nothing (or exactly what it did before raising), what it changes
 * when it succeeds, and that it keeps the host consistent (`Valid`).
 */
module TaskFacts {
  import opened Wrappers
  import opened Base58
  import opened PyFormat
  import opened Templates
  import opened Fabfile
  import opened Tasks

  /** `t` is the end of `s`. */
  predicate EndsWith(s: string, t: string) {
    |t| <= |s| && s[|s| - |t|..] == t
  }

  lemma AppendEndsWith(files: map<string, string>, path: string, text: string)
    ensures EndsWith(AppendText(files, path, text)[path], text + "\n")
  {
    var r := AppendText(files, path, text)[path];
    assert r == Content(files, path) + (text + "\n");
  }

  /* ---------------------------------------------------------------- create_user */

  /**
   * `create_user` raises `KeyError` for a taken name and changes nothing; otherwise it
   * creates exactly one account, in group `www-data` with `sudo`, `/bin/bash` and its
   * home, with the given password or a fresh 10-character base58 one.
   */
  lemma CreateUserOutcome(s: HostState, pool: seq<Byte>, username: string, password: Option<string>)
    ensures var o := CreateUser(s, pool, username, password);
      (username in s.users ==> o == Outcome(s, pool, Failure(Taken(username)))) &&
      (o.result.Success? <==> username !in s.users && (password.Some? || PasswordLength <= |pool|)) &&
      (o.result.Failure? ==> o.state == s && o.pool == pool)
    ensures var o := CreateUser(s, pool, username, password);
      o.result.Success? ==>
        o.result.value.0 == username &&
        o.state == s.(users := s.users[username := NewAccount(username, o.result.value.1)]) &&
        (password.Some? ==> o.result.value.1 == password.value && o.pool == pool) &&
        (password.None? ==> PasswordLength <= |pool| &&
                            o.result.value.1 == GenPass(PasswordLength, pool[..PasswordLength]) &&
                            |o.result.value.1| == PasswordLength && o.pool == pool[PasswordLength..] &&
                            forall i :: 0 <= i < PasswordLength ==> InAlphabet(o.result.value.1[i]))
    ensures Valid(s) ==> Valid(CreateUser(s, pool, username, password).state)
  {
  }

  /* ---------------------------------------------------------- create_pgsql_user */

  /** `create_pgsql_user` for an existing role raises `KeyError` and changes nothing. */
  lemma CreatePgsqlUserTaken(s: HostState, pool: seq<Byte>, username: string, password: Option<string>)
    requires username in s.roles
    ensures CreatePgsqlUser(s, pool, username, password) == Outcome(s, pool, Failure(Taken(username)))
  {
  }

  /**
   * Whatever happens, `create_pgsql_user` only adds the role and at most one database:
   * accounts, files and every existing database and its owner stay as they were.  When it
   * raises, no database was created.
   */
  lemma CreatePgsqlUserFrame(s: HostState, pool: seq<Byte>, username: string, password: Option<string>)
    ensures var o := CreatePgsqlUser(s, pool, username, password);
      o.state == s.(roles := o.state.roles, databases := o.state.databases)
    ensures var o := CreatePgsqlUser(s, pool, username, password);
      o.state.roles.Keys <= s.roles.Keys + {username} &&
      (forall r :: r in s.roles ==> r in o.state.roles && o.state.roles[r] == s.roles[r]) &&
      (forall d :: d in s.databases ==> d in o.state.databases && o.state.databases[d] == s.databases[d]) &&
      (o.result.Failure? ==> o.state.databases == s.databases)
  {
  }

  /**
   * A `create_pgsql_user` that completes created the role, with `createdb` and the given
   * or a fresh 10-character password, and one database it owns, whose name is 12 base58
   * characters and `_DB` and was not a database before.
   */
  lemma CreatePgsqlUserCreates(s: HostState, pool: seq<Byte>, username: string, password: Option<string>)
    requires CreatePgsqlUser(s, pool, username, password).result.Success?
    ensures var o := CreatePgsqlUser(s, pool, username, password);
      var (u, pw, name) := o.result.value;
      u == username && username !in s.roles &&
      o.state.roles == s.roles[username := Role(pw, true)] &&
      (password.Some? ==> pw == password.value) &&
      (password.None? ==> PasswordLength <= |pool| && pw == GenPass(PasswordLength, pool[..PasswordLength])) &&
      name !in s.databases && o.state.databases == s.databases[name := username] &&
      |name| == DbRandomLength + |DbSuffix| && name[DbRandomLength..] == DbSuffix &&
      (forall i :: 0 <= i < DbRandomLength ==> InAlphabet(name[i]))
  {
    var rest := ResolvePassword(password, pool).value.1;
    assert AllocateDbName(rest, s.databases.Keys).Some?;
  }

  /** `create_pgsql_user` keeps the host consistent, whether it completes or raises. */
  lemma CreatePgsqlUserValid(s: HostState, pool: seq<Byte>, username: string, password: Option<string>)
    requires Valid(s)
    ensures Valid(CreatePgsqlUser(s, pool, username, password).state)
  {
    CreatePgsqlUserFrame(s, pool, username, password);
  }

  /**
   * The database name is the `k`-th candidate drawn after the password, for the first
   * `k` whose candidate was not taken: all earlier candidates named existing databases.
   */
  lemma CreatePgsqlUserRetries(s: HostState, pool: seq<Byte>, username: string, password: Option<string>)
    requires CreatePgsqlUser(s, pool, username, password).result.Success?
    ensures var rest := if password.Some? then pool else pool[PasswordLength..];
      exists k: nat :: DbRandomLength * (k + 1) <= |rest| &&
        CreatePgsqlUser(s, pool, username, password).result.value.2 == Candidate(rest, k) &&
        (forall j :: 0 <= j < k ==> Candidate(rest, j) in s.databases) &&
        CreatePgsqlUser(s, pool, username, password).pool == rest[DbRandomLength * (k + 1)..]
  {
    var rest := if password.Some? then pool else pool[PasswordLength..];
    assert ResolvePassword(password, pool).value.1 == rest;
    AllocatedAfterCollisions(rest, s.databases.Keys);
    var k := AllocateDbName(rest, s.databases.Keys).value.1 - 1;
    assert DbRandomLength * (k + 1) <= |rest|;
  }

  /* ---------------------------------------------------------------- create_venv */

  /**
   * `create_venv` raises `KeyError` exactly when the virtualenv does not exist and the
   * version is neither "2" nor "3", and then changes nothing.
   */
  lemma CreateVenvFails(s: HostState, user: string, name: string, version: string)
    ensures CreateVenv(s, user, name, version).1.Some? <==>
      HomeFile(user, name) !in s.venvs && version != "2" && version != "3"
    ensures CreateVenv(s, user, name, version).1.Some? ==>
      CreateVenv(s, user, name, version) == (s, Some(VersionError))
  {
  }

  /** For an existing virtualenv, `create_venv` creates nothing and only installs pip into it. */
  lemma CreateVenvExisting(s: HostState, user: string, name: string, version: string)
    requires HomeFile(user, name) in s.venvs
    ensures CreateVenv(s, user, name, version) == (s.(log := s.log + [Shell(Run, user, InVirtualenv(name, GetPip))]), None)
  {
  }

  /**
   * A new virtualenv is created with the command for its version, activated at login
   * through `.bashrc`, and then gets pip.
   */
  lemma CreateVenvCreates(s: HostState, user: string, name: string, version: string)
    requires HomeFile(user, name) !in s.venvs && (version == "2" || version == "3")
    ensures var (t, error) := CreateVenv(s, user, name, version);
      error.None? &&
      t.log == s.log + [Shell(Run, user, VirtualenvCommand(name, version).value),
                        Shell(Run, user, InVirtualenv(name, GetPip))] &&
      t.venvs == s.venvs + {HomeFile(user, name)} &&
      t.files == AppendText(s.files, HomeFile(user, ".bashrc"), Activate(name)) &&
      t == s.(log := t.log, venvs := t.venvs, files := t.files)
  {
  }

  /**
   * After a `create_venv` that completes, the virtualenv exists and the last command
   * installed pip inside it; accounts, databases, links, sites and keys are untouched
   * and the host stays consistent.
   */
  lemma CreateVenvFrame(s: HostState, user: string, name: string, version: string)
    requires CreateVenv(s, user, name, version).1.None?
    ensures var t := CreateVenv(s, user, name, version).0;
      t.venvs == s.venvs + {HomeFile(user, name)} &&
      |t.log| > 0 && t.log[|t.log| - 1] == Shell(Run, user, InVirtualenv(name, GetPip)) &&
      t.files.Keys >= s.files.Keys &&
      t == s.(log := t.log, venvs := t.venvs, files := t.files)
    ensures Valid(s) ==> Valid(CreateVenv(s, user, name, version).0)
  {
  }

  /** A second `create_venv` of the same virtualenv creates nothing: it only reinstalls pip. */
  lemma CreateVenvTwice(s: HostState, user: string, name: string, version: string, again: string)
    requires CreateVenv(s, user, name, version).1.None?
    ensures var t := CreateVenv(s, user, name, version).0;
      CreateVenv(t, user, name, again) == (t.(log := t.log + [Shell(Run, user, InVirtualenv(name, GetPip))]), None)
  {
    CreateVenvFrame(s, user, name, version);
  }

  /* ------------------------------------------------------------------- push_key */

  /** `push_key` authorises the key for the user, keeps every other key, and pushing it again changes nothing. */
  lemma PushKeyOutcome(s: HostState, user: string, key: string)
    ensures key in KeysOf(PushKey(s, user, key), user)
    ensures KeysOf(PushKey(s, user, key), user) == KeysOf(s, user) + {key}
    ensures forall u :: u != user ==> KeysOf(PushKey(s, user, key), u) == KeysOf(s, u)
    ensures PushKey(PushKey(s, user, key), user, key) == PushKey(s, user, key)
    ensures PushKey(s, user, key) == s.(authorizedKeys := PushKey(s, user, key).authorizedKeys)
    ensures Valid(s) ==> Valid(PushKey(s, user, key))
  {
    var t := PushKey(s, user, key);
    assert t.authorizedKeys[user := KeysOf(t, user) + {key}] == t.authorizedKeys;
  }

  /* ------------------------------------------------------- pip and service tasks */

  /** `pip_install` issues one command, inside the chosen virtualenv, that installs every package. */
  lemma PipInstallOutcome(s: HostState, user: string, venv: string, packages: seq<string>)
    ensures PipInstall(s, user, venv, packages)
      == s.(log := s.log + [Shell(Run, user, Activate(venv) + " && pip install -U " + Join(" ", packages))])
  {
    assert " && " + "pip install -U " == " && pip install -U ";
    assert InVirtualenv(venv, PipInstallCommand(packages))
        == Activate(venv) + (" && " + "pip install -U ") + Join(" ", packages);
  }

  /** `pip_install_requirements` is `pip_install` of `-r ~/site-dir/requirements.txt` into `~/venv`. */
  lemma PipInstallRequirementsIsPipInstall(s: HostState, user: string)
    ensures PipInstallRequirements(s, user) == PipInstall(s, user, "venv", ["-r " + RequirementsFile])
  {
    assert "pip install -U " + "-r " == "pip install -U -r ";
    assert PipInstallCommand(["-r " + RequirementsFile]) == PipRequirementsCommand;
  }

  /** `reload_services` reloads the given services in order, or nginx and the uWSGI emperor when none is given. */
  lemma ReloadServicesOutcome(s: HostState, apps: seq<string>)
    ensures |apps| == 0 ==> ReloadServices(s, apps) == s.(log := s.log + [Reload("nginx"), Reload("uwsgi-emperor")])
    ensures |apps| > 0 ==>
      ReloadServices(s, apps).log[..|s.log|] == s.log &&
      |ReloadServices(s, apps).log| == |s.log| + |apps| &&
      forall i :: 0 <= i < |apps| ==> ReloadServices(s, apps).log[|s.log| + i] == Reload(apps[i])
    ensures ReloadServices(s, apps) == s.(log := ReloadServices(s, apps).log)
  {
    if |apps| == 0 {
      assert Reloads(DefaultServices) == [Reload("nginx"), Reload("uwsgi-emperor")];
    }
  }

  /* --------------------------------------------------------------- configuration */

  /**
   * The `uwsgi.ini` text: the vassal loads the plugin for the version, runs as the user,
   * uses `~/venv` and listens on the socket nginx passes to.
   */
  lemma UwsgiTextLines(user: string, version: string)
    ensures forall i :: 0 <= i < |UwsgiIniLines| ==> LineOk(UwsgiIniLines[i], UwsgiArgs(user, PluginsValue(version)))
    ensures var ls := RenderLines(UwsgiIniLines, UwsgiArgs(user, PluginsValue(version)));
      UwsgiText(user, version) == Join("\n", ls) &&
      ls[1] == "plugins = " + PluginsValue(version) &&
      ls[3] == "uid = " + user &&
      ls[6] == "venv = " + Home(user) + "/venv" &&
      ls[9] == "socket = " + SocketPath(user)
  {
    UwsgiIniRenders(user, PluginsValue(version));
    UwsgiIniTenantLines(user, PluginsValue(version));
  }

  /** The nginx site: an upstream named after the user on the user's uWSGI socket, serving the user's domain. */
  lemma NginxTextLines(user: string)
    ensures forall i :: 0 <= i < |NginxConfLines| ==> LineOk(NginxConfLines[i], NginxArgs(user))
    ensures var ls := RenderLines(NginxConfLines, NginxArgs(user));
      NginxText(user) == Join("\n", ls) &&
      ls[0] == "upstream " + user + " {" &&
      ls[1] == "  server unix:/" + SocketPath(user) + ";" &&
      ls[2] == "}" &&
      ls[5] == "  server_name " + user + ";" &&
      ls[14] == "      uwsgi_pass " + user + ";"
  {
    NginxConfRenders(user);
    NginxConfTenantLines(user);
  }

  /** The README lists the UNIX and PostgreSQL credentials and the database name. */
  lemma ReadmeTextLines(userUnix: string, passUnix: string, userPql: string, passPql: string, namePql: string)
    ensures forall i :: 0 <= i < |ReadmeFileLines| ==>
      LineOk(ReadmeFileLines[i], ReadmeArgs(userUnix, passUnix, userPql, passPql, namePql))
    ensures var ls := RenderLines(ReadmeFileLines, ReadmeArgs(userUnix, passUnix, userPql, passPql, namePql));
      ReadmeText(userUnix, passUnix, userPql, passPql, namePql) == Join("\n", ls) &&
      ls[1] == "  Username= " + userUnix && ls[2] == "  Password= " + passUnix &&
      ls[4] == "  Username= " + userPql && ls[5] == "  Password= " + passPql &&
      ls[6] == "  DB Name = " + namePql
  {
    ReadmeFileRenders(userUnix, passUnix, userPql, passPql, namePql);
    ReadmeFileCredentials(userUnix, passUnix, userPql, passPql, namePql);
  }

  /* -------------------------------------------------------------- create_domain */

  /**
   * The site part of `create_domain`: the commands in order, `umask 002` in `.bashrc`,
   * the formatted `uwsgi.ini` linked into the emperor's vassals, the formatted nginx site
   * enabled; accounts, roles, databases, virtualenvs and keys are untouched.
   */
  lemma PublishSiteOutcome(s: HostState, user: string, version: string)
    ensures var t := PublishSite(s, user, version);
      t.log == s.log + SiteCommands(user) &&
      t.symlinks == s.symlinks[Vassals + user + ".ini" := HomeFile(user, "uwsgi.ini")] &&
      t.enabledSites == s.enabledSites + {user} &&
      t.users == s.users && t.roles == s.roles && t.databases == s.databases &&
      t.venvs == s.venvs && t.authorizedKeys == s.authorizedKeys
    ensures var t := PublishSite(s, user, version);
      HomeFile(user, "uwsgi.ini") in t.files && EndsWith(t.files[HomeFile(user, "uwsgi.ini")], UwsgiText(user, version) + "\n") &&
      SitesAvailable + user in t.files && EndsWith(t.files[SitesAvailable + user], NginxText(user) + "\n") &&
      HomeFile(user, ".bashrc") in t.files && EndsWith(t.files[HomeFile(user, ".bashrc")], "umask 002\n") &&
      t.files.Keys == s.files.Keys + {HomeFile(user, ".bashrc"), HomeFile(user, "uwsgi.ini"), SitesAvailable + user}
    ensures var t := PublishSite(s, user, version);
      forall p :: p in s.files && p !in {HomeFile(user, ".bashrc"), HomeFile(user, "uwsgi.ini"), SitesAvailable + user} ==>
        t.files[p] == s.files[p]
    ensures Valid(s) ==> Valid(PublishSite(s, user, version))
  {
    var bashrc := AppendText(s.files, HomeFile(user, ".bashrc"), "umask 002");
    var ini := AppendText(bashrc, HomeFile(user, "uwsgi.ini"), UwsgiText(user, version));
    var site := AppendText(ini, SitesAvailable + user, NginxText(user));
    SitePathsDistinct(user);
    AppendEndsWith(s.files, HomeFile(user, ".bashrc"), "umask 002");
    AppendEndsWith(ini, SitesAvailable + user, NginxText(user));
    AppendEndsWith(bashrc, HomeFile(user, "uwsgi.ini"), UwsgiText(user, version));
    assert site[HomeFile(user, "uwsgi.ini")] == ini[HomeFile(user, "uwsgi.ini")];
    assert site[HomeFile(user, ".bashrc")] == bashrc[HomeFile(user, ".bashrc")];
  }

  /** The three files the site steps write are different files. */
  lemma SitePathsDistinct(user: string)
    ensures HomeFile(user, ".bashrc") != HomeFile(user, "uwsgi.ini")
    ensures HomeFile(user, ".bashrc") != SitesAvailable + user
    ensures HomeFile(user, "uwsgi.ini") != SitesAvailable + user
  {
    assert HomeFile(user, ".bashrc")[|Home(user)| + 1] == '.';
    assert HomeFile(user, "uwsgi.ini")[|Home(user)| + 1] == 'u';
    assert (SitesAvailable + user)[1] == 'e';
    assert HomeFile(user, ".bashrc")[1] == 'h';
    assert HomeFile(user, "uwsgi.ini")[1] == 'h';
  }

  /** `create_domain` for a name that is already a user raises `KeyError` and changes nothing. */
  lemma CreateDomainTaken(s: HostState, pool: seq<Byte>, domain: string, password: Option<string>, version: string,
                          key: string)
    requires domain in s.users
    ensures CreateDomain(s, pool, domain, password, version, key) == Outcome(s, pool, Failure(Taken(domain)))
  {
  }

  /** The files `create_domain` writes in the user's home and in nginx's sites are different files. */
  lemma DomainPathsDistinct(user: string)
    ensures HomeFile(user, "uwsgi.ini") != HomeFile(user, "README.txt")
    ensures SitesAvailable + user != HomeFile(user, "README.txt")
  {
    assert HomeFile(user, "uwsgi.ini")[|Home(user)| + 1] == 'u';
    assert HomeFile(user, "README.txt")[|Home(user)| + 1] == 'R';
    assert (SitesAvailable + user)[1] == 'e';
    assert HomeFile(user, "README.txt")[1] == 'h';
  }

  /**
   * The end of `create_domain`, when it completes: a role named after the user owning one
   * new database, and `~/README.txt` ending with both sets of credentials and the database
   * name.  Only the README changes among the files; accounts, virtualenvs, links, sites and
   * keys are untouched.
   */
  lemma RegisterDatabaseOutcome(s: HostState, pool: seq<Byte>, user: string, pw: string, dbPassword: Option<string>)
    requires RegisterDatabase(s, pool, user, pw, dbPassword).result.Success?
    ensures var t := RegisterDatabase(s, pool, user, pw, dbPassword).state;
      user in t.roles && t.roles[user].createdb &&
      (dbPassword.Some? ==> t.roles[user].password == dbPassword.value) &&
      (dbPassword.None? ==> PasswordLength <= |pool| &&
                            t.roles[user].password == GenPass(PasswordLength, pool[..PasswordLength])) &&
      exists name :: name !in s.databases && t.databases == s.databases[name := user] &&
        HomeFile(user, "README.txt") in t.files &&
        EndsWith(t.files[HomeFile(user, "README.txt")], ReadmeText(user, pw, user, t.roles[user].password, name) + "\n")
    ensures var t := RegisterDatabase(s, pool, user, pw, dbPassword).state;
      t.users == s.users && t.venvs == s.venvs && t.symlinks == s.symlinks &&
      t.enabledSites == s.enabledSites && t.authorizedKeys == s.authorizedKeys && t.log == s.log &&
      t.files.Keys == s.files.Keys + {HomeFile(user, "README.txt")} &&
      forall p :: p in s.files && p != HomeFile(user, "README.txt") ==> t.files[p] == s.files[p]
  {
    var db := CreatePgsqlUser(s, pool, user, dbPassword);
    CreatePgsqlUserCreates(s, pool, user, dbPassword);
    CreatePgsqlUserFrame(s, pool, user, dbPassword);
    var (dbUser, dbPass, dbName) := db.result.value;
    AppendEndsWith(db.state.files, HomeFile(user, "README.txt"), ReadmeText(user, pw, dbUser, dbPass, dbName));
  }

  /** The end of `create_domain` keeps the host consistent, whether it completes or raises. */
  lemma RegisterDatabaseValid(s: HostState, pool: seq<Byte>, user: string, pw: string, dbPassword: Option<string>)
    requires Valid(s)
    ensures Valid(RegisterDatabase(s, pool, user, pw, dbPassword).state)
  {
    CreatePgsqlUserValid(s, pool, user, dbPassword);
  }

  /**
   * The part of `create_domain` that runs as the new user, when it completes: the key is
   * pushed, `~/venv` exists, the uWSGI vassal is linked to `~/uwsgi.ini` ending with the
   * formatted `UWSGI_INI`, the nginx site is enabled with the formatted `NGINX_CONF`, and
   * the database and README are as `RegisterDatabaseOutcome` says.
   */
  lemma SetUpDomainOutcome(s: HostState, pool: seq<Byte>, user: string, pw: string, dbPassword: Option<string>,
                           version: string, key: string)
    requires SetUpDomain(s, pool, user, pw, dbPassword, version, key).result.Success?
    ensures var t := SetUpDomain(s, pool, user, pw, dbPassword, version, key).state;
      t.users == s.users &&
      key in KeysOf(t, user) &&
      HomeFile(user, "venv") in t.venvs &&
      user in t.enabledSites &&
      Vassals + user + ".ini" in t.symlinks && t.symlinks[Vassals + user + ".ini"] == HomeFile(user, "uwsgi.ini") &&
      HomeFile(user, "uwsgi.ini") in t.files &&
      EndsWith(t.files[HomeFile(user, "uwsgi.ini")], UwsgiText(user, version) + "\n") &&
      SitesAvailable + user in t.files &&
      EndsWith(t.files[SitesAvailable + user], NginxText(user) + "\n")
    ensures var t := SetUpDomain(s, pool, user, pw, dbPassword, version, key).state;
      user in t.roles && t.roles[user].createdb &&
      (dbPassword.Some? ==> t.roles[user].password == dbPassword.value) &&
      (dbPassword.None? ==> PasswordLength <= |pool| &&
                            t.roles[user].password == GenPass(PasswordLength, pool[..PasswordLength])) &&
      exists name :: name !in s.databases && t.databases == s.databases[name := user] &&
        HomeFile(user, "README.txt") in t.files &&
        EndsWith(t.files[HomeFile(user, "README.txt")], ReadmeText(user, pw, user, t.roles[user].password, name) + "\n")
  {
    var pushed := PushKey(s, user, key);
    PushKeyOutcome(s, user, key);
    var withVenv := CreateVenv(pushed, user, "venv", version).0;
    CreateVenvFrame(pushed, user, "venv", version);
    var published := PublishSite(withVenv, user, version);
    PublishSiteOutcome(withVenv, user, version);
    RegisterDatabaseOutcome(published, pool, user, pw, dbPassword);
    DomainPathsDistinct(user);
  }

  /**
   * A `create_domain` that completes leaves the new account, with the given password
   * when one was given, and everything `SetUpDomainOutcome` lists; the PostgreSQL role
   * shares the UNIX password when a password was given.  No other account changes.
   */
  lemma CreateDomainOutcome(s: HostState, pool: seq<Byte>, domain: string, password: Option<string>, version: string,
                            key: string)
    requires CreateDomain(s, pool, domain, password, version, key).result.Success?
    ensures domain !in s.users
    ensures var account := CreateUser(s, pool, domain, password);
      account.result.Success? &&
      CreateDomain(s, pool, domain, password, version, key)
        == SetUpDomain(account.state, account.pool, domain, account.result.value.1,
                       if password.Some? then password else None, version, key)
    ensures var t := CreateDomain(s, pool, domain, password, version, key).state;
      domain in t.users && t.users == s.users[domain := NewAccount(domain, t.users[domain].password)] &&
      (password.Some? ==> t.users[domain].password == password.value)
  {
    var account := CreateUser(s, pool, domain, password);
    CreateUserOutcome(s, pool, domain, password);
    var (user, pw) := account.result.value;
    var dbPassword := if password == Some(pw) then password else None;
    assert dbPassword == if password.Some? then password else None;
    SetUpDomainOutcome(account.state, account.pool, user, pw, dbPassword, version, key);
  }

  lemma SecondBlock(pool: seq<Byte>, n: nat)
    requires 2 * n <= |pool|
    ensures pool[n..][..n] == pool[n..2 * n]
  {
  }

  /**
   * The PostgreSQL role shares the UNIX password exactly when the caller gave one;
   * otherwise both are generated, from the first ten random bytes and the ten after them.
   */
  lemma CreateDomainPasswords(s: HostState, pool: seq<Byte>, domain: string, password: Option<string>, version: string,
                              key: string)
    requires CreateDomain(s, pool, domain, password, version, key).result.Success?
    ensures var t := CreateDomain(s, pool, domain, password, version, key).state;
      domain in t.users && domain in t.roles &&
      (password.Some? ==> t.users[domain].password == password.value && t.roles[domain].password == password.value) &&
      (password.None? ==>
        2 * PasswordLength <= |pool| &&
        t.users[domain].password == GenPass(PasswordLength, pool[..PasswordLength]) &&
        t.roles[domain].password == GenPass(PasswordLength, pool[PasswordLength..2 * PasswordLength]))
  {
    var account := CreateUser(s, pool, domain, password);
    CreateUserOutcome(s, pool, domain, password);
    CreateDomainOutcome(s, pool, domain, password, version, key);
    var pw := account.result.value.1;
    var dbPassword := if password.Some? then password else None;
    SetUpDomainOutcome(account.state, account.pool, domain, pw, dbPassword, version, key);
    if password.None? {
      SecondBlock(pool, PasswordLength);
    }
  }

  /**
   * Running `create_domain` again for a domain it has set up raises `KeyError` at
   * `create_user` and leaves the host, its web configuration included, as it was.
   */
  lemma CreateDomainTwice(s: HostState, pool: seq<Byte>, domain: string, password: Option<string>, version: string,
                          key: string, pool2: seq<Byte>, password2: Option<string>, version2: string, key2: string)
    requires CreateDomain(s, pool, domain, password, version, key).result.Success?
    ensures var t := CreateDomain(s, pool, domain, password, version, key).state;
      CreateDomain(t, pool2, domain, password2, version2, key2) == Outcome(t, pool2, Failure(Taken(domain)))
  {
    CreateDomainOutcome(s, pool, domain, password, version, key);
  }

  /** `create_domain` keeps the host consistent, whether it completes or raises part-way. */
  lemma CreateDomainValid(s: HostState, pool: seq<Byte>, domain: string, password: Option<string>, version: string,
                          key: string)
    requires Valid(s)
    ensures Valid(CreateDomain(s, pool, domain, password, version, key).state)
  {
    var account := CreateUser(s, pool, domain, password);
    CreateUserOutcome(s, pool, domain, password);
    if account.result.Success? {
      var (user, pw) := account.result.value;
      var pushed := PushKey(account.state, user, key);
      PushKeyOutcome(account.state, user, key);
      var (withVenv, error) := CreateVenv(pushed, user, "venv", version);
      CreateVenvFails(pushed, user, "venv", version);
      if error.None? {
        CreateVenvFrame(pushed, user, "venv", version);
        PublishSiteOutcome(withVenv, user, version);
        var dbPassword := if password == Some(pw) then password else None;
        RegisterDatabaseValid(PublishSite(withVenv, user, version), account.pool, user, pw, dbPassword);
      }
    }
  }
}
