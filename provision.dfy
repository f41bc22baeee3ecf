/**
 * The Fabric tasks as they run: a `Host` object whose fields are the remote
 * host's state, updated step by step by the tasks, and an `Entropy` object
 * standing for `os.urandom`.  Every task is proved to leave the host, the
 * entropy source and its own result exactly as the matching function of
 * module `Tasks` says; what those functions guarantee is proved in
 * `TaskFacts`.
 */
module Provision {
  import opened Wrappers
  import opened Base58
  import opened PyFormat
  import opened Templates
  import opened Fabfile
  import opened Tasks

  /** The local source of random bytes behind `os.urandom`, with what it has left to give. */
  class Entropy {
    var pool: seq<Byte>

    constructor (pool: seq<Byte>)
      ensures this.pool == pool
    {
      this.pool := pool;
    }

    /** `os.urandom(n)`: the next `n` bytes, or `None` (the call raising) when there are not enough. */
    method Urandom(n: nat) returns (bytes: Option<seq<Byte>>)
      modifies this
      ensures n <= |old(pool)| ==> bytes == Some(old(pool)[..n]) && pool == old(pool)[n..]
      ensures |old(pool)| < n ==> bytes.None? && pool == old(pool)
    {
      if |pool| < n {
        return None;
      }
      bytes := Some(pool[..n]);
      pool := pool[n..];
    }

    /** `gen_pass(length)`: `b58encode(os.urandom(length))[:length]`. */
    method GenPass(length: nat) returns (p: Option<string>)
      modifies this
      ensures length <= |old(pool)| ==>
        p == Some(Fabfile.GenPass(length, old(pool)[..length])) && pool == old(pool)[length..]
      ensures |old(pool)| < length ==> p.None? && pool == old(pool)
    {
      var bytes := Urandom(length);
      if bytes.None? {
        return None;
      }
      p := Some(Fabfile.GenPass(length, bytes.value));
    }
  }

  /** A remote host, as the tasks see and change it through Fabric and fabtools. */
  class Host {
    var users: map<string, Account>
    var roles: map<string, Role>
    var databases: map<string, string>
    var venvs: set<string>
    var files: map<string, string>
    var symlinks: map<string, string>
    var enabledSites: set<string>
    var authorizedKeys: map<string, set<string>>
    var log: seq<Command>

    /** The host's state as a value. */
    function State(): HostState
      reads this
    {
      HostState(users, roles, databases, venvs, files, symlinks, enabledSites, authorizedKeys, log)
    }

    constructor (s: HostState)
      ensures State() == s
    {
      users, roles, databases, venvs := s.users, s.roles, s.databases, s.venvs;
      files, symlinks, enabledSites, authorizedKeys, log := s.files, s.symlinks, s.enabledSites, s.authorizedKeys, s.log;
    }

    /* ------------------------------------------------ fabric and fabtools operations */

    /** `run(line)` or `sudo(line)` while connected as `user`. */
    method Execute(via: Via, user: string, line: string)
      modifies this
      ensures State() == old(State()).(log := old(log) + [Shell(via, user, line)])
    {
      log := log + [Shell(via, user, line)];
    }

    /** `files.append(path, text)`. */
    method Append(path: string, text: string)
      modifies this
      ensures State() == old(State()).(files := AppendText(old(files), path, text))
    {
      files := AppendText(files, path, text);
    }

    /** `files2.symlink(target, link, use_sudo=True)`. */
    method Symlink(target: string, link: string)
      modifies this
      ensures State() == old(State()).(symlinks := old(symlinks)[link := target])
    {
      symlinks := symlinks[link := target];
    }

    /** `nginx.enable(site)`. */
    method EnableSite(site: string)
      modifies this
      ensures State() == old(State()).(enabledSites := old(enabledSites) + {site})
    {
      enabledSites := enabledSites + {site};
    }

    /* ------------------------------------------------------------------- the tasks */

    /** `create_user(username, password)`. */
    method CreateUser(rng: Entropy, username: string, password: Option<string>)
      returns (r: Result<(string, string), Error>)
      modifies this, rng
      ensures var o := Tasks.CreateUser(old(State()), old(rng.pool), username, password);
        State() == o.state && rng.pool == o.pool && r == o.result
    {
      if username in users {
        return Failure(Taken(username));
      }
      var pw: string;
      if password.None? {
        var generated := rng.GenPass(PasswordLength);
        if generated.None? {
          return Failure(NoEntropy);
        }
        pw := generated.value;
      } else {
        pw := password.value;
      }
      users := users[username := NewAccount(username, pw)];
      r := Success((username, pw));
    }

    /**
     * `create_pgsql_user(username, password)`.  The loop draws candidate names
     * until one is not a database; `iterations` counts its rounds, which are
     * the rounds `AllocateDbName` counts.
     */
    method CreatePgsqlUser(rng: Entropy, username: string, password: Option<string>)
      returns (r: Result<(string, string, string), Error>, ghost iterations: nat)
      modifies this, rng
      ensures var o := Tasks.CreatePgsqlUser(old(State()), old(rng.pool), username, password);
        State() == o.state && rng.pool == o.pool && r == o.result
      ensures r.Success? ==>
        var rest := ResolvePassword(password, old(rng.pool)).value.1;
        AllocateDbName(rest, old(databases).Keys) == Some((r.value.2, iterations))
    {
      iterations := 0;
      if username in roles {
        return Failure(Taken(username)), 0;
      }
      var pw: string;
      if password.None? {
        var generated := rng.GenPass(PasswordLength);
        if generated.None? {
          return Failure(NoEntropy), 0;
        }
        pw := generated.value;
      } else {
        pw := password.value;
      }
      roles := roles[username := Role(pw, true)];

      ghost var rest := rng.pool;
      ghost var before := databases;
      ghost var withRole := State();
      assert ResolvePassword(password, old(rng.pool)) == Some((pw, rest));
      var dbNotCreated := true;
      var dbName := "";
      while dbNotCreated
        invariant DbRandomLength * iterations <= |rest| && rng.pool == rest[DbRandomLength * iterations..]
        invariant State() == withRole.(databases := databases)
        invariant dbNotCreated ==>
          databases == before && Drained(rest) == Drained(rng.pool) &&
          AllocateDbName(rest, before.Keys) == Later(AllocateDbName(rng.pool, before.Keys), iterations)
        invariant !dbNotCreated ==>
          databases == before[dbName := username] &&
          AllocateDbName(rest, before.Keys) == Some((dbName, iterations))
        decreases |rng.pool|
      {
        ghost var drawn := rng.pool;
        var candidate := rng.GenPass(DbRandomLength);
        if candidate.None? {
          return Failure(NoEntropy), iterations;
        }
        dbName := candidate.value + DbSuffix;
        assert dbName == DbCandidate(drawn[..DbRandomLength]);
        assert drawn[DbRandomLength..] == rest[DbRandomLength * (iterations + 1)..];
        LaterStep(AllocateDbName(drawn[DbRandomLength..], before.Keys), iterations);
        iterations := iterations + 1;
        if dbName !in databases {
          databases := databases[dbName := username];
          dbNotCreated := false;
        }
      }
      r := Success((username, pw, dbName));
    }

    /** `create_venv(name, version)`, connected as `user`. */
    method CreateVenv(user: string, name: string, version: string) returns (error: Option<Error>)
      modifies this
      ensures (State(), error) == Tasks.CreateVenv(old(State()), user, name, version)
    {
      var path := HomeFile(user, name);
      if path !in venvs {
        var command := VirtualenvCommand(name, version);
        if command.None? {
          return Some(VersionError);
        }
        Execute(Run, user, command.value);
        venvs := venvs + {path};
        Append(HomeFile(user, ".bashrc"), Activate(name));
      }
      Execute(Run, user, InVirtualenv(name, GetPip));
      error := None;
    }

    /** `push_key()`, connected as `user`: `user.add_ssh_public_key`. */
    method PushKey(user: string, key: string)
      modifies this
      ensures State() == Tasks.PushKey(old(State()), user, key)
    {
      authorizedKeys := authorizedKeys[user := KeysOf(State(), user) + {key}];
    }

    /** `pip_install(*packages)` into the virtualenv `venv` the operator names. */
    method PipInstall(user: string, venv: string, packages: seq<string>)
      modifies this
      ensures State() == Tasks.PipInstall(old(State()), user, venv, packages)
    {
      Execute(Run, user, InVirtualenv(venv, PipInstallCommand(packages)));
    }

    /** `pip_install_requirements()`. */
    method PipInstallRequirements(user: string)
      modifies this
      ensures State() == Tasks.PipInstallRequirements(old(State()), user)
    {
      Execute(Run, user, InVirtualenv("venv", PipRequirementsCommand));
    }

    /** `reload_services(*apps)`: `service.reload` of each app in turn. */
    method ReloadServices(apps: seq<string>)
      modifies this
      ensures State() == Tasks.ReloadServices(old(State()), apps)
    {
      var targets := apps;
      if |targets| == 0 {
        targets := DefaultServices;
      }
      for i := 0 to |targets|
        invariant State() == old(State()).(log := old(log) + Reloads(targets[..i]))
      {
        assert Reloads(targets[..i + 1]) == Reloads(targets[..i]) + [Reload(targets[i])];
        log := log + [Reload(targets[i])];
      }
      assert targets[..|targets|] == targets;
    }

    /**
     * The steps of `create_domain` between the virtualenv and the database,
     * connected as `user`: the home directory and site folders, the nginx log
     * files, the uWSGI vassal and the nginx site.
     */
    method PublishSite(user: string, version: string)
      modifies this
      ensures State() == Tasks.PublishSite(old(State()), user, version)
    {
      ghost var s := old(State());
      Execute(Run, user, "chmod 775 ~/");
      Append(HomeFile(user, ".bashrc"), "umask 002");
      Execute(Run, user, "mkdir site-dir");
      Execute(Run, user, "mkdir site-dir/staticfiles");
      Execute(Run, user, "touch ~/nginx_access.log");
      Execute(Sudo, user, "chgrp root nginx_access.log");
      Execute(Run, user, "touch ~/nginx_error.log");
      Execute(Sudo, user, "chgrp root nginx_error.log");
      assert log == s.log + SiteCommands(user);
      ghost var bashrc := AppendText(s.files, HomeFile(user, ".bashrc"), "umask 002");
      assert State() == s.(log := s.log + SiteCommands(user), files := bashrc);

      var plugins: seq<string> := [];
      if version == "3" {
        plugins := plugins + ["python3"];
      }
      if version == "2" {
        plugins := plugins + ["python2"];
      }
      assert Join(", ", plugins) == PluginsValue(version);
      UwsgiIniRenders(user, Join(", ", plugins));
      var ini := Format(UwsgiIni(), UwsgiArgs(user, Join(", ", plugins)));
      assert ini.value == UwsgiText(user, version);
      Append(HomeFile(user, "uwsgi.ini"), ini.value);
      Symlink(HomeFile(user, "uwsgi.ini"), Vassals + user + ".ini");

      NginxConfRenders(user);
      var site := Format(NginxConf(), NginxArgs(user));
      assert site.value == NginxText(user);
      Append(SitesAvailable + user, site.value);
      EnableSite(user);
    }

    /**
     * `create_domain(domain, password, version)`, pushing `key` as the new
     * user's ssh key.  Everything after `create_user` runs connected as the
     * new user.
     */
    method CreateDomain(rng: Entropy, domain: string, password: Option<string>, version: string, key: string)
      returns (r: Result<(), Error>)
      modifies this, rng
      ensures var o := Tasks.CreateDomain(old(State()), old(rng.pool), domain, password, version, key);
        State() == o.state && rng.pool == o.pool && r == o.result
    {
      var account := CreateUser(rng, domain, password);
      if account.Failure? {
        return Failure(account.error);
      }
      var (unixUser, unixPass) := account.value;
      PushKey(unixUser, key);
      var venvError := CreateVenv(unixUser, "venv", version);
      if venvError.Some? {
        return Failure(venvError.value);
      }
      PublishSite(unixUser, version);

      var db: Result<(string, string, string), Error>;
      ghost var iterations: nat;
      if password == Some(unixPass) {
        db, iterations := CreatePgsqlUser(rng, unixUser, password);
      } else {
        db, iterations := CreatePgsqlUser(rng, unixUser, None);
      }
      if db.Failure? {
        return Failure(db.error);
      }
      var (pqlUser, pqlPass, pqlName) := db.value;
      ReadmeFileRenders(unixUser, unixPass, pqlUser, pqlPass, pqlName);
      var readme := Format(ReadmeFile(), ReadmeArgs(unixUser, unixPass, pqlUser, pqlPass, pqlName));
      Append(HomeFile(unixUser, "README.txt"), readme.value);
      r := Success(());
    }
  }

  /** The allocation result of a loop that has already made `k` rounds. */
  function Later(a: Option<(string, nat)>, k: nat): Option<(string, nat)> {
    match a
    case None => None
    case Some((name, n)) => Some((name, n + k))
  }

  lemma LaterStep(a: Option<(string, nat)>, k: nat)
    ensures Later(Later(a, 1), k) == Later(a, k + 1)
  {
  }
}
