# Tenant provisioning fabfile, modelled in Dafny

`do_server_setup/fabfile.py` is a set of Fabric tasks that turn one remote
Ubuntu host into a multi-tenant web host. `create_domain` is the
orchestrator. It creates a unix account (`create_user`) and pushes the
operator's ssh key. It creates a Python virtualenv at `~/venv`
(`create_venv`). It writes a uWSGI vassal (`uwsgi.ini`, linked into
`/etc/uwsgi-emperor/vassals/`) and an nginx site (written to
`/etc/nginx/sites-available/` and enabled). It creates a PostgreSQL role and
a freshly named database (`create_pgsql_user`). Last, it leaves a
`README.txt` with all credentials in the tenant's home.

The model has three layers.

- **Pure parts**, as functions and lemmas:
  - `Base58` is the `b58encode` encoder.
  - `PyFormat` covers Python's `str.format` with keyword fields and `sep.join`.
  - `Templates` holds the three templates `UWSGI_INI`, `NGINX_CONF` and
    `README_FILE`, with what formatting makes of them.
  - `Fabfile` holds `gen_pass`, the database-name candidates and the
    "regenerate until unused" allocation, the uWSGI plugin list and the
    shell commands.
- **The host as a value** (`Tasks`): a `HostState` record holds the unix
  accounts, PostgreSQL roles, databases and owners, virtualenvs, file
  contents, symlinks, enabled nginx sites, authorised ssh keys and the log of
  issued `run`/`sudo` commands and service reloads. Each task is a function
  from the state before to an `Outcome`. An `Outcome` is the state after, the
  random bytes still unused, and the return value or the raised exception.
  `TaskFacts` proves what the tasks guarantee: their guards, the frame
  ("nothing else changes"), the rendered files and the consistency invariant
  `Valid`.
- **The host as an object** (`Provision`): class `Host` keeps the same
  fields and updates them step by step. Each task is a method, and
  `create_pgsql_user` keeps its `while db_not_created` loop. Class `Entropy`
  stands for `os.urandom`. Every task method is proved to end in exactly the
  state, remaining entropy and result that the `Tasks` function gives.
  Everything `TaskFacts` proves therefore holds of the methods.

`os.urandom` is modelled as a finite pool of bytes that the tasks draw from
in order. When the pool has too few bytes, the model reports `NoEntropy`,
which stands for `os.urandom` raising. This makes the database-name loop
terminate with no assumption about how many names are taken.

The model follows the code in these points:

- Configuration files are written with `files.append` (`fabfile.py:256`,
  `:263`, `:274`). The model appends the text every time. Fabric's check that
  skips text already present in the file is left out.
- A bad Python version raises `KeyError`, and only when the virtualenv does
  not exist yet. For an existing virtualenv any version string is accepted
  (`fabfile.py:297-304`).
- The nginx log files get group `root` (`fabfile.py:245`, `:247`). The plugins
  are `python3` and `python2` (`fabfile.py:251-254`).
- `gen_pass(n)` cuts the encoding to `n` characters. The model proves that
  the result always has exactly `n` characters, because `n` bytes never
  encode to fewer than `n` base58 digits.

## Model

| member | source | states |
|---|---|---|
| `Base58.Encode` | do_server_setup/fabfile.py:113-114 | defines `b58encode`: one `1` per leading zero byte, then the rest of the bytes as a big-endian number in base 58 |
| `PyFormat.Format` | do_server_setup/fabfile.py:256-257 | defines `str.format` with keyword fields: `{{`/`}}` escapes, `{name}` substitution, and `KeyError`, `IndexError` or `ValueError` for a bad field |
| `PyFormat.Join` | do_server_setup/fabfile.py:56-68 | defines `sep.join(parts)`; one part joins to itself |
| `Templates.UwsgiIni` | do_server_setup/fabfile.py:56-68 | defines the `UWSGI_INI` format string, line by line |
| `Templates.NginxConf` | do_server_setup/fabfile.py:70-89 | defines the `NGINX_CONF` format string, with `{{`/`}}` for literal braces |
| `Templates.ReadmeFile` | do_server_setup/fabfile.py:91-108 | defines the `README_FILE` format string with its five credential fields |
| `Fabfile.Activate` | do_server_setup/fabfile.py:117-120 | defines the line `source ~/<name>/bin/activate` that `source_virtualenv` prefixes and `create_venv` puts in `.bashrc` |
| `Fabfile.InVirtualenv` | do_server_setup/fabfile.py:117-120 | defines a command run inside `with source_virtualenv(name)`: the activation, `&&`, the command |
| `Tasks.CreateUser` | do_server_setup/fabfile.py:177-197 | defines `create_user` on a host value: `KeyError` for a taken name, otherwise the account and `(name, password)` |
| `Tasks.CreatePgsqlUser` | do_server_setup/fabfile.py:200-223 | defines `create_pgsql_user` on a host value: `KeyError` for a taken role, otherwise the `createdb` role and one database named by `AllocateDbName` |
| `Tasks.CreateVenv` | do_server_setup/fabfile.py:295-309 | defines `create_venv` on a host value: skip creation for an existing virtualenv, `KeyError` for another version, then get-pip |
| `Tasks.PushKey` | do_server_setup/fabfile.py:283-285 | defines `push_key`: the key joins the user's authorised keys |
| `Tasks.PipInstall` | do_server_setup/fabfile.py:164-168 | defines `pip_install`: one logged `pip install -U` inside the virtualenv |
| `Tasks.PipInstallRequirements` | do_server_setup/fabfile.py:171-174 | defines `pip_install_requirements`: one logged install of `~/site-dir/requirements.txt` inside `~/venv` |
| `Tasks.ReloadServices` | do_server_setup/fabfile.py:288-292 | defines `reload_services`: one logged reload per target service |
| `Tasks.PublishSite` | do_server_setup/fabfile.py:236-266 | defines the site steps of `create_domain`: commands, `.bashrc`, `uwsgi.ini`, vassal link, nginx site |
| `Tasks.RegisterDatabase` | do_server_setup/fabfile.py:268-280 | defines the end of `create_domain`: `create_pgsql_user`, then `README.txt` |
| `Tasks.SetUpDomain` | do_server_setup/fabfile.py:229-280 | defines the steps `create_domain` runs as the new user |
| `Tasks.CreateDomain` | do_server_setup/fabfile.py:226-280 | defines `create_domain`: `create_user`, then the steps as the new user, with the caller's password reused for the role only when one was given |
| `Base58.EncodeInAlphabet` | do_server_setup/fabfile.py:113-114 | every character `b58encode` produces is in the Bitcoin base58 alphabet |
| `Base58.AlphabetExcludesLookalikes` | do_server_setup/fabfile.py:113-114 | the base58 alphabet has no `0`, `O`, `I` or `l` |
| `Base58.DigitInAlphabet` | do_server_setup/fabfile.py:113-114 | each of the 58 digits is an alphabet character and reads back as itself |
| `Base58.EncodeLength` | do_server_setup/fabfile.py:113-114 | the encoding of `n` bytes has at least `n` characters, so `[:length]` always keeps `length` of them |
| `Base58.ValueDigits` | do_server_setup/fabfile.py:113-114 | reading the base58 digits of a number back gives the number |
| `Base58.DigitsBounds` | do_server_setup/fabfile.py:113-114 | a number with `d` digits lies in `[58^(d-1), 58^d)`: no leading zero digits |
| `Base58.EncodeReadsBack` | do_server_setup/fabfile.py:113-114 | the encoding starts with one `1` per leading zero byte, and the digits after them stand for the rest of the bytes as a big-endian number |
| `Fabfile.GenPass` | do_server_setup/fabfile.py:113-114 | `gen_pass(length)` has exactly `length` characters, all base58, and is a prefix of the encoding of the random bytes |
| `Fabfile.GenPassReadable` | do_server_setup/fabfile.py:113-114 | no generated password or name contains `0`, `O`, `I` or `l` |
| `Provision.Entropy.Urandom` | do_server_setup/fabfile.py:114 | `os.urandom(n)` gives the next `n` bytes and consumes them, or raises and consumes nothing |
| `Provision.Entropy.GenPass` | do_server_setup/fabfile.py:113-114 | the method draws `length` bytes and returns `Fabfile.GenPass` of them, or fails without drawing |
| `PyFormat.FormatField` | do_server_setup/fabfile.py:256-257 | `{name}` formats to the value of keyword `name` |
| `PyFormat.FormatOpen` | do_server_setup/fabfile.py:71 | `{{` formats to a single `{` |
| `PyFormat.FormatClose` | do_server_setup/fabfile.py:73 | `}}` formats to a single `}` |
| `PyFormat.FormatPlain` | do_server_setup/fabfile.py:56-68 | brace-free text formats to itself |
| `PyFormat.FormatConcat` | do_server_setup/fabfile.py:56-68 | a format string that formats on its own formats the same way in front of any continuation |
| `PyFormat.FormatJoin` | do_server_setup/fabfile.py:56-68 | `"\n".join(lines).format(...)` is the join of the lines formatted one by one |
| `Templates.FormatPieces` | do_server_setup/fabfile.py:56-108 | `str.format` of a template line is its substitution: fields by their values, `{{`/`}}` by single braces |
| `Templates.FormatTemplate` | do_server_setup/fabfile.py:56-108 | `str.format` of a newline-joined template is the newline join of its rendered lines |
| `Templates.UwsgiIniRenders` | do_server_setup/fabfile.py:56-68 | `UWSGI_INI.format(domain=..., plugins=...)` never raises and gives the rendered lines joined by newlines |
| `Templates.UwsgiIniTenantLines` | do_server_setup/fabfile.py:56-68 | rendered `uwsgi.ini` has `plugins = <plugins>`, `uid = <user>`, `venv = /home/<user>/venv` and the socket `/home/<user>/uwsgi.sock` |
| `Templates.NginxConfRenders` | do_server_setup/fabfile.py:70-89 | `NGINX_CONF.format(domain=...)` never raises and gives the rendered lines joined by newlines |
| `Templates.NginxConfTenantLines` | do_server_setup/fabfile.py:70-89 | the upstream is named after the user and points at the user's uWSGI socket; `server_name` and `uwsgi_pass` name the user; `}}` comes out as `}` |
| `Templates.ReadmeFileRenders` | do_server_setup/fabfile.py:91-108 | `README_FILE.format(...)` with the five credentials never raises |
| `Templates.ReadmeFileCredentials` | do_server_setup/fabfile.py:91-98 | the README's lines 2-7 give the unix user and password, then the PostgreSQL user, password and database name, in that order |
| `Fabfile.DbCandidate` | do_server_setup/fabfile.py:212 | a candidate database name is 12 base58 characters followed by `_DB` |
| `Fabfile.AllocateDbName` | do_server_setup/fabfile.py:209-215 | the name the loop settles on ends in `_DB` and is not an existing database, and the loop ran at least once and drew 12 bytes per round |
| `Fabfile.CollisionsThenFree` | do_server_setup/fabfile.py:209-215 | if the first `k` candidates are taken and the next is free, the loop picks candidate `k` after exactly `k + 1` rounds |
| `Fabfile.AllocatedAfterCollisions` | do_server_setup/fabfile.py:209-215 | conversely, a name picked after `k` rounds is candidate `k - 1`, and every earlier candidate was an existing database |
| `Fabfile.PluginList` | do_server_setup/fabfile.py:250-254 | the plugin list is `["python3"]` for version `"3"`, `["python2"]` for `"2"`, and empty otherwise |
| `Fabfile.PluginsValueCases` | do_server_setup/fabfile.py:250-257 | the `plugins` value in `uwsgi.ini` is `python3`, `python2` or empty |
| `Fabfile.VirtualenvCommand` | do_server_setup/fabfile.py:298-304 | a creation command exists exactly for versions `"2"` and `"3"` |
| `Fabfile.PipInstallCommand` | do_server_setup/fabfile.py:164-168 | `pip_install` of one package is `pip install -U <package>` |
| `Fabfile.ReloadTargets` | do_server_setup/fabfile.py:288-292 | the services to reload are never empty and are the given ones when any are given |
| `Tasks.AppendText` | do_server_setup/fabfile.py:256 | `files.append` adds the text and a newline at the end of the file and touches no other file |
| `Tasks.ResolvePassword` | do_server_setup/fabfile.py:182-183 | a given password is kept and no bytes are drawn; otherwise `gen_pass(10)` is drawn, or entropy runs out |
| `TaskFacts.CreateUserOutcome` | do_server_setup/fabfile.py:177-197 | a taken name raises `KeyError` and changes nothing; otherwise exactly one account is added, in `www-data` with `sudo`, `/bin/bash` and `/home/<name>`, and `(name, password)` is returned, the password being the given one or `gen_pass(10)` of the next bytes; `Valid` is kept |
| `TaskFacts.CreatePgsqlUserTaken` | do_server_setup/fabfile.py:201-203 | an existing role raises `KeyError`, and no role or database is created |
| `TaskFacts.CreatePgsqlUserFrame` | do_server_setup/fabfile.py:200-223 | only the role and at most one database are added; existing roles, databases and all other state are unchanged; after an error no database was created |
| `TaskFacts.CreatePgsqlUserCreates` | do_server_setup/fabfile.py:205-215 | on success the role has `createdb` and the given or generated password, and exactly one new database exists, owned by the role, with a name of 12 base58 characters plus `_DB` that was not a database before |
| `TaskFacts.CreatePgsqlUserRetries` | do_server_setup/fabfile.py:209-215 | the database name is the first free candidate: every earlier candidate named an existing database |
| `TaskFacts.CreatePgsqlUserValid` | do_server_setup/fabfile.py:200-223 | every database still belongs to an existing role |
| `TaskFacts.CreateVenvFails` | do_server_setup/fabfile.py:297-304 | `KeyError` is raised exactly when the virtualenv is missing and the version is not `"2"`/`"3"`, and then no command is issued and nothing changes |
| `TaskFacts.CreateVenvExisting` | do_server_setup/fabfile.py:297-309 | for an existing virtualenv, creation and the `.bashrc` line are skipped and only the get-pip command runs, for any version |
| `TaskFacts.CreateVenvCreates` | do_server_setup/fabfile.py:297-309 | a new virtualenv is created with the version's command, `source ~/<name>/bin/activate` is appended to `.bashrc`, then get-pip runs inside it |
| `TaskFacts.CreateVenvFrame` | do_server_setup/fabfile.py:295-309 | after success the virtualenv exists and the last command is the activated get-pip; accounts, roles, databases, links, sites and keys are untouched |
| `TaskFacts.CreateVenvTwice` | do_server_setup/fabfile.py:297 | a second `create_venv` of the same virtualenv only reruns get-pip |
| `TaskFacts.PushKeyOutcome` | do_server_setup/fabfile.py:283-285 | the key becomes one of the user's authorised keys, other users' keys are kept, and pushing it again changes nothing |
| `TaskFacts.PipInstallOutcome` | do_server_setup/fabfile.py:164-168 | one command, `source ~/<venv>/bin/activate && pip install -U <packages joined by spaces>` |
| `TaskFacts.PipInstallRequirementsIsPipInstall` | do_server_setup/fabfile.py:171-174 | it is `pip_install` of `-r ~/site-dir/requirements.txt` into `~/venv` |
| `TaskFacts.ReloadServicesOutcome` | do_server_setup/fabfile.py:288-292 | with no argument nginx and uwsgi-emperor are reloaded; otherwise each given service in order; nothing else changes |
| `TaskFacts.UwsgiTextLines` | do_server_setup/fabfile.py:250-257 | the written `uwsgi.ini` loads the version's plugin and names the unix user as `uid`, in the venv path and in the socket path |
| `TaskFacts.NginxTextLines` | do_server_setup/fabfile.py:262-265 | the nginx site names its upstream and `server_name` after the user, with single braces |
| `TaskFacts.ReadmeTextLines` | do_server_setup/fabfile.py:274-280 | `README.txt` holds the unix user and password, then the PostgreSQL user, password and database name |
| `TaskFacts.PublishSiteOutcome` | do_server_setup/fabfile.py:236-266 | the chmod, mkdir, touch and `chgrp root` commands in order; `.bashrc` ends with `umask 002`; `uwsgi.ini` ends with the formatted `UWSGI_INI`; `/etc/uwsgi-emperor/vassals/<user>.ini` links to `/home/<user>/uwsgi.ini`; the nginx site ends with the formatted `NGINX_CONF` and is enabled; every other file, account, role, database, virtualenv and key is untouched |
| `TaskFacts.CreateDomainTaken` | do_server_setup/fabfile.py:226-228 | `create_domain` for an existing user raises `KeyError` and changes nothing |
| `TaskFacts.RegisterDatabaseOutcome` | do_server_setup/fabfile.py:268-280 | a role named after the user owns one new database, and `README.txt` ends with both credential pairs and the database name; only that file changes |
| `TaskFacts.RegisterDatabaseValid` | do_server_setup/fabfile.py:268-280 | the end of `create_domain` keeps every database owned by an existing role |
| `TaskFacts.SetUpDomainOutcome` | do_server_setup/fabfile.py:229-280 | after the steps run as the new user: key pushed, `~/venv` exists, vassal linked, nginx site enabled, role and database created, README written |
| `TaskFacts.CreateDomainOutcome` | do_server_setup/fabfile.py:226-280 | a successful `create_domain` created exactly the new account and then ran the steps as that user, passing the caller's password to `create_pgsql_user` exactly when one was given |
| `TaskFacts.CreateDomainPasswords` | do_server_setup/fabfile.py:228-272 | the role's password equals the unix password when the caller gave one; otherwise the two are generated from separate random bytes (the first ten and the next ten) |
| `TaskFacts.CreateDomainTwice` | do_server_setup/fabfile.py:226-228 | running `create_domain` again for a domain it set up raises `KeyError` and leaves the host, web configuration included, unchanged |
| `TaskFacts.CreateDomainValid` | do_server_setup/fabfile.py:226-280 | `create_domain` keeps `Valid` whether it completes or raises part-way: databases have owners, enabled sites and link targets exist |
| `Provision.Host.Execute` | do_server_setup/fabfile.py:236 | `run`/`sudo` only appends the command, with its privilege and user, to the log |
| `Provision.Host.Append` | do_server_setup/fabfile.py:256 | `files.append` changes only that file, as `Tasks.AppendText` says |
| `Provision.Host.Symlink` | do_server_setup/fabfile.py:258-260 | `symlink` sets only that link |
| `Provision.Host.EnableSite` | do_server_setup/fabfile.py:266 | `nginx.enable` adds only that site |
| `Provision.Host.CreateUser` | do_server_setup/fabfile.py:177-197 | the method ends in the state, remaining entropy and result of `Tasks.CreateUser` |
| `Provision.Host.CreatePgsqlUser` | do_server_setup/fabfile.py:200-223 | the `while db_not_created` loop ends in the state, remaining entropy and result of `Tasks.CreatePgsqlUser`, after as many rounds as `AllocateDbName` counts |
| `Provision.Host.CreateVenv` | do_server_setup/fabfile.py:295-309 | the method ends in the state and error of `Tasks.CreateVenv` |
| `Provision.Host.PushKey` | do_server_setup/fabfile.py:283-285 | the method ends in the state of `Tasks.PushKey` |
| `Provision.Host.PipInstall` | do_server_setup/fabfile.py:164-168 | the method ends in the state of `Tasks.PipInstall` |
| `Provision.Host.PipInstallRequirements` | do_server_setup/fabfile.py:171-174 | the method ends in the state of `Tasks.PipInstallRequirements` |
| `Provision.Host.ReloadServices` | do_server_setup/fabfile.py:288-292 | the loop over the services ends in the state of `Tasks.ReloadServices` |
| `Provision.Host.PublishSite` | do_server_setup/fabfile.py:236-266 | the site steps, with the plugin list built by `append`, end in the state of `Tasks.PublishSite` |
| `Provision.Host.CreateDomain` | do_server_setup/fabfile.py:226-280 | the orchestration ends in the state, remaining entropy and result of `Tasks.CreateDomain` |

## Left out

- `connect`, `set_language` and `setup_server` (`fabfile.py:123-161`) are left out: they are interactive prompts, Fabric `env` settings, package installation and `sed` edits of system files.
- `USAGE`, `fabric_help` and the coloured `print`s of the tasks are left out: they only format output.
- `quickbits/ipaddr.py` is left out: it is only socket and `ioctl` system calls.
- The random bytes of `os.urandom` are an input, the pool of class `Entropy`. What the bytes are is not modelled.
- `b58encode` comes from the `base58` package, which is not part of this model. `Base58.Encode` follows the Bitcoin base58 algorithm that package implements.
- Remote commands never fail in the model. A non-zero exit of `run`/`sudo` would abort a task part-way, and that is not modelled.
- `Tasks.AppendText`: does not model the "append only if the line is not already there" check of `files.append`. The text is always appended.
- `with source_virtualenv(name)` is modelled as the prefix `source ~/<name>/bin/activate && `, which is how Fabric joins a prefix to a command. Fabric's wrapping of the whole command in `/bin/bash -l -c "…"` and its shell escaping are left out.
- `Tasks.PushKey`: the key is a string parameter. Reading the operator's `~/.ssh/id_rsa.pub` is left out.
- `Provision.Host.PipInstall`: the virtualenv name comes from an interactive `prompt`. It is a parameter here.
- The effects of shell commands are not modelled. These include `chmod`, `mkdir`, `touch`, `chgrp` and the `curl … get-pip.py | python` bootstrap. They appear only in the command log.
- The virtualenv directory is the one exception: `create_venv` records it in `venvs` after its creation command.
- `user.create`'s password hashing and `useradd` details are left out. The account records the group, extra groups, shell, home and password it is given.
- Authentication and the `sudo`/`run` privilege split are left out. Privilege is a tag on logged commands only.
- `PyFormat.Format`: models plain keyword fields only. Conversions, format specs, attribute or index access and numbered fields are not modelled; the templates use none of them.
