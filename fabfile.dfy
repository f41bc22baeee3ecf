/**
 * The pure parts of the provisioning script: password generation, the
 * database-name candidates of `create_pgsql_user`, the uWSGI plugin list of
 * `create_domain`, and the shell commands the tasks issue.
 */
module Fabfile {
  import opened Wrappers
  import opened Base58
  import opened PyFormat

  /** Python's `s[:n]` for `n >= 0`. */
  function Prefix(s: string, n: nat): (r: string)
    ensures |r| == if n <= |s| then n else |s|
    ensures r == s[..|r|]
  {
    if n <= |s| then s[..n] else s
  }

  /**
   * `gen_pass(length)`: the base58 encoding of `length` random bytes, cut to
   * `length` characters.  The bytes are what `os.urandom(length)` returned.
   */
  function GenPass(length: nat, random: seq<Byte>): (p: string)
    requires |random| == length
    ensures |p| == length
    ensures forall i :: 0 <= i < |p| ==> InAlphabet(p[i])
    ensures p <= Encode(random)
  {
    EncodeLength(random);
    EncodeInAlphabet(random);
    Prefix(Encode(random), length)
  }

  /** A generated password or name never contains `0`, `O`, `I` or `l`. */
  lemma GenPassReadable(length: nat, random: seq<Byte>, i: nat)
    requires |random| == length && i < length
    ensures GenPass(length, random)[i] !in ['0', 'O', 'I', 'l']
  {
    AlphabetExcludesLookalikes(GenPass(length, random)[i]);
  }

  /** Passwords are `gen_pass(10)`. */
  const PasswordLength: nat := 10

  /** Database names are `gen_pass(12)` followed by `_DB`. */
  const DbRandomLength: nat := 12

  const DbSuffix: string := "_DB"

  /** One candidate database name, from the 12 random bytes of one loop iteration. */
  function DbCandidate(random: seq<Byte>): (name: string)
    requires |random| == DbRandomLength
    ensures |name| == DbRandomLength + |DbSuffix|
    ensures name[DbRandomLength..] == DbSuffix
    ensures forall i :: 0 <= i < DbRandomLength ==> InAlphabet(name[i])
  {
    GenPass(DbRandomLength, random) + DbSuffix
  }

  /** The candidate the `k`-th iteration (from 0) draws from `pool`. */
  function Candidate(pool: seq<Byte>, k: nat): string
    requires DbRandomLength * (k + 1) <= |pool|
  {
    DbCandidate(pool[DbRandomLength * k..DbRandomLength * (k + 1)])
  }

  /**
   * The "regenerate until unused" loop of `create_pgsql_user`, as a function
   * of the random bytes it draws from: the first candidate that is not an
   * existing database, together with the number of iterations it took.
   * `None` when the bytes run out first (`os.urandom` raising).
   */
  function AllocateDbName(pool: seq<Byte>, existing: set<string>): (r: Option<(string, nat)>)
    ensures r.Some? ==> r.value.0 !in existing && |r.value.0| == DbRandomLength + |DbSuffix|
    ensures r.Some? ==> r.value.0[DbRandomLength..] == DbSuffix
    ensures r.Some? ==> forall i :: 0 <= i < DbRandomLength ==> InAlphabet(r.value.0[i])
    ensures r.Some? ==> 1 <= r.value.1 && DbRandomLength * r.value.1 <= |pool|
    decreases |pool|
  {
    if |pool| < DbRandomLength then None
    else
      var name := DbCandidate(pool[..DbRandomLength]);
      if name !in existing then Some((name, 1))
      else
        match AllocateDbName(pool[DbRandomLength..], existing)
        case None => None
        case Some((n, k)) => Some((n, k + 1))
  }

  lemma CandidateShift(pool: seq<Byte>, k: nat)
    requires DbRandomLength * (k + 2) <= |pool|
    ensures Candidate(pool[DbRandomLength..], k) == Candidate(pool, k + 1)
  {
    assert pool[DbRandomLength..][DbRandomLength * k..DbRandomLength * (k + 1)]
        == pool[DbRandomLength * (k + 1)..DbRandomLength * (k + 2)];
  }

  /** If the first `k` candidates are taken and the next one is free, the loop runs exactly `k + 1` times. */
  lemma {:induction false} CollisionsThenFree(pool: seq<Byte>, existing: set<string>, k: nat)
    requires DbRandomLength * (k + 1) <= |pool|
    requires forall j :: 0 <= j < k ==> Candidate(pool, j) in existing
    requires Candidate(pool, k) !in existing
    ensures AllocateDbName(pool, existing) == Some((Candidate(pool, k), k + 1))
    decreases k
  {
    if k > 0 {
      assert Candidate(pool, 0) in existing;
      assert pool[..DbRandomLength] == pool[0..DbRandomLength];
      var rest := pool[DbRandomLength..];
      forall j | 0 <= j < k - 1
        ensures Candidate(rest, j) in existing
      {
        CandidateShift(pool, j);
      }
      CandidateShift(pool, k - 1);
      CollisionsThenFree(rest, existing, k - 1);
    }
  }

  /** Taken candidates of the rest of the pool are taken candidates of the pool, one further on. */
  lemma CollisionsShift(pool: seq<Byte>, existing: set<string>, k: nat)
    requires DbRandomLength * (k + 1) <= |pool|
    requires Candidate(pool, 0) in existing
    requires forall j :: 0 <= j < k ==> Candidate(pool[DbRandomLength..], j) in existing
    ensures forall j :: 0 <= j < k + 1 ==> Candidate(pool, j) in existing
  {
    forall j | 0 < j < k + 1
      ensures Candidate(pool, j) in existing
    {
      CandidateShift(pool, j - 1);
    }
  }

  /** Conversely, a name the loop settles on after `k` iterations is the `k`-th candidate, after `k - 1` taken ones. */
  lemma {:induction false} AllocatedAfterCollisions(pool: seq<Byte>, existing: set<string>)
    requires AllocateDbName(pool, existing).Some?
    ensures var (n, k) := AllocateDbName(pool, existing).value;
      n == Candidate(pool, k - 1) &&
      forall j :: 0 <= j < k - 1 ==> Candidate(pool, j) in existing
    decreases |pool|
  {
    assert pool[..DbRandomLength] == pool[0..DbRandomLength];
    if DbCandidate(pool[..DbRandomLength]) in existing {
      var rest := pool[DbRandomLength..];
      AllocatedAfterCollisions(rest, existing);
      var k := AllocateDbName(rest, existing).value.1;
      CandidateShift(pool, k - 1);
      CollisionsShift(pool, existing, k - 1);
    }
  }

  /** The plugin list `create_domain` builds: `python3` for version "3", `python2` for "2", none otherwise. */
  function PluginList(version: string): (plugins: seq<string>)
    ensures version == "3" ==> plugins == ["python3"]
    ensures version == "2" ==> plugins == ["python2"]
    ensures version != "2" && version != "3" ==> plugins == []
  {
    if version == "3" then ["python3"] else if version == "2" then ["python2"] else []
  }

  /** The `plugins` value written into `uwsgi.ini`. */
  function PluginsValue(version: string): string {
    Join(", ", PluginList(version))
  }

  /** Only the plugin for the version is loaded; any other version loads none. */
  lemma PluginsValueCases(version: string)
    ensures version == "3" ==> PluginsValue(version) == "python3"
    ensures version == "2" ==> PluginsValue(version) == "python2"
    ensures version != "2" && version != "3" ==> PluginsValue(version) == ""
  {
  }

  /** The line that activates virtualenv `~/name`: the `.bashrc` line and the prefix of `source_virtualenv`. */
  function Activate(name: string): string {
    "source ~/" + name + "/bin/activate"
  }

  /** A command run inside `with source_virtualenv(name)`: Fabric joins the prefix with `&&`. */
  function InVirtualenv(name: string, command: string): string {
    Activate(name) + " && " + command
  }

  const GetPip: string := "curl --silent https://bootstrap.pypa.io/get-pip.py | python"

  /** The command `create_venv` uses to create `~/name`, or `None` for an unknown version. */
  function VirtualenvCommand(name: string, version: string): (c: Option<string>)
    ensures c.Some? <==> version == "2" || version == "3"
  {
    if version == "2" then Some("python -m virtualenv ~/" + name + " --no-pip ")
    else if version == "3" then Some("python3 -m venv ~/" + name + " --symlinks --without-pip")
    else None
  }

  /** `pip_install`: one `pip install -U` of all packages, separated by spaces. */
  function PipInstallCommand(packages: seq<string>): (c: string)
    ensures |packages| == 1 ==> c == "pip install -U " + packages[0]
  {
    "pip install -U " + Join(" ", packages)
  }

  /** The requirements file `pip_install_requirements` installs from. */
  const RequirementsFile: string := "~/site-dir/requirements.txt"

  const PipRequirementsCommand: string := "pip install -U -r " + RequirementsFile

  /** `reload_services` with no argument reloads nginx and the uWSGI emperor. */
  const DefaultServices: seq<string> := ["nginx", "uwsgi-emperor"]

  function ReloadTargets(apps: seq<string>): (r: seq<string>)
    ensures |r| > 0
    ensures |apps| > 0 ==> r == apps
  {
    if |apps| == 0 then DefaultServices else apps
  }
}
