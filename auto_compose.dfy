/**
 * The current compose-file generator (`test compose`, auto-compose.js): a header,
 * the requested services from the registry, an always-present `tester` service,
 * and the file written under the temporary directory.
 */
module AutoCompose {
  import opened Wrappers
  import opened Json
  import opened Text
  import opened Effects
  import opened ComposeSpec
  import opened TestArgv

  /** The eight service constructors. */
  datatype Service = Redis | RedisCluster | RedisSentinel | Postgres | Rabbitmq | Elasticsearch | Cassandra | Couchdb

  /** SERVICE_MAP: the names `--services` may hold, each with its constructor. */
  const Registry: map<string, Service> := map[
    "redis" := Redis, "redisCluster" := RedisCluster, "redisSentinel" := RedisSentinel,
    "postgres" := Postgres, "rabbitmq" := Rabbitmq, "elasticsearch" := Elasticsearch,
    "cassandra" := Cassandra, "couchdb" := Couchdb]

  /** The key each constructor writes in `compose.services`. */
  function ServiceKey(s: Service): string {
    match s
    case Redis => "redis"
    case RedisCluster => "redis-cluster"
    case RedisSentinel => "redis-sentinel"
    case Postgres => "postgres"
    case Rabbitmq => "rabbitmq"
    case Elasticsearch => "elasticsearch"
    case Cassandra => "cassandra"
    case Couchdb => "couchdb"
  }

  /** The key of `argv.extras` whose value overrides a constructor's defaults. */
  function ExtrasKey(s: Service): string {
    match s
    case Redis => "redis"
    case RedisCluster => "redisCluster"
    case RedisSentinel => "redisSentinel"
    case Postgres => "postgres"
    case Rabbitmq => "rabbitmq"
    case Elasticsearch => "elasticsearch"
    case Cassandra => "cassandra"
    case Couchdb => "couchdb"
  }

  /** Different constructors write different keys. */
  lemma ServiceKeyInjective(a: Service, b: Service)
    ensures ServiceKey(a) == ServiceKey(b) ==> a == b
  {
  }

  /** The registry name of a constructor is its extras key. */
  lemma RegistryNames(n: string)
    ensures n in Registry ==> ExtrasKey(Registry[n]) == n
  {
  }

  function Strs(xs: seq<string>): Json {
    JArr(seq(|xs|, i requires 0 <= i < |xs| => JStr(xs[i])))
  }

  /** The script the sentinel container runs, shipped in the package's templates. */
  function SentinelEntrypoint(packageRoot: string): string {
    packageRoot + "/templates/redis-sentinel.sh"
  }

  /** Each constructor's default service definition. */
  function Defaults(s: Service, packageRoot: string): map<string, Json> {
    match s
    case Redis => map["image" := JStr("redis:6-alpine"), "hostname" := JStr("redis"), "expose" := Strs(["6379"])]
    case RedisCluster => map["image" := JStr("makeomatic/redis-cluster:5-alpine"), "hostname" := JStr("redis-cluster")]
    case RedisSentinel => map[
      "image" := JStr("redis:6-alpine"),
      "hostname" := JStr("redis-sentinel"),
      "expose" := Strs(["26379"]),
      "depends_on" := Strs(["redis"]),
      "volumes" := Strs([SentinelEntrypoint(packageRoot) + ":/entrypoint.sh:ro"]),
      "command" := JStr("/bin/sh /entrypoint.sh redis")]
    case Postgres => map[
      "image" := JStr("postgres:14-alpine"),
      "hostname" := JStr("postgres"),
      "environment" := JObj(map["POSTGRES_HOST_AUTH_METHOD" := JStr("trust")])]
    case Rabbitmq => map["image" := JStr("rabbitmq:3-management-alpine"), "hostname" := JStr("rabbitmq")]
    case Elasticsearch => map[
      "image" := JStr("elasticsearch:7.14.2"),
      "hostname" := JStr("elasticsearch"),
      "expose" := Strs(["9200", "9300"]),
      "environment" := JObj(map[
        "ES_JAVA_OPTS" := JStr("-Xms128m -Xmx128m"),
        "discovery.type" := JStr("single-node"),
        "http.host" := JStr("0.0.0.0"),
        "transport.host" := JStr("127.0.0.1"),
        "xpack.security.enabled" := JStr("false")]),
      "ulimits" := JObj(map[
        "memlock" := JObj(map["soft" := JNum(-1), "hard" := JNum(-1)]),
        "nofile" := JObj(map["soft" := JNum(65536), "hard" := JNum(65536)])]),
      "cap_add" := Strs(["IPC_LOCK"])]
    case Cassandra => map[
      "image" := JStr("cassandra:3.11"),
      "hostname" := JStr("cassandra"),
      "environment" := JObj(map["MAX_HEAP_SIZE" := JStr("128m"), "HEAP_NEWSIZE" := JStr("24m")])]
    case Couchdb => map[
      "image" := JStr("couchdb:2"),
      "hostname" := JStr("couchdb"),
      "environment" := JObj(map[
        "COUCHDB_USER" := JStr("admin"),
        "COUCHDB_PASSWORD" := JStr("admin"),
        "COUCHDB_SECRET" := JStr("secret"),
        "NODENAME" := JStr("docker")])]
  }

  /** `argv.extras[key]` is an object that sets field `k`. */
  predicate Overrides(extras: map<string, Json>, key: string, k: string) {
    key in extras && extras[key].JObj? && k in extras[key].fields
  }

  /** A value `merge` copies as it is: neither an object nor an array. */
  predicate Scalar(v: Json) {
    !v.JObj? && !v.JArr?
  }

  /** A constructor's service definition: its defaults merged with its extras. */
  function Definition(s: Service, extras: map<string, Json>, packageRoot: string): map<string, Json> {
    Merge(Defaults(s, packageRoot), Field(extras, ExtrasKey(s)))
  }

  /**
   * Extras override a constructor's defaults: fields the extras do not set keep
   * their defaults, fields they set to a plain value take that value, and no
   * other field appears.
   */
  lemma DefinitionOverrides(s: Service, extras: map<string, Json>, packageRoot: string)
    ensures var d := Definition(s, extras, packageRoot);
      var defaults := Defaults(s, packageRoot);
      defaults.Keys <= d.Keys &&
      (forall k :: k in d && k !in defaults ==> Overrides(extras, ExtrasKey(s), k)) &&
      (forall k :: k in defaults && !Overrides(extras, ExtrasKey(s), k) ==> d[k] == defaults[k]) &&
      (forall k :: Overrides(extras, ExtrasKey(s), k) && Scalar(extras[ExtrasKey(s)].fields[k]) ==>
         k in d && d[k] == extras[ExtrasKey(s)].fields[k])
  {
  }

  /** The constructors whose entries a constructor writes: the sentinel also writes `redis`. */
  function Writes(s: Service): set<Service> {
    if s == RedisSentinel then {Redis, RedisSentinel} else {s}
  }

  /** The entries one constructor adds to `compose.services`. */
  function Construct(s: Service, extras: map<string, Json>, packageRoot: string): (m: map<string, Json>)
    ensures m.Keys == set t | t in Writes(s) :: ServiceKey(t)
    ensures forall t :: t in Writes(s) ==> m[ServiceKey(t)] == JObj(Definition(t, extras, packageRoot))
  {
    var own := map[ServiceKey(s) := JObj(Definition(s, extras, packageRoot))];
    if s == RedisSentinel then map[ServiceKey(Redis) := JObj(Definition(Redis, extras, packageRoot))] + own else own
  }

  function Constructors(opts: Options, host: Host): Service -> map<string, Json> {
    s => Construct(s, opts.extras, host.packageRoot)
  }

  /** Two constructors never disagree on a key they both write. */
  lemma RegistryConsistent(opts: Options, host: Host)
    ensures Consistent(Registry, Constructors(opts, host))
  {
    var construct := Constructors(opts, host);
    forall n1, n2, k | n1 in Registry && n2 in Registry && k in construct(Registry[n1]) && k in construct(Registry[n2])
      ensures construct(Registry[n1])[k] == construct(Registry[n2])[k]
    {
      var t1 :| t1 in Writes(Registry[n1]) && k == ServiceKey(t1);
      var t2 :| t2 in Writes(Registry[n2]) && k == ServiceKey(t2);
      ServiceKeyInjective(t1, t2);
    }
  }

  /** The names the run asks for; no `--services` option means none. */
  function Requested(opts: Options): seq<string> {
    if opts.services.Some? then opts.services.value else []
  }

  /** The document before any service is added. */
  function Header(opts: Options, host: Host): Compose {
    Compose(
      JStr(opts.acv), map[], map[],
      Some(if opts.isMutagen then map[CodeVolume := JObj(map[])] else map[]),
      if opts.isMutagen then Some(Sync(host.cwd, "volume://" + CodeVolume)) else None)
  }

  const PwdMount := "${PWD}:/src"
  const CodeMount := CodeVolume + ":/src"

  /** The source mount the tester gets. */
  function Mount(opts: Options): string {
    if opts.isMutagen then CodeMount else PwdMount
  }

  function TesterImage(opts: Options): string {
    if Given(opts.testerImage) then opts.testerImage.value
    else "makeomatic/node:" + opts.node + "-" + opts.testerFlavour
  }

  function TesterDefaults(opts: Options): map<string, Json> {
    map[
      "image" := JStr(TesterImage(opts)),
      "hostname" := JStr("tester"),
      "working_dir" := JStr("/src"),
      "volumes" := JArr([]),
      "environment" := JObj(map["NODE_ENV" := JStr("test")]),
      "command" := JStr("tail -f /dev/null")]
  }

  /** `volume.includes('${PWD}:/src')` for one volume entry. */
  function MountsSource(v: Json): Result<bool, JsError> {
    match v
    case JStr(s) => Success(Contains(s, PwdMount))
    case JArr(items) => Success(JStr(PwdMount) in items)
    case JNull => Failure(TypeError("Cannot read properties of null (reading 'includes')"))
    case _ => Failure(TypeError("volume.includes is not a function"))
  }

  /** The volume filter: entries are checked in order and the first throw ends it. */
  function KeepVolumes(vs: seq<Json>): Result<seq<Json>, JsError>
    decreases |vs|
  {
    if |vs| == 0 then Success([])
    else match MountsSource(vs[0])
      case Failure(e) => Failure(e)
      case Success(mounts) =>
        match KeepVolumes(vs[1..])
        case Failure(e) => Failure(e)
        case Success(rest) => Success(if mounts then rest else [vs[0]] + rest)
  }

  /** One step of the filter: the entry at `i` is checked, then the rest is filtered. */
  lemma KeepVolumesStep(vs: seq<Json>, i: nat)
    requires i < |vs|
    ensures KeepVolumes(vs[i..]) ==
      match MountsSource(vs[i])
      case Failure(e) => Failure(e)
      case Success(mounts) => Prepend(if mounts then [] else [vs[i]], KeepVolumes(vs[i + 1..]))
  {
    assert vs[i..][1..] == vs[i + 1..];
    match KeepVolumes(vs[i + 1..])
    case Failure(_) =>
    case Success(rest) => assert [] + rest == rest;
  }

  /** `kept` followed by what a filter result keeps. */
  function Prepend(kept: seq<Json>, r: Result<seq<Json>, JsError>): Result<seq<Json>, JsError> {
    match r
    case Failure(e) => Failure(e)
    case Success(rest) => Success(kept + rest)
  }

  lemma PrependAssoc(a: seq<Json>, b: seq<Json>, r: Result<seq<Json>, JsError>)
    ensures Prepend(a, Prepend(b, r)) == Prepend(a + b, r)
    ensures Prepend([], r) == r
  {
    if r.Success? {
      assert a + (b + r.value) == (a + b) + r.value;
      assert [] + r.value == r.value;
    }
  }

  /** The tester definition: defaults merged with `extras.tester`, source mounts replaced. */
  function TesterConfig(opts: Options): Result<map<string, Json>, JsError> {
    var config := Merge(TesterDefaults(opts), Field(opts.extras, "tester"));
    var vols := config["volumes"];
    if vols.JNull? then Failure(TypeError("Cannot read properties of null (reading 'filter')"))
    else if !vols.JArr? then Failure(TypeError("testerConfig.volumes.filter is not a function"))
    else match KeepVolumes(vols.items)
      case Failure(e) => Failure(e)
      case Success(kept) => Success(config["volumes" := JArr(kept + [JStr(Mount(opts))])])
  }

  /** The document `handler` writes, or the error it throws first. */
  function Build(opts: Options, host: Host): Result<Compose, JsError> {
    match AddServices(Header(opts, host), Requested(opts), Registry, Constructors(opts, host))
    case Failure(e) => Failure(e)
    case Success(c) =>
      match TesterConfig(opts)
      case Failure(e) => Failure(e)
      case Success(t) => Success(c.(services := c.services["tester" := JObj(t)]))
  }

  function Sep(host: Host): string {
    if host.isWin then "\\" else "/"
  }

  /** Where the document is written: the temporary directory, the project, a fresh name. */
  function Location(opts: Options, host: Host): (path: string)
    ensures path == host.tmpdir + Sep(host) + opts.project + Sep(host) + "docker-compose." + host.id + ".yml"
  {
    var parts := [host.tmpdir, opts.project, "docker-compose." + host.id + ".yml"];
    assert Join(parts[2..], Sep(host)) == parts[2];
    assert Join(parts[1..], Sep(host)) == parts[1] + Sep(host) + parts[2];
    Join(parts, Sep(host))
  }

  /** `tester`: merges the definition, filters the source mounts out, then pushes the one to use. */
  method Tester(opts: Options) returns (r: Result<map<string, Json>, JsError>)
    ensures r == TesterConfig(opts)
  {
    var config := Merge(TesterDefaults(opts), Field(opts.extras, "tester"));
    var vols := config["volumes"];
    if vols.JNull? {
      return Failure(TypeError("Cannot read properties of null (reading 'filter')"));
    }
    if !vols.JArr? {
      return Failure(TypeError("testerConfig.volumes.filter is not a function"));
    }
    var kept: seq<Json> := [];
    assert vols.items[0..] == vols.items;
    PrependAssoc([], [], KeepVolumes(vols.items));
    for i := 0 to |vols.items|
      invariant KeepVolumes(vols.items) == Prepend(kept, KeepVolumes(vols.items[i..]))
    {
      KeepVolumesStep(vols.items, i);
      var mounts := MountsSource(vols.items[i]);
      if mounts.Failure? {
        return Failure(mounts.error);
      }
      if !mounts.value {
        PrependAssoc(kept, [vols.items[i]], KeepVolumes(vols.items[i + 1..]));
        kept := kept + [vols.items[i]];
      } else {
        PrependAssoc(kept, [], KeepVolumes(vols.items[i + 1..]));
      }
    }
    assert vols.items[|vols.items|..] == [];
    assert kept + [] == kept;
    kept := kept + [JStr(Mount(opts))];
    r := Success(config["volumes" := JArr(kept)]);
  }

  /** `handler`: builds the document, writes it, and points `argv.docker_compose` at it. */
  method Handler(argv: Argv, host: Host) returns (outcome: Outcome, actions: seq<Action>)
    modifies argv`dockerCompose
    ensures Build(argv.opts, host).Failure? ==>
      outcome == Threw(Build(argv.opts, host).error) && actions == [] && argv.dockerCompose == old(argv.dockerCompose)
    ensures Build(argv.opts, host).Success? ==>
      outcome == Completed && argv.dockerCompose == Location(argv.opts, host) &&
      actions == [Mkdir(host.tmpdir + "/" + argv.opts.project),
                  WriteYaml(Location(argv.opts, host), ToJson(Build(argv.opts, host).value))]
  {
    var opts := argv.opts;
    var compose := Compose(JStr(opts.acv), map[], map[], Some(map[]), None);
    if opts.isMutagen {
      compose := compose.(volumes := Some(map[CodeVolume := JObj(map[])]),
                          mutagen := Some(Sync(host.cwd, "volume://" + CodeVolume)));
    }
    var construct := Constructors(opts, host);
    assert compose == Header(opts, host);
    if opts.services.Some? && |opts.services.value| > 0 {
      var names := opts.services.value;
      assert names[0..] == names;
      for i := 0 to |names|
        invariant AddServices(Header(opts, host), names, Registry, construct)
               == AddServices(compose, names[i..], Registry, construct)
      {
        assert names[i..][1..] == names[i + 1..];
        if names[i] !in Registry {
          BuildAfter(opts, host, Failure(UnknownServiceError(names[i])));
          return Threw(UnknownServiceError(names[i])), [];
        }
        compose := compose.(services := compose.services + construct(Registry[names[i]]));
      }
      assert names[|names|..] == [];
    }
    ghost var added := compose;
    var tester := Tester(opts);
    BuildAfter(opts, host, Success(added));
    if tester.Failure? {
      return Threw(tester.error), [];
    }
    compose := compose.(services := compose.services["tester" := JObj(tester.value)]);
    var location := Location(opts, host);
    actions := [Mkdir(host.tmpdir + "/" + opts.project), WriteYaml(location, ToJson(compose))];
    argv.dockerCompose := location;
    outcome := Completed;
  }

  /** `Build` once the service loop has produced `added`. */
  lemma BuildAfter(opts: Options, host: Host, added: Result<Compose, JsError>)
    requires AddServices(Header(opts, host), Requested(opts), Registry, Constructors(opts, host)) == added
    ensures added.Failure? ==> Build(opts, host) == Failure(added.error)
    ensures added.Success? && TesterConfig(opts).Failure? ==> Build(opts, host) == Failure(TesterConfig(opts).error)
    ensures added.Success? && TesterConfig(opts).Success? ==>
      Build(opts, host) == Success(added.value.(services := added.value.services["tester" := JObj(TesterConfig(opts).value)]))
  {
  }

  // Properties of the generated document.

  /** An unregistered name fails the build with its "no support" error; nothing is written. */
  lemma UnknownServiceRejected(opts: Options, host: Host, j: nat)
    requires j < |Requested(opts)| && Requested(opts)[j] !in Registry
    requires forall i :: 0 <= i < j ==> Requested(opts)[i] in Registry
    ensures Build(opts, host) == Failure(UnknownServiceError(Requested(opts)[j]))
  {
    AddServicesUnknown(Header(opts, host), Requested(opts), Registry, Constructors(opts, host), j);
  }

  /** The build succeeds exactly when every name is registered and the tester definition is usable. */
  lemma BuildSucceeds(opts: Options, host: Host)
    ensures Build(opts, host).Success? <==>
      (forall n :: n in Requested(opts) ==> n in Registry) && TesterConfig(opts).Success?
  {
    AddServicesSucceeds(Header(opts, host), Requested(opts), Registry, Constructors(opts, host));
  }

  /**
   * The header fields fixed by `acv` and `isMutagen`; a successful build keeps
   * them (`BuildShape`).
   */
  lemma HeaderFields(opts: Options, host: Host)
    ensures var h := Header(opts, host);
      h.version == JStr(opts.acv) && h.networks == map[] && h.services == map[] &&
      h.volumes == Some(if opts.isMutagen then map[CodeVolume := JObj(map[])] else map[]) &&
      (h.mutagen.Some? <==> opts.isMutagen) &&
      (opts.isMutagen ==> h.mutagen == Some(Sync(host.cwd, "volume://makeomatic-deploy-code")))
  {
    assert "volume://" + CodeVolume == "volume://makeomatic-deploy-code";
  }

  /** What the requested constructors write, all names being registered. */
  function Added(opts: Options, host: Host): map<string, Json>
    requires forall n :: n in Requested(opts) ==> n in Registry
  {
    Written(Requested(opts), Registry, Constructors(opts, host))
  }

  /** A successful build is the header with the written services and the tester. */
  lemma BuildShape(opts: Options, host: Host)
    requires Build(opts, host).Success?
    ensures forall n :: n in Requested(opts) ==> n in Registry
    ensures TesterConfig(opts).Success?
    ensures Build(opts, host).value.services == Added(opts, host)["tester" := JObj(TesterConfig(opts).value)]
    ensures Build(opts, host).value == Header(opts, host).(services := Build(opts, host).value.services)
  {
    BuildSucceeds(opts, host);
    AddServicesKnown(Header(opts, host), Requested(opts), Registry, Constructors(opts, host));
    assert map[] + Added(opts, host) == Added(opts, host);
  }

  /** Some requested constructor writes key `k`. */
  ghost predicate WrittenBy(opts: Options, host: Host, k: string) {
    exists n :: n in Requested(opts) && n in Registry && k in Construct(Registry[n], opts.extras, host.packageRoot)
  }

  /** A successful build holds the tester and exactly the entries the requested constructors write. */
  lemma BuildServiceKeys(opts: Options, host: Host)
    requires Build(opts, host).Success?
    ensures forall k :: k in Build(opts, host).value.services <==> k == "tester" || WrittenBy(opts, host, k)
    ensures Build(opts, host).value.services["tester"] == JObj(TesterConfig(opts).value)
  {
    BuildShape(opts, host);
    forall k ensures k in Added(opts, host) <==> WrittenBy(opts, host, k) {
      WrittenKeys(Requested(opts), Registry, Constructors(opts, host), k);
    }
  }

  /** Every entry a requested constructor writes holds that constructor's merged definition. */
  lemma AddedValue(opts: Options, host: Host, n: string, t: Service)
    requires forall m :: m in Requested(opts) ==> m in Registry
    requires n in Requested(opts) && t in Writes(Registry[n])
    ensures ServiceKey(t) in Added(opts, host)
    ensures Added(opts, host)[ServiceKey(t)] == JObj(Definition(t, opts.extras, host.packageRoot))
  {
    var key := ServiceKey(t);
    var construct := Constructors(opts, host);
    assert key in construct(Registry[n]);
    RegistryConsistent(opts, host);
    WrittenValue(Requested(opts), Registry, construct, n, key);
  }

  /** In the built document, each requested constructor's entries hold its merged definition. */
  lemma BuildServiceValue(opts: Options, host: Host, n: string, t: Service)
    requires Build(opts, host).Success?
    requires n in Requested(opts) && n in Registry && t in Writes(Registry[n])
    ensures ServiceKey(t) in Build(opts, host).value.services
    ensures Build(opts, host).value.services[ServiceKey(t)] == JObj(Definition(t, opts.extras, host.packageRoot))
  {
    BuildShape(opts, host);
    AddedValue(opts, host, n, t);
    ServiceKeyNotTester(t);
  }

  /** No constructor writes the `tester` key. */
  lemma ServiceKeyNotTester(t: Service)
    ensures ServiceKey(t) != "tester"
  {
    assert |ServiceKey(t)| != |"tester"|;
  }

  /** `redisSentinel` is registered, with the sentinel's constructor. */
  lemma SentinelRegistered()
    ensures "redisSentinel" in Registry && Registry["redisSentinel"] == RedisSentinel
  {
  }

  /** The tester is there even when no service is requested. */
  lemma TesterAlwaysPresent(opts: Options, host: Host)
    requires Requested(opts) == [] && TesterConfig(opts).Success?
    ensures Build(opts, host).Success?
    ensures Build(opts, host).value.services == map["tester" := JObj(TesterConfig(opts).value)]
  {
  }

  /** Asking for the sentinel also yields `redis`, and the sentinel depends on it unless extras say otherwise. */
  lemma SentinelBringsRedis(opts: Options, host: Host)
    requires Build(opts, host).Success? && "redisSentinel" in Requested(opts)
    ensures "redis" in Build(opts, host).value.services && "redis-sentinel" in Build(opts, host).value.services
    ensures !Overrides(opts.extras, "redisSentinel", "depends_on") ==>
      var sentinel := Build(opts, host).value.services["redis-sentinel"];
      sentinel.JObj? && "depends_on" in sentinel.fields && sentinel.fields["depends_on"] == JArr([JStr("redis")])
  {
    SentinelRegistered();
    BuildServiceValue(opts, host, "redisSentinel", Redis);
    BuildServiceValue(opts, host, "redisSentinel", RedisSentinel);
    if !Overrides(opts.extras, "redisSentinel", "depends_on") {
      SentinelDefaultDepends(opts.extras, host.packageRoot);
    }
  }

  /** Unless extras set it, the sentinel's definition depends on `redis`. */
  lemma SentinelDefaultDepends(extras: map<string, Json>, packageRoot: string)
    requires !Overrides(extras, "redisSentinel", "depends_on")
    ensures var d := Definition(RedisSentinel, extras, packageRoot);
      "depends_on" in d && d["depends_on"] == JArr([JStr("redis")])
  {
    DefinitionOverrides(RedisSentinel, extras, packageRoot);
    assert Strs(["redis"]) == JArr([JStr("redis")]);
  }

  /** The filter keeps, in order, the entries that do not mention the source mount. */
  lemma {:induction false} KeepVolumesContent(vs: seq<Json>)
    requires KeepVolumes(vs).Success?
    ensures forall x :: x in KeepVolumes(vs).value ==> x in vs && MountsSource(x) == Success(false)
    ensures forall x :: x in vs ==> MountsSource(x).Success?
    ensures forall x :: x in vs && MountsSource(x) == Success(false) ==> x in KeepVolumes(vs).value
    decreases |vs|
  {
    if |vs| > 0 {
      KeepVolumesContent(vs[1..]);
      forall x | x in vs ensures x == vs[0] || x in vs[1..] { }
    }
  }

  /** Filtering a concatenation filters the two halves in order. */
  lemma {:induction false} KeepVolumesConcat(a: seq<Json>, b: seq<Json>)
    requires KeepVolumes(a).Success? && KeepVolumes(b).Success?
    ensures KeepVolumes(a + b) == Success(KeepVolumes(a).value + KeepVolumes(b).value)
    decreases |a|
  {
    if |a| > 0 {
      KeepVolumesStep(a, 0);
      KeepVolumesStep(a + b, 0);
      assert a[1..] == a[0 + 1..] && a + b == (a + b)[0..] && a == a[0..];
      assert (a + b)[1..] == a[1..] + b;
      KeepVolumesConcat(a[1..], b);
      PrependAssoc(if MountsSource(a[0]).value then [] else [a[0]], KeepVolumes(a[1..]).value, KeepVolumes(b));
    } else {
      assert a + b == b;
      assert KeepVolumes(a).value == [];
      assert [] + KeepVolumes(b).value == KeepVolumes(b).value;
    }
  }

  /**
   * The tester's volumes: the kept entries, then exactly one source mount,
   * `makeomatic-deploy-code:/src` under mutagen and `${PWD}:/src` otherwise.
   */
  lemma TesterVolumes(opts: Options)
    requires TesterConfig(opts).Success?
    ensures var config := Merge(TesterDefaults(opts), Field(opts.extras, "tester"));
      var t := TesterConfig(opts).value;
      config["volumes"].JArr? && KeepVolumes(config["volumes"].items).Success? &&
      t == config["volumes" := JArr(KeepVolumes(config["volumes"].items).value + [JStr(Mount(opts))])]
    ensures var vs := TesterConfig(opts).value["volumes"].items;
      |vs| >= 1 && vs[|vs| - 1] == JStr(Mount(opts)) &&
      (forall i :: 0 <= i < |vs| - 1 ==> MountsSource(vs[i]) == Success(false)) &&
      (!opts.isMutagen ==> forall i :: 0 <= i < |vs| && MountsSource(vs[i]) == Success(true) ==> i == |vs| - 1)
  {
    var config := Merge(TesterDefaults(opts), Field(opts.extras, "tester"));
    var kept := KeepVolumes(config["volumes"].items).value;
    KeepVolumesContent(config["volumes"].items);
    var vs := kept + [JStr(Mount(opts))];
    forall i | 0 <= i < |vs| - 1 ensures MountsSource(vs[i]) == Success(false) {
      assert vs[i] in kept;
    }
  }

  /** Without an image override, the tester runs `tester_image` if set, else the node image of the flavour. */
  lemma TesterImageDefault(opts: Options)
    requires TesterConfig(opts).Success? && !Overrides(opts.extras, "tester", "image")
    ensures TesterConfig(opts).value["image"] ==
      JStr(if Given(opts.testerImage) then opts.testerImage.value
           else "makeomatic/node:" + opts.node + "-" + opts.testerFlavour)
  {
  }

  /** The generated file's path splits into the temporary directory's pieces, then the project, then the file named by the id. */
  lemma LocationParts(opts: Options, host: Host)
    requires !host.isWin && '/' !in opts.project && '/' !in host.id
    ensures Split(Location(opts, host), '/') == Split(host.tmpdir, '/') + [opts.project, "docker-compose." + host.id + ".yml"]
  {
    var file := "docker-compose." + host.id + ".yml";
    assert '/' !in file by {
      assert forall i :: 0 <= i < |file| && i >= 15 && i < 15 + |host.id| ==> file[i] == host.id[i - 15];
    }
    assert Location(opts, host) == host.tmpdir + ['/'] + (opts.project + ['/'] + file);
    SplitAround(host.tmpdir, opts.project + ['/'] + file, '/');
    SplitConcat(opts.project, file, '/');
    SplitNoSeparator(file, '/');
  }
}
