/**
 * The older compose-file generator (auto_compose.js), the one the `compose`
 * command calls: version '3', five services stored under their registry names,
 * a tester whose defaults are merged with `extras.tester` and nothing more, and
 * the file written directly in the temporary directory.
 */
module AutoComposeLegacy {
  import opened Wrappers
  import opened Json
  import opened Effects
  import opened ComposeSpec
  import opened TestArgv
  import AutoCompose

  /** The five service constructors. */
  datatype Service = Redis | RedisCluster | RedisSentinel | Postgres | Rabbitmq

  /** SERVICE_MAP of this generation. */
  const Registry: map<string, Service> := map[
    "redis" := Redis, "redisCluster" := RedisCluster, "redisSentinel" := RedisSentinel,
    "postgres" := Postgres, "rabbitmq" := Rabbitmq]

  /** The key each constructor writes in `compose.services`, which is also its extras key. */
  function ServiceKey(s: Service): string {
    match s
    case Redis => "redis"
    case RedisCluster => "redisCluster"
    case RedisSentinel => "redisSentinel"
    case Postgres => "postgres"
    case Rabbitmq => "rabbitmq"
  }

  lemma ServiceKeyInjective(a: Service, b: Service)
    ensures ServiceKey(a) == ServiceKey(b) ==> a == b
  {
  }

  function Defaults(s: Service, packageRoot: string): map<string, Json> {
    match s
    case Redis => map["image" := JStr("redis:4.0.11-alpine"), "hostname" := JStr("redis"), "expose" := JArr([JStr("6379")])]
    case RedisCluster => map["image" := JStr("makeomatic/redis-cluster:3.2.9"), "hostname" := JStr("redis-cluster")]
    case RedisSentinel => map[
      "image" := JStr("redis:4.0.11-alpine"),
      "hostname" := JStr("redis-sentinel"),
      "expose" := JArr([JStr("26379")]),
      "depends_on" := JArr([JStr("redis")]),
      "volumes" := JArr([JStr(AutoCompose.SentinelEntrypoint(packageRoot) + ":/entrypoint.sh:ro")]),
      "command" := JStr("/bin/sh /entrypoint.sh redis")]
    case Postgres => map["image" := JStr("postgres:10.4-alpine"), "hostname" := JStr("postgres")]
    case Rabbitmq => map["image" := JStr("rabbitmq:3.7.8-management-alpine"), "hostname" := JStr("rabbitmq")]
  }

  /** A constructor's service definition: its defaults merged with its extras. */
  function Definition(s: Service, extras: map<string, Json>, packageRoot: string): map<string, Json> {
    Merge(Defaults(s, packageRoot), Field(extras, ServiceKey(s)))
  }

  /** Fields the extras do not set keep their defaults; fields set to a plain value take it. */
  lemma DefinitionOverrides(s: Service, extras: map<string, Json>, packageRoot: string)
    ensures var d := Definition(s, extras, packageRoot);
      var defaults := Defaults(s, packageRoot);
      defaults.Keys <= d.Keys &&
      (forall k :: k in d && k !in defaults ==> AutoCompose.Overrides(extras, ServiceKey(s), k)) &&
      (forall k :: k in defaults && !AutoCompose.Overrides(extras, ServiceKey(s), k) ==> d[k] == defaults[k]) &&
      (forall k :: AutoCompose.Overrides(extras, ServiceKey(s), k) && AutoCompose.Scalar(extras[ServiceKey(s)].fields[k]) ==>
         k in d && d[k] == extras[ServiceKey(s)].fields[k])
  {
  }

  /** The sentinel also writes `redis`. */
  function Writes(s: Service): set<Service> {
    if s == RedisSentinel then {Redis, RedisSentinel} else {s}
  }

  function Construct(s: Service, extras: map<string, Json>, packageRoot: string): (m: map<string, Json>)
    ensures m.Keys == set t | t in Writes(s) :: ServiceKey(t)
    ensures forall t :: t in Writes(s) ==> m[ServiceKey(t)] == JObj(Definition(t, extras, packageRoot))
  {
    var own := map[ServiceKey(s) := JObj(Definition(s, extras, packageRoot))];
    if s == RedisSentinel then map[ServiceKey(Redis) := JObj(Definition(Redis, extras, packageRoot))] + own else own
  }

  function Constructors(opts: Options, host: Host): Service -> map<string, Json> {
    s => Construct(s, opts.extras, host.packageRoot)
  }

  lemma RegistryConsistent(opts: Options, host: Host)
    ensures Consistent(Registry, Constructors(opts, host))
  {
    var construct := Constructors(opts, host);
    forall n1, n2, k | n1 in Registry && n2 in Registry && k in construct(Registry[n1]) && k in construct(Registry[n2])
      ensures construct(Registry[n1])[k] == construct(Registry[n2])[k]
    {
      var t1 :| t1 in Writes(Registry[n1]) && k == ServiceKey(t1);
      var t2 :| t2 in Writes(Registry[n2]) && k == ServiceKey(t2);
      ServiceKeyInjective(t1, t2);
    }
  }

  /** The fixed header: version '3', no volumes and no sync section. */
  const Header: Compose := Compose(JStr("3"), map[], map[], None, None)

  function TesterDefaults(opts: Options): map<string, Json> {
    map[
      "image" := JStr(AutoCompose.TesterImage(opts)),
      "hostname" := JStr("tester"),
      "working_dir" := JStr("/src"),
      "volumes" := JArr([JStr(AutoCompose.PwdMount)]),
      "environment" := JObj(map["NODE_ENV" := JStr("test")]),
      "command" := JStr("tail -f /dev/null")]
  }

  function Tester(opts: Options): map<string, Json> {
    Merge(TesterDefaults(opts), Field(opts.extras, "tester"))
  }

  /** The document `handler` writes, or the error it throws. */
  function Build(opts: Options, host: Host): Result<Compose, JsError> {
    match AddServices(Header, AutoCompose.Requested(opts), Registry, Constructors(opts, host))
    case Failure(e) => Failure(e)
    case Success(c) => Success(c.(services := c.services["tester" := JObj(Tester(opts))]))
  }

  /** The file is written straight into the temporary directory. */
  function Location(host: Host): (path: string)
    ensures path == host.tmpdir + "/docker-compose." + host.id + ".yml"
  {
    host.tmpdir + "/" + "docker-compose." + host.id + ".yml"
  }

  /** `handler`: builds the document, writes it, and points `argv.docker_compose` at it. */
  method Handler(argv: Argv, host: Host) returns (outcome: Outcome, actions: seq<Action>)
    modifies argv`dockerCompose
    ensures Build(argv.opts, host).Failure? ==>
      outcome == Threw(Build(argv.opts, host).error) && actions == [] && argv.dockerCompose == old(argv.dockerCompose)
    ensures Build(argv.opts, host).Success? ==>
      outcome == Completed && argv.dockerCompose == Location(host) &&
      actions == [WriteYaml(Location(host), ToJson(Build(argv.opts, host).value))]
  {
    var opts := argv.opts;
    var compose := Compose(JStr("3"), map[], map[], None, None);
    var construct := Constructors(opts, host);
    if opts.services.Some? && |opts.services.value| > 0 {
      var names := opts.services.value;
      assert names[0..] == names;
      for i := 0 to |names|
        invariant AddServices(Header, names, Registry, construct) == AddServices(compose, names[i..], Registry, construct)
      {
        assert names[i..][1..] == names[i + 1..];
        if names[i] !in Registry {
          BuildAfter(opts, host, Failure(UnknownServiceError(names[i])));
          return Threw(UnknownServiceError(names[i])), [];
        }
        compose := compose.(services := compose.services + construct(Registry[names[i]]));
      }
      assert names[|names|..] == [];
    }
    BuildAfter(opts, host, Success(compose));
    compose := compose.(services := compose.services["tester" := JObj(Tester(opts))]);
    var location := host.tmpdir + "/" + "docker-compose." + host.id + ".yml";
    actions := [WriteYaml(location, ToJson(compose))];
    argv.dockerCompose := location;
    outcome := Completed;
  }

  lemma BuildAfter(opts: Options, host: Host, added: Result<Compose, JsError>)
    requires AddServices(Header, AutoCompose.Requested(opts), Registry, Constructors(opts, host)) == added
    ensures added.Failure? ==> Build(opts, host) == Failure(added.error)
    ensures added.Success? ==>
      Build(opts, host) == Success(added.value.(services := added.value.services["tester" := JObj(Tester(opts))]))
  {
  }

  // Properties of the generated document.

  /** An unregistered name fails the build with the "no support" error. */
  lemma UnknownServiceRejected(opts: Options, host: Host, j: nat)
    requires j < |AutoCompose.Requested(opts)| && AutoCompose.Requested(opts)[j] !in Registry
    requires forall i :: 0 <= i < j ==> AutoCompose.Requested(opts)[i] in Registry
    ensures Build(opts, host) == Failure(UnknownServiceError(AutoCompose.Requested(opts)[j]))
  {
    AddServicesUnknown(Header, AutoCompose.Requested(opts), Registry, Constructors(opts, host), j);
  }

  /** The build succeeds exactly when every requested name is registered. */
  lemma BuildSucceeds(opts: Options, host: Host)
    ensures Build(opts, host).Success? <==> forall n :: n in AutoCompose.Requested(opts) ==> n in Registry
  {
    AddServicesSucceeds(Header, AutoCompose.Requested(opts), Registry, Constructors(opts, host));
  }

  /**
   * The services this generation lacks are accepted by the current registry,
   * which supplies the option's choices, and rejected here.
   */
  lemma NewerServicesRejected(opts: Options, host: Host)
    requires AutoCompose.Requested(opts) == ["elasticsearch"]
    ensures "elasticsearch" in AutoCompose.Registry
    ensures Build(opts, host) == Failure(UnknownServiceError("elasticsearch"))
  {
    UnknownServiceRejected(opts, host, 0);
  }

  function Added(opts: Options, host: Host): map<string, Json>
    requires forall n :: n in AutoCompose.Requested(opts) ==> n in Registry
  {
    Written(AutoCompose.Requested(opts), Registry, Constructors(opts, host))
  }

  /** A successful build is the fixed header with the written services and the tester. */
  lemma BuildShape(opts: Options, host: Host)
    requires Build(opts, host).Success?
    ensures forall n :: n in AutoCompose.Requested(opts) ==> n in Registry
    ensures Build(opts, host).value.services == Added(opts, host)["tester" := JObj(Tester(opts))]
    ensures Build(opts, host).value == Header.(services := Build(opts, host).value.services)
  {
    BuildSucceeds(opts, host);
    AddServicesKnown(Header, AutoCompose.Requested(opts), Registry, Constructors(opts, host));
    assert map[] + Added(opts, host) == Added(opts, host);
  }

  /** The written document has exactly the keys `version` ('3'), `networks` and `services`. */
  lemma BuildHeader(opts: Options, host: Host)
    requires Build(opts, host).Success?
    ensures ToJson(Build(opts, host).value).fields.Keys == {"version", "networks", "services"}
    ensures ToJson(Build(opts, host).value).fields["version"] == JStr("3")
  {
    BuildShape(opts, host);
  }

  ghost predicate WrittenBy(opts: Options, host: Host, k: string) {
    exists n :: n in AutoCompose.Requested(opts) && n in Registry && k in Construct(Registry[n], opts.extras, host.packageRoot)
  }

  /** The tester is always there, beside exactly the entries of the requested constructors. */
  lemma BuildServiceKeys(opts: Options, host: Host)
    requires Build(opts, host).Success?
    ensures forall k :: k in Build(opts, host).value.services <==> k == "tester" || WrittenBy(opts, host, k)
    ensures Build(opts, host).value.services["tester"] == JObj(Tester(opts))
  {
    BuildShape(opts, host);
    forall k ensures k in Added(opts, host) <==> WrittenBy(opts, host, k) {
      WrittenKeys(AutoCompose.Requested(opts), Registry, Constructors(opts, host), k);
    }
  }

  lemma AddedValue(opts: Options, host: Host, n: string, t: Service)
    requires forall m :: m in AutoCompose.Requested(opts) ==> m in Registry
    requires n in AutoCompose.Requested(opts) && t in Writes(Registry[n])
    ensures ServiceKey(t) in Added(opts, host)
    ensures Added(opts, host)[ServiceKey(t)] == JObj(Definition(t, opts.extras, host.packageRoot))
  {
    var key := ServiceKey(t);
    var construct := Constructors(opts, host);
    assert key in construct(Registry[n]);
    RegistryConsistent(opts, host);
    WrittenValue(AutoCompose.Requested(opts), Registry, construct, n, key);
  }

  /** Each requested constructor's entries hold its merged definition, under its camel-case name. */
  lemma BuildServiceValue(opts: Options, host: Host, n: string, t: Service)
    requires Build(opts, host).Success?
    requires n in AutoCompose.Requested(opts) && n in Registry && t in Writes(Registry[n])
    ensures ServiceKey(t) in Build(opts, host).value.services
    ensures Build(opts, host).value.services[ServiceKey(t)] == JObj(Definition(t, opts.extras, host.packageRoot))
  {
    BuildShape(opts, host);
    AddedValue(opts, host, n, t);
    ServiceKeyNotTester(t);
  }

  /** No constructor of this generation writes the `tester` key. */
  lemma ServiceKeyNotTester(t: Service)
    ensures ServiceKey(t) != "tester"
  {
    assert |ServiceKey(t)| != |"tester"|;
  }

  /** The two camel-case names are registered, with their constructors. */
  lemma CamelCaseRegistered()
    ensures "redisCluster" in Registry && Registry["redisCluster"] == RedisCluster
    ensures "redisSentinel" in Registry && Registry["redisSentinel"] == RedisSentinel
  {
  }

  /** Every key a constructor of this generation writes is a registry name. */
  lemma WrittenKeyIsName(opts: Options, host: Host, k: string)
    requires WrittenBy(opts, host, k)
    ensures k in Registry
  {
    var n :| n in AutoCompose.Requested(opts) && n in Registry && k in Construct(Registry[n], opts.extras, host.packageRoot);
    ConstructKeysRegistered(Registry[n], opts.extras, host.packageRoot, k);
  }

  lemma ConstructKeysRegistered(s: Service, extras: map<string, Json>, packageRoot: string, k: string)
    requires k in Construct(s, extras, packageRoot)
    ensures k in Registry
  {
    var t :| t in Writes(s) && k == ServiceKey(t);
    match t
    case Redis =>
    case RedisCluster =>
    case RedisSentinel =>
    case Postgres =>
    case Rabbitmq =>
  }

  /** The cluster and the sentinel are stored as `redisCluster` and `redisSentinel`. */
  lemma CamelCaseKeys(opts: Options, host: Host)
    requires Build(opts, host).Success?
    ensures "redisCluster" in AutoCompose.Requested(opts) ==> "redisCluster" in Build(opts, host).value.services
    ensures "redisSentinel" in AutoCompose.Requested(opts) ==> "redisSentinel" in Build(opts, host).value.services
  {
    CamelCaseRegistered();
    if "redisCluster" in AutoCompose.Requested(opts) {
      BuildServiceValue(opts, host, "redisCluster", RedisCluster);
    }
    if "redisSentinel" in AutoCompose.Requested(opts) {
      BuildServiceValue(opts, host, "redisSentinel", RedisSentinel);
    }
  }

  /** Every key the requested constructors write is a registry name. */
  lemma AddedKeysRegistered(opts: Options, host: Host, k: string)
    requires forall n :: n in AutoCompose.Requested(opts) ==> n in Registry
    requires k in Added(opts, host)
    ensures k in Registry
  {
    WrittenKeys(AutoCompose.Requested(opts), Registry, Constructors(opts, host), k);
    var n :| n in AutoCompose.Requested(opts) && k in Constructors(opts, host)(Registry[n]);
    ConstructKeysRegistered(Registry[n], opts.extras, host.packageRoot, k);
  }

  /** No entry of this generation has a dashed name. */
  lemma NoDashedKeys(opts: Options, host: Host)
    requires Build(opts, host).Success?
    ensures "redis-cluster" !in Build(opts, host).value.services
    ensures "redis-sentinel" !in Build(opts, host).value.services
  {
    BuildShape(opts, host);
    if "redis-cluster" in Added(opts, host) {
      AddedKeysRegistered(opts, host, "redis-cluster");
    }
    if "redis-sentinel" in Added(opts, host) {
      AddedKeysRegistered(opts, host, "redis-sentinel");
    }
  }

  /** Asking for the sentinel also yields `redis`, and the sentinel depends on it unless extras say otherwise. */
  lemma SentinelBringsRedis(opts: Options, host: Host)
    requires Build(opts, host).Success? && "redisSentinel" in AutoCompose.Requested(opts)
    ensures "redis" in Build(opts, host).value.services && "redisSentinel" in Build(opts, host).value.services
    ensures !AutoCompose.Overrides(opts.extras, "redisSentinel", "depends_on") ==>
      var sentinel := Build(opts, host).value.services["redisSentinel"];
      sentinel.JObj? && "depends_on" in sentinel.fields && sentinel.fields["depends_on"] == JArr([JStr("redis")])
  {
    CamelCaseRegistered();
    BuildServiceValue(opts, host, "redisSentinel", Redis);
    BuildServiceValue(opts, host, "redisSentinel", RedisSentinel);
    if !AutoCompose.Overrides(opts.extras, "redisSentinel", "depends_on") {
      SentinelDefaultDepends(opts.extras, host.packageRoot);
    }
  }

  /** Unless extras set it, the sentinel's definition depends on `redis`. */
  lemma SentinelDefaultDepends(extras: map<string, Json>, packageRoot: string)
    requires !AutoCompose.Overrides(extras, "redisSentinel", "depends_on")
    ensures var d := Definition(RedisSentinel, extras, packageRoot);
      "depends_on" in d && d["depends_on"] == JArr([JStr("redis")])
  {
    DefinitionOverrides(RedisSentinel, extras, packageRoot);
  }

  /**
   * The tester's defaults hold unless `extras.tester` overrides them; the
   * default volume list is the source mount alone.
   */
  lemma TesterOverrides(opts: Options)
    ensures var t := Tester(opts);
      TesterDefaults(opts).Keys <= t.Keys &&
      (forall k :: k in TesterDefaults(opts) && !AutoCompose.Overrides(opts.extras, "tester", k) ==> t[k] == TesterDefaults(opts)[k]) &&
      (forall k :: AutoCompose.Overrides(opts.extras, "tester", k) && AutoCompose.Scalar(opts.extras["tester"].fields[k]) ==>
         t[k] == opts.extras["tester"].fields[k])
    ensures !AutoCompose.Overrides(opts.extras, "tester", "volumes") ==> Tester(opts)["volumes"] == JArr([JStr("${PWD}:/src")])
  {
  }

  /**
   * Volume lists merge position by position: a non-empty list of plain
   * entries in `extras.tester.volumes` replaces the source mount instead of
   * being added to it.
   */
  lemma TesterVolumesReplaced(opts: Options, vs: seq<Json>)
    requires "tester" in opts.extras && opts.extras["tester"].JObj?
    requires "volumes" in opts.extras["tester"].fields && opts.extras["tester"].fields["volumes"] == JArr(vs)
    requires |vs| >= 1 && !vs[0].JObj? && !vs[0].JArr?
    ensures Tester(opts)["volumes"] == JArr(vs)
  {
    MergeArrayCovers([JStr(AutoCompose.PwdMount)], vs);
  }

  /** As written, the guard lets an inherited member name through. */
  lemma InheritedNameAdmittedHere()
    ensures "constructor" !in Registry && !RejectedAsWritten(Registry, "constructor")
  {
    InheritedNameAdmitted(Registry);
  }
}
