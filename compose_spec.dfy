/**
 * The compose document both auto-compose generations build, and the service
 * dispatch loop they share: each requested name is looked up in a fixed
 * registry, and the constructor found writes its service entries.
 */
module ComposeSpec {
  import opened Wrappers
  import opened Json
  import opened Effects

  /** The named volume that holds the synchronised source tree. */
  const CodeVolume := "makeomatic-deploy-code"

  /** The `x-mutagen` sync session `code`: host directory `alpha`, volume `beta`. */
  datatype Sync = Sync(alpha: string, beta: string)

  datatype Compose = Compose(
    version: Json,
    networks: map<string, Json>,
    services: map<string, Json>,
    volumes: Option<map<string, Json>>,
    mutagen: Option<Sync>)

  /** The document as the YAML writer receives it. */
  function ToJson(c: Compose): (j: Json)
    ensures j.JObj?
    ensures j.fields.Keys == {"version", "networks", "services"}
      + (if c.volumes.Some? then {"volumes"} else {})
      + (if c.mutagen.Some? then {"x-mutagen"} else {})
    ensures j.fields["version"] == c.version && j.fields["services"] == JObj(c.services)
  {
    var header := map["version" := c.version, "networks" := JObj(c.networks), "services" := JObj(c.services)];
    var withVolumes := if c.volumes.Some? then header["volumes" := JObj(c.volumes.value)] else header;
    JObj(
      if c.mutagen.Some? then
        withVolumes["x-mutagen" := JObj(map["sync" := JObj(map[
          "defaults" := JObj(map["ignore" := JObj(map["vcs" := JBool(true)]), "mode" := JStr("two-way-resolved")]),
          "code" := JObj(map["alpha" := JStr(c.mutagen.value.alpha), "beta" := JStr(c.mutagen.value.beta)])])])]
      else withVolumes)
  }

  /** The error thrown for a service name the registry does not hold. */
  function UnknownServiceError(name: string): JsError {
    Error("no support for " + name + ", please add it to @makeomatic/deploy")
  }

  /** The names every JavaScript object inherits from `Object.prototype`. */
  const PrototypeMembers: set<string> := {
    "constructor", "hasOwnProperty", "isPrototypeOf", "propertyIsEnumerable", "toLocaleString",
    "toString", "valueOf", "__defineGetter__", "__defineSetter__", "__lookupGetter__",
    "__lookupSetter__", "__proto__"}

  /**
   * The registry guard as written: `SERVICE_MAP[name] === undefined` throws only
   * for a name that is neither registered nor inherited by every object.
   */
  predicate RejectedAsWritten<C>(registry: map<string, C>, name: string)
  {
    name !in registry && name !in PrototypeMembers
  }

  /** As written, an inherited member name passes the guard although no constructor is registered under it. */
  lemma InheritedNameAdmitted<C>(registry: map<string, C>)
    requires "constructor" !in registry
    ensures !RejectedAsWritten(registry, "constructor")
  {
  }

  /**
   * The dispatch loop: names are handled in order; an unknown name throws, a
   * known one adds the entries its constructor writes to `services`.
   */
  function AddServices<C>(c: Compose, names: seq<string>, registry: map<string, C>,
                          construct: C -> map<string, Json>): Result<Compose, JsError>
    decreases |names|
  {
    if |names| == 0 then Success(c)
    else if names[0] !in registry then Failure(UnknownServiceError(names[0]))
    else AddServices(c.(services := c.services + construct(registry[names[0]])), names[1..], registry, construct)
  }

  /** Everything the constructors of `names` write, later writes taking precedence. */
  function Written<C>(names: seq<string>, registry: map<string, C>, construct: C -> map<string, Json>): map<string, Json>
    requires forall n :: n in names ==> n in registry
    decreases |names|
  {
    if |names| == 0 then map[] else construct(registry[names[0]]) + Written(names[1..], registry, construct)
  }

  /** Constructors that write the same key write the same value there. */
  ghost predicate Consistent<C>(registry: map<string, C>, construct: C -> map<string, Json>) {
    forall n1, n2, k :: n1 in registry && n2 in registry && k in construct(registry[n1]) && k in construct(registry[n2]) ==>
      construct(registry[n1])[k] == construct(registry[n2])[k]
  }

  /** The first unknown name is the one reported, and nothing after it matters. */
  lemma {:induction false} AddServicesUnknown<C>(c: Compose, names: seq<string>, registry: map<string, C>,
                                                 construct: C -> map<string, Json>, j: nat)
    requires j < |names| && names[j] !in registry
    requires forall i :: 0 <= i < j ==> names[i] in registry
    ensures AddServices(c, names, registry, construct) == Failure(UnknownServiceError(names[j]))
    decreases j
  {
    if j > 0 {
      AddServicesUnknown(c.(services := c.services + construct(registry[names[0]])), names[1..], registry, construct, j - 1);
    }
  }

  /** When every name is known, the loop adds exactly what the constructors write and touches nothing else. */
  lemma {:induction false} AddServicesKnown<C>(c: Compose, names: seq<string>, registry: map<string, C>,
                                               construct: C -> map<string, Json>)
    requires forall n :: n in names ==> n in registry
    ensures AddServices(c, names, registry, construct) == Success(c.(services := c.services + Written(names, registry, construct)))
    decreases |names|
  {
    if |names| > 0 {
      var c' := c.(services := c.services + construct(registry[names[0]]));
      AddServicesKnown(c', names[1..], registry, construct);
      assert c'.services + Written(names[1..], registry, construct)
          == c.services + Written(names, registry, construct);
    } else {
      assert c.services + map[] == c.services;
    }
  }

  /** The loop succeeds exactly when every requested name is registered. */
  lemma AddServicesSucceeds<C>(c: Compose, names: seq<string>, registry: map<string, C>,
                               construct: C -> map<string, Json>)
    ensures AddServices(c, names, registry, construct).Success? <==> forall n :: n in names ==> n in registry
  {
    if forall n :: n in names ==> n in registry {
      AddServicesKnown(c, names, registry, construct);
    } else {
      var j :| 0 <= j < |names| && names[j] !in registry && forall i :: 0 <= i < j ==> names[i] in registry by {
        FirstMissing(names, registry);
      }
      AddServicesUnknown(c, names, registry, construct, j);
    }
  }

  lemma {:induction false} FirstMissing<C>(names: seq<string>, registry: map<string, C>)
    requires exists n :: n in names && n !in registry
    ensures exists j :: 0 <= j < |names| && names[j] !in registry && forall i :: 0 <= i < j ==> names[i] in registry
    decreases |names|
  {
    if names[0] !in registry {
      assert names[0] !in registry;
    } else {
      FirstMissing(names[1..], registry);
      var j :| 0 <= j < |names[1..]| && names[1..][j] !in registry && forall i :: 0 <= i < j ==> names[1..][i] in registry;
      assert names[j + 1] !in registry && forall i :: 0 <= i < j + 1 ==> names[i] in registry;
    }
  }

  /** The keys written are those of the constructors of the requested names. */
  lemma {:induction false} WrittenKeys<C>(names: seq<string>, registry: map<string, C>, construct: C -> map<string, Json>, k: string)
    requires forall n :: n in names ==> n in registry
    ensures k in Written(names, registry, construct) <==> exists n :: n in names && k in construct(registry[n])
    decreases |names|
  {
    if |names| > 0 {
      WrittenKeys(names[1..], registry, construct, k);
      if k in construct(registry[names[0]]) {
        assert names[0] in names;
      }
      if exists n :: n in names[1..] && k in construct(registry[n]) {
        var n :| n in names[1..] && k in construct(registry[n]);
        assert n in names;
      }
      if exists n :: n in names && k in construct(registry[n]) {
        var n :| n in names && k in construct(registry[n]);
        assert n == names[0] || n in names[1..];
      }
    }
  }

  /** Each written key holds the value any of its writers gives it. */
  lemma {:induction false} WrittenValue<C>(names: seq<string>, registry: map<string, C>, construct: C -> map<string, Json>,
                                           n: string, k: string)
    requires forall m :: m in names ==> m in registry
    requires Consistent(registry, construct)
    requires n in names && k in construct(registry[n])
    ensures k in Written(names, registry, construct)
    ensures Written(names, registry, construct)[k] == construct(registry[n])[k]
    decreases |names|
  {
    WrittenKeys(names, registry, construct, k);
    var rest := Written(names[1..], registry, construct);
    WrittenKeys(names[1..], registry, construct, k);
    if k in rest {
      var m :| m in names[1..] && k in construct(registry[m]);
      WrittenValue(names[1..], registry, construct, m, k);
    }
  }
}
