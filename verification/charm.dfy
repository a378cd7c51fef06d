/**
 * The UDR operator's decision logic: the reconciliation pass run on
 * config-changed, NRF relation-changed and database-created events, and the
 * leader-only handler for a newly joined `fiveg-udr` relation.
 *
 * Everything the handlers observe is one `Environment` snapshot; what they do
 * is the unit status they set, the side effects they log (render the config
 * file, apply the Pebble layer, publish to all relations) and the data they
 * write into the `fiveg-udr` relations.
 */
module UdrCharm {
  import opened Wrappers
  import opened FiveGUdr
  import Text

  const BASE_CONFIG_PATH := "/openair-udr/etc"
  const CONFIG_FILE_NAME := "udr.conf"
  const CONFIG_FILE_PATH := BASE_CONFIG_PATH + "/" + CONFIG_FILE_NAME
  const DATABASE_NAME := "oai_db"

  /** The workload container and the Pebble service share this name. */
  const SERVICE_NAME := "udr"

  const UDR_RELATION := "fiveg-udr"
  const NRF_RELATION := "fiveg-nrf"
  const DATABASE_RELATION := "database"

  const USERNAME_KEY := "username"
  const PASSWORD_KEY := "password"
  const ENDPOINTS_KEY := "endpoints"
  const DATABASE_KEYS: set<string> := {USERNAME_KEY, PASSWORD_KEY, ENDPOINTS_KEY}

  const PEBBLE_NOT_READY := "Waiting for Pebble in workload container"
  const NO_DATABASE_RELATION := "Waiting for relation to database to be created"
  const NO_NRF_RELATION := "Waiting for relation to NRF to be created"
  const NO_DATABASE_DATA := "Waiting for database relation data to be available"
  const NO_NRF_ADDRESS := "Waiting for NRF IPv4 address to be available in relation data"
  const NO_DATABASE_RELATION_ERROR := "Database relation is not created"

  // The static configuration defaults (the `_config_*` properties).
  const CONFIG_INSTANCE := "0"
  const CONFIG_PID_DIRECTORY := "/var/run"
  const CONFIG_UDR_NAME := "oai-udr"
  const CONFIG_USE_FQDN_DNS := "yes"
  const CONFIG_REGISTER_NRF := "no"
  const CONFIG_USE_HTTP2 := "no"
  const CONFIG_NUDR_INTERFACE_NAME := "eth0"
  const CONFIG_NUDR_INTERFACE_PORT := "80"
  const CONFIG_NUDR_INTERFACE_HTTP2_PORT := "8080"
  const CONFIG_NUDR_INTERFACE_API_VERSION := "v1"

  /** The address the operator publishes for itself. */
  const UDR_IPV4_ADDRESS := "127.0.0.1"

  const WORKLOAD_COMMAND_PREFIX := "/bin/bash /openair-udr/bin/entrypoint.sh /openair-udr/bin/oai_udr -c "

  /** The unit status; `Unknown` until the first event sets it. */
  datatype Status = Unknown | Active | Blocked(message: string) | Waiting(message: string)

  datatype CharmError = ValueError(message: string)

  /** Pebble's view of a service: only ACTIVE counts as running. */
  datatype ServiceStatus = ServiceActive | ServiceInactive | ServiceError
  datatype ServiceInfo = ServiceInfo(name: string, current: ServiceStatus)

  /** What the NRF requirer library reports; its internals are not part of this model. */
  datatype NrfView = NrfView(
    ipv4AddressAvailable: bool,
    ipv4Address: Option<string>,
    port: Option<string>,
    apiVersion: Option<string>,
    fqdn: Option<string>)

  /**
   * Everything a handler observes when an event is delivered:
   * whether Pebble answers, what `get_service("udr")` returns (None when it
   * raises ModelError), leadership, the application and model names, the
   * relation each relation name resolves to, the database library's
   * `fetch_relation_data()` (relation id to data bag) and the NRF view.
   */
  datatype Environment = Environment(
    canConnect: bool,
    service: Option<ServiceInfo>,
    isLeader: bool,
    appName: string,
    modelName: string,
    related: map<string, RelationId>,
    databaseData: map<RelationId, DataBag>,
    nrf: NrfView)

  datatype ServiceLayer = ServiceLayer(override: string, summary: string, command: string, startup: string)
  datatype Layer = Layer(summary: string, description: string, services: map<string, ServiceLayer>)

  /** The values handed to the configuration template. */
  datatype ConfigInputs = ConfigInputs(
    instance: string,
    pidDirectory: string,
    udrName: string,
    useFqdnDns: string,
    registerNrf: string,
    useHttp2: string,
    nudrInterfaceName: string,
    nudrInterfacePort: string,
    nudrInterfaceHttp2Port: string,
    nudrInterfaceApiVersion: string,
    nrfIpv4Address: Option<string>,
    nrfPort: Option<string>,
    nrfApiVersion: Option<string>,
    nrfFqdn: Option<string>,
    mysqlServer: string,
    mysqlUser: string,
    mysqlPassword: string,
    mysqlDatabase: string)

  /** Side effects on the workload and on the `fiveg-udr` relations, in the order performed. */
  datatype Effect =
    | RenderConfig(path: string, inputs: ConfigInputs)
    | ApplyLayer(layerName: string, layer: Layer)
    | PublishToAll(info: UdrInformation)

  /** The events the operator observes. */
  datatype Event =
    | ConfigChanged
    | FiveGNrfRelationChanged
    | DatabaseCreated
    | FiveGUdrRelationJoined(relationId: RelationId)

  /** The outcome of one reconciliation pass. */
  datatype Reconciliation = Reconciliation(status: Status, deferred: bool, effects: seq<Effect>)

  predicate Publishes(effects: seq<Effect>)
  {
    exists i :: 0 <= i < |effects| && effects[i].PublishToAll?
  }

  // ---------------------------------------------------------------------------
  // Pure helpers over the snapshot

  /** The rendered configuration always goes to the same file. */
  lemma ConfigFilePathIsFixed()
    ensures CONFIG_FILE_PATH == "/openair-udr/etc/udr.conf"
  {
  }

  /**
   * `_pebble_layer`: one service named "udr", replacing any earlier
   * definition, started automatically, running the workload on the rendered
   * configuration file.
   */
  function PebbleLayer(): (layer: Layer)
    ensures layer.services.Keys == {SERVICE_NAME}
    ensures var service := layer.services[SERVICE_NAME];
      && service.override == "replace"
      && service.summary == "udr"
      && service.startup == "enabled"
      && service.command == "/bin/bash /openair-udr/bin/entrypoint.sh /openair-udr/bin/oai_udr -c /openair-udr/etc/udr.conf -o"
  {
    Layer(
      "udr layer",
      "pebble config layer for udr",
      map[SERVICE_NAME := ServiceLayer(
        "replace",
        "udr",
        WORKLOAD_COMMAND_PREFIX + BASE_CONFIG_PATH + "/" + CONFIG_FILE_NAME + " -o",
        "enabled")])
  }

  /** `_udr_service_started`: Pebble answers, the service exists and it is running. */
  function UdrServiceStarted(env: Environment): (started: bool)
    ensures started <==> env.canConnect && env.service.Some? && env.service.value.current == ServiceActive
  {
    if !env.canConnect then false
    else match env.service
      case None => false
      case Some(service) => service.current == ServiceActive
  }

  /**
   * The database library returns an entry for each database relation, so a
   * non-empty `fetch_relation_data()` holds the id the database relation
   * resolves to (the lookup `relation_data[relation.id]` cannot fail).
   */
  predicate DatabaseFetchCovers(env: Environment)
  {
    DATABASE_RELATION in env.related && env.databaseData != map[] ==>
      env.related[DATABASE_RELATION] in env.databaseData
  }

  /**
   * `_database_relation_data_is_available`: the database relation exists and
   * its fetched data holds a username, a password and endpoints.
   */
  function DatabaseRelationDataIsAvailable(env: Environment): (available: bool)
    requires DatabaseFetchCovers(env)
    ensures available <==>
      && DATABASE_RELATION in env.related
      && env.related[DATABASE_RELATION] in env.databaseData
      && DATABASE_KEYS <= env.databaseData[env.related[DATABASE_RELATION]].Keys
  {
    if env.databaseData == map[] then false
    else if DATABASE_RELATION !in env.related then false
    else
      var bag := env.databaseData[env.related[DATABASE_RELATION]];
      if USERNAME_KEY !in bag then false
      else if PASSWORD_KEY !in bag then false
      else if ENDPOINTS_KEY !in bag then false
      else true
  }

  /** The lookup `relation_data[relation.id][key]` cannot raise KeyError. */
  predicate DatabaseFieldReadable(env: Environment, key: string)
  {
    DATABASE_RELATION in env.related ==>
      env.related[DATABASE_RELATION] in env.databaseData
      && key in env.databaseData[env.related[DATABASE_RELATION]]
  }

  function DatabaseRelationField(env: Environment, key: string): Result<string, CharmError>
    requires DatabaseFieldReadable(env, key)
  {
    if DATABASE_RELATION !in env.related then Failure(ValueError(NO_DATABASE_RELATION_ERROR))
    else Success(env.databaseData[env.related[DATABASE_RELATION]][key])
  }

  /**
   * The host of the first database endpoint: `endpoints.split(",")[0].split(":")[0]`,
   * the part of the list before the first comma or colon.
   */
  function HostOfFirstEndpoint(endpoints: string): (host: string)
    ensures Text.IsPrefixBefore(endpoints, {',', ':'}, host)
  {
    var first := Text.Split(endpoints, ',')[0];
    Text.SplitHead(endpoints, ',');
    Text.SplitHead(first, ':');
    var host := Text.Split(first, ':')[0];
    assert forall c :: c in host ==> c in first by {
      forall c | c in host ensures c in first {
        var k :| 0 <= k < |host| && host[k] == c;
        assert first[k] == c;
      }
    }
    host
  }

  /** An endpoint list "host:port,..." yields the first host. */
  lemma HostOfFirstEndpointExample()
    ensures HostOfFirstEndpoint("db1:3306,db2:3306") == "db1"
  {
  }

  /** `_database_relation_server`: ValueError without a database relation, otherwise the first endpoint's host. */
  function DatabaseRelationServer(env: Environment): (server: Result<string, CharmError>)
    requires DatabaseFieldReadable(env, ENDPOINTS_KEY)
    ensures server.Failure? <==> DATABASE_RELATION !in env.related
    ensures server.Failure? ==> server.error == ValueError(NO_DATABASE_RELATION_ERROR)
    ensures server.Success? ==>
      Text.IsPrefixBefore(env.databaseData[env.related[DATABASE_RELATION]][ENDPOINTS_KEY], {',', ':'}, server.value)
  {
    match DatabaseRelationField(env, ENDPOINTS_KEY)
    case Failure(e) => Failure(e)
    case Success(endpoints) => Success(HostOfFirstEndpoint(endpoints))
  }

  /** `_database_relation_user`. */
  function DatabaseRelationUser(env: Environment): (user: Result<string, CharmError>)
    requires DatabaseFieldReadable(env, USERNAME_KEY)
    ensures user.Failure? <==> DATABASE_RELATION !in env.related
    ensures user.Failure? ==> user.error == ValueError(NO_DATABASE_RELATION_ERROR)
    ensures user.Success? ==> user.value == env.databaseData[env.related[DATABASE_RELATION]][USERNAME_KEY]
  {
    DatabaseRelationField(env, USERNAME_KEY)
  }

  /** `_database_relation_password`. */
  function DatabaseRelationPassword(env: Environment): (password: Result<string, CharmError>)
    requires DatabaseFieldReadable(env, PASSWORD_KEY)
    ensures password.Failure? <==> DATABASE_RELATION !in env.related
    ensures password.Failure? ==> password.error == ValueError(NO_DATABASE_RELATION_ERROR)
    ensures password.Success? ==> password.value == env.databaseData[env.related[DATABASE_RELATION]][PASSWORD_KEY]
  {
    DatabaseRelationField(env, PASSWORD_KEY)
  }

  /**
   * The inputs `_push_config` renders, once the database data is available:
   * the static defaults, the NRF values and the database credentials, with
   * the fixed database name.
   */
  function ConfigInputsFor(env: Environment): (inputs: ConfigInputs)
    requires DatabaseFetchCovers(env) && DatabaseRelationDataIsAvailable(env)
    ensures var bag := env.databaseData[env.related[DATABASE_RELATION]];
      && Text.IsPrefixBefore(bag[ENDPOINTS_KEY], {',', ':'}, inputs.mysqlServer)
      && inputs.mysqlUser == bag[USERNAME_KEY]
      && inputs.mysqlPassword == bag[PASSWORD_KEY]
      && inputs.mysqlDatabase == "oai_db"
    ensures inputs.nrfIpv4Address == env.nrf.ipv4Address && inputs.nrfPort == env.nrf.port
    ensures inputs.nrfApiVersion == env.nrf.apiVersion && inputs.nrfFqdn == env.nrf.fqdn
    ensures && inputs.instance == "0" && inputs.pidDirectory == "/var/run" && inputs.udrName == "oai-udr"
      && inputs.useFqdnDns == "yes" && inputs.registerNrf == "no" && inputs.useHttp2 == "no"
      && inputs.nudrInterfaceName == "eth0" && inputs.nudrInterfacePort == "80"
      && inputs.nudrInterfaceHttp2Port == "8080" && inputs.nudrInterfaceApiVersion == "v1"
  {
    ConfigInputs(
      CONFIG_INSTANCE, CONFIG_PID_DIRECTORY, CONFIG_UDR_NAME,
      CONFIG_USE_FQDN_DNS, CONFIG_REGISTER_NRF, CONFIG_USE_HTTP2,
      CONFIG_NUDR_INTERFACE_NAME, CONFIG_NUDR_INTERFACE_PORT,
      CONFIG_NUDR_INTERFACE_HTTP2_PORT, CONFIG_NUDR_INTERFACE_API_VERSION,
      env.nrf.ipv4Address, env.nrf.port, env.nrf.apiVersion, env.nrf.fqdn,
      DatabaseRelationServer(env).value, DatabaseRelationUser(env).value,
      DatabaseRelationPassword(env).value, DATABASE_NAME)
  }

  /**
   * The record the operator publishes about itself: the loopback address,
   * the application's in-cluster DNS name and the NUDR port and API version.
   */
  function OwnUdrInformation(env: Environment): (info: UdrInformation)
    ensures info.ipv4Address == "127.0.0.1"
    ensures info.fqdn == env.appName + "." + env.modelName + ".svc.cluster.local"
    ensures info.port == "80" && info.apiVersion == "v1"
  {
    UdrInformation(
      UDR_IPV4_ADDRESS,
      env.appName + "." + env.modelName + ".svc.cluster.local",
      CONFIG_NUDR_INTERFACE_PORT,
      CONFIG_NUDR_INTERFACE_API_VERSION)
  }

  /** For the application "oai-5g-udr" in the model "whatever" the record is the unit test's. */
  lemma OwnUdrInformationExample(env: Environment)
    requires env.appName == "oai-5g-udr" && env.modelName == "whatever"
    ensures OwnUdrInformation(env) ==
      UdrInformation("127.0.0.1", "oai-5g-udr.whatever.svc.cluster.local", "80", "v1")
  {
  }

  // ---------------------------------------------------------------------------
  // The reconciliation pass as a function of the snapshot

  /** Every precondition of the reconciliation pass holds, in no particular order. */
  predicate AllPreconditionsHold(env: Environment)
    requires DatabaseFetchCovers(env)
  {
    && env.canConnect
    && DATABASE_RELATION in env.related
    && NRF_RELATION in env.related
    && DatabaseRelationDataIsAvailable(env)
    && env.nrf.ipv4AddressAvailable
  }

  /**
   * One pass of `_on_config_changed`: the first failing precondition decides
   * the status (and only an unreachable container defers); when all hold, the
   * config is rendered, the layer applied and, on the leader only, the
   * operator's record is published to every `fiveg-udr` relation.
   */
  function Reconcile(env: Environment): (r: Reconciliation)
    requires DatabaseFetchCovers(env)
    ensures r.deferred <==> !env.canConnect
    ensures r.status == Active <==> AllPreconditionsHold(env)
    ensures r.status != Active ==> r.effects == []
    ensures r.status != Unknown
    ensures Publishes(r.effects) <==> r.status == Active && env.isLeader
  {
    if !env.canConnect then Reconciliation(Waiting(PEBBLE_NOT_READY), true, [])
    else if DATABASE_RELATION !in env.related then Reconciliation(Blocked(NO_DATABASE_RELATION), false, [])
    else if NRF_RELATION !in env.related then Reconciliation(Blocked(NO_NRF_RELATION), false, [])
    else if !DatabaseRelationDataIsAvailable(env) then Reconciliation(Waiting(NO_DATABASE_DATA), false, [])
    else if !env.nrf.ipv4AddressAvailable then Reconciliation(Waiting(NO_NRF_ADDRESS), false, [])
    else
      var effects := [RenderConfig(CONFIG_FILE_PATH, ConfigInputsFor(env)), ApplyLayer(SERVICE_NAME, PebbleLayer())];
      assert !Publishes(effects);
      if env.isLeader then
        var all := effects + [PublishToAll(OwnUdrInformation(env))];
        assert all[2].PublishToAll?;
        Reconciliation(Active, false, all)
      else
        Reconciliation(Active, false, effects)
  }

  /** One step of the ordered precondition chain: whether it holds, and what a failure leads to. */
  datatype Check = Check(passed: bool, failure: Status, retry: bool)

  /** The precondition chain of `_on_config_changed`, as data, in the order it is evaluated. */
  function PreconditionChain(env: Environment): (chain: seq<Check>)
    requires DatabaseFetchCovers(env)
    ensures |chain| == 5
  {
    [ Check(env.canConnect, Waiting(PEBBLE_NOT_READY), true),
      Check(DATABASE_RELATION in env.related, Blocked(NO_DATABASE_RELATION), false),
      Check(NRF_RELATION in env.related, Blocked(NO_NRF_RELATION), false),
      Check(DatabaseRelationDataIsAvailable(env), Waiting(NO_DATABASE_DATA), false),
      Check(env.nrf.ipv4AddressAvailable, Waiting(NO_NRF_ADDRESS), false) ]
  }

  /** The index of the first failing check, or the length of the chain when none fails. */
  function FirstFailing(chain: seq<Check>): (i: nat)
    ensures i <= |chain|
    ensures forall j :: 0 <= j < i ==> chain[j].passed
    ensures i < |chain| ==> !chain[i].passed
  {
    if chain == [] then 0
    else if !chain[0].passed then 0
    else 1 + FirstFailing(chain[1..])
  }

  /**
   * The reconciliation pass is the precondition chain read front to back: the
   * first failing check gives the status and the retry decision and nothing is
   * done; if none fails the pass is active.
   */
  lemma ReconcileFollowsChain(env: Environment)
    requires DatabaseFetchCovers(env)
    ensures var chain := PreconditionChain(env);
      var i := FirstFailing(chain);
      && (i < |chain| ==> Reconcile(env) == Reconciliation(chain[i].failure, chain[i].retry, []))
      && (i == |chain| ==> Reconcile(env).status == Active && !Reconcile(env).deferred)
  {
    var chain := PreconditionChain(env);
    var i := FirstFailing(chain);
    var k := if !chain[0].passed then 0
      else if !chain[1].passed then 1
      else if !chain[2].passed then 2
      else if !chain[3].passed then 3
      else if !chain[4].passed then 4
      else 5;
    assert forall j :: 0 <= j < k ==> chain[j].passed;
    assert i == k;
  }

  /** An unreachable container: Waiting, the event deferred, nothing rendered, applied or published. */
  lemma UnreachableContainerDefers(env: Environment)
    requires DatabaseFetchCovers(env) && !env.canConnect
    ensures Reconcile(env) == Reconciliation(Waiting(PEBBLE_NOT_READY), true, [])
  {
  }

  /** With no database relation the database check answers first, whatever the NRF relation. */
  lemma DatabaseRelationCheckedFirst(env: Environment)
    requires DatabaseFetchCovers(env) && env.canConnect && DATABASE_RELATION !in env.related
    ensures Reconcile(env) == Reconciliation(Blocked(NO_DATABASE_RELATION), false, [])
  {
  }

  /** A database relation whose data lacks a credential waits (never blocks) and does nothing. */
  lemma IncompleteCredentialsWait(env: Environment)
    requires DatabaseFetchCovers(env) && env.canConnect
    requires DATABASE_RELATION in env.related && NRF_RELATION in env.related
    requires env.related[DATABASE_RELATION] in env.databaseData
    requires !(DATABASE_KEYS <= env.databaseData[env.related[DATABASE_RELATION]].Keys)
    ensures Reconcile(env) == Reconciliation(Waiting(NO_DATABASE_DATA), false, [])
  {
  }

  /** Both relations complete but no NRF address yet: Waiting, nothing done. */
  lemma MissingNrfAddressWaits(env: Environment)
    requires DatabaseFetchCovers(env) && env.canConnect
    requires DATABASE_RELATION in env.related && NRF_RELATION in env.related
    requires DatabaseRelationDataIsAvailable(env) && !env.nrf.ipv4AddressAvailable
    ensures Reconcile(env) == Reconciliation(Waiting(NO_NRF_ADDRESS), false, [])
  {
  }

  /**
   * A successful pass renders the config file first, then applies the layer,
   * then (leader only) publishes, and ends Active.
   */
  lemma SuccessfulPassEffects(env: Environment)
    requires DatabaseFetchCovers(env) && AllPreconditionsHold(env)
    ensures var r := Reconcile(env);
      && r.status == Active && !r.deferred
      && r.effects[..2] == [RenderConfig(CONFIG_FILE_PATH, ConfigInputsFor(env)), ApplyLayer(SERVICE_NAME, PebbleLayer())]
      && r.effects[2..] == if env.isLeader then [PublishToAll(OwnUdrInformation(env))] else []
  {
  }

  // ---------------------------------------------------------------------------
  // The operator

  /** The operator's state: the unit status, the side effects so far and its `fiveg-udr` provider. */
  class UdrOperatorCharm {
    var status: Status
    var effects: seq<Effect>
    const udrProvides: FiveGUdrProvides

    constructor (udrProvides: FiveGUdrProvides)
      requires udrProvides.relationshipName == UDR_RELATION
      ensures status == Unknown && effects == [] && this.udrProvides == udrProvides
    {
      status := Unknown;
      effects := [];
      this.udrProvides := udrProvides;
    }

    /**
     * `_on_config_changed`: the early-return chain; it leaves exactly the
     * status, deferral and effects of `Reconcile`, and the relations change
     * only when the leader publishes.
     */
    method OnConfigChanged(env: Environment) returns (deferred: bool)
      requires DatabaseFetchCovers(env)
      modifies this, udrProvides
      ensures var r := Reconcile(env);
        && status == r.status && deferred == r.deferred
        && effects == old(effects) + r.effects
      ensures udrProvides.relations ==
        if status == Active && env.isLeader
        then PublishedToAll(old(udrProvides.relations), OwnUdrInformation(env))
        else old(udrProvides.relations)
    {
      if !env.canConnect {
        status := Waiting(PEBBLE_NOT_READY);
        return true;
      }
      if DATABASE_RELATION !in env.related {
        status := Blocked(NO_DATABASE_RELATION);
        return false;
      }
      if NRF_RELATION !in env.related {
        status := Blocked(NO_NRF_RELATION);
        return false;
      }
      if !DatabaseRelationDataIsAvailable(env) {
        status := Waiting(NO_DATABASE_DATA);
        return false;
      }
      if !env.nrf.ipv4AddressAvailable {
        status := Waiting(NO_NRF_ADDRESS);
        return false;
      }
      PushConfig(env);
      UpdatePebbleLayer();
      if env.isLeader {
        SetUdrInformationForAllRelations(env);
      }
      status := Active;
      return false;
    }

    /** `_push_config`: renders the configuration inputs into the config file. */
    method PushConfig(env: Environment)
      requires DatabaseFetchCovers(env) && DatabaseRelationDataIsAvailable(env)
      modifies this
      ensures status == old(status)
      ensures effects == old(effects) + [RenderConfig(CONFIG_FILE_PATH, ConfigInputsFor(env))]
    {
      effects := effects + [RenderConfig(BASE_CONFIG_PATH + "/" + CONFIG_FILE_NAME, ConfigInputsFor(env))];
    }

    /** `_update_pebble_layer`: add the layer, replan and restart the service, as one effect. */
    method UpdatePebbleLayer()
      modifies this
      ensures status == old(status)
      ensures effects == old(effects) + [ApplyLayer(SERVICE_NAME, PebbleLayer())]
    {
      effects := effects + [ApplyLayer(SERVICE_NAME, PebbleLayer())];
    }

    /** `_set_udr_information_for_all_relations`: publishes the operator's record to every instance. */
    method SetUdrInformationForAllRelations(env: Environment)
      modifies this, udrProvides
      ensures status == old(status)
      ensures effects == old(effects) + [PublishToAll(OwnUdrInformation(env))]
      ensures udrProvides.relations == PublishedToAll(old(udrProvides.relations), OwnUdrInformation(env))
    {
      var info := OwnUdrInformation(env);
      effects := effects + [PublishToAll(info)];
      udrProvides.SetUdrInformationForAllRelations(info);
    }

    /**
     * The observers registered at construction: config-changed, NRF
     * relation-changed and database-created all run the reconciliation pass;
     * a joined `fiveg-udr` relation runs the join handler, which leaves the
     * status and the effect log alone.
     */
    method Handle(event: Event, env: Environment) returns (deferred: bool)
      requires DatabaseFetchCovers(env)
      requires event.FiveGUdrRelationJoined? ==> event.relationId in udrProvides.relations
      modifies this, udrProvides
      ensures !event.FiveGUdrRelationJoined? ==>
        var r := Reconcile(env);
        && status == r.status && deferred == r.deferred
        && effects == old(effects) + r.effects
        && udrProvides.relations ==
          if r.status == Active && env.isLeader
          then PublishedToAll(old(udrProvides.relations), OwnUdrInformation(env))
          else old(udrProvides.relations)
      ensures event.FiveGUdrRelationJoined? ==>
        && status == old(status) && effects == old(effects)
        && (deferred <==> env.isLeader && !UdrServiceStarted(env))
        && udrProvides.relations ==
          if env.isLeader && UdrServiceStarted(env)
          then old(udrProvides.relations)[event.relationId :=
            WithUdrInformation(old(udrProvides.relations)[event.relationId], OwnUdrInformation(env))]
          else old(udrProvides.relations)
    {
      match event
      case FiveGUdrRelationJoined(relationId) =>
        deferred := OnFiveGUdrRelationJoined(env, relationId);
      case _ =>
        deferred := OnConfigChanged(env);
    }

    /**
     * `_on_fiveg_udr_relation_joined`: a follower does nothing; a leader whose
     * service is not running defers and writes nothing; otherwise the record
     * is written into the joined relation only.
     */
    method OnFiveGUdrRelationJoined(env: Environment, relationId: RelationId) returns (deferred: bool)
      requires relationId in udrProvides.relations
      modifies udrProvides
      ensures deferred <==> env.isLeader && !UdrServiceStarted(env)
      ensures udrProvides.relations ==
        if env.isLeader && UdrServiceStarted(env)
        then old(udrProvides.relations)[relationId := WithUdrInformation(old(udrProvides.relations)[relationId], OwnUdrInformation(env))]
        else old(udrProvides.relations)
    {
      if !env.isLeader {
        return false;
      }
      if !UdrServiceStarted(env) {
        return true;
      }
      var _ := udrProvides.SetUdrInformation(OwnUdrInformation(env), relationId);
      return false;
    }
  }

  /**
   * Delivering the same snapshot twice ends with the status and relation data
   * of a single delivery; only the effect log records the second pass.
   */
  method RedeliverConfigChanged(charm: UdrOperatorCharm, env: Environment)
    requires DatabaseFetchCovers(env)
    modifies charm, charm.udrProvides
    ensures charm.status == Reconcile(env).status
    ensures charm.effects == old(charm.effects) + Reconcile(env).effects + Reconcile(env).effects
    ensures charm.udrProvides.relations ==
      if Reconcile(env).status == Active && env.isLeader
      then PublishedToAll(old(charm.udrProvides.relations), OwnUdrInformation(env))
      else old(charm.udrProvides.relations)
  {
    var _ := charm.OnConfigChanged(env);
    var _ := charm.OnConfigChanged(env);
    PublishedToAllIdempotent(old(charm.udrProvides.relations), OwnUdrInformation(env));
  }
}
