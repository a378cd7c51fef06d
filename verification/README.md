# OAI 5G UDR operator: decision logic and the `fiveg-udr` relation contract

This project is a Dafny model of the Juju operator for the OpenAirInterface 5G
core UDR (Unified Data Repository). It covers the parts that make decisions:

- **The `fiveg-udr` relation contract** (`fiveg_udr.dfy`, module `FiveGUdr`).
  - The four keys `udr_ipv4_address`, `udr_fqdn`, `udr_port` and `udr_api_version`.
  - The `udr_available` event's snapshot and restore.
  - The requirer: its accessors, its `*_available` predicates and its
    relation-changed handler. The handler emits `udr_available` each time all
    four keys are present in the remote application's partition.
  - The provider: `set_udr_information` merges the four keys into this
    application's partition of one relation instance. It raises
    `RuntimeError` for an unknown relation id.
- **The reconciliation controller** (`charm.dfy`, module `UdrCharm`).
  - `_on_config_changed` runs an ordered precondition chain: container
    reachable, database relation, NRF relation, database credentials, NRF
    address. The first failing check sets `Waiting` or `Blocked`. Only an
    unreachable container defers the event. When every check passes, the
    handler renders the config file, applies the Pebble layer, publishes the
    operator's own record to every `fiveg-udr` relation (leader only) and
    sets `Active`.
  - The leader-only join handler defers while the service is not running.
    Otherwise it publishes to the joined relation only.
  - The pure helpers: credential completeness, database host extraction,
    the service-started probe, the static defaults and the Pebble layer.
- **Python string splitting** (`text.dfy`, module `Text`): `str.split` with a
  one-character separator, as used to pick the database host.

How the model is organised:

- Each handler sees one `Environment` snapshot of its event: Pebble
  connectivity, the service lookup, leadership, names, resolved relations,
  the database library's fetched data and the NRF library's view.
- `Reconcile(env)` describes one pass as a value: the status, whether the
  event is deferred, and the ordered list of effects (`RenderConfig`,
  `ApplyLayer`, `PublishToAll`).
- The class `UdrOperatorCharm` holds the unit status, an effect log and the
  `FiveGUdrProvides` object. The provider object's `relations` map holds the
  relation data, and the methods update it in place.
- Deferral is the handlers' returned flag.

Points where the code behaves differently from what its names and docstrings suggest:

- The docstring of `udr_ipv4_address_available` (`fiveg_udr.py:116-122`)
  says it reports whether the address "is available in relation data". The
  code tests the truthiness of the value, so a key that is present with an
  empty value counts as unavailable. The other three `*_available`
  properties behave the same way.
- `udr_available` is emitted as soon as the four keys are present
  (`fiveg_udr.py:95-108`), whatever their values. So an event can carry an
  empty value while the matching `*_available` property is false.
  `EmptyAddressEmittedButUnavailable` exhibits such a relation.
- The accessors dereference `relation.data` on the result of `get_relation`
  (`fiveg_udr.py:127-128`) without checking it. When no relation exists,
  they raise instead of returning `None`. The model's accessors therefore
  take an existing relation.

## Model

| member | source | states |
|---|---|---|
| `Text.Split` | src/charm.py:246 | Python's `str.split` with one separator gives at least one piece, and no piece contains the separator |
| `Text.JoinSplit` | src/charm.py:246 | joining the pieces of a split with the separator gives back the original string |
| `Text.SplitJoin` | src/charm.py:246 | splitting the join of separator-free pieces gives back the pieces |
| `Text.SplitHead` | src/charm.py:246 | the first piece of a split is the prefix before the first separator, or the whole string |
| `Text.PrefixBeforeUnique` | src/charm.py:246 | only one prefix runs up to the first stop character, so that characterisation determines the result |
| `FiveGUdr.Snapshot` | lib/charms/oai_5g_udr/v0/fiveg_udr.py:44-51 | the snapshot has exactly the four `udr_*` keys |
| `FiveGUdr.Restore` | lib/charms/oai_5g_udr/v0/fiveg_udr.py:53-58 | restoring reads the four keys; snapshotting the result gives the input restricted to the four keys |
| `FiveGUdr.RestoreSnapshot` | lib/charms/oai_5g_udr/v0/fiveg_udr.py:44-58 | `restore(snapshot())` reproduces all four fields |
| `FiveGUdr.SnapshotRestore` | lib/charms/oai_5g_udr/v0/fiveg_udr.py:44-58 | a dictionary with exactly the four keys survives restore then snapshot unchanged |
| `FiveGUdr.UdrIpv4Address` | lib/charms/oai_5g_udr/v0/fiveg_udr.py:124-131 | a value exactly when there is a remote app and its partition has the key, and then the stored value; None for an absent or empty partition |
| `FiveGUdr.UdrFqdn` | lib/charms/oai_5g_udr/v0/fiveg_udr.py:141-148 | same, for `udr_fqdn` |
| `FiveGUdr.UdrPort` | lib/charms/oai_5g_udr/v0/fiveg_udr.py:158-165 | same, for `udr_port` |
| `FiveGUdr.UdrApiVersion` | lib/charms/oai_5g_udr/v0/fiveg_udr.py:175-182 | same, for `udr_api_version` |
| `FiveGUdr.UdrIpv4AddressAvailable` | lib/charms/oai_5g_udr/v0/fiveg_udr.py:116-122 | true iff the remote partition holds the key with a non-empty value (presence alone is not enough) |
| `FiveGUdr.UdrFqdnAvailable` | lib/charms/oai_5g_udr/v0/fiveg_udr.py:133-139 | same, for `udr_fqdn` |
| `FiveGUdr.UdrPortAvailable` | lib/charms/oai_5g_udr/v0/fiveg_udr.py:150-156 | same, for `udr_port` |
| `FiveGUdr.UdrApiVersionAvailable` | lib/charms/oai_5g_udr/v0/fiveg_udr.py:167-173 | same, for `udr_api_version` |
| `FiveGUdr.UdrAvailablePayload` | lib/charms/oai_5g_udr/v0/fiveg_udr.py:81-114 | an event is emitted iff there is a remote app and all four keys are in its partition; its fields are the partition's values |
| `FiveGUdr.PayloadAgreesWithAccessors` | lib/charms/oai_5g_udr/v0/fiveg_udr.py:109-114 | an emitted payload equals what the four accessors return |
| `FiveGUdr.AvailableImpliesEmitted` | lib/charms/oai_5g_udr/v0/fiveg_udr.py:95-122 | when all four `*_available` hold, the event is emitted with non-empty fields |
| `FiveGUdr.EmptyAddressEmittedButUnavailable` | lib/charms/oai_5g_udr/v0/fiveg_udr.py:95-122 | a partition with all four keys and an empty address emits the event although `udr_ipv4_address_available` is false |
| `FiveGUdr.NoRemoteAppIsSilent` | lib/charms/oai_5g_udr/v0/fiveg_udr.py:90-93 | without a remote app nothing is emitted and every accessor returns None |
| `FiveGUdr.FiveGUdrRequires.OnRelationChanged` | lib/charms/oai_5g_udr/v0/fiveg_udr.py:81-114 | appends one event with the payload to the emitted log iff the payload exists, and otherwise leaves the log unchanged, on every call |
| `FiveGUdr.WithUdrInformation` | lib/charms/oai_5g_udr/v0/fiveg_udr.py:217-224 | `update` merge: the four keys read back as the record, other local keys and the remote partition are unchanged |
| `FiveGUdr.WithUdrInformationIdempotent` | lib/charms/oai_5g_udr/v0/fiveg_udr.py:217-224 | writing the same record twice equals writing it once |
| `FiveGUdr.PublishedRecordIsObserved` | lib/charms/oai_5g_udr/v0/fiveg_udr.py:217-224 | a requirer whose remote partition is the provider's written partition emits exactly the published record |
| `FiveGUdr.PublishedToAll` | src/charm.py:121-127 | publishing to all instances keeps the set of relation ids |
| `FiveGUdr.PublishedToAllIdempotent` | src/charm.py:121-127 | publishing to all instances twice equals publishing once |
| `FiveGUdr.FiveGUdrProvides.SetUdrInformation` | lib/charms/oai_5g_udr/v0/fiveg_udr.py:194-224 | unknown relation id: `RuntimeError` and no data changed; otherwise only that instance changes, by the merge |
| `FiveGUdr.FiveGUdrProvides.SetUdrInformationForAllRelations` | src/charm.py:121-127 | every current instance receives the merge, and no instance is added or removed |
| `UdrCharm.ConfigFilePathIsFixed` | src/charm.py:204 | the config file is `/openair-udr/etc/udr.conf` |
| `UdrCharm.PebbleLayer` | src/charm.py:280-294 | exactly one service `udr`, with override `replace`, summary `udr`, startup `enabled` and the exact command `/bin/bash /openair-udr/bin/entrypoint.sh /openair-udr/bin/oai_udr -c /openair-udr/etc/udr.conf -o` |
| `UdrCharm.UdrServiceStarted` | src/charm.py:155-165 | true iff the container connects, the service lookup succeeds and the service is running |
| `UdrCharm.DatabaseRelationDataIsAvailable` | src/charm.py:129-143 | true iff the database relation exists and its fetched data holds `username`, `password` and `endpoints` |
| `UdrCharm.HostOfFirstEndpoint` | src/charm.py:246 | the server is the part of `endpoints` before the first `,` or `:` |
| `UdrCharm.HostOfFirstEndpointExample` | src/charm.py:246 | `db1:3306,db2:3306` yields `db1` |
| `UdrCharm.DatabaseRelationServer` | src/charm.py:240-246 | `ValueError` iff there is no database relation, otherwise the host of the first endpoint |
| `UdrCharm.DatabaseRelationUser` | src/charm.py:248-254 | `ValueError` iff there is no database relation, otherwise the fetched `username` |
| `UdrCharm.DatabaseRelationPassword` | src/charm.py:256-262 | `ValueError` iff there is no database relation, otherwise the fetched `password` |
| `UdrCharm.ConfigInputsFor` | src/charm.py:180-202 | the rendered inputs carry the first endpoint's host, the user, the password, database `oai_db` and the NRF values; the ten static inputs are `0`, `/var/run`, `oai-udr`, `yes`, `no`, `no`, `eth0`, `80`, `8080` and `v1` |
| `UdrCharm.OwnUdrInformation` | src/charm.py:80-85 | the published record is address `127.0.0.1`, FQDN `<app>.<model>.svc.cluster.local`, port `80` and API version `v1`, for every application and model |
| `UdrCharm.OwnUdrInformationExample` | tests/unit/test_charm.py:149-170 | the published record is `127.0.0.1`, `<app>.<model>.svc.cluster.local`, `80`, `v1` |
| `UdrCharm.Reconcile` | src/charm.py:88-178 | defers iff the container is unreachable; Active iff every precondition holds; no effects unless Active; publishes iff Active and leader |
| `UdrCharm.PreconditionChain` | src/charm.py:97-114 | the five checks in the order the handler evaluates them |
| `UdrCharm.FirstFailing` | src/charm.py:97-114 | the index returned is the first failing check: every earlier check passed |
| `UdrCharm.ReconcileFollowsChain` | src/charm.py:97-119 | the pass's status and deferral are those of the first failing check, with no effects; Active when none fails |
| `UdrCharm.UnreachableContainerDefers` | src/charm.py:97-100 | unreachable container: Waiting, deferred, nothing rendered, applied or published |
| `UdrCharm.DatabaseRelationCheckedFirst` | src/charm.py:101-106 | no database relation gives the database Blocked message, whatever the NRF relation |
| `UdrCharm.IncompleteCredentialsWait` | src/charm.py:107-109 | a database relation lacking a credential gives Waiting, never Blocked, and no effects |
| `UdrCharm.MissingNrfAddressWaits` | src/charm.py:110-114 | both relations and credentials present but no NRF address: Waiting and no effects |
| `UdrCharm.SuccessfulPassEffects` | src/charm.py:115-119 | effects in order: render config, apply layer, then publish only when leader; status Active |
| `UdrCharm.UdrOperatorCharm.constructor` | src/charm.py:56 | starts with status unknown and no effects, over the provider of the `fiveg-udr` relation |
| `UdrCharm.UdrOperatorCharm.OnConfigChanged` | src/charm.py:88-119 | status, deferral and new effects are those of `Reconcile`; relations change only by publish-to-all on an Active leader pass |
| `UdrCharm.UdrOperatorCharm.PushConfig` | src/charm.py:180-205 | logs one render of the config inputs to the config file; status untouched |
| `UdrCharm.UdrOperatorCharm.UpdatePebbleLayer` | src/charm.py:145-153 | logs one application of the Pebble layer; status untouched |
| `UdrCharm.UdrOperatorCharm.SetUdrInformationForAllRelations` | src/charm.py:121-127 | every `fiveg-udr` instance receives the operator's record |
| `UdrCharm.UdrOperatorCharm.Handle` | src/charm.py:61-66 | config-changed, NRF relation-changed and database-created run the reconciliation pass; a `fiveg-udr` join runs the join handler and leaves status and effects alone |
| `UdrCharm.UdrOperatorCharm.OnFiveGUdrRelationJoined` | src/charm.py:68-86 | a follower does nothing; a leader defers iff the service is not started, writing nothing; otherwise only the joined relation receives the record |
| `UdrCharm.RedeliverConfigChanged` | src/charm.py:88-119 | the same event delivered twice leaves the status and relation data of one delivery |

## Left out

- `KubernetesServicePatch` (src/charm.py:39-55): the service-port declaration is external Kubernetes I/O.
- Jinja2 rendering and `Container.push` (src/charm.py:180-205). The template file is not part of this model. Rendering is the `RenderConfig` effect, which carries the path and the template inputs.
- `_config_file_is_pushed` (src/charm.py:207-214): a filesystem existence check that the modelled handlers do not call.
- Pebble `add_layer`, `replan` and `restart` (src/charm.py:151-153) are one `ApplyLayer` effect.
- `DatabaseRequires` and `FiveGNRFRequires` are not part of this model. The handlers get `fetch_relation_data()` and the NRF availability and values as snapshot inputs.
- Relation lookup by name in ops (`Model.get_relation`) is not part of this model. The snapshot gives the relation each name resolves to, so the `TooManyRelatedAppsError` raised for several relations of one name is not modelled. Only application partitions of relation data are modelled, not unit partitions.
- Logging, framework event dispatch and the defer queue: defer is the handlers' returned flag.
- `set_udr_information_for_all_relations` is called at src/charm.py:122, but the library version shown (LIBPATCH 1) does not define it. It is modelled as `set_udr_information` applied to every current `fiveg-udr` instance.
- `FiveGUdr.UdrIpv4Address`, `FiveGUdr.UdrFqdn`, `FiveGUdr.UdrPort`, `FiveGUdr.UdrApiVersion`: these take an existing relation, so the crash when `get_relation` returns None (fiveg_udr.py:127-128) is not modelled.
- `FiveGUdr.Restore`: requires the four keys, so the `KeyError` raised for a snapshot missing one is not modelled.
- `UdrCharm.Reconcile`, `UdrCharm.DatabaseRelationDataIsAvailable`: require that a non-empty `fetch_relation_data()` holds the database relation's id, so the `KeyError` at src/charm.py:137 is not modelled.
- `UdrCharm.DatabaseRelationServer`, `UdrCharm.DatabaseRelationUser`, `UdrCharm.DatabaseRelationPassword`: require the fetched key whenever the relation exists, so the `KeyError` for a missing credential is not modelled. The handler calls them only after the credential check.
- `UdrCharm.UdrOperatorCharm.OnFiveGUdrRelationJoined`: requires the joined relation to be present, which the join event guarantees, so the `RuntimeError` path of `set_udr_information` cannot arise there.
- Integer conversion of the port defaults (`int(...)` at src/charm.py:44-51) belongs to the service patch and is not modelled. Ports are opaque strings throughout.
