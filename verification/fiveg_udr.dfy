/**
 * The `fiveg-udr` relation contract: the four `udr_*` keys a UDR operator
 * publishes in its application's partition of a relation, the requirer side
 * that reads them from the remote application's partition and raises
 * `udr_available`, and the provider side that writes them.
 */
module FiveGUdr {
  import opened Wrappers

  /** One application's partition of a relation: string keys to string values. */
  type DataBag = map<string, string>

  /** The integer id Juju gives each relation instance. */
  type RelationId = int

  const IPV4_ADDRESS_KEY := "udr_ipv4_address"
  const FQDN_KEY := "udr_fqdn"
  const PORT_KEY := "udr_port"
  const API_VERSION_KEY := "udr_api_version"

  /** The keys of the contract; a record is complete when all four are present. */
  const UDR_KEYS: set<string> := {IPV4_ADDRESS_KEY, FQDN_KEY, PORT_KEY, API_VERSION_KEY}

  /** Errors raised by the library. */
  datatype Error = RuntimeError(message: string)

  /** The endpoint record: the payload of `udr_available` and what the provider writes. */
  datatype UdrInformation = UdrInformation(ipv4Address: string, fqdn: string, port: string, apiVersion: string)

  /**
   * A relation instance as seen by this application: the remote application
   * (`relation.app`, absent while no remote application is known), this
   * application's partition and the remote application's partition.
   */
  datatype Relation = Relation(app: Option<string>, localAppData: DataBag, remoteAppData: DataBag)

  // ---------------------------------------------------------------------------
  // UDRAvailableEvent.snapshot / restore

  /** `UDRAvailableEvent.snapshot`: the event's fields under the four contract keys. */
  function Snapshot(info: UdrInformation): (bag: DataBag)
    ensures bag.Keys == UDR_KEYS
  {
    map[IPV4_ADDRESS_KEY := info.ipv4Address, FQDN_KEY := info.fqdn,
        PORT_KEY := info.port, API_VERSION_KEY := info.apiVersion]
  }

  /** `UDRAvailableEvent.restore`: reads the four fields back; a missing key would raise KeyError. */
  function Restore(bag: DataBag): (info: UdrInformation)
    requires UDR_KEYS <= bag.Keys
    ensures Snapshot(info) == map k | k in UDR_KEYS :: bag[k]
  {
    UdrInformation(bag[IPV4_ADDRESS_KEY], bag[FQDN_KEY], bag[PORT_KEY], bag[API_VERSION_KEY])
  }

  /** Restoring a snapshot reproduces every field of the event. */
  lemma RestoreSnapshot(info: UdrInformation)
    ensures Restore(Snapshot(info)) == info
  {
  }

  /** A dictionary holding exactly the four keys survives restore followed by snapshot unchanged. */
  lemma SnapshotRestore(bag: DataBag)
    requires bag.Keys == UDR_KEYS
    ensures Snapshot(Restore(bag)) == bag
  {
  }

  // ---------------------------------------------------------------------------
  // FiveGUDRRequires: accessors and availability predicates

  /**
   * `relation.data.get(relation.app)` followed by `.get(key, None)`: no value
   * when there is no remote application or its partition is empty.
   */
  function RemoteValue(rel: Relation, key: string): Option<string>
  {
    match rel.app
    case None => None
    case Some(_) =>
      var bag := rel.remoteAppData;
      if bag == map[] then None
      else if key in bag then Some(bag[key]) else None
  }

  /** Python truthiness of an `Optional[str]`: neither None nor the empty string. */
  predicate Truthy(value: Option<string>)
  {
    value.Some? && value.value != ""
  }

  /** `FiveGUDRRequires.udr_ipv4_address`. */
  function UdrIpv4Address(rel: Relation): (address: Option<string>)
    ensures address.Some? <==> rel.app.Some? && IPV4_ADDRESS_KEY in rel.remoteAppData
    ensures address.Some? ==> address.value == rel.remoteAppData[IPV4_ADDRESS_KEY]
  {
    RemoteValue(rel, IPV4_ADDRESS_KEY)
  }

  /** `FiveGUDRRequires.udr_fqdn`. */
  function UdrFqdn(rel: Relation): (fqdn: Option<string>)
    ensures fqdn.Some? <==> rel.app.Some? && FQDN_KEY in rel.remoteAppData
    ensures fqdn.Some? ==> fqdn.value == rel.remoteAppData[FQDN_KEY]
  {
    RemoteValue(rel, FQDN_KEY)
  }

  /** `FiveGUDRRequires.udr_port`. */
  function UdrPort(rel: Relation): (port: Option<string>)
    ensures port.Some? <==> rel.app.Some? && PORT_KEY in rel.remoteAppData
    ensures port.Some? ==> port.value == rel.remoteAppData[PORT_KEY]
  {
    RemoteValue(rel, PORT_KEY)
  }

  /** `FiveGUDRRequires.udr_api_version`. */
  function UdrApiVersion(rel: Relation): (apiVersion: Option<string>)
    ensures apiVersion.Some? <==> rel.app.Some? && API_VERSION_KEY in rel.remoteAppData
    ensures apiVersion.Some? ==> apiVersion.value == rel.remoteAppData[API_VERSION_KEY]
  {
    RemoteValue(rel, API_VERSION_KEY)
  }

  /** `FiveGUDRRequires.udr_ipv4_address_available`: the value is present and non-empty. */
  function UdrIpv4AddressAvailable(rel: Relation): (available: bool)
    ensures available <==>
      rel.app.Some? && IPV4_ADDRESS_KEY in rel.remoteAppData && rel.remoteAppData[IPV4_ADDRESS_KEY] != ""
  {
    Truthy(UdrIpv4Address(rel))
  }

  /** `FiveGUDRRequires.udr_fqdn_available`. */
  function UdrFqdnAvailable(rel: Relation): (available: bool)
    ensures available <==>
      rel.app.Some? && FQDN_KEY in rel.remoteAppData && rel.remoteAppData[FQDN_KEY] != ""
  {
    Truthy(UdrFqdn(rel))
  }

  /** `FiveGUDRRequires.udr_port_available`. */
  function UdrPortAvailable(rel: Relation): (available: bool)
    ensures available <==>
      rel.app.Some? && PORT_KEY in rel.remoteAppData && rel.remoteAppData[PORT_KEY] != ""
  {
    Truthy(UdrPort(rel))
  }

  /** `FiveGUDRRequires.udr_api_version_available`. */
  function UdrApiVersionAvailable(rel: Relation): (available: bool)
    ensures available <==>
      rel.app.Some? && API_VERSION_KEY in rel.remoteAppData && rel.remoteAppData[API_VERSION_KEY] != ""
  {
    Truthy(UdrApiVersion(rel))
  }

  // ---------------------------------------------------------------------------
  // FiveGUDRRequires._on_relation_changed

  /**
   * What `_on_relation_changed` emits for a relation: nothing without a remote
   * application, nothing while any of the four keys is missing from its
   * partition, otherwise one `udr_available` carrying the four values.
   */
  function UdrAvailablePayload(rel: Relation): (payload: Option<UdrInformation>)
    ensures payload.Some? <==> rel.app.Some? && UDR_KEYS <= rel.remoteAppData.Keys
    ensures payload.Some? ==>
      && payload.value.ipv4Address == rel.remoteAppData[IPV4_ADDRESS_KEY]
      && payload.value.fqdn == rel.remoteAppData[FQDN_KEY]
      && payload.value.port == rel.remoteAppData[PORT_KEY]
      && payload.value.apiVersion == rel.remoteAppData[API_VERSION_KEY]
  {
    if rel.app.None? then None
    else
      var bag := rel.remoteAppData;
      if IPV4_ADDRESS_KEY !in bag then None
      else if FQDN_KEY !in bag then None
      else if PORT_KEY !in bag then None
      else if API_VERSION_KEY !in bag then None
      else Some(Restore(bag))
  }

  /** The emitted payload agrees with what the four accessors return for the same relation. */
  lemma PayloadAgreesWithAccessors(rel: Relation)
    requires UdrAvailablePayload(rel).Some?
    ensures var info := UdrAvailablePayload(rel).value;
      && UdrIpv4Address(rel) == Some(info.ipv4Address)
      && UdrFqdn(rel) == Some(info.fqdn)
      && UdrPort(rel) == Some(info.port)
      && UdrApiVersion(rel) == Some(info.apiVersion)
  {
  }

  /** When all four `*_available` predicates hold, `udr_available` is emitted, with non-empty fields. */
  lemma AvailableImpliesEmitted(rel: Relation)
    requires UdrIpv4AddressAvailable(rel) && UdrFqdnAvailable(rel)
    requires UdrPortAvailable(rel) && UdrApiVersionAvailable(rel)
    ensures UdrAvailablePayload(rel).Some?
    ensures var info := UdrAvailablePayload(rel).value;
      info.ipv4Address != "" && info.fqdn != "" && info.port != "" && info.apiVersion != ""
  {
  }

  /**
   * The converse fails: the emit check tests key presence only, so a partition
   * holding all four keys with an empty address emits `udr_available` although
   * `udr_ipv4_address_available` is false.
   */
  lemma EmptyAddressEmittedButUnavailable()
    ensures var rel := Relation(Some("udr"), map[], Snapshot(UdrInformation("", "udr.example", "80", "v1")));
      UdrAvailablePayload(rel).Some? && !UdrIpv4AddressAvailable(rel)
  {
  }

  /** Without a remote application nothing is emitted and every accessor is empty. */
  lemma NoRemoteAppIsSilent(rel: Relation)
    requires rel.app.None?
    ensures UdrAvailablePayload(rel).None?
    ensures UdrIpv4Address(rel).None? && UdrFqdn(rel).None? && UdrPort(rel).None? && UdrApiVersion(rel).None?
  {
  }

  /** The requirer side; it keeps the `udr_available` events it has emitted, oldest first. */
  class FiveGUdrRequires {
    const relationshipName: string
    var emitted: seq<UdrInformation>

    constructor (relationshipName: string)
      ensures this.relationshipName == relationshipName && emitted == []
    {
      this.relationshipName := relationshipName;
      emitted := [];
    }

    /**
     * `_on_relation_changed`: re-checks the four keys on every change and emits
     * again each time they are all present (level-triggered).
     */
    method OnRelationChanged(rel: Relation)
      modifies this
      ensures emitted == old(emitted) + match UdrAvailablePayload(rel) { case None => [] case Some(info) => [info] }
    {
      if rel.app.None? {
        return;
      }
      var bag := rel.remoteAppData;
      if IPV4_ADDRESS_KEY !in bag {
        return;
      }
      if FQDN_KEY !in bag {
        return;
      }
      if PORT_KEY !in bag {
        return;
      }
      if API_VERSION_KEY !in bag {
        return;
      }
      emitted := emitted + [UdrInformation(bag[IPV4_ADDRESS_KEY], bag[FQDN_KEY], bag[PORT_KEY], bag[API_VERSION_KEY])];
    }
  }

  // ---------------------------------------------------------------------------
  // FiveGUDRProvides

  /**
   * The relation after `relation.data[charm.app].update({...})`: the four keys
   * take the record's values, every other key of this application's partition
   * and the whole remote partition stay as they were.
   */
  function WithUdrInformation(rel: Relation, info: UdrInformation): (updated: Relation)
    ensures updated.app == rel.app && updated.remoteAppData == rel.remoteAppData
    ensures updated.localAppData.Keys == rel.localAppData.Keys + UDR_KEYS
    ensures forall k :: k in rel.localAppData && k !in UDR_KEYS ==> updated.localAppData[k] == rel.localAppData[k]
    ensures Restore(updated.localAppData) == info
  {
    rel.(localAppData := rel.localAppData + Snapshot(info))
  }

  /** Writing the same record twice leaves the relation as writing it once. */
  lemma WithUdrInformationIdempotent(rel: Relation, info: UdrInformation)
    ensures WithUdrInformation(WithUdrInformation(rel, info), info) == WithUdrInformation(rel, info)
  {
  }

  /**
   * What the provider writes is what the requirer at the other end reads: its
   * remote partition is our local one, so `udr_available` carries the record.
   */
  lemma PublishedRecordIsObserved(rel: Relation, info: UdrInformation, providerApp: string)
    ensures var peerView := Relation(Some(providerApp), rel.remoteAppData, WithUdrInformation(rel, info).localAppData);
      UdrAvailablePayload(peerView) == Some(info)
  {
  }

  /** Every relation instance of the map with the record written into it. */
  function PublishedToAll(relations: map<RelationId, Relation>, info: UdrInformation): (updated: map<RelationId, Relation>)
    ensures updated.Keys == relations.Keys
  {
    map id | id in relations :: WithUdrInformation(relations[id], info)
  }

  /** The instances outside `pending` with the record written into them, those in `pending` untouched. */
  function PublishedExcept(relations: map<RelationId, Relation>, info: UdrInformation, pending: set<RelationId>): map<RelationId, Relation>
  {
    map id | id in relations :: if id in pending then relations[id] else WithUdrInformation(relations[id], info)
  }

  /** Publishing to all instances is idempotent, so a redelivered event changes nothing more. */
  lemma PublishedToAllIdempotent(relations: map<RelationId, Relation>, info: UdrInformation)
    ensures PublishedToAll(PublishedToAll(relations, info), info) == PublishedToAll(relations, info)
  {
    var once := PublishedToAll(relations, info);
    forall id | id in relations
      ensures WithUdrInformation(once[id], info) == once[id]
    {
      WithUdrInformationIdempotent(relations[id], info);
    }
  }

  /** The provider side: the instances of its relation and their data, keyed by relation id. */
  class FiveGUdrProvides {
    const relationshipName: string
    var relations: map<RelationId, Relation>

    constructor (relationshipName: string, relations: map<RelationId, Relation>)
      ensures this.relationshipName == relationshipName && this.relations == relations
    {
      this.relationshipName := relationshipName;
      this.relations := relations;
    }

    /**
     * `set_udr_information`: merges the four keys into this application's
     * partition of the instance `relationId`; raises RuntimeError, changing
     * nothing, when no such instance exists.
     */
    method SetUdrInformation(info: UdrInformation, relationId: RelationId) returns (outcome: Outcome<Error>)
      modifies this
      ensures relationId !in old(relations) ==>
        && outcome == Fail(RuntimeError("Relation " + relationshipName + " not created yet."))
        && relations == old(relations)
      ensures relationId in old(relations) ==>
        && outcome == Pass
        && relations == old(relations)[relationId := WithUdrInformation(old(relations)[relationId], info)]
    {
      if relationId !in relations {
        return Fail(RuntimeError("Relation " + relationshipName + " not created yet."));
      }
      var relation := relations[relationId];
      relations := relations[relationId := relation.(localAppData := relation.localAppData + Snapshot(info))];
      return Pass;
    }

    /** `set_udr_information` applied to every current instance of the relation. */
    method SetUdrInformationForAllRelations(info: UdrInformation)
      modifies this
      ensures relations == PublishedToAll(old(relations), info)
    {
      var pending := relations.Keys;
      while |pending| > 0
        invariant pending <= old(relations).Keys
        invariant relations == PublishedExcept(old(relations), info, pending)
        decreases pending
      {
        if forall r: RelationId :: r !in pending {
          assert false;  // a set of positive size has an element
        }
        var id: RelationId :| id in pending;
        ghost var before := relations;
        var _ := SetUdrInformation(info, id);
        pending := pending - {id};
        assert relations == PublishedExcept(old(relations), info, pending) by {
          assert relations == before[id := WithUdrInformation(old(relations)[id], info)];
        }
      }
    }
  }
}
