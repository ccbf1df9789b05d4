/** The registry of managed containers (`dockerHandler.managedContainers`)
    and the batch operations that reconcile it: `addContainersToScrapeConfig`,
    `removeContainersFromScrapeConfig`, and the `handle` loop that applies the
    batches in the order they arrive. The Prometheus file writer is a log of
    the snapshots it was handed. */
module Registry {
  import opened Resolver
  import opened Events

  /** The ids of a batch that an add admits: inspected, opted in, and resolved. */
  ghost function Admitted(cfg: Config, ids: seq<string>, inspect: string -> Inspection): set<string>
  {
    set id | id in ids && inspect(id).Inspected? && Manageable(cfg, inspect(id).container)
  }

  /** The registry's key set after one batch. */
  ghost function Step(cfg: Config, inspect: string -> Inspection, keys: set<string>, b: Batch): set<string>
  {
    match b
    case Start(ids) => keys + Admitted(cfg, ids, inspect)
    case Stop(ids) => keys - (set id | id in ids)
  }

  /** The registry's key set after a sequence of batches, applied in order. */
  ghost function KeysAfter(cfg: Config, inspect: string -> Inspection, keys: set<string>, batches: seq<Batch>): set<string>
  {
    if batches == [] then keys
    else Step(cfg, inspect, KeysAfter(cfg, inspect, keys, batches[..|batches| - 1]), batches[|batches| - 1])
  }

  class DockerHandler {
    const config: Config
    var managedContainers: map<string, ScrapeConfig>
    /** The snapshots handed to the Prometheus file writer, oldest first. */
    ghost var written: seq<map<string, ScrapeConfig>>

    /** Every entry is a target group with exactly one target. */
    ghost predicate Valid()
      reads this
    {
      forall id :: id in managedContainers ==> |managedContainers[id].targets| == 1
    }

    /** `newDockerHandler`, once the Docker client is connected: an empty registry. */
    constructor (config: Config)
      ensures Valid()
      ensures this.config == config && managedContainers == map[] && written == []
    {
      this.config := config;
      managedContainers := map[];
      written := [];
    }

    /** `addContainersToScrapeConfig`: resolve every id of the batch in turn and
        insert each managed one that is not registered yet; write the whole
        registry once if anything was inserted. */
    method AddContainersToScrapeConfig(containerIds: seq<string>, inspect: string -> Inspection)
      requires Valid()
      modifies this
      ensures Valid()
      ensures managedContainers.Keys == old(managedContainers.Keys) + Admitted(config, containerIds, inspect)
      ensures forall id :: id in old(managedContainers) ==> managedContainers[id] == old(managedContainers[id])
      ensures forall id :: id in managedContainers && id !in old(managedContainers) ==>
        inspect(id).Inspected? && Resolves(config, inspect(id).container, Managed(managedContainers[id]))
      ensures written == if managedContainers.Keys == old(managedContainers.Keys) then old(written)
                         else old(written) + [managedContainers]
    {
      ghost var before := managedContainers;
      var hasContainersAdded := false;
      var i := 0;
      while i < |containerIds|
        invariant 0 <= i <= |containerIds|
        invariant Valid()
        invariant forall id :: id in managedContainers <==> id in before || id in Admitted(config, containerIds[..i], inspect)
        invariant forall id :: id in before ==> id in managedContainers && managedContainers[id] == before[id]
        invariant forall id :: id in managedContainers && id !in before ==>
          inspect(id).Inspected? && Resolves(config, inspect(id).container, Managed(managedContainers[id]))
        invariant hasContainersAdded <==> exists id :: id in managedContainers && id !in before
        invariant written == old(written)
      {
        var added := AddContainer(containerIds[i], inspect);
        hasContainersAdded := hasContainersAdded || added;
        AdmittedStep(config, containerIds, i, inspect);
        i := i + 1;
      }
      assert containerIds[..i] == containerIds;
      ghost var admitted := Admitted(config, containerIds, inspect);
      GrownKeys(before, managedContainers, admitted);
      assert managedContainers.Keys == before.Keys + admitted;
      assert hasContainersAdded <==> managedContainers.Keys != before.Keys;
      if hasContainersAdded {
        written := written + [managedContainers];
      }
    }

    /** One iteration of the loop of `addContainersToScrapeConfig`: resolve
        the id and insert it if it is managed and not registered yet. */
    method AddContainer(containerId: string, inspect: string -> Inspection) returns (added: bool)
      requires Valid()
      modifies this
      ensures Valid() && written == old(written)
      ensures added <==> (containerId !in old(managedContainers) &&
                          inspect(containerId).Inspected? && Manageable(config, inspect(containerId).container))
      ensures !added ==> managedContainers == old(managedContainers)
      ensures added ==> (containerId in managedContainers &&
                         managedContainers == old(managedContainers)[containerId := managedContainers[containerId]])
      ensures added ==> Resolves(config, inspect(containerId).container, Managed(managedContainers[containerId]))
    {
      var r := FindHostPortAndPath(config, inspect(containerId));
      if inspect(containerId).Inspected? {
        ResolvesManaged(config, inspect(containerId).container, r);
      }
      added := false;
      if r.Failed? {
        // logged and skipped
      } else if r.Managed? {
        if containerId !in managedContainers {
          managedContainers := managedContainers[containerId := r.config];
          added := true;
        }
      }
    }

    /** `removeContainersFromScrapeConfig`: delete every listed id that is
        registered; write the whole registry once if anything was deleted. */
    method RemoveContainersFromScrapeConfig(containerIds: seq<string>)
      requires Valid()
      modifies this
      ensures Valid()
      ensures managedContainers.Keys == old(managedContainers.Keys) - (set id | id in containerIds)
      ensures forall id :: id in managedContainers ==> managedContainers[id] == old(managedContainers[id])
      ensures written == if managedContainers.Keys == old(managedContainers.Keys) then old(written)
                         else old(written) + [managedContainers]
    {
      ghost var before := managedContainers;
      var hasContainersRemoved := false;
      var i := 0;
      while i < |containerIds|
        invariant 0 <= i <= |containerIds|
        invariant Valid()
        invariant managedContainers.Keys == before.Keys - (set id | id in containerIds[..i])
        invariant forall id :: id in managedContainers ==> managedContainers[id] == before[id]
        invariant hasContainersRemoved <==> managedContainers.Keys != before.Keys
        invariant written == old(written)
      {
        var containerId := containerIds[i];
        if containerId in managedContainers {
          managedContainers := managedContainers - {containerId};
          hasContainersRemoved := true;
        }
        assert containerIds[..i + 1] == containerIds[..i] + [containerId];
        i := i + 1;
      }
      assert containerIds[..i] == containerIds;
      if hasContainersRemoved {
        written := written + [managedContainers];
      }
    }

    /** Re-adding ids that are all registered (a second start event, or the
        listing after an event) overwrites no entry and writes nothing. */
    method AddRegisteredIsNoOp(containerIds: seq<string>, inspect: string -> Inspection)
      requires Valid()
      requires forall id :: id in containerIds ==> id in managedContainers
      modifies this
      ensures Valid()
      ensures managedContainers == old(managedContainers) && written == old(written)
    {
      ghost var before := managedContainers;
      AddContainersToScrapeConfig(containerIds, inspect);
      assert managedContainers.Keys == before.Keys;
    }

    /** Removing ids none of which is registered (a die event for an unmanaged
        container) deletes nothing and writes nothing. */
    method RemoveAbsentIsNoOp(containerIds: seq<string>)
      requires Valid()
      requires forall id :: id in containerIds ==> id !in managedContainers
      modifies this
      ensures Valid()
      ensures managedContainers == old(managedContainers) && written == old(written)
    {
      ghost var before := managedContainers;
      RemoveContainersFromScrapeConfig(containerIds);
      assert managedContainers.Keys == before.Keys;
    }

    /** One batch received by `handle`: an add batch from the start channel
        or a remove batch from the stop channel. */
    method Apply(batch: Batch, inspect: string -> Inspection)
      requires Valid()
      modifies this
      ensures Valid()
      ensures managedContainers.Keys == Step(config, inspect, old(managedContainers.Keys), batch)
      ensures forall id :: id in managedContainers && id in old(managedContainers) ==>
        managedContainers[id] == old(managedContainers[id])
      ensures forall id :: id in managedContainers && id !in old(managedContainers) ==>
        inspect(id).Inspected? && Resolves(config, inspect(id).container, Managed(managedContainers[id]))
      ensures written == if managedContainers.Keys == old(managedContainers.Keys) then old(written)
                         else old(written) + [managedContainers]
      ensures |old(written)| <= |written| <= |old(written)| + 1
    {
      match batch {
        case Start(containersToAdd) =>
          AddContainersToScrapeConfig(containersToAdd, inspect);
        case Stop(containersToRemove) =>
          RemoveContainersFromScrapeConfig(containersToRemove);
      }
    }

    /** The `handle` loop: apply the batches in the order they are received,
        add batches from the start channel and remove batches from the stop
        channel. */
    method Handle(batches: seq<Batch>, inspect: string -> Inspection)
      requires Valid()
      modifies this
      ensures Valid()
      ensures managedContainers.Keys == KeysAfter(config, inspect, old(managedContainers.Keys), batches)
      ensures |old(written)| <= |written| <= |old(written)| + |batches|
    {
      var i := 0;
      while i < |batches|
        invariant 0 <= i <= |batches|
        invariant Valid()
        invariant managedContainers.Keys == KeysAfter(config, inspect, old(managedContainers.Keys), batches[..i])
        invariant |old(written)| <= |written| <= |old(written)| + i
      {
        Apply(batches[i], inspect);
        assert batches[..i + 1][..i] == batches[..i];
        i := i + 1;
      }
      assert batches[..i] == batches;
    }
  }

  /** A map whose keys are those of `before` plus `added` has exactly that key
      set, and differs in keys from `before` exactly when it has a new key. */
  lemma GrownKeys<V>(before: map<string, V>, after: map<string, V>, added: set<string>)
    requires forall id :: id in after <==> id in before || id in added
    ensures after.Keys == before.Keys + added
    ensures after.Keys != before.Keys <==> exists id :: id in after && id !in before
  {
    if after.Keys != before.Keys {
      var id :| id in after.Keys - before.Keys || id in before.Keys - after.Keys;
    }
  }

  /** Admitting one more id of the batch. */
  lemma AdmittedStep(cfg: Config, ids: seq<string>, i: nat, inspect: string -> Inspection)
    requires i < |ids|
    ensures Admitted(cfg, ids[..i + 1], inspect) ==
      Admitted(cfg, ids[..i], inspect) +
      (if inspect(ids[i]).Inspected? && Manageable(cfg, inspect(ids[i]).container) then {ids[i]} else {})
  {
    assert ids[..i + 1] == ids[..i] + [ids[i]];
  }

  /** Once an id is in a remove batch and no later add batch names it, it is
      not registered, however the batches interleave before that. */
  lemma {:induction false} StopIsFinal(cfg: Config, inspect: string -> Inspection, keys: set<string>,
                                       batches: seq<Batch>, i: nat, id: string)
    requires i < |batches| && batches[i].Stop? && id in batches[i].ids
    requires forall j :: i < j < |batches| && batches[j].Start? ==> id !in batches[j].ids
    ensures id !in KeysAfter(cfg, inspect, keys, batches)
  {
    var n := |batches|;
    var init := batches[..n - 1];
    if i < n - 1 {
      forall j | i < j < |init| && init[j].Start? ensures id !in init[j].ids {
        assert init[j] == batches[j];
      }
      assert init[i] == batches[i];
      StopIsFinal(cfg, inspect, keys, init, i, id);
      if batches[n - 1].Start? {
        assert id !in batches[n - 1].ids;
      }
    }
  }

  /** Once an admitted id is in an add batch and no later remove batch names
      it, it stays registered. */
  lemma {:induction false} StartIsFinal(cfg: Config, inspect: string -> Inspection, keys: set<string>,
                                        batches: seq<Batch>, i: nat, id: string)
    requires i < |batches| && batches[i].Start? && id in batches[i].ids
    requires inspect(id).Inspected? && Manageable(cfg, inspect(id).container)
    requires forall j :: i < j < |batches| && batches[j].Stop? ==> id !in batches[j].ids
    ensures id in KeysAfter(cfg, inspect, keys, batches)
  {
    var n := |batches|;
    var init := batches[..n - 1];
    if i < n - 1 {
      forall j | i < j < |init| && init[j].Stop? ensures id !in init[j].ids {
        assert init[j] == batches[j];
      }
      assert init[i] == batches[i];
      StartIsFinal(cfg, inspect, keys, init, i, id);
      if batches[n - 1].Stop? {
        assert id !in batches[n - 1].ids;
      }
    }
  }

  /** Re-adding ids that are all registered changes nothing. */
  lemma ReAddIsIdempotent(cfg: Config, inspect: string -> Inspection, keys: set<string>, ids: seq<string>)
    ensures Step(cfg, inspect, Step(cfg, inspect, keys, Start(ids)), Start(ids)) == Step(cfg, inspect, keys, Start(ids))
  {
  }
}
