/**
How the agent creates the container and the network of a verification attempt, and removes what earlier
attempts left behind. Every call to the Docker engine may fail, also after it has done its work. The methods
run one attempt; the attempts at other verifications that run beside it touch nothing that it relies on, as
the last section shows. Nobody else creates or removes resources with the labels of the same attempt.
*/
module SpawnLeftovers {
  import opened Options

  type Id = nat
  type Labels = map<string, string>

  const LABEL_AGENT_ID := "databasus.verification.agent_id"
  const LABEL_VERIFICATION_ID := "databasus.verification.verification_id"

  datatype Network = Network(name: string, labels: Labels)
  datatype Container = Container(name: string, labels: Labels, image: string, networkId: Id)

  /** The resources of the Docker daemon; IDs are never reused. */
  datatype World = World(containers: map<Id, Container>, networks: map<Id, Network>, nextId: Id)

  datatype Removal = Removed | NotFound | NotRemoved
  datatype Creation = Created(id: Id) | NameTaken | NotCreated

  function AgentLabels(agentId: string): Labels {
    map[LABEL_AGENT_ID := agentId]
  }

  function AttemptLabels(agentId: string, verificationId: string): Labels {
    map[LABEL_AGENT_ID := agentId, LABEL_VERIFICATION_ID := verificationId]
  }

  function AttemptName(verificationId: string): string {
    "databasus-verif-" + verificationId
  }

  // Docker's label filter: every given label, with AND.
  predicate Carries(labels: Labels, wanted: Labels) {
    forall key <- wanted :: key in labels && labels[key] == wanted[key]
  }

  predicate IsValid(w: World) {
    (forall id <- w.containers :: id < w.nextId) && (forall id <- w.networks :: id < w.nextId)
  }

  predicate IsNameTaken(w: World, name: string) {
    exists id <- w.networks :: w.networks[id].name == name
  }

  predicate IsAttached(w: World, networkId: Id) {
    exists id <- w.containers :: w.containers[id].networkId == networkId
  }

  predicate HasNoContainers(w: World, wanted: Labels) {
    forall id <- w.containers :: !Carries(w.containers[id].labels, wanted)
  }

  predicate HasNoNetworks(w: World, wanted: Labels) {
    forall id <- w.networks :: !Carries(w.networks[id].labels, wanted)
  }

  /** Only resources with these labels came or went; a network that came has this name. */
  ghost predicate OnlyTouches(before: World, after: World, labels: Labels, name: string) {
    && before.nextId <= after.nextId
    && (forall id <- before.containers :: if id in after.containers then after.containers[id] == before.containers[id]
                                          else Carries(before.containers[id].labels, labels))
    && (forall id <- before.networks :: if id in after.networks then after.networks[id] == before.networks[id]
                                        else Carries(before.networks[id].labels, labels))
    && (forall id <- after.containers :: id !in before.containers ==>
                                           id >= before.nextId && after.containers[id].labels == labels)
    && (forall id <- after.networks :: id !in before.networks ==>
                                         id >= before.nextId && after.networks[id] == Network(name, labels))
  }

  /** Nothing came. */
  ghost predicate OnlyRemoves(before: World, after: World, labels: Labels) {
    && OnlyTouches(before, after, labels, "")
    && after.containers.Keys <= before.containers.Keys && after.networks.Keys <= before.networks.Keys
    && after.nextId == before.nextId
  }

  class DockerEngine {
    var world: World

    /** No removal has failed so far, and no creation has failed after it had done its work. */
    ghost var isTrusty: bool

    constructor (world: World)
      ensures this.world == world && isTrusty
    {
      this.world := world;
      isTrusty := true;
    }

    method EnsureImage(image: string) returns (isPresent: bool) {
      isPresent := *;
    }

    method ListManagedContainers(labels: Labels) returns (listed: Option<seq<Id>>)
      ensures listed.Some? ==> forall id :: id in listed.value <==>
                                 id in world.containers && Carries(world.containers[id].labels, labels)
    {
      var isListed: bool := *;
      if !isListed {
        return None;
      }
      var ids := SeqOf(set id <- world.containers | Carries(world.containers[id].labels, labels));
      return Some(ids);
    }

    method ListManagedNetworks(labels: Labels) returns (listed: Option<seq<Id>>)
      ensures listed.Some? ==> forall id :: id in listed.value <==>
                                 id in world.networks && Carries(world.networks[id].labels, labels)
    {
      var isListed: bool := *;
      if !isListed {
        return None;
      }
      var ids := SeqOf(set id <- world.networks | Carries(world.networks[id].labels, labels));
      return Some(ids);
    }

    method RemoveContainer(id: Id) returns (r: Removal)
      modifies this
      ensures world == old(world) || world == old(world).(containers := old(world).containers - {id})
      ensures r != NotRemoved ==> id !in world.containers
      ensures isTrusty <==> old(isTrusty) && r != NotRemoved
    {
      if id !in world.containers {
        return NotFound;
      }
      var isDone: bool := *;
      var isReported: bool := *;
      if isDone {
        world := world.(containers := world.containers - {id});
      }
      r := if isDone && isReported then Removed else NotRemoved;
      isTrusty := isTrusty && r != NotRemoved;
    }

    /** Docker refuses to remove a network with a container attached. */
    method RemoveNetwork(id: Id) returns (r: Removal)
      modifies this
      ensures world == old(world) || world == old(world).(networks := old(world).networks - {id})
      ensures r != NotRemoved ==> id !in world.networks
      ensures IsAttached(old(world), id) ==> world == old(world)
      ensures isTrusty <==> old(isTrusty) && r != NotRemoved
    {
      if id !in world.networks {
        return NotFound;
      }
      var isDone: bool := *;
      var isReported: bool := *;
      if isDone && !IsAttached(world, id) {
        world := world.(networks := world.networks - {id});
        r := if isReported then Removed else NotRemoved;
      } else {
        r := NotRemoved;
      }
      isTrusty := isTrusty && r != NotRemoved;
    }

    method CreateNetwork(name: string, labels: Labels) returns (r: Creation)
      requires IsValid(world)
      modifies this
      ensures IsValid(world) && OnlyTouches(old(world), world, labels, name)
      ensures world.containers == old(world).containers && old(world).networks.Keys <= world.networks.Keys
      ensures r == NameTaken <==> IsNameTaken(old(world), name)
      ensures r == NameTaken ==> world == old(world)
      ensures r.Created? ==>
                && r.id !in old(world).networks && r.id in world.networks
                && world.networks[r.id] == Network(name, labels)
      ensures r.Created? ==> world.networks.Keys == old(world).networks.Keys + {r.id}
      ensures isTrusty ==> old(isTrusty) && (r.Created? || world == old(world))
    {
      if IsNameTaken(world, name) {
        return NameTaken;
      }
      var isDone: bool := *;
      var isReported: bool := *;
      r := NotCreated;
      if isDone {
        var id := world.nextId;
        world := world.(networks := world.networks[id := Network(name, labels)], nextId := id + 1);
        if isReported {
          r := Created(id);
        } else {
          isTrusty := false;
        }
      }
    }

    method CreateContainer(c: Container) returns (r: Creation)
      requires IsValid(world)
      modifies this
      ensures IsValid(world) && OnlyTouches(old(world), world, c.labels, "")
      ensures world.networks == old(world).networks && old(world).containers.Keys <= world.containers.Keys
      ensures r.Created? ==> r.id !in old(world).containers && r.id in world.containers && world.containers[r.id] == c
      ensures r.Created? ==> world.containers.Keys == old(world).containers.Keys + {r.id}
      ensures isTrusty ==> old(isTrusty) && (r.Created? || world == old(world))
    {
      var isDone: bool := *;
      var isReported: bool := *;
      r := NotCreated;
      if isDone {
        var id := world.nextId;
        world := world.(containers := world.containers[id := c], nextId := id + 1);
        if isReported {
          r := Created(id);
        } else {
          isTrusty := false;
        }
      }
    }
  }

  method SeqOf(ids: set<Id>) returns (s: seq<Id>)
    ensures forall id :: id in s <==> id in ids
  {
    s := [];
    var rest := ids;
    while rest != {}
      invariant rest <= ids && forall id :: id in s <==> id in ids && id !in rest
      decreases |rest|
    {
      var id :| id in rest;
      s, rest := s + [id], rest - {id};
    }
  }

  lemma RemovalsAddUp(a: World, b: World, c: World, labels: Labels)
    requires OnlyRemoves(a, b, labels) && OnlyRemoves(b, c, labels)
    ensures OnlyRemoves(a, c, labels)
  {
  }

  lemma TouchesAddUp(a: World, b: World, c: World, labels: Labels, name: string)
    requires IsValid(a) && OnlyTouches(a, b, labels, name) && OnlyTouches(b, c, labels, name)
    ensures OnlyTouches(a, c, labels, name)
  {
  }

  lemma RemovalsAreTouches(a: World, b: World, labels: Labels, name: string)
    requires OnlyRemoves(a, b, labels)
    ensures OnlyTouches(a, b, labels, name)
  {
  }

  /** The containers that carry the labels and then the networks: without an error nothing is left of them,
      and nothing else is touched. */
  method RemoveLeftovers(engine: DockerEngine, labels: Labels) returns (isClean: bool)
    modifies engine
    ensures engine.isTrusty ==> old(engine.isTrusty)
    ensures OnlyRemoves(old(engine.world), engine.world, labels)
    ensures isClean ==> HasNoContainers(engine.world, labels) && HasNoNetworks(engine.world, labels)
  {
    isClean := RemoveContainers(engine, labels);
    ghost var middle := engine.world;
    var areNetworksGone := RemoveNetworks(engine, labels);
    RemovalsAddUp(old(engine.world), middle, engine.world, labels);
    isClean := isClean && areNetworksGone;
  }

  method RemoveContainers(engine: DockerEngine, labels: Labels) returns (isClean: bool)
    modifies engine
    ensures engine.isTrusty ==> old(engine.isTrusty)
    ensures OnlyRemoves(old(engine.world), engine.world, labels)
    ensures engine.world.networks == old(engine.world).networks
    ensures isClean ==> HasNoContainers(engine.world, labels)
  {
    var listed := engine.ListManagedContainers(labels);
    if listed.None? {
      return false;
    }
    var ids := listed.value;
    isClean := true;
    for i := 0 to |ids|
      invariant OnlyRemoves(old(engine.world), engine.world, labels)
      invariant engine.world.networks == old(engine.world).networks
      invariant engine.isTrusty ==> old(engine.isTrusty)
      invariant isClean ==> forall id <- engine.world.containers ::
                              Carries(engine.world.containers[id].labels, labels) ==> id in ids[i..]
    {
      ghost var before := engine.world;
      var r := engine.RemoveContainer(ids[i]);
      assert ids[i..] == [ids[i]] + ids[i + 1..];
      assert ids[i] in ids && OnlyRemoves(before, engine.world, labels);
      RemovalsAddUp(old(engine.world), before, engine.world, labels);
      isClean := isClean && r != NotRemoved;
    }
  }

  method RemoveNetworks(engine: DockerEngine, labels: Labels) returns (isClean: bool)
    modifies engine
    ensures engine.isTrusty ==> old(engine.isTrusty)
    ensures OnlyRemoves(old(engine.world), engine.world, labels)
    ensures engine.world.containers == old(engine.world).containers
    ensures isClean ==> HasNoNetworks(engine.world, labels)
  {
    var listed := engine.ListManagedNetworks(labels);
    if listed.None? {
      return false;
    }
    var ids := listed.value;
    isClean := true;
    for i := 0 to |ids|
      invariant OnlyRemoves(old(engine.world), engine.world, labels)
      invariant engine.world.containers == old(engine.world).containers
      invariant engine.isTrusty ==> old(engine.isTrusty)
      invariant isClean ==> forall id <- engine.world.networks ::
                              Carries(engine.world.networks[id].labels, labels) ==> id in ids[i..]
    {
      ghost var before := engine.world;
      var r := engine.RemoveNetwork(ids[i]);
      assert ids[i..] == [ids[i]] + ids[i + 1..];
      assert ids[i] in ids && OnlyRemoves(before, engine.world, labels);
      RemovalsAddUp(old(engine.world), before, engine.world, labels);
      isClean := isClean && r != NotRemoved;
    }
  }

  /** Every network with an attempt's name is one of the agent's, labelled for that verification. */
  ghost predicate OwnsNames(w: World, agentId: string) {
    forall id <- w.networks, verificationId ::
      w.networks[id].name == AttemptName(verificationId) ==>
        Carries(w.networks[id].labels, AttemptLabels(agentId, verificationId))
  }

  /** Clears the leftovers of an earlier attempt and creates the attempt's network. Whatever an earlier
      attempt left, its name is never what the creation fails on. */
  method PrepareAttemptNetwork(engine: DockerEngine, agentId: string, verificationId: string) returns (r: Creation)
    requires IsValid(engine.world) && OwnsNames(engine.world, agentId)
    modifies engine
    ensures IsValid(engine.world)
    ensures OnlyTouches(old(engine.world), engine.world, AttemptLabels(agentId, verificationId), AttemptName(verificationId))
    ensures r != NameTaken
    ensures engine.isTrusty ==>
              old(engine.isTrusty) &&
              (r.Created? || OnlyRemoves(old(engine.world), engine.world, AttemptLabels(agentId, verificationId)))
    ensures r.Created? ==>
              && r.id in engine.world.networks
              && engine.world.networks[r.id] == Network(AttemptName(verificationId), AttemptLabels(agentId, verificationId))
              && HasNoContainers(engine.world, AttemptLabels(agentId, verificationId))
              && forall id <- engine.world.networks :: id != r.id ==>
                   !Carries(engine.world.networks[id].labels, AttemptLabels(agentId, verificationId))
  {
    var name, labels := AttemptName(verificationId), AttemptLabels(agentId, verificationId);
    var isClean := RemoveLeftovers(engine, labels);
    ghost var cleared := engine.world;
    RemovalsAreTouches(old(engine.world), cleared, labels, name);
    if !isClean {
      return NotCreated;
    }
    assert !IsNameTaken(engine.world, name) by {
      assert forall id <- cleared.networks :: cleared.networks[id] == old(engine.world).networks[id];
    }
    r := engine.CreateNetwork(name, labels);
    TouchesAddUp(old(engine.world), cleared, engine.world, labels, name);
  }

  // ----- Spawn -----

  datatype SpawnRequest = SpawnRequest(pgMajor: string, verificationId: string, timescaledbVersion: string)

  datatype Handle = Handle(containerId: Id, networkId: Id)

  const STOCK_IMAGE_REPO := "postgres"
  const TIMESCALE_IMAGE_REPO := "timescale/timescaledb"

  function ImageForJob(req: SpawnRequest, repo: string): string {
    if req.timescaledbVersion != "" then
      TIMESCALE_IMAGE_REPO + ":" + req.timescaledbVersion + "-pg" + req.pgMajor
    else repo + ":" + req.pgMajor
  }

  function StockFallbackImage(req: SpawnRequest, attempted: string): Option<string> {
    var stock := STOCK_IMAGE_REPO + ":" + req.pgMajor;
    if req.timescaledbVersion != "" || stock == attempted then None else Some(stock)
  }

  method Terminate(engine: DockerEngine, handle: Handle, ghost labels: Labels) returns (isGone: bool)
    requires IsValid(engine.world)
    requires handle.containerId in engine.world.containers ==>
               Carries(engine.world.containers[handle.containerId].labels, labels)
    requires handle.networkId in engine.world.networks ==>
               Carries(engine.world.networks[handle.networkId].labels, labels)
    modifies engine
    ensures IsValid(engine.world) && OnlyRemoves(old(engine.world), engine.world, labels)
    ensures engine.isTrusty ==> old(engine.isTrusty) && isGone
    ensures isGone ==> handle.containerId !in engine.world.containers && handle.networkId !in engine.world.networks
  {
    var r := engine.RemoveContainer(handle.containerId);
    ghost var middle := engine.world;
    assert OnlyRemoves(old(engine.world), middle, labels);
    var n := engine.RemoveNetwork(handle.networkId);
    assert OnlyRemoves(middle, engine.world, labels);
    RemovalsAddUp(old(engine.world), middle, engine.world, labels);
    isGone := r != NotRemoved && n != NotRemoved;
  }

  /** The image that the attempt may run: a fallback keeps the major and is never taken by a Timescale job. */
  method EnsureSomeImage(engine: DockerEngine, req: SpawnRequest, repo: string) returns (image: Option<string>)
    ensures image.Some? ==>
              (image.value == ImageForJob(req, repo) ||
               (req.timescaledbVersion == "" && image.value == STOCK_IMAGE_REPO + ":" + req.pgMajor))
  {
    var wanted := ImageForJob(req, repo);
    var isPresent := engine.EnsureImage(wanted);
    if isPresent {
      return Some(wanted);
    }
    image := StockFallbackImage(req, wanted);
    if image.Some? {
      var isStockPresent := engine.EnsureImage(image.value);
      if !isStockPresent {
        image := None;
      }
    }
  }

  predicate IsClean(w: World, labels: Labels) {
    HasNoContainers(w, labels) && HasNoNetworks(w, labels)
  }

  // The network is the only resource with the labels.
  predicate IsPrepared(w: World, labels: Labels, networkId: Id) {
    && networkId in w.networks && w.networks[networkId].labels == labels && HasNoContainers(w, labels)
    && forall id <- w.networks :: id != networkId ==> !Carries(w.networks[id].labels, labels)
  }

  // The container, attached to the network, and the network are the only resources with the labels.
  predicate IsSpawned(w: World, labels: Labels, handle: Handle) {
    && handle.networkId in w.networks && w.networks[handle.networkId].labels == labels
    && handle.containerId in w.containers && w.containers[handle.containerId].labels == labels
    && w.containers[handle.containerId].networkId == handle.networkId
    && (forall id <- w.networks :: id != handle.networkId ==> !Carries(w.networks[id].labels, labels))
    && (forall id <- w.containers :: id != handle.containerId ==> !Carries(w.containers[id].labels, labels))
  }

  /** The second half of Spawn: the container, and its teardown when the creation or anything after it fails. */
  method SpawnContainer(engine: DockerEngine, c: Container) returns (handle: Option<Handle>)
    requires IsValid(engine.world) && IsPrepared(engine.world, c.labels, c.networkId)
    modifies engine
    ensures IsValid(engine.world) && OnlyTouches(old(engine.world), engine.world, c.labels, c.name)
    ensures handle.Some? ==>
              IsSpawned(engine.world, c.labels, handle.value) && engine.world.containers[handle.value.containerId] == c
    ensures engine.isTrusty ==> old(engine.isTrusty) && (handle.None? ==> IsClean(engine.world, c.labels))
  {
    var container := engine.CreateContainer(c);
    ghost var created := engine.world;
    ContainersAreTouches(old(engine.world), created, c.labels, c.name);
    if !container.Created? {
      var _ := engine.RemoveNetwork(c.networkId);
      assert OnlyRemoves(created, engine.world, c.labels);
      RemovalsAreTouches(created, engine.world, c.labels, c.name);
      TouchesAddUp(old(engine.world), created, engine.world, c.labels, c.name);
      return None;
    }
    // Starting the container, resolving its port and waiting until Postgres answers.
    var isReady: bool := *;
    if !isReady {
      var _ := Terminate(engine, Handle(container.id, c.networkId), c.labels);
      RemovalsAreTouches(created, engine.world, c.labels, c.name);
      TouchesAddUp(old(engine.world), created, engine.world, c.labels, c.name);
      return None;
    }
    handle := Some(Handle(container.id, c.networkId));
  }

  /** An attempt, with a failure exit at every engine call: whatever it creates carries both labels, it
      touches nothing without them, and when it succeeds its container and network are all there is. When
      it fails it leaves nothing of its own, unless a removal failed or a creation did after its work. */
  method Spawn(engine: DockerEngine, agentId: string, repo: string, req: SpawnRequest) returns (handle: Option<Handle>)
    requires IsValid(engine.world) && OwnsNames(engine.world, agentId)
    modifies engine
    ensures IsValid(engine.world)
    ensures OnlyTouches(
              old(engine.world), engine.world, AttemptLabels(agentId, req.verificationId), AttemptName(req.verificationId))
    ensures handle.Some? ==> IsSpawned(engine.world, AttemptLabels(agentId, req.verificationId), handle.value)
    ensures handle.Some? && req.timescaledbVersion != "" ==>
              engine.world.containers[handle.value.containerId].image == ImageForJob(req, repo)
    ensures handle.None? && engine.isTrusty && IsClean(old(engine.world), AttemptLabels(agentId, req.verificationId)) ==>
              IsClean(engine.world, AttemptLabels(agentId, req.verificationId))
  {
    var labels, name := AttemptLabels(agentId, req.verificationId), AttemptName(req.verificationId);
    var image := EnsureSomeImage(engine, req, repo);
    if image.None? {
      return None;
    }
    var network := PrepareAttemptNetwork(engine, agentId, req.verificationId);
    if !network.Created? {
      return None;
    }
    ghost var prepared := engine.world;
    handle := SpawnContainer(engine, Container(name, labels, image.value, network.id));
    TouchesAddUp(old(engine.world), prepared, engine.world, labels, name);
  }

  lemma ContainersAreTouches(a: World, b: World, labels: Labels, name: string)
    requires OnlyTouches(a, b, labels, "") && b.networks == a.networks
    ensures OnlyTouches(a, b, labels, name)
  {
  }

  /** The startup purge: without an error nothing of the agent is left, and other agents are untouched. */
  method PurgeAgentContainers(engine: DockerEngine, agentId: string) returns (isClean: bool)
    modifies engine
    ensures OnlyRemoves(old(engine.world), engine.world, AgentLabels(agentId))
    ensures isClean ==> HasNoContainers(engine.world, AgentLabels(agentId)) && HasNoNetworks(engine.world, AgentLabels(agentId))
  {
    isClean := RemoveLeftovers(engine, AgentLabels(agentId));
  }

  // ----- any sequence of attempts -----

  /** A history in which each step is an attempt at some verification, successful or not. */
  ghost predicate IsHistory(worlds: seq<World>, agentId: string, attempts: seq<string>) {
    && |worlds| == |attempts| + 1 && IsValid(worlds[0])
    && forall i :: 0 <= i < |attempts| ==>
         OnlyTouches(worlds[i], worlds[i + 1], AttemptLabels(agentId, attempts[i]), AttemptName(attempts[i]))
  }

  lemma NamesAreInjective(a: string, b: string)
    requires AttemptName(a) == AttemptName(b)
    ensures a == b
  {
    var n := |"databasus-verif-"|;
    assert AttemptName(a)[n..] == a && AttemptName(b)[n..] == b;
  }

  lemma AnAttemptKeepsNamesOwned(before: World, after: World, agentId: string, verificationId: string)
    requires OwnsNames(before, agentId)
    requires OnlyTouches(before, after, AttemptLabels(agentId, verificationId), AttemptName(verificationId))
    ensures OwnsNames(after, agentId)
  {
    forall id <- after.networks, other | after.networks[id].name == AttemptName(other)
      ensures Carries(after.networks[id].labels, AttemptLabels(agentId, other))
    {
      if id !in before.networks {
        NamesAreInjective(other, verificationId);
      }
    }
  }

  /** After any sequence of attempts the attempt names are still the agent's, so a next attempt never fails
      on a name; and a resource without the labels of any of the verifications is as it was. */
  lemma {:induction false} HistoriesKeepNamesAndStrangers(worlds: seq<World>, agentId: string, attempts: seq<string>)
    requires IsHistory(worlds, agentId, attempts) && OwnsNames(worlds[0], agentId)
    ensures OwnsNames(worlds[|attempts|], agentId)
    ensures forall id <- worlds[0].containers ::
              (forall v <- attempts :: !Carries(worlds[0].containers[id].labels, AttemptLabels(agentId, v))) ==>
                id in worlds[|attempts|].containers && worlds[|attempts|].containers[id] == worlds[0].containers[id]
    ensures forall id <- worlds[0].networks ::
              (forall v <- attempts :: !Carries(worlds[0].networks[id].labels, AttemptLabels(agentId, v))) ==>
                id in worlds[|attempts|].networks && worlds[|attempts|].networks[id] == worlds[0].networks[id]
    decreases |attempts|
  {
    if attempts != [] {
      var n := |attempts| - 1;
      assert forall v <- attempts[..n] :: v in attempts;
      assert IsHistory(worlds[..n + 1], agentId, attempts[..n]);
      HistoriesKeepNamesAndStrangers(worlds[..n + 1], agentId, attempts[..n]);
      AnAttemptKeepsNamesOwned(worlds[n], worlds[n + 1], agentId, attempts[n]);
      assert attempts[n] in attempts;
    }
  }

  // Labels tell verifications apart, and an agent's labels cover those of all its attempts.
  lemma LabelsTellAttemptsApart(agentId: string, a: string, b: string)
    ensures Carries(AttemptLabels(agentId, a), AttemptLabels(agentId, b)) <==> a == b
    ensures Carries(AttemptLabels(agentId, a), AgentLabels(agentId))
  {
    assert LABEL_AGENT_ID[23] != LABEL_VERIFICATION_ID[23];
    assert LABEL_VERIFICATION_ID in AttemptLabels(agentId, b);
    assert LABEL_AGENT_ID in AttemptLabels(agentId, b);
  }

  // ----- attempts at other verifications beside this one -----

  ghost function ContainersOf(w: World, labels: Labels): map<Id, Container> {
    map id | id in w.containers && Carries(w.containers[id].labels, labels) :: w.containers[id]
  }

  ghost function NetworksOf(w: World, labels: Labels): map<Id, Network> {
    map id | id in w.networks && Carries(w.networks[id].labels, labels) :: w.networks[id]
  }

  /** Everything an attempt goes by: its own resources, and whether its name is free. */
  ghost predicate LooksTheSame(before: World, after: World, agentId: string, verificationId: string) {
    && ContainersOf(after, AttemptLabels(agentId, verificationId)) ==
       ContainersOf(before, AttemptLabels(agentId, verificationId))
    && NetworksOf(after, AttemptLabels(agentId, verificationId)) ==
       NetworksOf(before, AttemptLabels(agentId, verificationId))
    && (IsNameTaken(after, AttemptName(verificationId)) <==> IsNameTaken(before, AttemptName(verificationId)))
  }

  lemma CarriesOnlyOne(labels: Labels, agentId: string, a: string, b: string)
    requires Carries(labels, AttemptLabels(agentId, a)) && Carries(labels, AttemptLabels(agentId, b))
    ensures a == b
  {
    assert LABEL_VERIFICATION_ID in AttemptLabels(agentId, a) && LABEL_VERIFICATION_ID in AttemptLabels(agentId, b);
  }

  // A name that is gone was on a network of the other attempt, and so another name.
  lemma AnotherAttemptKeepsTheName(before: World, after: World, agentId: string, own: string, other: string)
    requires own != other && OwnsNames(before, agentId)
    requires OnlyTouches(before, after, AttemptLabels(agentId, other), AttemptName(other))
    ensures IsNameTaken(after, AttemptName(own)) <==> IsNameTaken(before, AttemptName(own))
  {
    forall id <- after.networks | after.networks[id].name == AttemptName(own)
      ensures id in before.networks && before.networks[id] == after.networks[id]
    {
      if id !in before.networks {
        NamesAreInjective(own, other);
      }
    }
    forall id <- before.networks | before.networks[id].name == AttemptName(own)
      ensures id in after.networks && before.networks[id] == after.networks[id]
    {
      if id !in after.networks {
        CarriesOnlyOne(before.networks[id].labels, agentId, own, other);
      }
    }
  }

  /** A step of an attempt at one verification, be it a single engine call or all of it, leaves everything that
      an attempt at another one goes by as it was. */
  lemma AnotherAttemptDoesNotInterfere(before: World, after: World, agentId: string, own: string, other: string)
    requires own != other && OwnsNames(before, agentId)
    requires OnlyTouches(before, after, AttemptLabels(agentId, other), AttemptName(other))
    ensures LooksTheSame(before, after, agentId, own)
  {
    AnotherAttemptKeepsTheName(before, after, agentId, own, other);
    var labels := AttemptLabels(agentId, own);
    LabelsTellAttemptsApart(agentId, other, own);
    forall id <- before.containers | Carries(before.containers[id].labels, labels)
      ensures id in after.containers
    {
      if id !in after.containers {
        CarriesOnlyOne(before.containers[id].labels, agentId, own, other);
      }
    }
    forall id <- before.networks | Carries(before.networks[id].labels, labels)
      ensures id in after.networks
    {
      if id !in after.networks {
        CarriesOnlyOne(before.networks[id].labels, agentId, own, other);
      }
    }
  }

  /** Between two steps of an attempt any number of steps of attempts at other verifications may come. */
  lemma {:induction false} OtherAttemptsDoNotInterfere(
    worlds: seq<World>, agentId: string, attempts: seq<string>, own: string)
    requires IsHistory(worlds, agentId, attempts) && OwnsNames(worlds[0], agentId) && own !in attempts
    ensures OwnsNames(worlds[|attempts|], agentId) && LooksTheSame(worlds[0], worlds[|attempts|], agentId, own)
    decreases |attempts|
  {
    if attempts != [] {
      var n := |attempts| - 1;
      assert IsHistory(worlds[..n + 1], agentId, attempts[..n]);
      OtherAttemptsDoNotInterfere(worlds[..n + 1], agentId, attempts[..n], own);
      AnAttemptKeepsNamesOwned(worlds[n], worlds[n + 1], agentId, attempts[n]);
      AnotherAttemptDoesNotInterfere(worlds[n], worlds[n + 1], agentId, own, attempts[n]);
    }
  }

  lemma OwnResourcesStay(before: World, after: World, labels: Labels, id: Id)
    requires ContainersOf(after, labels) == ContainersOf(before, labels)
    requires NetworksOf(after, labels) == NetworksOf(before, labels)
    ensures id in before.containers && Carries(before.containers[id].labels, labels) ==>
              id in after.containers && after.containers[id] == before.containers[id]
    ensures id in before.networks && Carries(before.networks[id].labels, labels) ==>
              id in after.networks && after.networks[id] == before.networks[id]
  {
    assert id in ContainersOf(before, labels) ==> ContainersOf(after, labels)[id] == ContainersOf(before, labels)[id];
    assert id in NetworksOf(before, labels) ==> NetworksOf(after, labels)[id] == NetworksOf(before, labels)[id];
  }

  /** So what one step of an attempt has established the next one still finds. */
  lemma WhatLooksTheSameIsTheSame(before: World, after: World, agentId: string, own: string)
    requires LooksTheSame(before, after, agentId, own)
    ensures var labels := AttemptLabels(agentId, own);
            && (IsClean(before, labels) ==> IsClean(after, labels))
            && (forall n: Id :: IsPrepared(before, labels, n) ==> IsPrepared(after, labels, n))
            && (forall h :: IsSpawned(before, labels, h) ==> IsSpawned(after, labels, h))
  {
    var labels := AttemptLabels(agentId, own);
    forall id: Id
      ensures id in after.containers && Carries(after.containers[id].labels, labels) ==>
                id in before.containers && before.containers[id] == after.containers[id]
      ensures id in after.networks && Carries(after.networks[id].labels, labels) ==>
                id in before.networks && before.networks[id] == after.networks[id]
      ensures id in before.containers && Carries(before.containers[id].labels, labels) ==>
                id in after.containers && before.containers[id] == after.containers[id]
      ensures id in before.networks && Carries(before.networks[id].labels, labels) ==>
                id in after.networks && before.networks[id] == after.networks[id]
    {
      OwnResourcesStay(after, before, labels, id);
      OwnResourcesStay(before, after, labels, id);
    }
    assert Carries(labels, labels);
  }
}
