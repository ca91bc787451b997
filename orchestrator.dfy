/**
 * The staged bootstrap of start.py's `main`: ZooKeeper start on every node, a ZooKeeper
 * readiness wait per node, Kafka configuration and start on every node, one global
 * broker-registration wait, and Schema Registry start on every node.
 *
 * The nodes are not contacted: a `Cluster` object records every remote action in a trace,
 * and a `World` value supplies what the nodes answer (the broker templates they hold and
 * the results of the readiness commands at each check of each wait). Node `i` is the node
 * at position `i` of the roster; iterating the cluster and indexing `nodes` are assumed to
 * visit the nodes in that same order.
 */
module Orchestrator {
  import opened Wrappers
  import opened Text
  import opened Poller
  import opened Readiness
  import opened Config

  const Interval: nat := 3
  const Timeout: nat := 60

  const MakeDataDir := "mkdir -p /zookeeper"
  const MyIdPath := "/zookeeper/myid"
  const ZookeeperPropertiesPath := "/zookeeper.properties"
  const StartZookeeper := "/start_zookeeper &"
  const ServerPropertiesPath := "/confluent/etc/kafka/server.properties"
  const KafkaPropertiesPath := "/kafka.properties"
  const StartKafka := "/start_kafka &"
  const StartSchemaRegistry := "/start_schema_registry &"

  /** The condition a wait polls. */
  datatype Condition = ZookeeperReady | BrokersRegistered(brokerCount: nat)

  /** One remote action, as the trace records it. */
  datatype Action =
    | Ran(node: nat, command: string)                                   // node.execute(command)
    | Launched(node: nat, command: string)                              // node.execute(command, detach=True)
    | Put(node: nat, path: string, content: string)                     // node.put_file(path, content)
    | Fetched(node: nat, path: string)                                  // node.get_file(path)
    | Waited(node: nat, condition: Condition, interval: nat, timeout: nat)  // wait_for_condition(...)

  /** What the nodes answer during one bootstrap. */
  datatype World = World(
    hostnames: seq<string>,
    zookeeperPolls: seq<seq<ExecResult>>,  // per node: the ZooKeeper shell results, one per check
    templates: seq<string>,                // per node: its /confluent/etc/kafka/server.properties
    kafkaPolls: seq<ExecResult>)           // the broker listing results on node 0, one per check
  {
    predicate Valid()
    {
      |zookeeperPolls| == |hostnames| && |templates| == |hostnames|
    }

    /** The condition results a wait on `node` for `condition` observes. */
    function Checks(node: nat, condition: Condition): seq<Result<bool, Error>>
    {
      match condition
      case ZookeeperReady =>
        if node < |zookeeperPolls| then ZookeeperChecks(zookeeperPolls[node]) else []
      case BrokersRegistered(count) => KafkaChecks(kafkaPolls, count)
    }
  }

  /** The node agents of a started cluster, recording what the bootstrap asks of them. */
  class Cluster {
    const world: World
    var trace: seq<Action>

    constructor (world: World)
      ensures this.world == world && trace == []
    {
      this.world := world;
      trace := [];
    }

    method Execute(node: nat, command: string)
      modifies this
      ensures trace == old(trace) + [Ran(node, command)]
    {
      trace := trace + [Ran(node, command)];
    }

    /** Starts a command without waiting for it. */
    method ExecuteDetached(node: nat, command: string)
      modifies this
      ensures trace == old(trace) + [Launched(node, command)]
    {
      trace := trace + [Launched(node, command)];
    }

    method PutFile(node: nat, path: string, content: string)
      modifies this
      ensures trace == old(trace) + [Put(node, path, content)]
    {
      trace := trace + [Put(node, path, content)];
    }

    /** Fetches the broker template, the one file the bootstrap reads from a node. */
    method GetFile(node: nat, path: string) returns (content: string)
      requires node < |world.templates|
      modifies this
      ensures trace == old(trace) + [Fetched(node, path)]
      ensures content == world.templates[node]
    {
      trace := trace + [Fetched(node, path)];
      content := world.templates[node];
    }

    /** Polls `condition` against `node` until it holds, it raises, or the time runs out. */
    method WaitFor(node: nat, condition: Condition, interval: nat, timeout: nat) returns (waited: WaitOutcome)
      modifies this
      ensures trace == old(trace) + [Waited(node, condition, interval, timeout)]
      ensures waited == WaitForCondition(world.Checks(node, condition), timeout)
    {
      trace := trace + [Waited(node, condition, interval, timeout)];
      waited := WaitForCondition(world.Checks(node, condition), timeout);
    }
  }

  /** A trace and how the bootstrap ended. */
  datatype Run = Run(trace: seq<Action>, outcome: Outcome<Error>)

  function Prepend(prefix: seq<Action>, run: Run): Run
  {
    Run(prefix + run.trace, run.outcome)
  }

  /** Stage 1 on one node: data directory, identity marker, shared configuration, start. */
  function ZookeeperNode(idx: nat, properties: string): seq<Action>
  {
    [ Ran(idx, MakeDataDir),
      Put(idx, MyIdPath, MyId(idx)),
      Put(idx, ZookeeperPropertiesPath, properties),
      Launched(idx, StartZookeeper) ]
  }

  /** Stage 1 on the first `n` nodes. */
  function ZookeeperStart(properties: string, n: nat): (t: seq<Action>)
    ensures |t| == 4 * n
  {
    if n == 0 then [] else ZookeeperStart(properties, n - 1) + ZookeeperNode(n - 1, properties)
  }

  function ZookeeperWait(idx: nat): Action
  {
    Waited(idx, ZookeeperReady, Interval, Timeout)
  }

  /** Stage 2 on the first `n` nodes. */
  function ZookeeperWaits(n: nat): (t: seq<Action>)
    ensures |t| == n
    ensures forall p :: 0 <= p < |t| ==> t[p] == ZookeeperWait(p)
  {
    if n == 0 then [] else ZookeeperWaits(n - 1) + [ZookeeperWait(n - 1)]
  }

  /** Stage 3 on one node: fetch the template, upload it with the node's identity, start. */
  function KafkaNode(idx: nat, template: string): seq<Action>
  {
    [ Fetched(idx, ServerPropertiesPath),
      Put(idx, KafkaPropertiesPath, PatchBrokerId(template, idx)),
      Launched(idx, StartKafka) ]
  }

  /** Stage 3 on the first `n` nodes. */
  function KafkaStart(templates: seq<string>, n: nat): (t: seq<Action>)
    requires n <= |templates|
    ensures |t| == 3 * n
  {
    if n == 0 then [] else KafkaStart(templates, n - 1) + KafkaNode(n - 1, templates[n - 1])
  }

  /** Stage 4: the single wait, on node 0, for `brokerCount` registered brokers. */
  function BrokerWait(brokerCount: nat): Action
  {
    Waited(0, BrokersRegistered(brokerCount), Interval, Timeout)
  }

  /** Stage 5 on the first `n` nodes. */
  function SchemaRegistryStart(n: nat): (t: seq<Action>)
    ensures |t| == n
    ensures forall p :: 0 <= p < |t| ==> t[p] == Launched(p, StartSchemaRegistry)
  {
    if n == 0 then [] else SchemaRegistryStart(n - 1) + [Launched(n - 1, StartSchemaRegistry)]
  }

  /** What the waits of one bootstrap answer: one outcome per ZooKeeper wait, then the broker wait's. */
  datatype Answers = Answers(zookeeper: seq<WaitOutcome>, broker: WaitOutcome)

  /** The answers the waits get in `world`. */
  function AnswersIn(world: World): (answers: Answers)
    ensures |answers.zookeeper| == |world.hostnames|
  {
    Answers(
      seq(|world.hostnames|, i requires 0 <= i => WaitForCondition(world.Checks(i, ZookeeperReady), Timeout)),
      WaitForCondition(world.Checks(0, BrokersRegistered(|world.hostnames|)), Timeout))
  }

  /** The first wait, from position `from` on, that does not succeed. */
  function FirstFailure(outcomes: seq<WaitOutcome>, from: nat): (m: nat)
    requires from <= |outcomes|
    ensures from <= m <= |outcomes|
    ensures forall j :: from <= j < m ==> outcomes[j].Satisfied?
    ensures m < |outcomes| ==> outcomes[m].Raised?
    decreases |outcomes| - from
  {
    if from == |outcomes| || outcomes[from].Raised? then from
    else FirstFailure(outcomes, from + 1)
  }

  /**
   * The whole bootstrap, stage by stage, as a value: what `main` does on nodes that hold
   * `templates` (one per node, in roster order), sharing the ZooKeeper configuration
   * `properties`, when its waits get `answers`.
   */
  function Plan(properties: string, templates: seq<string>, answers: Answers): Run
    requires |templates| == |answers.zookeeper|
  {
    Prepend(ZookeeperStart(properties, |templates|), FromZookeeperGate(templates, answers))
  }

  /** Stage 2 onwards: the first ZooKeeper wait that fails ends the bootstrap. */
  function FromZookeeperGate(templates: seq<string>, answers: Answers): Run
    requires |templates| == |answers.zookeeper|
  {
    var n := |templates|;
    var m := FirstFailure(answers.zookeeper, 0);
    if m < n then Run(ZookeeperWaits(m + 1), Fail(answers.zookeeper[m].error))
    else Prepend(ZookeeperWaits(n), FromBrokerStart(templates, answers.broker))
  }

  /** Stage 3 onwards. */
  function FromBrokerStart(templates: seq<string>, broker: WaitOutcome): Run
  {
    Prepend(KafkaStart(templates, |templates|), FromBrokerGate(|templates|, broker))
  }

  /** Stage 4 onwards; `nodes[0]` raises on an empty roster before the wait starts. */
  function FromBrokerGate(n: nat, broker: WaitOutcome): Run
  {
    if n == 0 then Run([], Fail(IndexError))
    else match broker
      case Raised(e) => Run([BrokerWait(n)], Fail(e))
      case Satisfied(_) => Run([BrokerWait(n)] + SchemaRegistryStart(n), Pass)
  }

  /** The bootstrap in `world`. */
  function BootstrapRun(world: World): Run
    requires world.Valid()
  {
    Plan(ZookeeperProperties(world.hostnames), world.templates, AnswersIn(world))
  }

  lemma FirstFailureAt(outcomes: seq<WaitOutcome>, idx: nat)
    requires idx < |outcomes| && outcomes[idx].Raised?
    requires forall j :: 0 <= j < idx ==> outcomes[j].Satisfied?
    ensures FirstFailure(outcomes, 0) == idx
  {
  }

  lemma ConcatAssoc(a: seq<Action>, b: seq<Action>, c: seq<Action>)
    ensures a + b + c == a + (b + c)
  {
  }

  /** Stage 1: prepare and start ZooKeeper on every node. */
  method StartZookeepers(cluster: Cluster, properties: string)
    modifies cluster
    ensures cluster.trace == old(cluster.trace) + ZookeeperStart(properties, |cluster.world.hostnames|)
  {
    ghost var start := cluster.trace;
    for idx := 0 to |cluster.world.hostnames|
      invariant cluster.trace == start + ZookeeperStart(properties, idx)
    {
      cluster.Execute(idx, MakeDataDir);
      cluster.PutFile(idx, MyIdPath, MyId(idx));
      cluster.PutFile(idx, ZookeeperPropertiesPath, properties);
      cluster.ExecuteDetached(idx, StartZookeeper);
    }
  }

  /** Stage 2: wait for ZooKeeper on each node in turn; the first wait that raises ends it. */
  method AwaitZookeepers(cluster: Cluster) returns (outcome: Outcome<Error>)
    modifies cluster
    ensures var outcomes := AnswersIn(cluster.world).zookeeper; var m := FirstFailure(outcomes, 0);
      outcome.Pass? <==> m == |outcomes|
    ensures var outcomes := AnswersIn(cluster.world).zookeeper; var m := FirstFailure(outcomes, 0);
      if outcome.Pass? then cluster.trace == old(cluster.trace) + ZookeeperWaits(m)
      else (cluster.trace == old(cluster.trace) + ZookeeperWaits(m + 1) && outcome.error == outcomes[m].error)
  {
    ghost var start := cluster.trace;
    ghost var outcomes := AnswersIn(cluster.world).zookeeper;
    for idx := 0 to |cluster.world.hostnames|
      invariant cluster.trace == start + ZookeeperWaits(idx)
      invariant forall j :: 0 <= j < idx ==> outcomes[j].Satisfied?
    {
      var waited := cluster.WaitFor(idx, ZookeeperReady, Interval, Timeout);
      assert waited == outcomes[idx];
      if waited.Raised? {
        FirstFailureAt(outcomes, idx);
        return Fail(waited.error);
      }
    }
    assert FirstFailure(outcomes, 0) == |outcomes|;
    return Pass;
  }

  /** Stage 3: give every broker its identity and start it. */
  method StartBrokers(cluster: Cluster)
    requires cluster.world.Valid()
    modifies cluster
    ensures cluster.trace == old(cluster.trace) + KafkaStart(cluster.world.templates, |cluster.world.hostnames|)
  {
    ghost var start := cluster.trace;
    for idx := 0 to |cluster.world.hostnames|
      invariant cluster.trace == start + KafkaStart(cluster.world.templates, idx)
    {
      var kafkaConfig := cluster.GetFile(idx, ServerPropertiesPath);
      kafkaConfig := PatchBrokerId(kafkaConfig, idx);
      cluster.PutFile(idx, KafkaPropertiesPath, kafkaConfig);
      cluster.ExecuteDetached(idx, StartKafka);
    }
  }

  /** Stage 4: wait on the first node until every broker is registered. */
  method AwaitBrokers(cluster: Cluster) returns (outcome: Outcome<Error>)
    modifies cluster
    ensures var n := |cluster.world.hostnames|; var broker := AnswersIn(cluster.world).broker;
      outcome.Pass? <==> n > 0 && broker.Satisfied?
    ensures var n := |cluster.world.hostnames|;
      outcome.Pass? ==> cluster.trace == old(cluster.trace) + [BrokerWait(n)]
    ensures var n := |cluster.world.hostnames|; var broker := AnswersIn(cluster.world).broker;
      outcome.Fail? ==>
        cluster.trace == old(cluster.trace) + FromBrokerGate(n, broker).trace
        && outcome == FromBrokerGate(n, broker).outcome
  {
    var n := |cluster.world.hostnames|;
    if n == 0 {
      return Fail(IndexError);
    }
    var waited := cluster.WaitFor(0, BrokersRegistered(n), Interval, Timeout);
    if waited.Raised? {
      return Fail(waited.error);
    }
    return Pass;
  }

  /** Stage 5: start Schema Registry on every node. */
  method StartSchemaRegistries(cluster: Cluster)
    modifies cluster
    ensures cluster.trace == old(cluster.trace) + SchemaRegistryStart(|cluster.world.hostnames|)
  {
    ghost var start := cluster.trace;
    for idx := 0 to |cluster.world.hostnames|
      invariant cluster.trace == start + SchemaRegistryStart(idx)
    {
      cluster.ExecuteDetached(idx, StartSchemaRegistry);
    }
  }

  /**
   * The bootstrap (`main` after the cluster is started): the actions it issues are exactly
   * those of `BootstrapRun`, and it ends as `BootstrapRun` says.
   */
  method Bootstrap(cluster: Cluster) returns (outcome: Outcome<Error>)
    requires cluster.world.Valid()
    modifies cluster
    ensures cluster.trace == old(cluster.trace) + BootstrapRun(cluster.world).trace
    ensures outcome == BootstrapRun(cluster.world).outcome
  {
    var world := cluster.world;
    var n := |world.hostnames|;
    ghost var start := cluster.trace;
    var zookeeperConfig := BuildZookeeperConfig(world.hostnames);
    var properties := Join(zookeeperConfig, "\n");
    ghost var zs := ZookeeperStart(properties, n);
    StartZookeepers(cluster, properties);
    ghost var answers := AnswersIn(world);
    ghost var m := FirstFailure(answers.zookeeper, 0);
    outcome := AwaitZookeepers(cluster);
    if outcome.Fail? {
      ConcatAssoc(start, zs, ZookeeperWaits(m + 1));
      return;
    }
    ghost var zw := ZookeeperWaits(n);
    ghost var ks := KafkaStart(world.templates, n);
    StartBrokers(cluster);
    assert cluster.trace == start + (zs + (zw + ks)) by {
      ConcatAssoc(start, zs, zw);
      ConcatAssoc(start + zs, zw, ks);
      ConcatAssoc(start, zs + zw, ks);
      ConcatAssoc(zs, zw, ks);
    }
    ghost var done := zs + (zw + ks);
    ghost var gate := FromBrokerGate(n, answers.broker).trace;
    outcome := AwaitBrokers(cluster);
    if outcome.Fail? {
      ConcatAssoc(start, done, gate);
      ConcatAssoc(zs, zw + ks, gate);
      ConcatAssoc(zw, ks, gate);
      return;
    }
    StartSchemaRegistries(cluster);
    ghost var tail := [BrokerWait(n)] + SchemaRegistryStart(n);
    assert gate == tail;
    ConcatAssoc(start + done, [BrokerWait(n)], SchemaRegistryStart(n));
    ConcatAssoc(start, done, tail);
    ConcatAssoc(zs, zw + ks, tail);
    ConcatAssoc(zw, ks, tail);
  }
}
