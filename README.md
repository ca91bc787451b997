# Bootstrap of the Confluent Schema Registry topology, in Dafny

This project models `start.py` of the clusterdock topology
`topology_confluent_schema_registry`. The script starts a cluster of nodes and then brings up,
in five stages:

1. ZooKeeper on every node: a data directory, a `myid` marker holding the node's position, and
   an ensemble configuration shared by all nodes.
2. A ZooKeeper readiness wait on each node in turn.
3. A Kafka broker on every node: the vendor template with `broker.id=0` replaced by the node's
   position.
4. One wait, on the first node, until every broker is registered in ZooKeeper.
5. Schema Registry on every node.

The modules are:

- `Wrappers`: Option, Result and Outcome.
- `Text`: `str()` of an int, `join`, `startswith`, `in` and `str.replace`, with their laws, and a `split` that only states how a joined file reads back.
- `JsonArray`: `json.loads` for the arrays of integers that the ZooKeeper shell prints.
- `Poller`: `wait_for_condition` with the script's `failure` callback.
- `Readiness`: `validate_zookeeper` and `validate_kafka`.
- `Config`: the ZooKeeper configuration, the `myid` marker and the broker identity patch.
- `Orchestrator`: a `Cluster` class that records every remote action in a trace, one method per
  stage of `main`, the `Bootstrap` method that runs them, and `BootstrapRun`, the function that
  specifies it.
- `BootstrapProperties`: what the trace guarantees. It covers per-node setup, stage order,
  gating of each stage on the waits before it, failure as the last action, and what a
  successful run starts.

The nodes are never contacted. A `World` value supplies what they answer:

- the broker template each node holds;
- the exit status and output of each readiness command, at each check that fits in a wait's
  time budget.

`wait_for_condition` is an oracle over that sequence of check results. Its clock and sleeps are
not modelled.

Node `i` is the node at position `i` of the roster. The model assumes that iterating the
cluster visits the nodes in roster order, and that `nodes[0]` is the first node of that
iteration. This is an assumption about the cluster library, which is not part of this model.

Three behaviours of the code that a reader might expect to be otherwise are modelled as written:

- A broker template without `broker.id=0` is uploaded unchanged and nothing reports it.
- Output that starts with `[` but is not valid JSON makes `json.loads` raise inside the broker
  wait. Nothing catches that exception, so it ends the wait and the bootstrap. It is not
  treated as "not yet".
- An empty roster makes `nodes[0]` raise `IndexError` just before the broker wait, after
  stages 1 to 3 have issued nothing.

## Model

| member | source | states |
|---|---|---|
| Poller.WaitForCondition | start.py:91-96 | `wait_for_condition` with the `failure` callback over the check results that fit in the budget. It has no contract of its own; WaitForConditionMeaning and WaitDecidedByFirst state what it returns. |
| Poller.WaitForConditionMeaning | start.py:29-30 | A wait succeeds at the first check that holds, and every earlier check said "not yet". It raises the `failure` callback's TimeoutError carrying the timeout only when every check said "not yet". Otherwise it raises the exception of the first check that raised. |
| Poller.WaitDecidedByFirst | start.py:29-30 | The first check that does not say "not yet" decides the wait. It is satisfied at that check, or it raises that check's exception. |
| Readiness.ValidateZookeeper | start.py:34-35 | ZooKeeper is ready exactly when the shell command exits with status 0. |
| Readiness.ValidateKafka | start.py:39-49 | It answers true iff the exit status is 0 and the output starts with `[` and parses as an array of exactly the broker count. It raises, always with JsonDecodeError, iff the exit status is 0 and output starting with `[` does not parse. Every other case is false. |
| Readiness.ValidateKafkaOnListing | start.py:39-49 | On a listing of ids rendered as the shell prints them, the check answers whether there are exactly `broker_count` ids. |
| Readiness.ValidateKafkaNotAnArray | start.py:42-47 | A failed command, or output that does not start with `[`, is "not yet". |
| Readiness.ValidateKafkaTruncated | start.py:46-49 | A bare `[` makes the check raise JsonDecodeError. |
| Readiness.ZookeeperWaitOutcome | start.py:89-96 | A node's ZooKeeper wait succeeds iff some check in its budget exits with status 0. Otherwise it raises TimeoutError with the wait's timeout. |
| Readiness.KafkaWaitSucceedsOnListing | start.py:108-115 | The broker wait succeeds at the first check that lists exactly `len(nodes)` ids, when every earlier check said "not yet". |
| Readiness.KafkaWaitAbortsOnMalformed | start.py:108-115 | Malformed JSON seen before success aborts the broker wait with JsonDecodeError. |
| Readiness.KafkaWaitErrors | start.py:108-115 | The broker wait can only raise TimeoutError with its timeout, or JsonDecodeError. |
| JsonArray.ParseArray | start.py:49 | `json.loads` on an array of integers, `None` where the model does not decode. It has no contract of its own; ParseArrayOfRender, ValidateKafkaTruncated and ValidateKafka state what it does. |
| JsonArray.ParseArrayOfRender | start.py:49 | Parsing an integer array printed in the shell's `[a, b, c]` form gives the array back. |
| Text.NatToString | start.py:84 | `str(idx)`: at least one character, all decimal digits, and no leading zero except for 0. DigitsValueOfNatToString and NatToStringInjective give its meaning. |
| Text.Join | start.py:85 | `'\n'.join(zookeeper_config)`. It has no contract of its own; SplitJoin and Config.ZookeeperPropertiesLines state that the lines can be read back. |
| Text.DigitsValueOfNatToString | start.py:84 | Reading back the decimal text `str(n)` gives `n`. |
| Text.NatToStringInjective | start.py:84 | Distinct positions get distinct decimal texts. |
| Text.SplitJoin | start.py:85 | Splitting a newline join gives the lines back when no line contains a newline. |
| Text.Replace | start.py:103 | `str.replace` for a non-empty pattern, left to right and without overlaps. It has no contract of its own; ReplaceAbsent, ReplaceIdentity, ReplaceIntroduces, ReplaceRemovesAll and ReplaceIdempotent state its laws. |
| Text.ReplaceAbsent | start.py:103 | `str.replace` with a pattern that does not occur changes nothing. |
| Text.ReplaceIntroduces | start.py:103 | If the pattern occurs, the replacement occurs in the result. |
| Text.ReplaceRemovesAll | start.py:103 | After an unambiguous replacement the pattern no longer occurs. |
| Text.ReplaceIdempotent | start.py:103 | An unambiguous replacement applied twice equals the replacement applied once. |
| Config.ServerLine | start.py:78 | The membership line `server.{idx}={hostname}:2888:3888` of one node. Its properties are in ZookeeperConfig and ZookeeperPropertiesLines. |
| Config.ZookeeperConfig | start.py:71-78 | The configuration is the five tuning lines followed by `server.{idx}={hostname}:2888:3888` for each node in roster order. |
| Config.BuildZookeeperConfig | start.py:71-78 | The appending loop builds exactly `ZookeeperConfig`. |
| Config.ZookeeperPropertiesLines | start.py:85 | The properties file, read back line by line, gives the configuration lines, provided no hostname contains a newline. |
| Config.MyId | start.py:84 | Node `idx`'s marker is all decimal digits and denotes `idx`. |
| Config.PatchBrokerId | start.py:102-104 | The template with every `broker.id=0` replaced by `broker.id={idx}`. It has no contract of its own; the PatchBrokerId lemmas below and BootstrapProperties.BrokerUploadIdentity state its meaning. |
| Config.PatchBrokerIdZero | start.py:102-104 | Node 0 uploads its template unchanged. |
| Config.PatchBrokerIdWithoutDefault | start.py:102-104 | A template without `broker.id=0` is uploaded unchanged. |
| Config.PatchBrokerIdRemovesDefault | start.py:102-104 | On every node other than node 0, no `broker.id=0` survives the patch. |
| Config.PatchBrokerIdSetsIdentity | start.py:102-104 | A template that had `broker.id=0` carries `broker.id={idx}` after the patch. |
| Config.PatchBrokerIdIdempotent | start.py:102-104 | Patching twice with the same identity equals patching once. |
| Orchestrator.Cluster.Execute | start.py:83 | A blocking remote command is recorded at the end of the trace, and nothing else changes. |
| Orchestrator.Cluster.ExecuteDetached | start.py:86 | A detached start (`detach=True`) is recorded at the end of the trace, and nothing else changes. The same method models lines 106 and 120. |
| Orchestrator.Cluster.PutFile | start.py:84-85 | A file upload, with its node, path and content, is recorded at the end of the trace. The same method models line 104. |
| Orchestrator.Cluster.GetFile | start.py:102 | The fetch is recorded and returns the node's template. |
| Orchestrator.Cluster.WaitFor | start.py:91-96 | The wait is recorded and ends as `wait_for_condition` does on the node's check results. |
| Orchestrator.FirstFailure | start.py:89-96 | Every ZooKeeper wait before the returned position succeeded. The wait at that position, if there is one, raised. |
| Orchestrator.Plan | start.py:80-120 | `main` from stage 1 on, as a value: the trace and outcome for given templates, shared properties and wait answers. It has no contract of its own; the BootstrapProperties lemmas are stated over it for every choice of answers. |
| Orchestrator.BootstrapRun | start.py:70-120 | Plan applied to a world's hostnames, templates and the answers its waits get. Orchestrator.Bootstrap is proved to follow it, and SuccessIff and FailureCause characterise it. |
| Orchestrator.StartZookeepers | start.py:80-86 | Stage 1 appends, for each node in order, the data directory, the `myid` marker, the properties upload and the detached ZooKeeper start. |
| Orchestrator.AwaitZookeepers | start.py:88-96 | Stage 2 passes iff every ZooKeeper wait succeeds. Otherwise it stops after the first wait that raised and reports that wait's error. |
| Orchestrator.StartBrokers | start.py:98-106 | Stage 3 appends, for each node in order, the template fetch, the upload of the patched template and the detached broker start. |
| Orchestrator.AwaitBrokers | start.py:108-115 | Stage 4 passes iff the roster is non-empty and the broker wait on the first node succeeds. An empty roster raises IndexError before any wait. |
| Orchestrator.StartSchemaRegistries | start.py:117-120 | Stage 5 starts Schema Registry detached on each node in order. |
| Orchestrator.Bootstrap | start.py:70-120 | `main` issues exactly the actions of `BootstrapRun` and ends as `BootstrapRun` says. |
| BootstrapProperties.StagesInOrder | start.py:80-120 | The stages never interleave: the stage of each action is at least the stage of every action before it. |
| BootstrapProperties.ZookeeperNodeSetup | start.py:81-86 | At positions 4i to 4i+3, node `i` gets its data directory, a `myid` holding `i` in decimal, the shared configuration, and the ZooKeeper start. |
| BootstrapProperties.ZookeeperGateHolds | start.py:89-99 | While some ZooKeeper wait fails, nothing of stage 3 or later happens. |
| BootstrapProperties.BrokerGateHolds | start.py:108-118 | Unless the broker wait succeeds on a non-empty roster, no Schema Registry is started. |
| BootstrapProperties.BrokersStartAfterZookeeper | start.py:88-106 | Any broker action comes after all 5N ZooKeeper actions, and only when every ZooKeeper wait succeeded. |
| BootstrapProperties.SchemaRegistryAfterBrokers | start.py:108-120 | A Schema Registry start comes after the broker wait at position 8N, which succeeded, on a non-empty roster. |
| BootstrapProperties.BrokerNodeSetup | start.py:99-106 | At positions 5N+3i to 5N+3i+2, node `i`'s template is fetched, uploaded patched with its identity, and its broker started. |
| BootstrapProperties.BrokerUploadIdentity | start.py:102-104 | The file uploaded to node `i` carries `broker.id={i}` when the template had the default. No default is left on later nodes, and a template without the default is uploaded unchanged. |
| BootstrapProperties.FailureIsFinal | start.py:88-115 | A failed bootstrap ends with the wait that raised the reported error, after which nothing is done. Every earlier wait succeeded. An empty roster fails with IndexError and an empty trace. |
| BootstrapProperties.OutcomeByGates | start.py:88-120 | The bootstrap succeeds iff the roster is non-empty and every wait succeeds. |
| BootstrapProperties.SuccessIff | start.py:88-120 | In a world, success holds iff the roster is non-empty, some ZooKeeper check on every node exits with status 0, and the broker wait succeeds. |
| BootstrapProperties.FailureCause | start.py:108-115 | A failure is one of three: IndexError on an empty roster, TimeoutError with the 60-second timeout, or JsonDecodeError from the broker wait as the last action. |
| BootstrapProperties.SuccessfulRun | start.py:80-120 | A successful trace is the five stages in order. |
| BootstrapProperties.SuccessfulLaunches | start.py:80-120 | A successful bootstrap issues 9N+1 actions. It starts ZooKeeper, Kafka and Schema Registry exactly once on each node, in roster order, and starts nothing else. |
| BootstrapProperties.SuccessfulWaits | start.py:89-115 | The waits of a successful bootstrap are one ZooKeeper wait per node in roster order, then the single broker wait. |

## Left out

- Cluster provisioning is not modelled: the image name, `Node` and `Cluster` construction, ports, the network and image pulls. The model starts from a started cluster.
- The transport behind `node.execute`, `put_file` and `get_file` is not modelled. Their results are inputs, and the files written are recorded, not stored.
- Logging, the `success` callback and the `quiet` flag only produce log output and are dropped.
- Orchestrator.Cluster.WaitFor does not model time: how many checks fit in 60 seconds at 3-second intervals is part of the oracle. The wait's interval and timeout are still recorded in the trace.
- JsonArray.ParseArrayOfRender: `json.loads` is modelled only for arrays of integer literals. Any other JSON value that starts with `[` is treated as a decoding error, although Python would accept it and count its elements.
- Exception messages are not modelled. TimeoutError keeps only the timeout it reports.
- The order in which the cluster library iterates nodes is assumed to be roster order, with `nodes[0]` as the first node.
- Schema Registry's REST port and the script's other constants used only during provisioning are not modelled.
