/**
 * What the bootstrap trace guarantees: each node is set up as its stage prescribes, the
 * stages never interleave, every later stage is gated on the waits before it, a failing
 * wait is the last thing that happens, and a successful bootstrap starts every service on
 * every node exactly once.
 *
 * Most lemmas are stated for `Plan` with arbitrary wait answers, so they hold for every
 * world; the last ones tie the answers back to what the nodes report.
 */
module BootstrapProperties {
  import opened Wrappers
  import opened Text
  import opened Poller
  import opened Readiness
  import opened Config
  import opened Orchestrator

  /** The stage of `main` that issues an action: 1 ZooKeeper start, 2 its waits, 3 broker start, 4 broker wait, 5 Schema Registry start. */
  function Stage(a: Action): nat
  {
    match a
    case Ran(_, _) => 1
    case Put(_, path, _) => if path == KafkaPropertiesPath then 3 else 1
    case Fetched(_, _) => 3
    case Launched(_, command) =>
      if command == StartZookeeper then 1 else if command == StartKafka then 3 else 5
    case Waited(_, condition, _, _) => if condition.ZookeeperReady? then 2 else 4
  }

  predicate StagesWithin(t: seq<Action>, lo: nat, hi: nat)
  {
    forall p :: 0 <= p < |t| ==> lo <= Stage(t[p]) <= hi
  }

  predicate StagesOrdered(t: seq<Action>)
  {
    forall i, j :: 0 <= i < j < |t| ==> Stage(t[i]) <= Stage(t[j])
  }

  /** The sizes `Plan` needs: one ZooKeeper answer per node. */
  predicate Fits(templates: seq<string>, answers: Answers)
  {
    |templates| == |answers.zookeeper|
  }

  lemma OrderedConcat(a: seq<Action>, b: seq<Action>, lo: nat, mid: nat, hi: nat)
    requires lo <= mid <= hi
    requires StagesOrdered(a) && StagesWithin(a, lo, mid)
    requires StagesOrdered(b) && StagesWithin(b, mid, hi)
    ensures StagesOrdered(a + b) && StagesWithin(a + b, lo, hi)
  {
    var t := a + b;
    forall i, j | 0 <= i < j < |t| ensures Stage(t[i]) <= Stage(t[j]) {
      if j < |a| {
        assert t[i] == a[i] && t[j] == a[j];
      } else if i >= |a| {
        assert t[i] == b[i - |a|] && t[j] == b[j - |a|];
      } else {
        assert t[i] == a[i] && t[j] == b[j - |a|];
      }
    }
    forall p | 0 <= p < |t| ensures lo <= Stage(t[p]) <= hi {
      if p < |a| { assert t[p] == a[p]; } else { assert t[p] == b[p - |a|]; }
    }
  }

  lemma UniformOrdered(t: seq<Action>, s: nat)
    requires StagesWithin(t, s, s)
    ensures StagesOrdered(t)
  {
  }

  lemma {:induction false} ZookeeperStartStage(properties: string, n: nat)
    ensures StagesWithin(ZookeeperStart(properties, n), 1, 1)
  {
    if n > 0 {
      ZookeeperStartStage(properties, n - 1);
      var t := ZookeeperStart(properties, n);
      var prev := ZookeeperStart(properties, n - 1);
      var node := ZookeeperNode(n - 1, properties);
      forall p | 0 <= p < |t| ensures Stage(t[p]) == 1 {
        if p < |prev| { assert t[p] == prev[p]; } else { assert t[p] == node[p - |prev|]; }
      }
    }
  }

  lemma ZookeeperWaitsStage(n: nat)
    ensures StagesWithin(ZookeeperWaits(n), 2, 2)
  {
  }

  lemma {:induction false} KafkaStartStage(templates: seq<string>, n: nat)
    requires n <= |templates|
    ensures StagesWithin(KafkaStart(templates, n), 3, 3)
  {
    if n > 0 {
      KafkaStartStage(templates, n - 1);
      var t := KafkaStart(templates, n);
      var prev := KafkaStart(templates, n - 1);
      var node := KafkaNode(n - 1, templates[n - 1]);
      forall p | 0 <= p < |t| ensures Stage(t[p]) == 3 {
        if p < |prev| { assert t[p] == prev[p]; } else { assert t[p] == node[p - |prev|]; }
      }
    }
  }

  lemma SchemaRegistryStage(n: nat)
    ensures StagesWithin(SchemaRegistryStart(n), 5, 5)
  {
  }

  lemma BrokerGateStage(n: nat, broker: WaitOutcome)
    ensures StagesOrdered(FromBrokerGate(n, broker).trace) && StagesWithin(FromBrokerGate(n, broker).trace, 4, 5)
  {
    if n > 0 && broker.Satisfied? {
      SchemaRegistryStage(n);
      OrderedConcat([BrokerWait(n)], SchemaRegistryStart(n), 4, 4, 5);
    }
  }

  /** The bootstrap never returns to an earlier stage. */
  lemma StagesInOrder(properties: string, templates: seq<string>, answers: Answers)
    requires Fits(templates, answers)
    ensures StagesOrdered(Plan(properties, templates, answers).trace)
    ensures StagesWithin(Plan(properties, templates, answers).trace, 1, 5)
  {
    var n := |templates|;
    var zs := ZookeeperStart(properties, n);
    ZookeeperStartStage(properties, n);
    UniformOrdered(zs, 1);
    var m := FirstFailure(answers.zookeeper, 0);
    if m < n {
      ZookeeperWaitsStage(m + 1);
      UniformOrdered(ZookeeperWaits(m + 1), 2);
      OrderedConcat(zs, ZookeeperWaits(m + 1), 1, 1, 5);
    } else {
      var ks := KafkaStart(templates, n);
      KafkaStartStage(templates, n);
      UniformOrdered(ks, 3);
      BrokerGateStage(n, answers.broker);
      OrderedConcat(ks, FromBrokerGate(n, answers.broker).trace, 3, 3, 5);
      ZookeeperWaitsStage(n);
      UniformOrdered(ZookeeperWaits(n), 2);
      OrderedConcat(ZookeeperWaits(n), FromBrokerStart(templates, answers.broker).trace, 2, 2, 5);
      OrderedConcat(zs, FromZookeeperGate(templates, answers).trace, 1, 1, 5);
    }
  }

  /** Stage 1 opens every bootstrap. */
  lemma ZookeeperStartFirst(properties: string, templates: seq<string>, answers: Answers)
    requires Fits(templates, answers)
    ensures 4 * |templates| <= |Plan(properties, templates, answers).trace|
    ensures forall q :: 0 <= q < 4 * |templates| ==>
      Plan(properties, templates, answers).trace[q] == ZookeeperStart(properties, |templates|)[q]
  {
  }

  lemma {:induction false} ZookeeperStartAt(properties: string, n: nat, i: nat)
    requires i < n
    ensures var t := ZookeeperStart(properties, n); var node := ZookeeperNode(i, properties);
      t[4 * i] == node[0] && t[4 * i + 1] == node[1] && t[4 * i + 2] == node[2] && t[4 * i + 3] == node[3]
  {
    var prev := ZookeeperStart(properties, n - 1);
    assert ZookeeperStart(properties, n) == prev + ZookeeperNode(n - 1, properties);
    if i < n - 1 {
      ZookeeperStartAt(properties, n - 1, i);
    }
  }

  /**
   * Node `i`'s ZooKeeper setup, at positions 4i to 4i+3: its data directory, a marker
   * holding its position in decimal, the configuration every node shares, and the start.
   */
  lemma ZookeeperNodeSetup(properties: string, templates: seq<string>, answers: Answers, i: nat)
    requires Fits(templates, answers) && i < |templates|
    ensures var t := Plan(properties, templates, answers).trace;
      4 * i + 3 < |t|
      && t[4 * i] == Ran(i, MakeDataDir)
      && t[4 * i + 1].Put? && t[4 * i + 1].node == i && t[4 * i + 1].path == MyIdPath
      && AllDigits(t[4 * i + 1].content) && DigitsValue(t[4 * i + 1].content) == i
      && t[4 * i + 2] == Put(i, ZookeeperPropertiesPath, properties)
      && t[4 * i + 3] == Launched(i, StartZookeeper)
  {
    var props := properties;
    var n := |templates|;
    var t := Plan(properties, templates, answers).trace;
    var zs := ZookeeperStart(props, n);
    ZookeeperStartFirst(properties, templates, answers);
    ZookeeperStartAt(props, n, i);
    var at := 4 * i;
    assert t[at] == zs[at] && t[at + 1] == zs[at + 1] && t[at + 2] == zs[at + 2] && t[at + 3] == zs[at + 3];
  }

  /** Until every ZooKeeper wait has succeeded, nothing of stage 3 or later happens. */
  lemma ZookeeperGateHolds(properties: string, templates: seq<string>, answers: Answers)
    requires Fits(templates, answers)
    ensures FirstFailure(answers.zookeeper, 0) < |templates| ==>
      StagesWithin(Plan(properties, templates, answers).trace, 1, 2)
  {
    var n := |templates|;
    var m := FirstFailure(answers.zookeeper, 0);
    if m < n {
      var zs := ZookeeperStart(properties, n);
      ZookeeperStartStage(properties, n);
      ZookeeperWaitsStage(m + 1);
      OrderedConcat(zs, ZookeeperWaits(m + 1), 1, 1, 2);
    }
  }

  /** The trace once every ZooKeeper wait has succeeded. */
  lemma TraceAfterZookeeperGate(properties: string, templates: seq<string>, answers: Answers)
    requires Fits(templates, answers) && FirstFailure(answers.zookeeper, 0) == |templates|
    ensures Plan(properties, templates, answers).trace
      == ZookeeperStart(properties, |templates|) + ZookeeperWaits(|templates|)
         + KafkaStart(templates, |templates|) + FromBrokerGate(|templates|, answers.broker).trace
  {
    var n := |templates|;
    var zs := ZookeeperStart(properties, n);
    var zw := ZookeeperWaits(n);
    var ks := KafkaStart(templates, n);
    var gate := FromBrokerGate(n, answers.broker).trace;
    ConcatAssoc(zw, ks, gate);
    ConcatAssoc(zs, zw, ks + gate);
    ConcatAssoc(zs + zw, ks, gate);
  }

  /** Unless the broker wait has succeeded, no Schema Registry is started. */
  lemma BrokerGateHolds(properties: string, templates: seq<string>, answers: Answers)
    requires Fits(templates, answers)
    ensures !(|templates| > 0 && answers.broker.Satisfied?) ==>
      StagesWithin(Plan(properties, templates, answers).trace, 1, 4)
  {
    var n := |templates|;
    ZookeeperGateHolds(properties, templates, answers);
    if FirstFailure(answers.zookeeper, 0) == n && !(n > 0 && answers.broker.Satisfied?) {
      TraceAfterZookeeperGate(properties, templates, answers);
      var zs := ZookeeperStart(properties, n);
      var zw := ZookeeperWaits(n);
      var ks := KafkaStart(templates, n);
      ZookeeperStartStage(properties, n);
      ZookeeperWaitsStage(n);
      KafkaStartStage(templates, n);
      OrderedConcat(zs, zw, 1, 1, 2);
      OrderedConcat(zs + zw, ks, 1, 2, 3);
      OrderedConcat(zs + zw + ks, FromBrokerGate(n, answers.broker).trace, 1, 3, 4);
    }
  }

  /**
   * Every action of stage 3 or later comes after every ZooKeeper start and every ZooKeeper
   * wait, and happens only when all those waits succeeded.
   */
  lemma BrokersStartAfterZookeeper(properties: string, templates: seq<string>, answers: Answers, p: nat)
    requires Fits(templates, answers)
    requires p < |Plan(properties, templates, answers).trace|
    requires Stage(Plan(properties, templates, answers).trace[p]) >= 3
    ensures forall i :: 0 <= i < |templates| ==> answers.zookeeper[i].Satisfied?
    ensures 5 * |templates| <= p
    ensures Plan(properties, templates, answers).trace[..5 * |templates|]
      == ZookeeperStart(properties, |templates|) + ZookeeperWaits(|templates|)
  {
    var n := |templates|;
    ZookeeperGateHolds(properties, templates, answers);
    ZookeeperGatePasses(answers.zookeeper);
    TraceAfterZookeeperGate(properties, templates, answers);
    var zs := ZookeeperStart(properties, n);
    var prefix := zs + ZookeeperWaits(n);
    var ks := KafkaStart(templates, n);
    var gate := FromBrokerGate(n, answers.broker).trace;
    ConcatAssoc(prefix, ks, gate);
    ZookeeperStartStage(properties, n);
    ZookeeperWaitsStage(n);
    OrderedConcat(zs, ZookeeperWaits(n), 1, 1, 2);
    StageInPrefix(prefix, ks + gate, 1, 2, p);
  }

  /**
   * A Schema Registry is started only after the broker wait, at position 8N, succeeded,
   * and so only on a non-empty roster.
   */
  lemma SchemaRegistryAfterBrokers(properties: string, templates: seq<string>, answers: Answers, p: nat)
    requires Fits(templates, answers)
    requires p < |Plan(properties, templates, answers).trace|
    requires Stage(Plan(properties, templates, answers).trace[p]) == 5
    ensures |templates| > 0 && answers.broker.Satisfied?
    ensures 8 * |templates| < p
    ensures Plan(properties, templates, answers).trace[8 * |templates|] == BrokerWait(|templates|)
  {
    var n := |templates|;
    BrokerGateHolds(properties, templates, answers);
    BrokersStartAfterZookeeper(properties, templates, answers, p);
    ZookeeperGatePasses(answers.zookeeper);
    TraceAfterZookeeperGate(properties, templates, answers);
    var zs := ZookeeperStart(properties, n);
    var zw := ZookeeperWaits(n);
    var ks := KafkaStart(templates, n);
    var prefix := zs + zw + ks;
    ZookeeperStartStage(properties, n);
    ZookeeperWaitsStage(n);
    KafkaStartStage(templates, n);
    OrderedConcat(zs, zw, 1, 1, 2);
    OrderedConcat(zs + zw, ks, 1, 2, 3);
    StageInPrefix(prefix, FromBrokerGate(n, answers.broker).trace, 1, 3, p);
  }

  /** Within a concatenation, a position inside the first part has that part's stages. */
  lemma StageInPrefix(a: seq<Action>, b: seq<Action>, lo: nat, hi: nat, p: nat)
    requires StagesWithin(a, lo, hi) && p < |a + b|
    ensures (a + b)[..|a|] == a
    ensures p < |a| ==> (a + b)[p] == a[p] && lo <= Stage((a + b)[p]) <= hi
    ensures |b| > 0 ==> (a + b)[|a|] == b[0]
  {
  }

  lemma {:induction false} KafkaStartAt(templates: seq<string>, n: nat, i: nat)
    requires i < n <= |templates|
    ensures var t := KafkaStart(templates, n); var node := KafkaNode(i, templates[i]);
      t[3 * i] == node[0] && t[3 * i + 1] == node[1] && t[3 * i + 2] == node[2]
  {
    var prev := KafkaStart(templates, n - 1);
    assert KafkaStart(templates, n) == prev + KafkaNode(n - 1, templates[n - 1]);
    if i < n - 1 {
      KafkaStartAt(templates, n - 1, i);
    }
  }

  lemma ZookeeperGatePasses(outcomes: seq<WaitOutcome>)
    ensures FirstFailure(outcomes, 0) == |outcomes| <==> forall i :: 0 <= i < |outcomes| ==> outcomes[i].Satisfied?
  {
    var m := FirstFailure(outcomes, 0);
    if m < |outcomes| {
      assert !outcomes[m].Satisfied?;
    }
  }

  /**
   * Node `i`'s broker setup, at positions 5N+3i to 5N+3i+2 once every ZooKeeper wait has
   * succeeded: its template is fetched, uploaded with the node's identity, and the broker
   * started.
   */
  lemma BrokerNodeSetup(properties: string, templates: seq<string>, answers: Answers, i: nat)
    requires Fits(templates, answers) && i < |templates|
    requires forall j :: 0 <= j < |templates| ==> answers.zookeeper[j].Satisfied?
    ensures var n := |templates|; var t := Plan(properties, templates, answers).trace;
      5 * n + 3 * i + 2 < |t|
      && t[5 * n + 3 * i] == Fetched(i, ServerPropertiesPath)
      && t[5 * n + 3 * i + 1] == Put(i, KafkaPropertiesPath, PatchBrokerId(templates[i], i))
      && t[5 * n + 3 * i + 2] == Launched(i, StartKafka)
  {
    var n := |templates|;
    ZookeeperGatePasses(answers.zookeeper);
    TraceAfterZookeeperGate(properties, templates, answers);
    KafkaStartAt(templates, n, i);
    var before := ZookeeperStart(properties, n) + ZookeeperWaits(n);
    var ks := KafkaStart(templates, n);
    var after := FromBrokerGate(n, answers.broker).trace;
    var at := 3 * i;
    ConcatMiddle(before, ks, after, at);
    ConcatMiddle(before, ks, after, at + 1);
    ConcatMiddle(before, ks, after, at + 2);
  }

  /** Position `j` of the middle block of a concatenation. */
  lemma ConcatMiddle(a: seq<Action>, b: seq<Action>, c: seq<Action>, j: nat)
    requires j < |b|
    ensures |a| + j < |a + b + c| && (a + b + c)[|a| + j] == b[j]
  {
  }

  /**
   * The configuration uploaded to node `i` carries the node's identity: the template's
   * default identity line is replaced by node `i`'s, none is left on nodes after the first,
   * and a template without one is uploaded unchanged.
   */
  lemma BrokerUploadIdentity(properties: string, templates: seq<string>, answers: Answers, i: nat)
    requires Fits(templates, answers) && i < |templates|
    requires forall j :: 0 <= j < |templates| ==> answers.zookeeper[j].Satisfied?
    ensures 5 * |templates| + 3 * i + 1 < |Plan(properties, templates, answers).trace|
    ensures var uploaded := Plan(properties, templates, answers).trace[5 * |templates| + 3 * i + 1];
      uploaded.Put? && uploaded.node == i && uploaded.path == KafkaPropertiesPath
      && (Occurs(DefaultBrokerId, templates[i]) ==> Occurs(BrokerId(i), uploaded.content))
      && (i > 0 ==> !Occurs(DefaultBrokerId, uploaded.content))
      && (!Occurs(DefaultBrokerId, templates[i]) ==> uploaded.content == templates[i])
  {
    BrokerNodeSetup(properties, templates, answers, i);
    if Occurs(DefaultBrokerId, templates[i]) {
      PatchBrokerIdSetsIdentity(templates[i], i);
    } else {
      PatchBrokerIdWithoutDefault(templates[i], i);
    }
    if i > 0 {
      PatchBrokerIdRemovesDefault(templates[i], i);
    }
  }

  /** A wait action whose wait succeeded under `answers` (any other action qualifies). */
  predicate WaitSucceeded(answers: Answers, a: Action)
  {
    a.Waited? ==>
      if a.condition.ZookeeperReady? then a.node < |answers.zookeeper| && answers.zookeeper[a.node].Satisfied?
      else answers.broker.Satisfied?
  }

  /** A wait action whose wait raised `e` under `answers`. */
  predicate WaitRaised(answers: Answers, a: Action, e: Error)
  {
    a.Waited? &&
      if a.condition.ZookeeperReady? then a.node < |answers.zookeeper| && answers.zookeeper[a.node] == Raised(e)
      else answers.broker == Raised(e)
  }

  /**
   * A failed bootstrap stops at the wait that failed: the last action is that wait, it
   * raised exactly the reported error, and every earlier wait succeeded. The only failure
   * without a wait is the empty roster, whose `nodes[0]` raises before anything is done.
   */
  lemma FailureIsFinal(properties: string, templates: seq<string>, answers: Answers)
    requires Fits(templates, answers) && Plan(properties, templates, answers).outcome.Fail?
    ensures var t := Plan(properties, templates, answers).trace; var e := Plan(properties, templates, answers).outcome.error;
      |templates| == 0 ==> t == [] && e == IndexError
    ensures var t := Plan(properties, templates, answers).trace; var e := Plan(properties, templates, answers).outcome.error;
      |templates| > 0 ==>
        |t| > 0 && WaitRaised(answers, t[|t| - 1], e)
        && forall q :: 0 <= q < |t| - 1 ==> WaitSucceeded(answers, t[q])
  {
    var n := |templates|;
    var m := FirstFailure(answers.zookeeper, 0);
    var zs := ZookeeperStart(properties, n);
    ZookeeperStartStage(properties, n);
    QuietSucceeded(answers, zs, 1);
    if m < n {
      var zw := ZookeeperWaits(m);
      ZookeeperWaitsSucceeded(answers, m);
      ConcatAssoc(zs, zw, [ZookeeperWait(m)]);
      LastFails(answers, zs, zw, ZookeeperWait(m));
    } else if n > 0 {
      TraceAfterZookeeperGate(properties, templates, answers);
      var zw := ZookeeperWaits(n);
      var ks := KafkaStart(templates, n);
      ZookeeperWaitsSucceeded(answers, n);
      KafkaStartStage(templates, n);
      QuietSucceeded(answers, ks, 3);
      LastFails(answers, zs, zw, ZookeeperWait(0));
      LastFails(answers, zs + zw, ks, BrokerWait(n));
    }
  }

  /** Stages 1, 3 and 5 hold no wait, so nothing in them fails. */
  lemma QuietSucceeded(answers: Answers, a: seq<Action>, s: nat)
    requires StagesWithin(a, s, s) && s != 2 && s != 4
    ensures forall q :: 0 <= q < |a| ==> WaitSucceeded(answers, a[q])
  {
    forall q | 0 <= q < |a| ensures WaitSucceeded(answers, a[q]) {
      assert Stage(a[q]) == s;
    }
  }

  /** The ZooKeeper waits before the first that raised all succeeded. */
  lemma ZookeeperWaitsSucceeded(answers: Answers, m: nat)
    requires m <= FirstFailure(answers.zookeeper, 0)
    ensures forall q :: 0 <= q < |ZookeeperWaits(m)| ==> WaitSucceeded(answers, ZookeeperWaits(m)[q])
  {
    var zw := ZookeeperWaits(m);
    forall q | 0 <= q < |zw| ensures WaitSucceeded(answers, zw[q]) {
      assert zw[q] == ZookeeperWait(q);
    }
  }

  /** Joining two blocks of succeeded actions, then one more action at the end. */
  lemma LastFails(answers: Answers, a: seq<Action>, b: seq<Action>, last: Action)
    requires forall q :: 0 <= q < |a| ==> WaitSucceeded(answers, a[q])
    requires forall q :: 0 <= q < |b| ==> WaitSucceeded(answers, b[q])
    ensures forall q :: 0 <= q < |a + b| ==> WaitSucceeded(answers, (a + b)[q])
    ensures var t := a + b + [last]; |t| > 0 && t[|t| - 1] == last
    ensures var t := a + b + [last]; forall q :: 0 <= q < |t| - 1 ==> WaitSucceeded(answers, t[q])
  {
    var t := a + b + [last];
    forall q | 0 <= q < |t| - 1 ensures WaitSucceeded(answers, t[q]) {
      if q < |a| { assert t[q] == a[q]; } else { assert t[q] == b[q - |a|]; }
    }
  }

  /** The bootstrap succeeds exactly when every wait does, on a non-empty roster. */
  lemma OutcomeByGates(properties: string, templates: seq<string>, answers: Answers)
    requires Fits(templates, answers)
    ensures Plan(properties, templates, answers).outcome == Pass <==>
      |templates| > 0
      && (forall i :: 0 <= i < |templates| ==> answers.zookeeper[i].Satisfied?)
      && answers.broker.Satisfied?
  {
    ZookeeperGatePasses(answers.zookeeper);
  }

  /** The waits in `world` get the answers of the ZooKeeper shell and the broker listing. */
  lemma AnswersInWorld(world: World)
    requires world.Valid()
    ensures forall i :: 0 <= i < |world.hostnames| ==>
      (AnswersIn(world).zookeeper[i].Satisfied? <==> ZookeeperAnswers(world.zookeeperPolls[i]))
      && (AnswersIn(world).zookeeper[i].Raised? ==> AnswersIn(world).zookeeper[i] == Raised(TimeoutError(Timeout)))
    ensures AnswersIn(world).broker.Raised? ==> AnswersIn(world).broker.error in {TimeoutError(Timeout), JsonDecodeError}
  {
    forall i | 0 <= i < |world.hostnames|
      ensures (AnswersIn(world).zookeeper[i].Satisfied? <==> ZookeeperAnswers(world.zookeeperPolls[i]))
        && (AnswersIn(world).zookeeper[i].Raised? ==> AnswersIn(world).zookeeper[i] == Raised(TimeoutError(Timeout)))
    {
      ZookeeperWaitOutcome(world.zookeeperPolls[i], Timeout);
    }
    KafkaWaitErrors(world.kafkaPolls, |world.hostnames|, Timeout);
  }

  /**
   * The bootstrap of a world succeeds exactly when the roster is non-empty, some ZooKeeper
   * check on every node exited with status 0, and the broker wait succeeded.
   */
  lemma SuccessIff(world: World)
    requires world.Valid()
    ensures BootstrapRun(world).outcome == Pass <==>
      |world.hostnames| > 0
      && (forall i :: 0 <= i < |world.hostnames| ==> ZookeeperAnswers(world.zookeeperPolls[i]))
      && AnswersIn(world).broker.Satisfied?
  {
    OutcomeByGates(ZookeeperProperties(world.hostnames), world.templates, AnswersIn(world));
    AnswersInWorld(world);
  }

  /**
   * A failed bootstrap of a world reports an IndexError on an empty roster, a ZooKeeper or
   * broker wait's TimeoutError carrying the 60-second timeout, or a JsonDecodeError from the
   * broker wait, which is then the last action.
   */
  lemma FailureCause(world: World)
    requires world.Valid() && BootstrapRun(world).outcome.Fail?
    ensures var t := BootstrapRun(world).trace; var e := BootstrapRun(world).outcome.error;
      || (|world.hostnames| == 0 && e == IndexError)
      || (|world.hostnames| > 0 && e == TimeoutError(Timeout))
      || (|world.hostnames| > 0 && e == JsonDecodeError && t[|t| - 1] == BrokerWait(|world.hostnames|))
  {
    var answers := AnswersIn(world);
    FailureIsFinal(ZookeeperProperties(world.hostnames), world.templates, answers);
    AnswersInWorld(world);
    var t := BootstrapRun(world).trace;
    if |world.hostnames| > 0 && t[|t| - 1].condition.BrokersRegistered? {
      var n := |world.hostnames|;
      StagesInOrder(ZookeeperProperties(world.hostnames), world.templates, answers);
      ZookeeperGateHolds(ZookeeperProperties(world.hostnames), world.templates, answers);
      TraceAfterZookeeperGate(ZookeeperProperties(world.hostnames), world.templates, answers);
    }
  }

  /** The node positions 0 to n-1, in roster order. */
  function Roster(n: nat): (nodes: seq<nat>)
    ensures |nodes| == n
    ensures forall i :: 0 <= i < n ==> nodes[i] == i
  {
    if n == 0 then [] else Roster(n - 1) + [n - 1]
  }

  /** The nodes on which `command` is started, in trace order. */
  function LaunchedNodes(t: seq<Action>, command: string): seq<nat>
  {
    if |t| == 0 then []
    else (if t[0].Launched? && t[0].command == command then [t[0].node] else []) + LaunchedNodes(t[1..], command)
  }

  /** The waits of a trace, in order. */
  function WaitActions(t: seq<Action>): seq<Action>
  {
    if |t| == 0 then [] else (if t[0].Waited? then [t[0]] else []) + WaitActions(t[1..])
  }

  lemma {:induction false} LaunchedNodesConcat(a: seq<Action>, b: seq<Action>, command: string)
    ensures LaunchedNodes(a + b, command) == LaunchedNodes(a, command) + LaunchedNodes(b, command)
  {
    if |a| > 0 {
      assert (a + b)[1..] == a[1..] + b;
      LaunchedNodesConcat(a[1..], b, command);
    } else {
      assert a + b == b;
    }
  }

  lemma {:induction false} WaitActionsConcat(a: seq<Action>, b: seq<Action>)
    ensures WaitActions(a + b) == WaitActions(a) + WaitActions(b)
  {
    if |a| > 0 {
      assert (a + b)[1..] == a[1..] + b;
      WaitActionsConcat(a[1..], b);
    } else {
      assert a + b == b;
    }
  }

  lemma {:induction false} LaunchedNodesNone(t: seq<Action>, command: string)
    requires forall p :: 0 <= p < |t| ==> !t[p].Launched?
    ensures LaunchedNodes(t, command) == []
  {
    if |t| > 0 {
      LaunchedNodesNone(t[1..], command);
    }
  }

  lemma {:induction false} WaitActionsNone(t: seq<Action>)
    requires forall p :: 0 <= p < |t| ==> !t[p].Waited?
    ensures WaitActions(t) == []
  {
    if |t| > 0 {
      WaitActionsNone(t[1..]);
    }
  }

  /** Appending actions that start nothing and then one start. */
  lemma LaunchedNodesAppend(prefix: seq<Action>, quiet: seq<Action>, node: nat, started: string, command: string)
    requires forall a :: a in quiet ==> !a.Launched?
    ensures LaunchedNodes(prefix + quiet + [Launched(node, started)], command)
      == LaunchedNodes(prefix, command) + if command == started then [node] else []
  {
    var last := [Launched(node, started)];
    LaunchedNodesConcat(prefix + quiet, last, command);
    LaunchedNodesConcat(prefix, quiet, command);
    LaunchedNodesNone(quiet, command);
    assert LaunchedNodes(last[1..], command) == [];
  }

  lemma {:induction false} ZookeeperStartLaunches(properties: string, n: nat, command: string)
    ensures LaunchedNodes(ZookeeperStart(properties, n), command) == if command == StartZookeeper then Roster(n) else []
  {
    if n > 0 {
      var i := n - 1;
      var quiet := [Ran(i, MakeDataDir), Put(i, MyIdPath, MyId(i)), Put(i, ZookeeperPropertiesPath, properties)];
      assert ZookeeperStart(properties, n) == ZookeeperStart(properties, i) + quiet + [Launched(i, StartZookeeper)];
      ZookeeperStartLaunches(properties, i, command);
      LaunchedNodesAppend(ZookeeperStart(properties, i), quiet, i, StartZookeeper, command);
    }
  }

  lemma {:induction false} KafkaStartLaunches(templates: seq<string>, n: nat, command: string)
    requires n <= |templates|
    ensures LaunchedNodes(KafkaStart(templates, n), command) == if command == StartKafka then Roster(n) else []
  {
    if n > 0 {
      var i := n - 1;
      var quiet := [Fetched(i, ServerPropertiesPath), Put(i, KafkaPropertiesPath, PatchBrokerId(templates[i], i))];
      assert KafkaStart(templates, n) == KafkaStart(templates, i) + quiet + [Launched(i, StartKafka)];
      KafkaStartLaunches(templates, i, command);
      LaunchedNodesAppend(KafkaStart(templates, i), quiet, i, StartKafka, command);
    }
  }

  lemma {:induction false} SchemaRegistryLaunches(n: nat, command: string)
    ensures LaunchedNodes(SchemaRegistryStart(n), command) == if command == StartSchemaRegistry then Roster(n) else []
  {
    if n > 0 {
      var i := n - 1;
      assert SchemaRegistryStart(n) == SchemaRegistryStart(i) + [] + [Launched(i, StartSchemaRegistry)];
      SchemaRegistryLaunches(i, command);
      LaunchedNodesAppend(SchemaRegistryStart(i), [], i, StartSchemaRegistry, command);
    }
  }

  lemma {:induction false} ZookeeperWaitsAll(n: nat)
    ensures WaitActions(ZookeeperWaits(n)) == ZookeeperWaits(n)
  {
    if n > 0 {
      ZookeeperWaitsAll(n - 1);
      WaitActionsConcat(ZookeeperWaits(n - 1), [ZookeeperWait(n - 1)]);
    }
  }

  /** Stages 1, 3 and 5 have no waits. */
  lemma NoWaitsInStage(t: seq<Action>, s: nat)
    requires StagesWithin(t, s, s) && s != 2 && s != 4
    ensures WaitActions(t) == []
  {
    forall p | 0 <= p < |t| ensures !t[p].Waited? {
      assert Stage(t[p]) == s;
    }
    WaitActionsNone(t);
  }

  lemma LaunchedNodesOfStages(a: seq<Action>, b: seq<Action>, c: seq<Action>, d: seq<Action>, e: seq<Action>, command: string)
    ensures LaunchedNodes(a + b + c + d + e, command)
      == LaunchedNodes(a, command) + LaunchedNodes(b, command) + LaunchedNodes(c, command)
         + LaunchedNodes(d, command) + LaunchedNodes(e, command)
  {
    LaunchedNodesConcat(a, b, command);
    LaunchedNodesConcat(a + b, c, command);
    LaunchedNodesConcat(a + b + c, d, command);
    LaunchedNodesConcat(a + b + c + d, e, command);
  }

  lemma WaitActionsOfStages(a: seq<Action>, b: seq<Action>, c: seq<Action>, d: seq<Action>, e: seq<Action>)
    requires WaitActions(a) == [] && WaitActions(b) == b && WaitActions(c) == []
    requires WaitActions(d) == d && WaitActions(e) == []
    ensures WaitActions(a + b + c + d + e) == b + d
  {
    WaitActionsConcat(a, b);
    WaitActionsConcat(a + b, c);
    WaitActionsConcat(a + b + c, d);
    WaitActionsConcat(a + b + c + d, e);
  }

  /** The trace of a successful bootstrap, stage by stage. */
  lemma SuccessfulRun(properties: string, templates: seq<string>, answers: Answers)
    requires Fits(templates, answers) && Plan(properties, templates, answers).outcome == Pass
    ensures var n := |templates|;
      Plan(properties, templates, answers).trace
        == ZookeeperStart(properties, n) + ZookeeperWaits(n)
           + KafkaStart(templates, n) + [BrokerWait(n)] + SchemaRegistryStart(n)
  {
    var n := |templates|;
    TraceAfterZookeeperGate(properties, templates, answers);
    var prefix := ZookeeperStart(properties, n) + ZookeeperWaits(n) + KafkaStart(templates, n);
    ConcatAssoc(prefix, [BrokerWait(n)], SchemaRegistryStart(n));
  }

  /**
   * A successful bootstrap issues 9N+1 actions, starts ZooKeeper, the broker and Schema
   * Registry once on every node, in roster order, and starts nothing else.
   */
  lemma SuccessfulLaunches(properties: string, templates: seq<string>, answers: Answers, command: string)
    requires Fits(templates, answers) && Plan(properties, templates, answers).outcome == Pass
    ensures |Plan(properties, templates, answers).trace| == 9 * |templates| + 1
    ensures LaunchedNodes(Plan(properties, templates, answers).trace, command)
      == if command == StartZookeeper || command == StartKafka || command == StartSchemaRegistry
         then Roster(|templates|) else []
  {
    var n := |templates|;
    SuccessfulRun(properties, templates, answers);
    var props := properties;
    var zs := ZookeeperStart(props, n);
    var zw := ZookeeperWaits(n);
    var ks := KafkaStart(templates, n);
    var sr := SchemaRegistryStart(n);
    ZookeeperStartLaunches(props, n, command);
    LaunchedNodesNone(zw, command);
    KafkaStartLaunches(templates, n, command);
    LaunchedNodesNone([BrokerWait(n)], command);
    SchemaRegistryLaunches(n, command);
    LaunchedNodesOfStages(zs, zw, ks, [BrokerWait(n)], sr, command);
    LaunchesOfStages(Roster(n), LaunchedNodes(zs, command), LaunchedNodes(zw, command), LaunchedNodes(ks, command),
                     LaunchedNodes([BrokerWait(n)], command), LaunchedNodes(sr, command), command);
  }

  /** Stages 1, 3 and 5 each start one service on the roster; stages 2 and 4 start nothing. */
  lemma LaunchesOfStages(roster: seq<nat>, a: seq<nat>, b: seq<nat>, c: seq<nat>, d: seq<nat>, e: seq<nat>, command: string)
    requires a == (if command == StartZookeeper then roster else []) && b == []
    requires c == (if command == StartKafka then roster else []) && d == []
    requires e == (if command == StartSchemaRegistry then roster else [])
    ensures a + b + c + d + e
      == if command == StartZookeeper || command == StartKafka || command == StartSchemaRegistry then roster else []
  {
    StartCommandsDistinct();
    if command == StartZookeeper {
      assert a + b + c + d + e == roster + [] + [] + [] + [];
    } else if command == StartKafka {
      assert a + b + c + d + e == [] + [] + roster + [] + [];
    } else if command == StartSchemaRegistry {
      assert a + b + c + d + e == [] + [] + [] + [] + roster;
    }
  }

  /** The three start commands differ (at their eighth character). */
  lemma StartCommandsDistinct()
    ensures StartZookeeper != StartKafka && StartKafka != StartSchemaRegistry
    ensures StartZookeeper != StartSchemaRegistry
  {
    assert StartZookeeper[7] == 'z' && StartKafka[7] == 'k' && StartSchemaRegistry[7] == 's';
  }

  /**
   * The waits of a successful bootstrap are one ZooKeeper wait per node, in roster order,
   * then the single broker wait.
   */
  lemma SuccessfulWaits(properties: string, templates: seq<string>, answers: Answers)
    requires Fits(templates, answers) && Plan(properties, templates, answers).outcome == Pass
    ensures WaitActions(Plan(properties, templates, answers).trace) == ZookeeperWaits(|templates|) + [BrokerWait(|templates|)]
  {
    var n := |templates|;
    SuccessfulRun(properties, templates, answers);
    var zs := ZookeeperStart(properties, n);
    var zw := ZookeeperWaits(n);
    var ks := KafkaStart(templates, n);
    var sr := SchemaRegistryStart(n);
    ZookeeperStartStage(properties, n);
    KafkaStartStage(templates, n);
    SchemaRegistryStage(n);
    NoWaitsInStage(zs, 1);
    ZookeeperWaitsAll(n);
    NoWaitsInStage(ks, 3);
    NoWaitsInStage(sr, 5);
    var bw := [BrokerWait(n)];
    assert WaitActions(bw) == bw by {
      assert WaitActions(bw[1..]) == [];
    }
    WaitActionsOfStages(zs, zw, ks, bw, sr);
  }
}
