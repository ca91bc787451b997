/**
 * The configuration the bootstrap derives from the node roster (start.py): the ZooKeeper
 * ensemble configuration, each node's `myid` marker, and the Kafka broker identity patch.
 */
module Config {
  import opened Text

  /** The five fixed tuning lines that open the ZooKeeper configuration. */
  const TuningLines: seq<string> :=
    ["tickTime=2000", "dataDir=/zookeeper", "clientPort=2181", "initLimit=5", "syncLimit=2"]

  /** The ensemble membership line of the node at position `idx`. */
  function ServerLine(idx: nat, hostname: string): string
  {
    "server." + NatToString(idx) + "=" + hostname + ":2888:3888"
  }

  /**
   * The configuration lines as the script leaves them: the tuning lines, then one
   * membership line appended per node in roster order.
   */
  function ZookeeperConfig(hostnames: seq<string>): (lines: seq<string>)
    ensures |lines| == |TuningLines| + |hostnames|
    ensures lines[..|TuningLines|] == TuningLines
    ensures forall i :: 0 <= i < |hostnames| ==> lines[|TuningLines| + i] == ServerLine(i, hostnames[i])
  {
    if |hostnames| == 0 then TuningLines
    else
      var n := |hostnames| - 1;
      ZookeeperConfig(hostnames[..n]) + [ServerLine(n, hostnames[n])]
  }

  /** Builds the configuration list and appends one line per node, as the script does. */
  method BuildZookeeperConfig(hostnames: seq<string>) returns (lines: seq<string>)
    ensures lines == ZookeeperConfig(hostnames)
  {
    lines := TuningLines;
    for idx := 0 to |hostnames|
      invariant lines == ZookeeperConfig(hostnames[..idx])
    {
      assert hostnames[..idx + 1][..idx] == hostnames[..idx];
      lines := lines + [ServerLine(idx, hostnames[idx])];
    }
    assert hostnames[..|hostnames|] == hostnames;
  }

  /** The text written to `/zookeeper.properties` on every node: the lines joined by newlines. */
  function ZookeeperProperties(hostnames: seq<string>): string
  {
    Join(ZookeeperConfig(hostnames), "\n")
  }

  /** The text written to `/zookeeper/myid` on the node at position `idx`. */
  function MyId(idx: nat): (marker: string)
    ensures AllDigits(marker) && DigitsValue(marker) == idx
  {
    DigitsValueOfNatToString(idx);
    NatToString(idx)
  }

  /** The default broker identity in the vendor template. */
  const DefaultBrokerId := "broker.id=0"

  /** The identity assignment of the broker at position `idx`. */
  function BrokerId(idx: nat): string
  {
    "broker.id=" + NatToString(idx)
  }

  /**
   * The broker configuration uploaded to the node at position `idx`: the fetched template
   * with every `broker.id=0` replaced by `broker.id={idx}`. A template without the default
   * assignment passes through unchanged; nothing reports it.
   */
  function PatchBrokerId(template: string, idx: nat): string
  {
    Replace(template, DefaultBrokerId, BrokerId(idx))
  }

  lemma TuningLinesSingleLine(k: nat)
    requires k < |TuningLines|
    ensures '\n' !in TuningLines[k]
  {
    var line := TuningLines[k];
    forall j | 0 <= j < |line| ensures line[j] != '\n' { }
  }

  lemma ServerLineSingleLine(idx: nat, hostname: string)
    requires '\n' !in hostname
    ensures '\n' !in ServerLine(idx, hostname)
  {
    var digits := NatToString(idx);
    assert '\n' !in digits by {
      forall j | 0 <= j < |digits| ensures digits[j] != '\n' { }
    }
    assert '\n' !in "server." && '\n' !in "=" && '\n' !in ":2888:3888";
  }

  lemma ConfigLinesSingleLine(hostnames: seq<string>)
    requires forall i :: 0 <= i < |hostnames| ==> '\n' !in hostnames[i]
    ensures forall k :: 0 <= k < |ZookeeperConfig(hostnames)| ==> '\n' !in ZookeeperConfig(hostnames)[k]
  {
    var lines := ZookeeperConfig(hostnames);
    forall k | 0 <= k < |lines| ensures '\n' !in lines[k] {
      if k < |TuningLines| {
        assert lines[k] == lines[..|TuningLines|][k];
        TuningLinesSingleLine(k);
      } else {
        ServerLineSingleLine(k - |TuningLines|, hostnames[k - |TuningLines|]);
      }
    }
  }

  /** Reading the properties file back line by line gives the configuration lines, as long
      as no hostname contains a newline. */
  lemma ZookeeperPropertiesLines(hostnames: seq<string>)
    requires forall i :: 0 <= i < |hostnames| ==> '\n' !in hostnames[i]
    ensures Split(ZookeeperProperties(hostnames), '\n') == ZookeeperConfig(hostnames)
  {
    ConfigLinesSingleLine(hostnames);
    SplitJoin(ZookeeperConfig(hostnames), '\n');
  }

  /** Node 0 keeps the template's identity: the patch is the identity function. */
  lemma PatchBrokerIdZero(template: string)
    ensures PatchBrokerId(template, 0) == template
  {
    assert BrokerId(0) == DefaultBrokerId;
    ReplaceIdentity(template, DefaultBrokerId);
  }

  /** A template without the default assignment is uploaded unchanged. */
  lemma PatchBrokerIdWithoutDefault(template: string, idx: nat)
    requires !Occurs(DefaultBrokerId, template)
    ensures PatchBrokerId(template, idx) == template
  {
    ReplaceAbsent(template, DefaultBrokerId, BrokerId(idx));
  }

  lemma BrokerIdUnambiguous(idx: nat)
    requires idx > 0
    ensures Unambiguous(DefaultBrokerId, BrokerId(idx))
  {
    var p, r := DefaultBrokerId, BrokerId(idx);
    var digits := NatToString(idx);
    assert r == "broker.id=" + digits;
    assert p[1..] == "roker.id=0";
    assert 'b' !in p[1..] by {
      forall j | 0 <= j < |p[1..]| ensures p[1..][j] != 'b' { }
    }
    assert 'b' !in r[1..] by {
      forall j | 0 <= j < |r[1..]| ensures r[1..][j] != 'b' {
        if j >= 9 { assert r[1..][j] == digits[j - 9]; }
      }
    }
    assert r[10] == digits[0] != '0';
    assert r[..|p|] != p by { assert r[..|p|][10] != p[10]; }
  }

  /** For any other node, no default assignment survives the patch. */
  lemma PatchBrokerIdRemovesDefault(template: string, idx: nat)
    requires idx > 0
    ensures !Occurs(DefaultBrokerId, PatchBrokerId(template, idx))
  {
    BrokerIdUnambiguous(idx);
    ReplaceRemovesAll(template, DefaultBrokerId, BrokerId(idx));
  }

  /** A template that carried the default assignment now carries the node's identity. */
  lemma PatchBrokerIdSetsIdentity(template: string, idx: nat)
    requires Occurs(DefaultBrokerId, template)
    ensures Occurs(BrokerId(idx), PatchBrokerId(template, idx))
  {
    ReplaceIntroduces(template, DefaultBrokerId, BrokerId(idx));
  }

  /** Patching an already patched configuration with the same identity changes nothing. */
  lemma PatchBrokerIdIdempotent(template: string, idx: nat)
    ensures PatchBrokerId(PatchBrokerId(template, idx), idx) == PatchBrokerId(template, idx)
  {
    if idx == 0 {
      PatchBrokerIdZero(template);
      PatchBrokerIdZero(template);
    } else {
      BrokerIdUnambiguous(idx);
      ReplaceIdempotent(template, DefaultBrokerId, BrokerId(idx));
    }
  }
}
