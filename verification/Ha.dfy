/**
 Two appliances, one primary and one backup. A sync started on the primary compares the devices, sends the
 configuration, merges it on the backup, sets addresses and writes the keepalived settings on both sides; it may
 stop after any of its steps.
 */
module Ha {
  import opened Records
  import opened Text

  datatype Role = NoRole | Primary | Backup

  datatype Address = Address(ip: string, netmask: int)

  const NO_ADDRESS := Address("", 0)

  datatype Interface = Interface(name: string, ip: Address, aliases: seq<Address>, stats: int, details: string)

  datatype Monitored = Monitored(name: string, baseIp: string, peerIp: string, interfaceIp: string)

  datatype HaConf = HaConf(
    mode: string, role: Role, password: string, dedicated: string, peerIp: string, monitored: seq<Monitored>,
    interval: int, attempts: int, lastSyncedAt: string, status: string)

  /** `others` stands for bridges, bonds, VLANs, routes and routing protocols. */
  datatype Config = Config(interfaces: seq<Interface>, others: string, ha: HaConf)

  datatype Keepalived = Keepalived(
    master: bool, priority: int, device: string, password: string, peer: string, tracked: seq<string>,
    addresses: seq<(string, string)>)

  datatype Node = Node(
    modelNo: string, config: Config, received: Option<Config>, kernel: map<string, seq<Address>>,
    keepalived: Option<Keepalived>)

  // ---------------------------------------------------------------- merging a received configuration

  /** The receiver's identity stays; None when the numbers of interfaces differ. */
  function Merge(own: Config, received: Config): Option<Config> {
    if |own.interfaces| != |received.interfaces| then None
    else
      Some(Config(
        seq(|received.interfaces|, i requires 0 <= i < |received.interfaces| =>
          var r := received.interfaces[i];
          r.(ip := if r.name == own.ha.dedicated then own.interfaces[i].ip else r.ip, aliases := [])),
        received.others,
        received.ha.(role := own.ha.role, peerIp := own.ha.peerIp, dedicated := own.ha.dedicated)))
  }

  predicate SameNames(a: seq<Interface>, b: seq<Interface>) {
    |a| == |b| && forall i | 0 <= i < |a| :: a[i].name == b[i].name
  }

  method WriteInterfaceConfigFile(own: Config, received: Config) returns (written: Option<Config>)
    ensures written == Merge(own, received)
    ensures written.None? <==> |own.interfaces| != |received.interfaces|
  {
    var config := received;
    config := config.(ha := config.ha.(role := own.ha.role));
    config := config.(ha := config.ha.(peerIp := own.ha.peerIp));
    config := config.(ha := config.ha.(dedicated := own.ha.dedicated));
    if |own.interfaces| != |config.interfaces| {
      return None;
    }
    for i := 0 to |received.interfaces|
      invariant |config.interfaces| == |received.interfaces| == |own.interfaces|
      invariant config.others == received.others
      invariant config.ha == received.ha.(role := own.ha.role, peerIp := own.ha.peerIp, dedicated := own.ha.dedicated)
      invariant config.interfaces[..i] == Merge(own, received).value.interfaces[..i]
      invariant config.interfaces[i..] == received.interfaces[i..]
    {
      var n := config.interfaces[i];
      assert n == received.interfaces[i..][0];
      if n.name == config.ha.dedicated {
        n := n.(ip := own.interfaces[i].ip);
      }
      config := config.(interfaces := config.interfaces[i := n.(aliases := [])]);
    }
    assert config.interfaces == config.interfaces[..|received.interfaces|];
    assert config.interfaces == Merge(own, received).value.interfaces;
    return Some(config);
  }

  /** Merging the same configuration twice is merging it once. */
  lemma MergeIdempotent(own: Config, received: Config)
    requires Merge(own, received).Some?
    ensures Merge(Merge(own, received).value, received) == Merge(own, received)
  {
    var once := Merge(own, received).value;
    assert Merge(once, received).value.interfaces == once.interfaces;
  }

  /** The receiver keeps who it is, everything else comes from the sender, and no alias survives. */
  lemma MergeKeepsIdentity(own: Config, received: Config)
    requires Merge(own, received).Some?
    ensures var m := Merge(own, received).value;
            && m.ha.role == own.ha.role && m.ha.peerIp == own.ha.peerIp && m.ha.dedicated == own.ha.dedicated
            && m.ha.monitored == received.ha.monitored && m.others == received.others
            && SameNames(m.interfaces, received.interfaces)
            && m.ha == received.ha.(role := m.ha.role, peerIp := m.ha.peerIp, dedicated := m.ha.dedicated)
            && forall i | 0 <= i < |m.interfaces| ::
                 m.interfaces[i] == received.interfaces[i].(ip := m.interfaces[i].ip, aliases := [])
                 && m.interfaces[i].ip == if m.interfaces[i].name == own.ha.dedicated then own.interfaces[i].ip
                                          else received.interfaces[i].ip
  {
  }

  /** The address of the first interface with a name. */
  function AddressOf(interfaces: seq<Interface>, name: string): Option<Address> {
    var j := FirstNamed(interfaces, name);
    if j == |interfaces| then None else Some(interfaces[j].ip)
  }

  /** The position of the first interface with a name, or the length. */
  function FirstNamed(interfaces: seq<Interface>, name: string): (j: nat)
    ensures j <= |interfaces| && (j < |interfaces| ==> interfaces[j].name == name)
    ensures forall i | 0 <= i < j :: interfaces[i].name != name
  {
    if interfaces == [] || interfaces[0].name == name then 0
    else
      var j := FirstNamed(interfaces[1..], name);
      assert forall i | 0 < i <= j :: interfaces[i] == interfaces[1..][i - 1];
      j + 1
  }

  lemma FirstNamedIs(interfaces: seq<Interface>, name: string, j: nat)
    requires j <= |interfaces| && (j < |interfaces| ==> interfaces[j].name == name)
    requires forall i | 0 <= i < j :: interfaces[i].name != name
    ensures FirstNamed(interfaces, name) == j
  {
  }

  /**
   The address of the dedicated interface after a merge is what the receiver had at the position where the sender
   lists that interface. So the address is kept if and only if the receiver's own entry there has it, or neither
   side lists the interface.
   */
  lemma MergeKeepsDedicatedExactly(own: Config, received: Config)
    requires |own.interfaces| == |received.interfaces|
    ensures Merge(own, received).Some?
    ensures var name := own.ha.dedicated;
            var j := FirstNamed(received.interfaces, name);
            var kept := AddressOf(Merge(own, received).value.interfaces, name) == AddressOf(own.interfaces, name);
            kept <==> AddressOf(own.interfaces, name)
                      == if j < |own.interfaces| then Some(own.interfaces[j].ip) else None
  {
    var m := Merge(own, received).value.interfaces;
    var j := FirstNamed(received.interfaces, own.ha.dedicated);
    assert forall i | 0 <= i < |m| :: m[i].name == received.interfaces[i].name;
    FirstNamedIs(m, own.ha.dedicated, j);
  }

  /** In particular it is kept when the two sides list their interfaces in the same order. */
  lemma MergeKeepsDedicated(own: Config, received: Config)
    requires SameNames(own.interfaces, received.interfaces)
    ensures Merge(own, received).Some?
    ensures AddressOf(Merge(own, received).value.interfaces, own.ha.dedicated)
         == AddressOf(own.interfaces, own.ha.dedicated)
  {
    MergeKeepsDedicatedExactly(own, received);
    FirstNamedIs(received.interfaces, own.ha.dedicated, FirstNamed(own.interfaces, own.ha.dedicated));
  }

  // ---------------------------------------------------------------- addresses after a sync

  /** The first entry that monitors an interface. */
  function Watch(monitored: seq<Monitored>, name: string): Option<Monitored> {
    if monitored == [] then None
    else if monitored[0].name == name then Some(monitored[0])
    else Watch(monitored[1..], name)
  }

  /** The entry at this position is the first for the interface. */
  predicate FirstEntry(monitored: seq<Monitored>, name: string, k: int) {
    0 <= k < |monitored| && monitored[k].name == name && forall j | 0 <= j < k :: monitored[j].name != name
  }

  lemma {:induction false} WatchFirst(monitored: seq<Monitored>, name: string, k: int)
    requires FirstEntry(monitored, name, k)
    ensures Watch(monitored, name) == Some(monitored[k])
  {
    if k > 0 {
      assert forall j | 0 <= j < k :: monitored[1..][j] == monitored[j + 1];
      WatchFirst(monitored[1..], name, k - 1);
    }
  }

  predicate Skipped(ha: HaConf, name: string) {
    name == "lo" || !("e" <= name) || name == ha.dedicated
  }

  /** The addresses an interface carries after its turn. */
  function Target(ha: HaConf, n: Interface): seq<Address> {
    var w := Watch(ha.monitored, n.name);
    if w.None? then if n.ip.ip != "" && n.ip.netmask != 0 then [n.ip] else []
    else if ha.role.Primary? && w.value.baseIp != "" then [Address(w.value.baseIp, 24)]
    else if ha.role.Backup? && w.value.peerIp != "" then [Address(w.value.peerIp, 24)]
    else []
  }

  /** The stored entry of an interface is replaced by what the kernel reports. */
  function Refresh(interfaces: seq<Interface>, name: string, addresses: seq<Address>): seq<Interface> {
    if interfaces == [] then []
    else if interfaces[0].name == name then
      [interfaces[0].(ip := if addresses == [] then NO_ADDRESS else addresses[0],
                      aliases := if addresses == [] then [] else addresses[1..])] + interfaces[1..]
    else [interfaces[0]] + Refresh(interfaces[1..], name, addresses)
  }

  /** The first entry of the interface gets the first address as its own and the others as aliases. */
  lemma {:induction false} RefreshAt(interfaces: seq<Interface>, name: string, addresses: seq<Address>, i: nat)
    requires i < |interfaces|
    ensures |Refresh(interfaces, name, addresses)| == |interfaces|
    ensures Refresh(interfaces, name, addresses)[i] ==
            if interfaces[i].name == name && forall j | 0 <= j < i :: interfaces[j].name != name then
              if addresses == [] then interfaces[i].(ip := Address("", 0), aliases := [])
              else interfaces[i].(ip := addresses[0], aliases := addresses[1..])
            else interfaces[i]
  {
    var rest := interfaces[1..];
    assert forall j | 0 < j < |interfaces| :: interfaces[j] == rest[j - 1];
    if interfaces[0].name != name && rest != [] {
      RefreshAt(rest, name, addresses, if i == 0 then 0 else i - 1);
      assert (forall j | 0 <= j < i :: interfaces[j].name != name)
        <==> (forall j | 0 <= j < i - 1 :: rest[j].name != name);
    }
  }

  function SetOne(node: Node, n: Interface): Node {
    if Skipped(node.config.ha, n.name) then node
    else
      var addresses := Target(node.config.ha, n);
      node.(kernel := node.kernel[n.name := addresses],
            config := node.config.(interfaces := Refresh(node.config.interfaces, n.name, addresses)))
  }

  /** The first k interfaces of the list have had their turn. */
  function SetIps(node: Node, list: seq<Interface>, k: nat): Node
    requires k <= |list|
  {
    if k == 0 then node else SetOne(SetIps(node, list, k - 1), list[k - 1])
  }

  lemma {:induction false} SetIpsKeeps(node: Node, list: seq<Interface>, k: nat)
    requires k <= |list|
    ensures var s := SetIps(node, list, k);
            s == node.(kernel := s.kernel, config := node.config.(interfaces := s.config.interfaces))
  {
    if k > 0 {
      SetIpsKeeps(node, list, k - 1);
    }
  }

  /** A monitored interface carries its role's address after all turns, wherever it stands in the list. */
  lemma {:induction false} MonitoredAddress(node: Node, list: seq<Interface>, k: nat, i: nat)
    requires i < k <= |list|
    requires Watch(node.config.ha.monitored, list[i].name).Some? && !Skipped(node.config.ha, list[i].name)
    ensures var s := SetIps(node, list, k);
            list[i].name in s.kernel && s.kernel[list[i].name] == Target(node.config.ha, list[i])
  {
    SetIpsKeeps(node, list, k - 1);
    if i < k - 1 {
      MonitoredAddress(node, list, k - 1, i);
    }
  }

  /** An unmonitored interface carries its own address after its turn, if it has one. */
  lemma {:induction false} OwnAddress(node: Node, list: seq<Interface>, k: nat, i: nat)
    requires i < k <= |list| && !Skipped(node.config.ha, list[i].name)
    requires forall m | m in node.config.ha.monitored :: m.name != list[i].name
    requires forall j | i < j < k :: list[j].name != list[i].name
    ensures var s, n := SetIps(node, list, k), list[i];
            n.name in s.kernel && s.kernel[n.name] == if n.ip.ip == "" || n.ip.netmask == 0 then [] else [n.ip]
  {
    SetIpsKeeps(node, list, k - 1);
    if i < k - 1 {
      OwnAddress(node, list, k - 1, i);
    } else {
      WatchFinds(node.config.ha.monitored, list[i].name);
    }
  }

  /** The loop-back device, the dedicated interface and what is no Ethernet port keep what they carry. */
  lemma {:induction false} SkippedKeep(node: Node, list: seq<Interface>, k: nat, name: string)
    requires k <= |list| && (name == "" || name == "lo" || name[0] != 'e' || name == node.config.ha.dedicated)
    ensures name in SetIps(node, list, k).kernel <==> name in node.kernel
    ensures name in node.kernel ==> SetIps(node, list, k).kernel[name] == node.kernel[name]
  {
    if k > 0 {
      SetIpsKeeps(node, list, k - 1);
      SkippedKeep(node, list, k - 1, name);
    }
  }

  // ---------------------------------------------------------------- keepalived

  /** The last interface with a name, as a map built in list order holds it. */
  function LastNamed(interfaces: seq<Interface>, name: string): Option<Interface> {
    if interfaces == [] then None
    else if interfaces[|interfaces| - 1].name == name then Some(interfaces[|interfaces| - 1])
    else LastNamed(interfaces[..|interfaces| - 1], name)
  }

  /** The virtual addresses: monitored interfaces that have an address, with the one recorded for sharing. */
  function Shared(config: Config, monitored: seq<Monitored>): seq<(string, string)> {
    if monitored == [] then []
    else
      var m := monitored[|monitored| - 1];
      var n := LastNamed(config.interfaces, m.name);
      var w := Watch(config.ha.monitored, m.name);
      Shared(config, monitored[..|monitored| - 1])
      + if n.None? || n.value.ip.ip == "" || w.None? then [] else [(w.value.interfaceIp, m.name)]
  }

  lemma {:induction false} LastNamedIs(interfaces: seq<Interface>, name: string)
    ensures var n := LastNamed(interfaces, name);
            if n.None? then forall i | 0 <= i < |interfaces| :: interfaces[i].name != name
            else exists i :: 0 <= i < |interfaces| && LastEntry(interfaces, name, i) && n == Some(interfaces[i])
  {
    if interfaces != [] {
      var front := interfaces[..|interfaces| - 1];
      if interfaces[|interfaces| - 1].name == name {
        assert LastEntry(interfaces, name, |interfaces| - 1);
      } else {
        LastNamedIs(front, name);
        if i :| 0 <= i < |front| && LastEntry(front, name, i) && LastNamed(front, name) == Some(front[i]) {
          assert LastEntry(interfaces, name, i);
        }
      }
    }
  }

  /** The interface at this position is the last one with the name. */
  predicate LastEntry(interfaces: seq<Interface>, name: string, i: int) {
    0 <= i < |interfaces| && interfaces[i].name == name && forall j | i < j < |interfaces| :: interfaces[j].name != name
  }

  /** The interface has an address, and this is the one recorded for sharing it. */
  ghost predicate SharesAddress(config: Config, address: string, name: string) {
    && (exists i :: LastEntry(config.interfaces, name, i) && config.interfaces[i].ip.ip != "")
    && (exists k :: FirstEntry(config.ha.monitored, name, k) && config.ha.monitored[k].interfaceIp == address)
  }

  lemma OneLast(interfaces: seq<Interface>, name: string, i: int)
    requires LastEntry(interfaces, name, i)
    ensures LastNamed(interfaces, name) == Some(interfaces[i])
  {
    LastNamedIs(interfaces, name);
    if LastNamed(interfaces, name).Some? {
      var k :| 0 <= k < |interfaces| && LastEntry(interfaces, name, k)
               && LastNamed(interfaces, name) == Some(interfaces[k]);
      assert k == i;
    }
  }

  lemma SharesOne(config: Config, address: string, name: string)
    ensures SharesAddress(config, address, name) <==>
            var n, w := LastNamed(config.interfaces, name), Watch(config.ha.monitored, name);
            n.Some? && n.value.ip.ip != "" && w.Some? && w.value.interfaceIp == address
  {
    LastNamedIs(config.interfaces, name);
    if i :| LastEntry(config.interfaces, name, i) && config.interfaces[i].ip.ip != "" {
      OneLast(config.interfaces, name, i);
    }
    if k :| FirstEntry(config.ha.monitored, name, k) && config.ha.monitored[k].interfaceIp == address {
      WatchFirst(config.ha.monitored, name, k);
    }
    if Watch(config.ha.monitored, name).Some? {
      var k := WatchPosition(config.ha.monitored, name);
    }
  }

  lemma {:induction false} WatchPosition(monitored: seq<Monitored>, name: string) returns (k: int)
    requires Watch(monitored, name).Some?
    ensures FirstEntry(monitored, name, k) && Watch(monitored, name) == Some(monitored[k])
  {
    if monitored[0].name == name {
      k := 0;
    } else {
      var j := WatchPosition(monitored[1..], name);
      k := j + 1;
      assert forall i | 0 < i < k :: monitored[i] == monitored[1..][i - 1];
    }
  }

  /** The virtual addresses are exactly those recorded for monitored interfaces that have an address. */
  lemma {:induction false} SharedExactly(config: Config, monitored: seq<Monitored>, address: string, name: string)
    ensures (address, name) in Shared(config, monitored) <==>
            (exists m :: m in monitored && m.name == name) && SharesAddress(config, address, name)
  {
    if monitored != [] {
      var front, m := monitored[..|monitored| - 1], monitored[|monitored| - 1];
      assert monitored == front + [m];
      SharedExactly(config, front, address, name);
      SharesOne(config, address, name);
    }
  }

  function Names(monitored: seq<Monitored>): (names: seq<string>)
    ensures |names| == |monitored|
  {
    seq(|monitored|, i requires 0 <= i < |monitored| => monitored[i].name)
  }

  /** What is written for keepalived; None when there is no dedicated interface. */
  function Settings(config: Config): Option<Keepalived> {
    if config.ha.dedicated == "" then None
    else
      var primary := config.ha.role.Primary?;
      Some(Keepalived(primary, if primary then 10 else 9, config.ha.dedicated, TrimSpace(config.ha.password),
                      config.ha.peerIp, Names(config.ha.monitored), Shared(config, config.ha.monitored)))
  }

  function WithKeepalived(node: Node): Node {
    if Settings(node.config).Some? then node.(keepalived := Settings(node.config)) else node
  }

  // ---------------------------------------------------------------- one sync, step by step

  /** The node that asks for the sync, and its peer. */
  datatype Pair = Pair(asker: Node, peer: Node)

  /** The checks on both sides before anything is sent. */
  predicate Agreed(p: Pair) {
    && p.asker.config.ha.role.Primary? && p.asker.config.ha.peerIp != ""
    && p.asker.modelNo == p.peer.modelNo
    && p.peer.config.ha.role.Backup? && p.peer.config.ha.dedicated != "" && p.peer.config.ha.peerIp != ""
    && p.peer.config.ha.password == p.asker.config.ha.password
  }

  function WithoutStats(config: Config): Config {
    config.(interfaces := seq(|config.interfaces|, i requires 0 <= i < |config.interfaces| =>
                                config.interfaces[i].(stats := 0)))
  }

  function Stamped(node: Node, now: string): Node {
    node.(config := node.config.(ha := node.config.ha.(lastSyncedAt := now)))
  }

  const STEPS := 7

  /**
   Step k of a sync, or None when it is refused; `turns` is how many interfaces a kernel error lets through, and
   such an error ends the backup's step but not the primary's.
   */
  function Step(p: Pair, k: nat, now: string, turns: nat): Option<Pair> {
    if k == 0 then if Agreed(p) then Some(p) else None
    else if k == 1 then Some(p.(peer := p.peer.(received := Some(WithoutStats(p.asker.config)))))
    else if k == 2 then
      if p.peer.received.None? then None
      else
        var m := Merge(p.peer.config, p.peer.received.value);
        if m.None? then None else Some(p.(peer := p.peer.(config := m.value)))
    else if k == 3 then
      var list := p.peer.config.interfaces;
      if turns < |list| then None
      else
        var done := SetIps(p.peer, list, |list|);
        if Settings(done.config).None? then None else Some(p.(peer := WithKeepalived(done)))
    else if k == 4 then Some(p.(asker := Stamped(p.asker, now)))
    else if k == 5 then Some(p.(peer := Stamped(p.peer, now)))
    else
      var list := p.asker.config.interfaces;
      Some(p.(asker := WithKeepalived(SetIps(p.asker, list, if turns < |list| then turns else |list|))))
  }

  /** A refused backup step may already have set addresses. */
  function Interrupted(p: Pair, k: nat, turns: nat): Pair {
    if k != 3 then p
    else
      var list := p.peer.config.interfaces;
      p.(peer := SetIps(p.peer, list, if turns < |list| then turns else |list|))
  }

  /** The effect of one step, refused or not. */
  function Made(p: Pair, k: nat, now: string, turns: nat): Pair {
    var next := Step(p, k, now, turns);
    if next.Some? then next.value else Interrupted(p, k, turns)
  }

  /** Steps from k on, up to `stop` of them, until one is refused; `made` tells the effect and whether to go on. */
  function Iterate(made: (Pair, nat) -> (Pair, bool), p: Pair, k: nat, stop: nat): Pair
    requires k <= STEPS
    decreases STEPS - k
  {
    if stop == 0 || k == STEPS then p
    else
      var (next, goOn) := made(p, k);
      if goOn then Iterate(made, next, k + 1, stop - 1) else next
  }

  /** The same, or None when one of the steps is refused. */
  function Through(made: (Pair, nat) -> (Pair, bool), p: Pair, k: nat, stop: nat): Option<Pair>
    requires k <= STEPS
    decreases STEPS - k
  {
    if stop == 0 || k == STEPS then Some(p)
    else
      var (next, goOn) := made(p, k);
      if goOn then Through(made, next, k + 1, stop - 1) else None
  }

  function Making(now: string, turns: nat): (Pair, nat) -> (Pair, bool) {
    (p: Pair, k: nat) => (Made(p, k, now, turns), Step(p, k, now, turns).Some?)
  }

  /** What a sync leaves behind when it stops or is refused: the effect of the steps that were made. */
  function Sync(p: Pair, stop: nat, now: string, turns: nat): Pair {
    Iterate(Making(now, turns), p, 0, stop)
  }

  // ---------------------------------------------------------------- roles over whole runs

  datatype Side = A | B

  /**
   Requests for a sync on either side, stopping anywhere; single steps of syncs that overlap with others; and
   edits of either side's network.
   */
  datatype Event =
    | AskSync(side: Side, stop: nat, now: string, turns: nat)
    | OneStep(side: Side, k: nat, now: string, turns: nat)
    | EditNetwork(side: Side, interfaces: seq<Interface>, others: string)

  datatype Cluster = Cluster(a: Node, b: Node)

  function Edited(node: Node, interfaces: seq<Interface>, others: string): Node {
    node.(config := node.config.(interfaces := interfaces, others := others))
  }

  function Happen(c: Cluster, e: Event): Cluster {
    match e
    case AskSync(A, stop, now, turns) =>
      var p := Sync(Pair(c.a, c.b), stop, now, turns); Cluster(p.asker, p.peer)
    case AskSync(B, stop, now, turns) =>
      var p := Sync(Pair(c.b, c.a), stop, now, turns); Cluster(p.peer, p.asker)
    case OneStep(A, k, now, turns) =>
      var p := Made(Pair(c.a, c.b), k, now, turns); Cluster(p.asker, p.peer)
    case OneStep(B, k, now, turns) =>
      var p := Made(Pair(c.b, c.a), k, now, turns); Cluster(p.peer, p.asker)
    case EditNetwork(A, interfaces, others) => c.(a := Edited(c.a, interfaces, others))
    case EditNetwork(B, interfaces, others) => c.(b := Edited(c.b, interfaces, others))
  }

  function HappenAll(c: Cluster, events: seq<Event>): Cluster
    decreases |events|
  {
    if events == [] then c else HappenAll(Happen(c, events[0]), events[1..])
  }

  datatype Identity = Identity(role: Role, peerIp: string, dedicated: string, modelNo: string)

  /** What makes a node itself. */
  function Who(node: Node): Identity {
    Identity(node.config.ha.role, node.config.ha.peerIp, node.config.ha.dedicated, node.modelNo)
  }

  function Both(p: Pair): (Identity, Identity) {
    (Who(p.asker), Who(p.peer))
  }

  lemma StepIdentity(p: Pair, k: nat, now: string, turns: nat)
    requires Step(p, k, now, turns).Some?
    ensures Both(Step(p, k, now, turns).value) == Both(p)
  {
    if k == 3 {
      SetIpsKeeps(p.peer, p.peer.config.interfaces, |p.peer.config.interfaces|);
    } else if k > 5 {
      var list := p.asker.config.interfaces;
      SetIpsKeeps(p.asker, list, if turns < |list| then turns else |list|);
    }
  }

  lemma MadeIdentity(p: Pair, k: nat, now: string, turns: nat)
    ensures Both(Made(p, k, now, turns)) == Both(p)
  {
    if Step(p, k, now, turns).Some? {
      StepIdentity(p, k, now, turns);
    } else if k == 3 {
      var list := p.peer.config.interfaces;
      SetIpsKeeps(p.peer, list, if turns < |list| then turns else |list|);
    }
  }

  ghost predicate KeepsIdentity(made: (Pair, nat) -> (Pair, bool)) {
    forall q: Pair, k: nat :: Both(made(q, k).0) == Both(q)
  }

  lemma {:induction false} IterateIdentity(made: (Pair, nat) -> (Pair, bool), p: Pair, k: nat, stop: nat)
    requires k <= STEPS && KeepsIdentity(made)
    ensures Both(Iterate(made, p, k, stop)) == Both(p)
    decreases STEPS - k
  {
    if stop > 0 && k < STEPS {
      var (next, goOn) := made(p, k);
      assert Both(next) == Both(p);
      if goOn {
        IterateIdentity(made, next, k + 1, stop - 1);
      }
    }
  }

  lemma SyncIdentity(p: Pair, stop: nat, now: string, turns: nat)
    ensures Both(Sync(p, stop, now, turns)) == Both(p)
  {
    var made := Making(now, turns);
    forall q: Pair, k: nat ensures Both(made(q, k).0) == Both(q) {
      MadeIdentity(q, k, now, turns);
    }
    IterateIdentity(made, p, 0, stop);
  }

  /**
   Whatever syncs are asked for on either side, wherever each of them stops, however their steps overlap, and
   whatever is edited in between, both nodes keep their role, peer address and dedicated interface.
   */
  lemma {:induction false} RoleSafety(c: Cluster, events: seq<Event>)
    ensures Who(HappenAll(c, events).a) == Who(c.a) && Who(HappenAll(c, events).b) == Who(c.b)
    decreases |events|
  {
    if events != [] {
      EventIdentity(c, events[0]);
      RoleSafety(Happen(c, events[0]), events[1..]);
    }
  }

  lemma EventIdentity(c: Cluster, e: Event)
    ensures Who(Happen(c, e).a) == Who(c.a) && Who(Happen(c, e).b) == Who(c.b)
  {
    match e
    case AskSync(A, stop, now, turns) => SyncIdentity(Pair(c.a, c.b), stop, now, turns);
    case AskSync(B, stop, now, turns) => SyncIdentity(Pair(c.b, c.a), stop, now, turns);
    case OneStep(A, k, now, turns) => MadeIdentity(Pair(c.a, c.b), k, now, turns);
    case OneStep(B, k, now, turns) => MadeIdentity(Pair(c.b, c.a), k, now, turns);
    case EditNetwork(_, _, _) =>
  }

  /** A refused step changes nothing, except that a backup may have set the addresses of its first interfaces. */
  lemma RefusedStep(p: Pair, k: nat, now: string, turns: nat, i: nat)
    requires Step(p, k, now, turns).None?
    ensures k != 3 ==> Made(p, k, now, turns) == p
    ensures var list := p.peer.config.interfaces;
            k == 3 && i < turns && i < |list| && !Skipped(p.peer.config.ha, list[i].name)
            && Watch(p.peer.config.ha.monitored, list[i].name).Some? ==>
              var kernel := Made(p, k, now, turns).peer.kernel;
              list[i].name in kernel && kernel[list[i].name] == Target(p.peer.config.ha, list[i])
  {
    var list := p.peer.config.interfaces;
    if k == 3 && i < turns && i < |list| && !Skipped(p.peer.config.ha, list[i].name)
      && Watch(p.peer.config.ha.monitored, list[i].name).Some?
    {
      MonitoredAddress(p.peer, list, if turns < |list| then turns else |list|, i);
    }
  }

  /** A sync asked for on the backup, or towards a node that is not a backup, changes nothing at all. */
  lemma WrongSideIsRefused(p: Pair, stop: nat, now: string, turns: nat)
    requires !p.asker.config.ha.role.Primary? || !p.peer.config.ha.role.Backup?
    ensures Sync(p, stop, now, turns) == p
  {
  }

  /**
   A sync begins only on a primary with a peer address, towards a backup of the same model with the same password, a
   dedicated interface and a peer address; then the peer first gets the configuration without its statistics.
   Otherwise nothing changes.
   */
  lemma SyncBegins(p: Pair, now: string, turns: nat, stop: nat)
    ensures var a, b := p.asker.config.ha, p.peer.config.ha;
            var agreed := a.role == Primary && a.peerIp != "" && b.role == Backup && b.peerIp != "" && b.dedicated != ""
                          && a.password == b.password && p.asker.modelNo == p.peer.modelNo;
            && (!agreed ==> Sync(p, stop, now, turns) == p)
            && (agreed ==>
                  var config := p.asker.config;
                  var sent := config.(interfaces := seq(|config.interfaces|, i requires 0 <= i < |config.interfaces| =>
                                                          config.interfaces[i].(stats := 0)));
                  Sync(p, 2, now, turns) == p.(peer := p.peer.(received := Some(sent))))
  {
    var made := Making(now, turns);
    if Agreed(p) {
      assert made(p, 0) == (p, true);
      assert Iterate(made, p, 0, 2) == Iterate(made, p, 1, 1);
      assert Iterate(made, p, 1, 1) == made(p, 1).0 by {
        assert Iterate(made, made(p, 1).0, 2, 0) == made(p, 1).0;
      }
    }
  }

  // ---------------------------------------------------------------- a complete sync

  /** All steps were made and the primary's addresses were all set. */
  predicate Completes(p: Pair, now: string, turns: nat) {
    Through(Making(now, turns), p, 0, STEPS).Some? && turns >= |p.asker.config.interfaces|
  }

  /** A sync none of whose steps is refused leaves exactly what its steps make. */
  lemma {:induction false} ThroughIsIterate(made: (Pair, nat) -> (Pair, bool), p: Pair, k: nat, stop: nat)
    requires k <= STEPS && Through(made, p, k, stop).Some?
    ensures Iterate(made, p, k, stop) == Through(made, p, k, stop).value
    decreases STEPS - k
  {
    if stop > 0 && k < STEPS {
      ThroughIsIterate(made, made(p, k).0, k + 1, stop - 1);
    }
  }

  /** The nodes after a complete sync, in closed form. */
  lemma CompleteForm(p: Pair, now: string, turns: nat)
    requires Completes(p, now, turns)
    ensures Agreed(p) && Merge(p.peer.config, WithoutStats(p.asker.config)).Some?
    ensures var merged := p.peer.(received := Some(WithoutStats(p.asker.config)),
                                  config := Merge(p.peer.config, WithoutStats(p.asker.config)).value);
            var list := p.asker.config.interfaces;
            var r := Sync(p, STEPS, now, turns);
            && r.peer == Stamped(WithKeepalived(SetIps(merged, merged.config.interfaces, |list|)), now)
            && r.asker == WithKeepalived(SetIps(Stamped(p.asker, now), list, |list|))
  {
    var made := Making(now, turns);
    ThroughIsIterate(made, p, 0, STEPS);
    var p1 := made(p, 0).0;
    var p2 := made(p1, 1).0;
    var p3 := made(p2, 2).0;
    var p4 := made(p3, 3).0;
    var p5 := made(p4, 4).0;
    var p6 := made(p5, 5).0;
    assert Through(made, p, 0, 7) == Through(made, p1, 1, 6);
    assert Through(made, p1, 1, 6) == Through(made, p2, 2, 5);
    assert Through(made, p2, 2, 5) == Through(made, p3, 3, 4);
    assert Through(made, p3, 3, 4) == Through(made, p4, 4, 3);
    assert Through(made, p4, 4, 3) == Through(made, p5, 5, 2);
    assert Through(made, p5, 5, 2) == Through(made, p6, 6, 1);
    assert Through(made, p6, 6, 1) == Some(made(p6, 6).0);
  }

  /** Both sides monitor the same interfaces and the primary has the higher priority. */
  lemma CompleteSyncAgrees(p: Pair, now: string, turns: nat)
    requires Completes(p, now, turns) && p.asker.config.ha.dedicated != ""
    ensures var r := Sync(p, STEPS, now, turns);
            && r.asker.config.ha.monitored == r.peer.config.ha.monitored == p.asker.config.ha.monitored
            && r.asker.config.ha.lastSyncedAt == r.peer.config.ha.lastSyncedAt == now
            && r.asker.keepalived.Some? && r.peer.keepalived.Some?
            && r.asker.keepalived.value.master && !r.peer.keepalived.value.master
            && r.asker.keepalived.value.priority > r.peer.keepalived.value.priority
            && r.asker.keepalived.value.tracked == r.peer.keepalived.value.tracked
  {
    CompleteForm(p, now, turns);
    var merged := p.peer.(received := Some(WithoutStats(p.asker.config)),
                          config := Merge(p.peer.config, WithoutStats(p.asker.config)).value);
    var n := |p.asker.config.interfaces|;
    SetIpsKeeps(merged, merged.config.interfaces, n);
    SetIpsKeeps(Stamped(p.asker, now), p.asker.config.interfaces, n);
  }

  /** On a monitored interface with two different addresses set, the two nodes carry different ones. */
  lemma CompleteSyncSeparates(p: Pair, now: string, turns: nat, i: nat)
    requires Completes(p, now, turns) && i < |p.asker.config.interfaces|
    requires var name := p.asker.config.interfaces[i].name;
             && !Skipped(p.asker.config.ha, name) && name != p.peer.config.ha.dedicated
             && var w := Watch(p.asker.config.ha.monitored, name);
                w.Some? && w.value.baseIp != "" && w.value.peerIp != "" && w.value.baseIp != w.value.peerIp
    ensures var r := Sync(p, STEPS, now, turns);
            var name := p.asker.config.interfaces[i].name;
            var w := Watch(p.asker.config.ha.monitored, name).value;
            && name in r.asker.kernel && name in r.peer.kernel
            && r.asker.kernel[name] == [Address(w.baseIp, 24)] && r.peer.kernel[name] == [Address(w.peerIp, 24)]
            && r.asker.kernel[name] != r.peer.kernel[name]
  {
    CompleteForm(p, now, turns);
    var merged := p.peer.(received := Some(WithoutStats(p.asker.config)),
                          config := Merge(p.peer.config, WithoutStats(p.asker.config)).value);
    var n := |p.asker.config.interfaces|;
    MonitoredAddress(merged, merged.config.interfaces, n, i);
    MonitoredAddress(Stamped(p.asker, now), p.asker.config.interfaces, n, i);
  }

  // ---------------------------------------------------------------- enabling a node

  datatype Enabling = Enabling(
    mode: string, role: string, password: string, dedicated: string, peerIp: string, monitored: seq<Monitored>,
    interval: int, attempts: int)

  function RoleNamed(text: string): Role {
    var role := Lower(TrimSpace(text));
    if role == "primary" then Primary else if role == "backup" then Backup else NoRole
  }

  /** Names that exist and addresses that parse or are in use are the system's answers. */
  datatype System = System(links: set<string>, valid: string -> bool, inUse: string -> bool, shown: string -> string)

  predicate MonitoredValid(m: Monitored, y: System) {
    var base, peer := TrimSpace(m.baseIp), TrimSpace(m.peerIp);
    && TrimSpace(m.name) != "" && TrimSpace(m.name) in y.links
    && (base != "" ==> y.valid(base) && base != peer && !y.inUse(base))
    && (peer != "" ==> y.valid(peer))
  }

  predicate EnablingValid(r: Enabling, y: System) {
    var mode := Lower(TrimSpace(r.mode));
    && (mode == "active-backup" || mode == "active-active")
    && !RoleNamed(r.role).NoRole? && !(mode == "active-active" && RoleNamed(r.role).Backup?)
    && TrimSpace(r.dedicated) != "" && TrimSpace(r.dedicated) in y.links
    && TrimSpace(r.peerIp) != "" && y.valid(TrimSpace(r.peerIp))
    && forall m | m in r.monitored :: MonitoredValid(m, y)
  }

  /** What is stored; a backup starts without monitored interfaces, and the address of each is recorded for sharing. */
  function Enabled(r: Enabling, y: System, before: HaConf): HaConf {
    var role := RoleNamed(r.role);
    var monitored := if role.Backup? then []
                     else seq(|r.monitored|, i requires 0 <= i < |r.monitored| =>
                                r.monitored[i].(interfaceIp := y.shown(r.monitored[i].name)));
    HaConf(Lower(TrimSpace(r.mode)), role, TrimSpace(r.password), TrimSpace(r.dedicated), TrimSpace(r.peerIp),
           monitored,
           if role.Backup? then 0 else r.interval, if role.Backup? then 0 else r.attempts,
           before.lastSyncedAt, before.status)
  }

  /** Which requests are accepted. */
  lemma AcceptedExactly(r: Enabling, y: System)
    ensures EnablingValid(r, y) <==>
            var mode, role := Lower(TrimSpace(r.mode)), Lower(TrimSpace(r.role));
            var dedicated, partner := TrimSpace(r.dedicated), TrimSpace(r.peerIp);
            && (mode, role) in {("active-backup", "primary"), ("active-backup", "backup"), ("active-active", "primary")}
            && dedicated != "" && dedicated in y.links && partner != "" && y.valid(partner)
            && forall i | 0 <= i < |r.monitored| ::
                 var name, base := TrimSpace(r.monitored[i].name), TrimSpace(r.monitored[i].baseIp);
                 var peer := TrimSpace(r.monitored[i].peerIp);
                 && name != "" && name in y.links && (base == "" || (y.valid(base) && !y.inUse(base) && base != peer))
                 && (peer == "" || y.valid(peer))
  {
    assert forall i | 0 <= i < |r.monitored| :: r.monitored[i] in r.monitored;
  }

  /** What is stored of it. */
  lemma EnabledExactly(r: Enabling, y: System, before: HaConf)
    requires EnablingValid(r, y)
    ensures var ha, backup := Enabled(r, y, before), Lower(TrimSpace(r.role)) == "backup";
            && ha.mode == Lower(TrimSpace(r.mode)) && ha.role == (if backup then Backup else Primary)
            && ha.password == TrimSpace(r.password) && ha.dedicated == TrimSpace(r.dedicated)
            && ha.peerIp == TrimSpace(r.peerIp) && ha.lastSyncedAt == before.lastSyncedAt && ha.status == before.status
            && (backup ==> ha.monitored == [] && ha.interval == 0 && ha.attempts == 0)
            && (!backup ==> ha.interval == r.interval && ha.attempts == r.attempts && |ha.monitored| == |r.monitored|
                            && forall i | 0 <= i < |ha.monitored| ::
                                 ha.monitored[i] == r.monitored[i].(interfaceIp := y.shown(r.monitored[i].name)))
  {
  }

  /** An accepted configuration has a role and a partner, and never one address for both nodes. */
  lemma EnabledIsSound(r: Enabling, y: System, before: HaConf, name: string)
    requires EnablingValid(r, y)
    ensures var ha := Enabled(r, y, before);
            && !ha.role.NoRole? && ha.peerIp != "" && ha.dedicated != ""
            && (ha.role.Backup? ==> ha.monitored == [] && ha.mode == "active-backup")
            && var w := Watch(ha.monitored, name);
               w.Some? && TrimSpace(w.value.baseIp) != "" ==> w.value.baseIp != w.value.peerIp
  {
    var ha := Enabled(r, y, before);
    forall m | m in ha.monitored ensures TrimSpace(m.baseIp) != "" ==> m.baseIp != m.peerIp {
      var i :| 0 <= i < |ha.monitored| && ha.monitored[i] == m;
      assert MonitoredValid(r.monitored[i], y);
    }
    WatchFinds(ha.monitored, name);
  }

  lemma {:induction false} WatchFinds(monitored: seq<Monitored>, name: string)
    ensures var w := Watch(monitored, name);
            if w.Some? then w.value in monitored && w.value.name == name
            else forall m | m in monitored :: m.name != name
  {
    if monitored != [] && monitored[0].name != name {
      WatchFinds(monitored[1..], name);
    }
  }

  // ---------------------------------------------------------------- the programs

  class Appliance {
    var node: Node

    constructor (node: Node)
      ensures this.node == node
    {
      this.node := node;
    }

    method PerformIpFlush(name: string)
      modifies this
      ensures node == old(node).(kernel := old(node).kernel[name := []])
    {
      node := node.(kernel := node.kernel[name := []]);
    }

    method SetIp(name: string, address: Address)
      requires name in node.kernel && address.ip != "" && address.netmask != 0
      modifies this
      ensures node == old(node).(kernel := old(node).kernel[name := old(node).kernel[name] + [address]])
    {
      node := node.(kernel := node.kernel[name := node.kernel[name] + [address]]);
    }

    /** The addresses of one interface: its own, unless it is monitored, in which case its role's. */
    method SetAddresses(n: Interface)
      requires n.name in node.kernel
      modifies this
      ensures node == old(node).(kernel := old(node).kernel[n.name := Target(old(node).config.ha, n)])
      ensures (forall m | m in old(node).config.ha.monitored :: m.name != n.name) ==>
                node.kernel[n.name] == if n.ip.ip == "" || n.ip.netmask == 0 then [] else [n.ip]
      ensures forall k | FirstEntry(old(node).config.ha.monitored, n.name, k) ::
                var m, role := old(node).config.ha.monitored[k], old(node).config.ha.role;
                var ip := if role == Primary then m.baseIp else if role == Backup then m.peerIp else "";
                node.kernel[n.name] == if ip == "" then [] else [Address(ip, 24)]
    {
      ghost var before := node;
      PerformIpFlush(n.name);
      if n.ip.ip != "" && n.ip.netmask != 0 {
        SetIp(n.name, n.ip);
      }
      var ha := node.config.ha;
      var w := Watch(ha.monitored, n.name);
      if w.Some? {
        PerformIpFlush(n.name);
        if ha.role.Primary? && w.value.baseIp != "" {
          SetIp(n.name, Address(w.value.baseIp, 24));
        }
        if ha.role.Backup? && w.value.peerIp != "" {
          SetIp(n.name, Address(w.value.peerIp, 24));
        }
      }
      assert node.kernel[n.name] == Target(ha, n);
      forall k | FirstEntry(ha.monitored, n.name, k) ensures w == Some(ha.monitored[k]) {
        WatchFirst(ha.monitored, n.name, k);
      }
      WatchFinds(ha.monitored, n.name);
      assert node.kernel == before.kernel[n.name := node.kernel[n.name]];
    }

    /** One turn: skip it, or set the addresses and store what the kernel then reports. */
    method SetInterface(n: Interface)
      requires n.name in node.kernel
      modifies this
      ensures node == SetOne(old(node), n) && node.kernel.Keys == old(node).kernel.Keys
      ensures n.name == "" || n.name == "lo" || n.name[0] != 'e' || n.name == old(node).config.ha.dedicated ==>
                node == old(node)
      ensures n.name != "" && n.name != "lo" && n.name[0] == 'e' && n.name != old(node).config.ha.dedicated ==>
                var addresses := Target(old(node).config.ha, n);
                && node.kernel == old(node).kernel[n.name := addresses]
                && node.config.interfaces == Refresh(old(node).config.interfaces, n.name, addresses)
    {
      if !Skipped(node.config.ha, n.name) {
        SetAddresses(n);
        var addresses := node.kernel[n.name];
        node := node.(config := node.config.(interfaces := Refresh(node.config.interfaces, n.name, addresses)));
      }
    }

    /** Every interface in turn, up to the first one the kernel does not know. */
    method SetIpAfterSyncBackup() returns (ok: bool, turns: nat)
      modifies this
      ensures turns <= |old(node).config.interfaces|
      ensures node == SetIps(old(node), old(node).config.interfaces, turns)
      ensures ok <==> turns == |old(node).config.interfaces|
      ensures ok <==> forall n | n in old(node).config.interfaces :: n.name in old(node).kernel
    {
      ghost var before := node;
      var list := node.config.interfaces;
      for i := 0 to |list|
        invariant node == SetIps(before, list, i) && node.kernel.Keys == before.kernel.Keys
        invariant forall n | n in list[..i] :: n.name in before.kernel
      {
        var n := list[i];
        if n.name !in node.kernel {
          assert n in list;
          return false, i;
        }
        SetInterface(n);
      }
      assert list[..|list|] == list;
      return true, |list|;
    }

    /** Writes the keepalived settings for the node's role. */
    method CreateHaConfig() returns (ok: bool)
      modifies this
      ensures ok == Settings(old(node).config).Some? && node == WithKeepalived(old(node))
      ensures ok <==> old(node).config.ha.dedicated != ""
      ensures node == old(node).(keepalived := node.keepalived) && (!ok ==> node == old(node))
      ensures ok ==>
                && node.keepalived.Some?
                && var ha, k := old(node).config.ha, node.keepalived.value;
                && k.master == (ha.role == Primary) && k.priority == (if ha.role == Primary then 10 else 9)
                && k.device == ha.dedicated && k.password == TrimSpace(ha.password) && k.peer == ha.peerIp
                && |k.tracked| == |ha.monitored|
                && (forall i | 0 <= i < |k.tracked| :: k.tracked[i] == ha.monitored[i].name)
                && forall address, name :: (address, name) in k.addresses <==>
                                           SharesAddress(old(node).config, address, name)
    {
      var config := node.config;
      var ha := config.ha;
      if ha.dedicated == "" {
        return false;
      }
      var index: map<string, Interface> := map[];
      for i := 0 to |config.interfaces|
        invariant node == old(node)
        invariant forall name :: LastNamed(config.interfaces[..i], name)
                              == if name in index then Some(index[name]) else None
      {
        assert config.interfaces[..i + 1][..i] == config.interfaces[..i];
        index := index[config.interfaces[i].name := config.interfaces[i]];
      }
      assert config.interfaces[..|config.interfaces|] == config.interfaces;
      var tracked: seq<string> := [];
      var addresses: seq<(string, string)> := [];
      for i := 0 to |ha.monitored|
        invariant node == old(node)
        invariant tracked == Names(ha.monitored[..i])
        invariant addresses == Shared(config, ha.monitored[..i])
      {
        var m := ha.monitored[i];
        assert ha.monitored[..i + 1][..i] == ha.monitored[..i];
        tracked := tracked + [m.name];
        assert LastNamed(config.interfaces, m.name) == if m.name in index then Some(index[m.name]) else None;
        WatchFinds(ha.monitored, m.name);
        if m.name in index && index[m.name].ip.ip != "" {
          addresses := addresses + [(Watch(ha.monitored, m.name).value.interfaceIp, m.name)];
        }
      }
      assert ha.monitored[..|ha.monitored|] == ha.monitored;
      var primary := ha.role.Primary?;
      var settings := Keepalived(primary, if primary then 10 else 9, ha.dedicated, TrimSpace(ha.password), ha.peerIp,
                                 tracked, addresses);
      assert Settings(config) == Some(settings);
      forall address, name ensures (address, name) in addresses <==> SharesAddress(config, address, name) {
        SharedExactly(config, ha.monitored, address, name);
      }
      node := node.(keepalived := Some(settings));
      return true;
    }
  }
}
