/**
 Port scanning up to concurrency: probes complete in any order, are sorted and grouped by host, and
 the TCP and UDP results are merged. Addresses are numbered in the order the source compares them.
 */
module PortScan {
  import opened Ordering
  import opened Wrappers

  datatype Transport = Tcp | Udp

  datatype Observation = Observation(transport: Transport, ip: nat, port: nat, result: string)

  datatype Host = Host(ip: nat, ports: seq<Observation>)

  /** sort_by_key of the socket address. */
  predicate ByAddress(a: Observation, b: Observation) {
    a.ip < b.ip || (a.ip == b.ip && a.port <= b.port)
  }

  function TransportRank(t: Transport): nat { if t.Tcp? then 0 else 1 }

  /** sort_by_key of port and transport. */
  predicate ByPort(a: Observation, b: Observation) {
    a.port < b.port || (a.port == b.port && TransportRank(a.transport) <= TransportRank(b.transport))
  }

  predicate ByIp(a: Host, b: Host) { a.ip <= b.ip }

  lemma KeysAreOrders()
    ensures TotalPreorder(ByAddress) && TotalPreorder(ByPort) && TotalPreorder(ByIp)
  {
  }

  function AtIp(observations: seq<Observation>, ip: nat): seq<Observation> {
    if observations == [] then []
    else
      var last := observations[|observations| - 1];
      AtIp(observations[..|observations| - 1], ip) + (if last.ip == ip then [last] else [])
  }

  lemma {:induction false} InAtIp(observations: seq<Observation>, ip: nat, o: Observation)
    ensures o in AtIp(observations, ip) <==> o in observations && o.ip == ip
  {
    if observations != [] {
      var front, last := observations[..|observations| - 1], observations[|observations| - 1];
      InAtIp(front, ip, o);
      assert observations == front + [last];
    }
  }

  /** One host per address in their order, with exactly the observations of that address. */
  function GroupByHost(addresses: seq<nat>, observations: seq<Observation>): (hosts: seq<Host>)
    ensures |hosts| == |addresses| && forall i :: 0 <= i < |hosts| ==> hosts[i].ip == addresses[i]
    ensures forall i, o :: 0 <= i < |hosts| ==> (o in hosts[i].ports <==> o in observations && o.ip == addresses[i])
  {
    assert forall i, o :: 0 <= i < |addresses| ==>
        (o in AtIp(observations, addresses[i]) <==> o in observations && o.ip == addresses[i]) by {
      forall i, o | 0 <= i < |addresses|
        ensures o in AtIp(observations, addresses[i]) <==> o in observations && o.ip == addresses[i] {
        InAtIp(observations, addresses[i], o);
      }
    }
    seq(|addresses|, i requires 0 <= i < |addresses| => Host(addresses[i], AtIp(observations, addresses[i])))
  }

  /** One scan: the probes as they completed, sorted by address, grouped. */
  function ScanPorts(addresses: seq<nat>, completed: seq<Observation>): seq<Host> {
    GroupByHost(addresses, Sort(completed, ByAddress))
  }

  // ----- Merging -----

  predicate DistinctIps(hosts: seq<Host>) {
    forall i, j :: 0 <= i < j < |hosts| ==> hosts[i].ip != hosts[j].ip
  }

  /** What the hosts record for an address. */
  ghost predicate Records(hosts: seq<Host>, ip: nat, ports: seq<Observation>) {
    exists i :: 0 <= i < |hosts| && hosts[i] == Host(ip, ports)
  }

  ghost predicate Knows(hosts: seq<Host>, ip: nat) {
    exists i :: 0 <= i < |hosts| && hosts[i].ip == ip
  }

  /** The merge of two scans, by address: both lists sorted together, or the one there is. */
  ghost predicate Merges(hosts: seq<Host>, tcp: seq<Host>, udp: seq<Host>) {
    && DistinctIps(hosts)
    && (forall ip :: Knows(hosts, ip) <==> Knows(tcp, ip) || Knows(udp, ip))
    && (forall ip, a, b :: Records(tcp, ip, a) && Records(udp, ip, b) ==> Records(hosts, ip, Sort(a + b, ByPort)))
    && (forall ip, a :: Records(tcp, ip, a) && !Knows(udp, ip) ==> Records(hosts, ip, a))
    && (forall ip, b :: Records(udp, ip, b) && !Knows(tcp, ip) ==> Records(hosts, ip, b))
  }

  method FindHost(hosts: seq<Host>, ip: nat) returns (i: nat)
    ensures i <= |hosts|
    ensures i < |hosts| ==> hosts[i].ip == ip
    ensures i == |hosts| ==> !Knows(hosts, ip)
  {
    i := 0;
    while i < |hosts| && hosts[i].ip != ip
      invariant i <= |hosts|
      invariant forall j :: 0 <= j < i ==> hosts[j].ip != ip
    {
      i := i + 1;
    }
  }

  lemma NothingMerged(tcp: seq<Host>)
    requires DistinctIps(tcp)
    ensures Merges(tcp, tcp, [])
  {
  }

  lemma OtherHosts(before: seq<Host>, after: seq<Host>, ip: nat, ports: seq<Observation>, i: nat)
    requires i <= |before| <= |after| <= |before| + 1
    requires forall j :: 0 <= j < |before| && j != i ==> after[j] == before[j]
    requires i < |before| ==> |after| == |before| && before[i].ip != ip && after[i].ip != ip
    requires i == |before| ==> |after| == |before| + 1 && after[i].ip != ip
    ensures Records(after, ip, ports) <==> Records(before, ip, ports)
    ensures Knows(after, ip) <==> Knows(before, ip)
  {
    if Records(before, ip, ports) {
      var j :| 0 <= j < |before| && before[j] == Host(ip, ports);
      assert after[j] == Host(ip, ports);
    }
    if Knows(before, ip) {
      var j :| 0 <= j < |before| && before[j].ip == ip;
      assert after[j].ip == ip;
    }
  }

  lemma RecordsKnows(hosts: seq<Host>, ip: nat)
    ensures forall ports :: Records(hosts, ip, ports) ==> Knows(hosts, ip)
  {
  }

  lemma OneHostMore(udp: seq<Host>, k: nat, ip: nat, ports: seq<Observation>)
    requires k < |udp|
    ensures Records(udp[..k + 1], ip, ports) <==> Records(udp[..k], ip, ports) || udp[k] == Host(ip, ports)
    ensures Knows(udp[..k + 1], ip) <==> Knows(udp[..k], ip) || udp[k].ip == ip
  {
    assert udp[..k + 1] == udp[..k] + [udp[k]];
    assert forall i :: 0 <= i < k ==> udp[..k + 1][i] == udp[..k][i];
    assert udp[..k + 1][k] == udp[k];
  }

  lemma MergeOne(before: seq<Host>, after: seq<Host>, tcp: seq<Host>, udp: seq<Host>, k: nat, i: nat)
    requires DistinctIps(tcp) && DistinctIps(udp) && k < |udp| && i <= |before|
    requires Merges(before, tcp, udp[..k])
    requires i < |before| ==>
               && before[i].ip == udp[k].ip
               && after == before[i := Host(before[i].ip, Sort(before[i].ports + udp[k].ports, ByPort))]
    requires i == |before| ==> !Knows(before, udp[k].ip) && after == before + [udp[k]]
    ensures Merges(after, tcp, udp[..k + 1])
  {
    hide ByPort;
    forall ip, ports
      ensures Records(udp[..k + 1], ip, ports) <==> Records(udp[..k], ip, ports) || udp[k] == Host(ip, ports)
    {
      OneHostMore(udp, k, ip, ports);
    }
    forall ip ensures Knows(udp[..k + 1], ip) <==> Knows(udp[..k], ip) || udp[k].ip == ip {
      OneHostMore(udp, k, ip, []);
    }
    forall ip, ports | ip != udp[k].ip
      ensures Records(after, ip, ports) <==> Records(before, ip, ports)
    {
      OtherHosts(before, after, ip, ports, i);
    }
    forall ip | ip != udp[k].ip ensures Knows(after, ip) <==> Knows(before, ip) {
      OtherHosts(before, after, ip, [], i);
    }
    assert !Knows(udp[..k], udp[k].ip);
    RecordsKnows(udp[..k], udp[k].ip);
    if i < |before| {
      assert after[i].ip == udp[k].ip;
      forall a | Records(tcp, udp[k].ip, a)
        ensures Records(after, udp[k].ip, Sort(a + udp[k].ports, ByPort))
      {
        assert Records(before, udp[k].ip, a);
        assert before[i].ports == a;
        assert after[i] == Host(udp[k].ip, Sort(a + udp[k].ports, ByPort));
      }
    } else {
      assert after[|before|] == udp[k] == Host(udp[k].ip, udp[k].ports);
      assert Records(after, udp[k].ip, udp[k].ports) && Knows(after, udp[k].ip);
      assert !Knows(tcp, udp[k].ip);
      RecordsKnows(tcp, udp[k].ip);
    }
  }

  lemma {:induction false} OnceInDistinct(a: seq<Host>, host: Host)
    requires DistinctIps(a)
    ensures multiset(a)[host] <= 1
  {
    if a != [] {
      var front, last := a[..|a| - 1], a[|a| - 1];
      OnceInDistinct(front, host);
      assert a == front + [last];
      if host == last {
        assert host !in front;
        assert multiset(front)[host] == 0;
      }
    }
  }

  lemma PermutedDistinct(a: seq<Host>, b: seq<Host>)
    requires DistinctIps(a) && multiset(a) == multiset(b)
    ensures DistinctIps(b)
  {
    forall i, j | 0 <= i < j < |b| ensures b[i].ip != b[j].ip {
      if b[i].ip == b[j].ip {
        assert b[i] in multiset(a) && b[j] in multiset(a);
        assert b[i] == b[j];
        Twice(b, i, j);
        OnceInDistinct(a, b[i]);
        assert false;
      }
    }
  }

  /** Sorting the hosts keeps what they record. */
  lemma SortedMerges(hosts: seq<Host>, tcp: seq<Host>, udp: seq<Host>)
    requires Merges(hosts, tcp, udp)
    ensures Merges(Sort(hosts, ByIp), tcp, udp) && Ordered(Sort(hosts, ByIp), ByIp)
  {
    hide Sort, ByPort;
    KeysAreOrders();
    SortOrders(hosts, ByIp);
    var sorted := Sort(hosts, ByIp);
    forall host ensures host in sorted <==> host in hosts {
      assert host in sorted <==> host in multiset(sorted);
      assert host in hosts <==> host in multiset(hosts);
    }
    PermutedDistinct(hosts, sorted);
    forall ip, ports ensures Records(sorted, ip, ports) <==> Records(hosts, ip, ports) {
      assert Records(sorted, ip, ports) <==> Host(ip, ports) in sorted;
    }
    forall ip ensures Knows(sorted, ip) <==> Knows(hosts, ip) {
      if Knows(sorted, ip) {
        var i :| 0 <= i < |sorted| && sorted[i].ip == ip;
        assert sorted[i] in hosts;
      }
      if Knows(hosts, ip) {
        var i :| 0 <= i < |hosts| && hosts[i].ip == ip;
        assert hosts[i] in sorted;
      }
    }
  }

  method MergeHosts(tcp: seq<Host>, udp: seq<Host>) returns (hosts: seq<Host>)
    requires DistinctIps(tcp) && DistinctIps(udp)
    ensures Merges(hosts, tcp, udp) && Ordered(hosts, ByIp)
  {
    hide Merges;
    hosts := tcp;
    var k := 0;
    NothingMerged(tcp);
    while k < |udp|
      invariant 0 <= k <= |udp| && DistinctIps(hosts)
      invariant Merges(hosts, tcp, udp[..k])
    {
      var host := udp[k];
      var i := FindHost(hosts, host.ip);
      ghost var before := hosts;
      if i < |hosts| {
        hosts := hosts[i := Host(hosts[i].ip, Sort(hosts[i].ports + host.ports, ByPort))];
      } else {
        hosts := hosts + [host];
      }
      MergeOne(before, hosts, tcp, udp, k, i);
      k := k + 1;
    }
    assert udp[..k] == udp;
    SortedMerges(hosts, tcp, udp);
    hosts := Sort(hosts, ByIp);
  }

  // ----- Main results -----

  predicate Ascending(addresses: seq<nat>) {
    forall i, j :: 0 <= i < j < |addresses| ==> addresses[i] < addresses[j]
  }

  /** No socket address was probed twice. */
  predicate Unrepeated(completed: seq<Observation>) {
    forall i, j :: 0 <= i < j < |completed| ==>
           completed[i].ip != completed[j].ip || completed[i].port != completed[j].port
  }

  /** The probes of one transport, on the given addresses. */
  predicate Probed(addresses: seq<nat>, completed: seq<Observation>, transport: Transport) {
    forall i :: 0 <= i < |completed| ==> completed[i].transport == transport && completed[i].ip in addresses
  }

  ghost predicate Probes(addresses: seq<nat>, completed: seq<Observation>, transport: Transport) {
    Unrepeated(completed) && Probed(addresses, completed, transport)
  }

  // ----- What is probed -----

  /** The socket addresses of one host, and of all hosts: `addresses × ports`, in scheduling order. */
  function Sockets(ip: nat, ports: seq<nat>): seq<(nat, nat)> {
    seq(|ports|, i requires 0 <= i < |ports| => (ip, ports[i]))
  }

  function Attempts(addresses: seq<nat>, ports: seq<nat>): seq<(nat, nat)> {
    if addresses == [] then []
    else Attempts(addresses[..|addresses| - 1], ports) + Sockets(addresses[|addresses| - 1], ports)
  }

  function SocketsOf(completed: seq<Observation>): seq<(nat, nat)> {
    seq(|completed|, i requires 0 <= i < |completed| => (completed[i].ip, completed[i].port))
  }

  /** Every attempt completes once, in any order. */
  ghost predicate Completes(addresses: seq<nat>, ports: seq<nat>, completed: seq<Observation>, transport: Transport) {
    && multiset(SocketsOf(completed)) == multiset(Attempts(addresses, ports))
    && forall i :: 0 <= i < |completed| ==> completed[i].transport == transport
  }

  predicate NoRepeats(s: seq<nat>) {
    forall i, j :: 0 <= i < j < |s| ==> s[i] != s[j]
  }

  lemma {:induction false} SocketCount(ip: nat, ports: seq<nat>, a: nat, p: nat)
    requires NoRepeats(ports)
    ensures multiset(Sockets(ip, ports))[(a, p)] == if a == ip && p in ports then 1 else 0
  {
    if ports != [] {
      var front, last := ports[..|ports| - 1], ports[|ports| - 1];
      SocketCount(ip, front, a, p);
      assert ports == front + [last] && Sockets(ip, ports) == Sockets(ip, front) + [(ip, last)];
      if p == last {
        assert p !in front;
      }
    }
  }

  lemma {:induction false} AttemptCount(addresses: seq<nat>, ports: seq<nat>, a: nat, p: nat)
    requires NoRepeats(addresses) && NoRepeats(ports)
    ensures multiset(Attempts(addresses, ports))[(a, p)] == if a in addresses && p in ports then 1 else 0
  {
    hide Sockets;
    if addresses != [] {
      var front, last := addresses[..|addresses| - 1], addresses[|addresses| - 1];
      AttemptCount(front, ports, a, p);
      SocketCount(last, ports, a, p);
      assert addresses == front + [last];
      if a == last {
        assert a !in front;
      }
    }
  }

  /** From a port list without repetitions every socket address is probed once. */
  lemma ScheduledProbes(addresses: seq<nat>, ports: seq<nat>, completed: seq<Observation>, transport: Transport)
    requires Ascending(addresses) && NoRepeats(ports) && Completes(addresses, ports, completed, transport)
    ensures Probes(addresses, completed, transport)
  {
    var sockets := SocketsOf(completed);
    forall i, j | 0 <= i < j < |completed|
      ensures completed[i].ip != completed[j].ip || completed[i].port != completed[j].port
    {
      if sockets[i] == sockets[j] {
        Twice(sockets, i, j);
        AttemptCount(addresses, ports, sockets[i].0, sockets[i].1);
      }
    }
    forall i | 0 <= i < |completed| ensures completed[i].ip in addresses {
      assert sockets[i] in multiset(sockets);
      AttemptCount(addresses, ports, sockets[i].0, sockets[i].1);
    }
  }

  lemma UnrepeatedIsDistinct(completed: seq<Observation>)
    requires Unrepeated(completed)
    ensures DistinctKeys(completed, ByAddress)
    ensures forall i, j :: 0 <= i < j < |completed| ==> completed[i] != completed[j]
  {
    forall i, j | 0 <= i < |completed| && 0 <= j < |completed|
      && ByAddress(completed[i], completed[j]) && ByAddress(completed[j], completed[i])
      ensures completed[i] == completed[j]
    {
      assert i < j || j < i || i == j;
    }
  }

  /** The order in which the probes complete does not matter. */
  lemma CompletionOrderIsIrrelevant(addresses: seq<nat>, first: seq<Observation>, second: seq<Observation>)
    requires DistinctKeys(first, ByAddress) && multiset(first) == multiset(second)
    ensures ScanPorts(addresses, first) == ScanPorts(addresses, second)
  {
    KeysAreOrders();
    SortOfPermutation(first, second, ByAddress);
  }

  /** For a port list without repetitions every schedule gives the same scan. */
  lemma ScheduleIsIrrelevant(addresses: seq<nat>, ports: seq<nat>, first: seq<Observation>, second: seq<Observation>,
                             transport: Transport)
    requires Ascending(addresses) && NoRepeats(ports) && Completes(addresses, ports, first, transport)
    requires multiset(first) == multiset(second)
    ensures ScanPorts(addresses, first) == ScanPorts(addresses, second)
  {
    ScheduledProbes(addresses, ports, first, transport);
    UnrepeatedIsDistinct(first);
    CompletionOrderIsIrrelevant(addresses, first, second);
  }

  // ----- When the order matters -----

  function AtSocket(observations: seq<Observation>, ip: nat, port: nat): seq<Observation> {
    if observations == [] then []
    else
      var last := observations[|observations| - 1];
      AtSocket(observations[..|observations| - 1], ip, port) +
        (if last.ip == ip && last.port == port then [last] else [])
  }

  lemma {:induction false} AtSocketJoins(a: seq<Observation>, b: seq<Observation>, ip: nat, port: nat)
    ensures AtSocket(a + b, ip, port) == AtSocket(a, ip, port) + AtSocket(b, ip, port)
  {
    if b == [] {
      assert a + b == a;
    } else {
      AtSocketJoins(a, b[..|b| - 1], ip, port);
      assert (a + b)[..|a + b| - 1] == a + b[..|b| - 1];
    }
  }

  lemma OneAtSocket(x: Observation, ip: nat, port: nat)
    ensures AtSocket([x], ip, port) == if x.ip == ip && x.port == port then [x] else []
  {
    assert [x][..0] == [];
  }

  lemma NotBelowIsElsewhere(a: Observation, b: Observation)
    requires !ByAddress(a, b)
    ensures a.ip != b.ip || a.port != b.port
  {
  }

  lemma {:induction false} InsertKeepsSocket(s: seq<Observation>, x: Observation, ip: nat, port: nat)
    ensures AtSocket(Insert(s, x, ByAddress), ip, port) == AtSocket(s, ip, port) + AtSocket([x], ip, port)
  {
    hide AtSocket, ByAddress;
    AtSocketJoins(s, [x], ip, port);
    if s != [] && !ByAddress(s[|s| - 1], x) {
      var front, last := s[..|s| - 1], s[|s| - 1];
      InsertKeepsSocket(front, x, ip, port);
      AtSocketJoins(Insert(front, x, ByAddress), [last], ip, port);
      AtSocketJoins(front, [last], ip, port);
      OneAtSocket(x, ip, port);
      OneAtSocket(last, ip, port);
      NotBelowIsElsewhere(last, x);
      assert s == front + [last];
    }
  }

  /** The sort is stable: observations of one socket stay in the order in which they completed. */
  lemma {:induction false} SortKeepsSocket(s: seq<Observation>, ip: nat, port: nat)
    ensures AtSocket(Sort(s, ByAddress), ip, port) == AtSocket(s, ip, port)
  {
    hide AtSocket, ByAddress, Insert;
    if s != [] {
      var front, last := s[..|s| - 1], s[|s| - 1];
      SortKeepsSocket(front, ip, port);
      InsertKeepsSocket(Sort(front, ByAddress), last, ip, port);
      AtSocketJoins(Sort(front, ByAddress), [last], ip, port);
      AtSocketJoins(front, [last], ip, port);
      assert s == front + [last];
    }
  }

  lemma {:induction false} HostKeepsSocket(s: seq<Observation>, ip: nat, port: nat)
    ensures AtSocket(AtIp(s, ip), ip, port) == AtSocket(s, ip, port)
  {
    if s != [] {
      var front, last := s[..|s| - 1], s[|s| - 1];
      HostKeepsSocket(front, ip, port);
      AtSocketJoins(AtIp(front, ip), if last.ip == ip then [last] else [], ip, port);
      assert [last][..0] == [];
    }
  }

  /** A host entry keeps the results of a socket in their order of completion. */
  lemma ScanKeepsSocket(addresses: seq<nat>, s: seq<Observation>, k: nat, port: nat)
    requires k < |addresses|
    ensures AtSocket(ScanPorts(addresses, s)[k].ports, addresses[k], port) == AtSocket(s, addresses[k], port)
  {
    hide AtSocket, Sort;
    HostKeepsSocket(Sort(s, ByAddress), addresses[k], port);
    SortKeepsSocket(s, addresses[k], port);
  }

  lemma TwoAtSocket(x: Observation, y: Observation, rest: seq<Observation>)
    requires x.ip == y.ip && x.port == y.port
    ensures AtSocket([x, y] + rest, x.ip, x.port) == [x, y] + AtSocket(rest, x.ip, x.port)
  {
    hide AtSocket;
    AtSocketJoins([x, y], rest, x.ip, x.port);
    AtSocketJoins([x], [y], x.ip, x.port);
    OneAtSocket(x, x.ip, x.port);
    OneAtSocket(y, x.ip, x.port);
    assert [x] + [y] == [x, y];
  }

  /** Two results of one socket that complete in either order give different scans. */
  lemma SwappedResultsDiffer(addresses: seq<nat>, x: Observation, y: Observation, rest: seq<Observation>)
    requires x != y && x.ip == y.ip && x.ip in addresses && x.port == y.port
    ensures ScanPorts(addresses, [x, y] + rest) != ScanPorts(addresses, [y, x] + rest)
  {
    hide ScanPorts, AtSocket;
    var k :| 0 <= k < |addresses| && addresses[k] == x.ip;
    ScanKeepsSocket(addresses, [x, y] + rest, k, x.port);
    ScanKeepsSocket(addresses, [y, x] + rest, k, x.port);
    TwoAtSocket(x, y, rest);
    TwoAtSocket(y, x, rest);
    var tail := AtSocket(rest, x.ip, x.port);
    assert ([x, y] + tail)[0] == x && ([y, x] + tail)[0] == y;
  }

  lemma WithoutTwo(s: seq<Observation>, i: nat, j: nat) returns (rest: seq<Observation>)
    requires i < j < |s|
    ensures multiset([s[i], s[j]] + rest) == multiset(s)
  {
    var a, b, c := s[..i], s[i + 1..j], s[j + 1..];
    rest := a + b + c;
    assert s == a + ([s[i]] + (b + ([s[j]] + c)));
    assert [s[i], s[j]] == [s[i]] + [s[j]];
  }

  /** A socket with two results has completion orders that give different scans. */
  lemma OrderMatters(addresses: seq<nat>, completed: seq<Observation>, i: nat, j: nat)
    requires i < j < |completed| && completed[i] != completed[j] && completed[i].ip in addresses
    requires completed[i].ip == completed[j].ip && completed[i].port == completed[j].port
    ensures exists other ::
              && multiset(other) == multiset(completed)
              && ScanPorts(addresses, other) != ScanPorts(addresses, completed)
  {
    hide ScanPorts;
    var x, y := completed[i], completed[j];
    var rest := WithoutTwo(completed, i, j);
    SwappedResultsDiffer(addresses, x, y, rest);
    var one, two := [x, y] + rest, [y, x] + rest;
    assert multiset([x, y]) == multiset([y, x]);
    assert multiset(one) == multiset(completed) && multiset(two) == multiset(completed);
    assert ScanPorts(addresses, one) != ScanPorts(addresses, completed) ||
           ScanPorts(addresses, two) != ScanPorts(addresses, completed);
  }

  lemma IndistinctSocket(completed: seq<Observation>) returns (i: nat, j: nat)
    requires !DistinctKeys(completed, ByAddress)
    ensures i < j < |completed| && completed[i] != completed[j]
    ensures completed[i].ip == completed[j].ip && completed[i].port == completed[j].port
  {
    var a, b :| 0 <= a < |completed| && 0 <= b < |completed|
      && ByAddress(completed[a], completed[b]) && ByAddress(completed[b], completed[a]) && completed[a] != completed[b];
    i, j := if a < b then a else b, if a < b then b else a;
  }

  /** The completion order is irrelevant exactly when no socket has two different results. */
  lemma OrderIsIrrelevantExactly(addresses: seq<nat>, completed: seq<Observation>)
    requires forall i :: 0 <= i < |completed| ==> completed[i].ip in addresses
    ensures DistinctKeys(completed, ByAddress) <==>
      forall other :: multiset(other) == multiset(completed) ==>
             ScanPorts(addresses, other) == ScanPorts(addresses, completed)
  {
    hide ScanPorts, DistinctKeys;
    if DistinctKeys(completed, ByAddress) {
      forall other | multiset(other) == multiset(completed)
        ensures ScanPorts(addresses, other) == ScanPorts(addresses, completed)
      {
        CompletionOrderIsIrrelevant(addresses, completed, other);
      }
    } else {
      var i, j := IndistinctSocket(completed);
      OrderMatters(addresses, completed, i, j);
    }
  }

  // ----- The hosts of a scan -----

  lemma {:induction false} CountAtIp(observations: seq<Observation>, ip: nat, o: Observation)
    ensures multiset(AtIp(observations, ip))[o] == if o.ip == ip then multiset(observations)[o] else 0
  {
    if observations != [] {
      var front, last := observations[..|observations| - 1], observations[|observations| - 1];
      CountAtIp(front, ip, o);
      assert observations == front + [last];
    }
  }

  /** The host entry of a scan holds exactly the probes of its address. */
  lemma ScanHolds(addresses: seq<nat>, completed: seq<Observation>, i: nat, o: Observation)
    requires i < |addresses|
    ensures multiset(ScanPorts(addresses, completed)[i].ports)[o] ==
            if o.ip == addresses[i] then multiset(completed)[o] else 0
  {
    KeysAreOrders();
    SortOrders(completed, ByAddress);
    CountAtIp(Sort(completed, ByAddress), addresses[i], o);
  }

  lemma ScanIsDistinct(addresses: seq<nat>, completed: seq<Observation>)
    requires Ascending(addresses)
    ensures DistinctIps(ScanPorts(addresses, completed))
    ensures forall ip :: Knows(ScanPorts(addresses, completed), ip) <==> ip in addresses
  {
    var hosts := ScanPorts(addresses, completed);
    forall ip ensures Knows(hosts, ip) <==> ip in addresses {
      if ip in addresses {
        var i :| 0 <= i < |addresses| && addresses[i] == ip;
        assert hosts[i].ip == ip;
      }
    }
  }

  lemma NothingIn(a: seq<nat>)
    ensures a == [] <==> forall x :: x !in a
  {
    if a != [] {
      assert a[0] in a;
    }
  }

  lemma WithoutLast(a: seq<nat>)
    requires Ascending(a) && a != []
    ensures forall x :: x in a[..|a| - 1] <==> x in a && x != a[|a| - 1]
    ensures forall x :: x in a ==> x <= a[|a| - 1]
  {
    assert a == a[..|a| - 1] + [a[|a| - 1]];
  }

  lemma {:induction false} AscendingUnique(a: seq<nat>, b: seq<nat>)
    requires Ascending(a) && Ascending(b)
    requires forall x :: x in a <==> x in b
    ensures a == b
  {
    if a == [] || b == [] {
      assert a == [] <==> b == [] by { NothingIn(a); NothingIn(b); }
    } else {
      var x, y := a[|a| - 1], b[|b| - 1];
      assert x in a && y in b;
      WithoutLast(a);
      WithoutLast(b);
      assert x == y;
      var front, rest := a[..|a| - 1], b[..|b| - 1];
      forall z ensures z in front <==> z in rest {
        assert z in a <==> z in b;
      }
      AscendingUnique(front, rest);
    }
  }

  /** Hosts in ascending order with the given addresses are the addresses, one by one. */
  lemma HostsAreAddresses(hosts: seq<Host>, addresses: seq<nat>)
    requires Ascending(addresses) && DistinctIps(hosts) && Ordered(hosts, ByIp)
    requires forall ip :: Knows(hosts, ip) <==> ip in addresses
    ensures |hosts| == |addresses| && forall i :: 0 <= i < |hosts| ==> hosts[i].ip == addresses[i]
  {
    var ips := seq(|hosts|, i requires 0 <= i < |hosts| => hosts[i].ip);
    assert forall i, j :: 0 <= i < j < |ips| ==> ips[i] < ips[j] by {
      forall i, j | 0 <= i < j < |ips| ensures ips[i] < ips[j] { assert ByIp(hosts[i], hosts[j]); }
    }
    forall ip ensures ip in ips <==> ip in addresses {
      if ip in ips {
        var i :| 0 <= i < |ips| && ips[i] == ip;
        assert hosts[i].ip == ip;
        assert Knows(hosts, ip);
      }
      if ip in addresses {
        var i :| 0 <= i < |hosts| && hosts[i].ip == ip;
        assert ips[i] == ip;
      }
    }
    AscendingUnique(ips, addresses);
  }

  lemma MergedAddresses(addresses: seq<nat>, tcp: seq<Observation>, udp: seq<Observation>, hosts: seq<Host>)
    requires Ascending(addresses)
    requires Merges(hosts, ScanPorts(addresses, tcp), ScanPorts(addresses, udp)) && Ordered(hosts, ByIp)
    ensures |hosts| == |addresses| && forall i :: 0 <= i < |hosts| ==> hosts[i].ip == addresses[i]
  {
    hide ScanPorts;
    ScanIsDistinct(addresses, tcp);
    ScanIsDistinct(addresses, udp);
    HostsAreAddresses(hosts, addresses);
  }

  lemma MergedHost(addresses: seq<nat>, tcp: seq<Observation>, udp: seq<Observation>, hosts: seq<Host>, i: nat)
    requires Merges(hosts, ScanPorts(addresses, tcp), ScanPorts(addresses, udp))
    requires i < |addresses| == |hosts| && hosts[i].ip == addresses[i]
    ensures Ordered(hosts[i].ports, ByPort)
    ensures forall o :: multiset(hosts[i].ports)[o] ==
              if o.ip == addresses[i] then multiset(tcp)[o] + multiset(udp)[o] else 0
  {
    var a, b := ScanPorts(addresses, tcp)[i].ports, ScanPorts(addresses, udp)[i].ports;
    assert ScanPorts(addresses, tcp)[i] == Host(addresses[i], a);
    assert ScanPorts(addresses, udp)[i] == Host(addresses[i], b);
    assert Records(ScanPorts(addresses, tcp), addresses[i], a);
    assert Records(ScanPorts(addresses, udp), addresses[i], b);
    hide ScanPorts, Sort;
    assert Records(hosts, addresses[i], Sort(a + b, ByPort));
    assert hosts[i].ports == Sort(a + b, ByPort);
    KeysAreOrders();
    SortOrders(a + b, ByPort);
    forall o
      ensures multiset(hosts[i].ports)[o] ==
              if o.ip == addresses[i] then multiset(tcp)[o] + multiset(udp)[o] else 0
    {
      ScanHolds(addresses, tcp, i, o);
      ScanHolds(addresses, udp, i, o);
      assert multiset(a + b)[o] == multiset(a)[o] + multiset(b)[o];
    }
  }

  lemma FromProbes(addresses: seq<nat>, tcp: seq<Observation>, udp: seq<Observation>, o: Observation)
    requires Probes(addresses, tcp, Tcp) && Probes(addresses, udp, Udp)
    requires multiset(tcp)[o] + multiset(udp)[o] > 0
    ensures if o.transport.Tcp? then o in tcp && o !in udp else o in udp && o !in tcp
  {
    assert o in tcp <==> o in multiset(tcp);
    assert o in udp <==> o in multiset(udp);
  }

  lemma {:induction false} NeverRepeated(s: seq<Observation>, o: Observation)
    requires forall i, j :: 0 <= i < j < |s| ==> s[i] != s[j]
    ensures multiset(s)[o] <= 1
  {
    if s != [] {
      var front, last := s[..|s| - 1], s[|s| - 1];
      NeverRepeated(front, o);
      assert s == front + [last];
      if o == last {
        assert o !in front;
        assert multiset(front)[o] == 0;
      }
    }
  }

  /** Probes of one address that are never repeated have different ports or transports. */
  lemma PortsAreDistinct(ip: nat, addresses: seq<nat>, tcp: seq<Observation>, udp: seq<Observation>,
                         ports: seq<Observation>)
    requires Probes(addresses, tcp, Tcp) && Probes(addresses, udp, Udp)
    requires Ordered(ports, ByPort)
    requires forall o :: multiset(ports)[o] == if o.ip == ip then multiset(tcp)[o] + multiset(udp)[o] else 0
    ensures StrictlyByPort(ports)
  {
    UnrepeatedIsDistinct(tcp);
    UnrepeatedIsDistinct(udp);
    forall j, k | 0 <= j < k < |ports|
      ensures ByPort(ports[j], ports[k]) && !ByPort(ports[k], ports[j])
    {
      if ByPort(ports[k], ports[j]) {
        var x, y := ports[j], ports[k];
        assert x in multiset(ports) && y in multiset(ports);
        FromProbes(addresses, tcp, udp, x);
        FromProbes(addresses, tcp, udp, y);
        assert x == y;
        Twice(ports, j, k);
        NeverRepeated(tcp, x);
        NeverRepeated(udp, x);
      }
    }
  }

  /** In strictly ascending ports there is one observation per port and transport. */
  lemma StrictHasOne(ports: seq<Observation>, x: Observation, y: Observation)
    requires StrictlyByPort(ports) && x.port == y.port && x.transport == y.transport
    ensures multiset(ports)[x] <= 1
    ensures x in multiset(ports) && y in multiset(ports) ==> x == y
  {
    forall i, j | 0 <= i < j < |ports| ensures ports[i] != ports[j] {
    }
    NeverRepeated(ports, x);
    if x in multiset(ports) && y in multiset(ports) {
      var i :| 0 <= i < |ports| && ports[i] == x;
      var j :| 0 <= j < |ports| && ports[j] == y;
      assert i < j || j < i || i == j;
    }
  }

  /** Strictly ascending ports leave no room for a socket that was probed twice. */
  lemma StrictIsUnrepeated(addresses: seq<nat>, completed: seq<Observation>, transport: Transport, hosts: seq<Host>)
    requires |hosts| == |addresses| && forall i :: 0 <= i < |hosts| ==> StrictlyByPort(hosts[i].ports)
    requires Probed(addresses, completed, transport)
    requires forall i, o: Observation :: 0 <= i < |hosts| && o.ip == addresses[i] ==>
             multiset(hosts[i].ports)[o] >= multiset(completed)[o]
    ensures Unrepeated(completed)
  {
    forall i, j | 0 <= i < j < |completed|
      ensures completed[i].ip != completed[j].ip || completed[i].port != completed[j].port
    {
      var x, y := completed[i], completed[j];
      if x.ip == y.ip && x.port == y.port {
        var k :| 0 <= k < |addresses| && addresses[k] == x.ip;
        assert x in multiset(completed) && y in multiset(completed);
        if x == y {
          Twice(completed, i, j);
        }
        StrictHasOne(hosts[k].ports, x, y);
      }
    }
  }

  /** The merged ports ascend strictly exactly when no socket address was probed twice. */
  lemma MergedStrictly(addresses: seq<nat>, tcp: seq<Observation>, udp: seq<Observation>, hosts: seq<Host>)
    requires |hosts| == |addresses| && Probed(addresses, tcp, Tcp) && Probed(addresses, udp, Udp)
    requires forall i :: 0 <= i < |hosts| ==> Ordered(hosts[i].ports, ByPort)
    requires forall i, o :: 0 <= i < |hosts| ==>
               multiset(hosts[i].ports)[o] ==
               if o.ip == addresses[i] then multiset(tcp)[o] + multiset(udp)[o] else 0
    ensures (forall i :: 0 <= i < |hosts| ==> StrictlyByPort(hosts[i].ports)) <==> Unrepeated(tcp) && Unrepeated(udp)
  {
    hide Probed, Unrepeated, StrictlyByPort, Ordered;
    if Unrepeated(tcp) && Unrepeated(udp) {
      forall i | 0 <= i < |hosts| ensures StrictlyByPort(hosts[i].ports) {
        PortsAreDistinct(addresses[i], addresses, tcp, udp, hosts[i].ports);
      }
    }
    if forall i :: 0 <= i < |hosts| ==> StrictlyByPort(hosts[i].ports) {
      StrictIsUnrepeated(addresses, tcp, Tcp, hosts);
      StrictIsUnrepeated(addresses, udp, Udp, hosts);
    }
  }

  /** The merged result: one host per address in order, each with exactly the TCP and UDP probes of
      that address, none lost or doubled, ports ascending; strictly so by number and transport
      exactly when no socket address was probed twice. */
  lemma MergedExactly(addresses: seq<nat>, tcp: seq<Observation>, udp: seq<Observation>, hosts: seq<Host>)
    requires Ascending(addresses)
    requires Probed(addresses, tcp, Tcp) && Probed(addresses, udp, Udp)
    requires Merges(hosts, ScanPorts(addresses, tcp), ScanPorts(addresses, udp)) && Ordered(hosts, ByIp)
    ensures |hosts| == |addresses| && forall i :: 0 <= i < |hosts| ==> hosts[i].ip == addresses[i]
    ensures forall i, o :: 0 <= i < |hosts| ==>
              multiset(hosts[i].ports)[o] ==
              if o.ip == addresses[i] then multiset(tcp)[o] + multiset(udp)[o] else 0
    ensures forall i :: 0 <= i < |hosts| ==> Ordered(hosts[i].ports, ByPort)
    ensures (forall i :: 0 <= i < |hosts| ==> StrictlyByPort(hosts[i].ports)) <==> Unrepeated(tcp) && Unrepeated(udp)
  {
    hide ScanPorts, Probed, Unrepeated, StrictlyByPort, Sort, Ordered, Merges, DistinctIps, Knows;
    MergedAddresses(addresses, tcp, udp, hosts);
    forall i | 0 <= i < |hosts|
      ensures Ordered(hosts[i].ports, ByPort)
      ensures forall o :: multiset(hosts[i].ports)[o] ==
                if o.ip == addresses[i] then multiset(tcp)[o] + multiset(udp)[o] else 0
    {
      MergedHost(addresses, tcp, udp, hosts, i);
    }
    MergedStrictly(addresses, tcp, udp, hosts);
  }

  /** From port lists without repetitions the merged ports ascend strictly. */
  lemma ScheduledMerge(addresses: seq<nat>, tcpPorts: seq<nat>, udpPorts: seq<nat>, tcp: seq<Observation>,
                       udp: seq<Observation>, hosts: seq<Host>)
    requires Ascending(addresses) && NoRepeats(tcpPorts) && NoRepeats(udpPorts)
    requires Completes(addresses, tcpPorts, tcp, Tcp) && Completes(addresses, udpPorts, udp, Udp)
    requires Merges(hosts, ScanPorts(addresses, tcp), ScanPorts(addresses, udp)) && Ordered(hosts, ByIp)
    ensures forall i :: 0 <= i < |hosts| ==> StrictlyByPort(hosts[i].ports)
  {
    hide ScanPorts, StrictlyByPort, Merges, Completes;
    ScheduledProbes(addresses, tcpPorts, tcp, Tcp);
    ScheduledProbes(addresses, udpPorts, udp, Udp);
    MergedExactly(addresses, tcp, udp, hosts);
  }

  predicate StrictlyByPort(ports: seq<Observation>) {
    forall j, k :: 0 <= j < k < |ports| ==> ByPort(ports[j], ports[k]) && !ByPort(ports[k], ports[j])
  }
}
