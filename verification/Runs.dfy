/** Concrete runs of single objects, each with a cooperating kernel where nothing else is said. */
module Runs {
  import opened Addresses
  import opened Kernel
  import opened SocketSpec
  import opened World
  import opened Ownership

  /** The kernel offers a number, connects (or not), picks a name and tells it. */
  function Dials(newFd: int, ok: bool, name: string): ConnectAnswer {
    ConnectAnswer(newFd, ok, name, true)
  }

  lemma RunSingle(op: Op)
    ensures Reached({}, [op]) == Step(Start({}), op)
  {
    assert [] + [op] == [op];
    RunOne(Start({}), [], op);
    hide Step;
  }

  lemma RunTwo(op0: Op, op1: Op)
    ensures Reached({}, [op0, op1]) == Step(Step(Start({}), op0), op1)
  {
    RunSingle(op0);
    assert [op0] + [op1] == [op0, op1];
    RunOne(Start({}), [op0], op1);
    hide Step;
  }

  lemma RunFour(op0: Op, op1: Op, op2: Op, op3: Op)
    ensures Reached({}, [op0, op1, op2, op3]) == Step(Step(Step(Step(Start({}), op0), op1), op2), op3)
  {
    RunTwo(op0, op1);
    assert [op0, op1] + [op2] == [op0, op1, op2] && [op0, op1, op2] + [op3] == [op0, op1, op2, op3];
    RunOne(Start({}), [op0, op1], op2);
    RunOne(Start({}), [op0, op1, op2], op3);
    hide Step;
  }

  /** The world in which object 0 has been made with this family and connected to `peer` as descriptor 3. */
  lemma FirstConnect(family: int, peer: Address, name: string)
    requires family != AF_UNIX && Family(peer) == family
    ensures var w := Step(Step(Start({}), DoCreate(family, SOCK_STREAM)),
                          DoConnect(0, peer, NO_TIMEOUT, Dials(3, true, name)));
            && 0 in w.socks && w.nextId == 2
            && w.socks[0] == Sock(3, family, SOCK_STREAM, true, Some(Wrap(family, name)), Some(peer))
            && w.k.open == map[3 := 0]
            && w.k.gens == [Gen(family, SOCK_STREAM, true, false, name, false, Some(peer.data))]
  {
    var w1 := Step(Start({}), DoCreate(family, SOCK_STREAM));
    assert w1.socks[0] == Fresh(family, SOCK_STREAM) && w1.k == Boot({});
    hide Wrap, Family;
  }

  /** An IPv6 object connects to an IPv6 address: the families match, and both caches hold IPv6 addresses. */
  lemma Ipv6Run(peer: string, name: string)
    ensures var w := Reached({}, [DoCreate(AF_INET6, SOCK_STREAM),
                                  DoConnect(0, IPv6Address(peer), NO_TIMEOUT, Dials(3, true, name))]);
            0 in w.socks &&
            w.socks[0] == Sock(3, AF_INET6, SOCK_STREAM, true, Some(IPv6Address(name)), Some(IPv6Address(peer)))
  {
    RunTwo(DoCreate(AF_INET6, SOCK_STREAM), DoConnect(0, IPv6Address(peer), NO_TIMEOUT, Dials(3, true, name)));
    FirstConnect(AF_INET6, IPv6Address(peer), name);
  }

  /** So does an IPv4 object to an IPv4 address, and not to an IPv6 one. */
  lemma Ipv4Run(peer: string, name: string, v6: bool)
    ensures var addr := if v6 then IPv6Address(peer) else IPv4Address(peer);
            var w := Reached({}, [DoCreate(AF_INET, SOCK_STREAM),
                                  DoConnect(0, addr, NO_TIMEOUT, Dials(3, true, name))]);
            0 in w.socks &&
            w.socks[0] == if v6 then Sock(3, AF_INET, SOCK_STREAM, false, None, Some(addr))
                          else Sock(3, AF_INET, SOCK_STREAM, true, Some(IPv4Address(name)), Some(addr))
  {
    var addr := if v6 then IPv6Address(peer) else IPv4Address(peer);
    RunTwo(DoCreate(AF_INET, SOCK_STREAM), DoConnect(0, addr, NO_TIMEOUT, Dials(3, true, name)));
    var w1 := Step(Start({}), DoCreate(AF_INET, SOCK_STREAM));
    assert w1.socks[0] == Fresh(AF_INET, SOCK_STREAM) && w1.k == Boot({});
    hide Reached;
  }

  /** A closed object reconnects: it makes a new descriptor, connects to the remembered peer and looks its new name
      up. */
  lemma ReconnectRun(peer: string, first: string, second: string)
    ensures var w := Reached({}, [DoCreate(AF_INET, SOCK_STREAM),
                                  DoConnect(0, IPv4Address(peer), NO_TIMEOUT, Dials(3, true, first)),
                                  DoClose(0),
                                  DoReconnect(0, NO_TIMEOUT, Dials(5, true, second))]);
            && 0 in w.socks && w.k.open == map[5 := 1]
            && w.socks[0] == Sock(5, AF_INET, SOCK_STREAM, true, Some(IPv4Address(second)), Some(IPv4Address(peer)))
  {
    var o0 := DoCreate(AF_INET, SOCK_STREAM);
    var o1 := DoConnect(0, IPv4Address(peer), NO_TIMEOUT, Dials(3, true, first));
    var o2, o3 := DoClose(0), DoReconnect(0, NO_TIMEOUT, Dials(5, true, second));
    RunFour(o0, o1, o2, o3);
    FirstConnect(AF_INET, IPv4Address(peer), first);
    var w2 := Step(Step(Start({}), o0), o1);
    hide Reached, Step;
    ClosedThenReconnects(w2, peer, first, second);
  }

  lemma ClosedThenReconnects(w: World, peer: string, first: string, second: string)
    requires 0 in w.socks && w.k.open == map[3 := 0] && |w.k.gens| == 1
    requires w.socks[0] == Sock(3, AF_INET, SOCK_STREAM, true, Some(IPv4Address(first)), Some(IPv4Address(peer)))
    ensures var w' := Step(Step(w, DoClose(0)), DoReconnect(0, NO_TIMEOUT, Dials(5, true, second)));
            && 0 in w'.socks && w'.k.open == map[5 := 1]
            && w'.socks[0] == Sock(5, AF_INET, SOCK_STREAM, true, Some(IPv4Address(second)), Some(IPv4Address(peer)))
  {
    var w1 := Step(w, DoClose(0));
    assert w1.socks[0] == Sock(-1, AF_INET, SOCK_STREAM, false, Some(IPv4Address(first)), Some(IPv4Address(peer)));
    assert w1.k.open == map[] && |w1.k.gens| == 1;
  }

  /** A connect that the kernel refuses: with the default time limit the new descriptor stays, with any other the object
      ends closed. */
  lemma RefusedConnectRun(peer: string, timeout: uint64)
    ensures var w := Reached({}, [DoCreate(AF_INET, SOCK_STREAM),
                                  DoConnect(0, IPv4Address(peer), timeout, Dials(3, false, ""))]);
            var kept := timeout == 0xFFFF_FFFF_FFFF_FFFF;
            && 0 in w.socks
            && w.socks[0] == Sock(if kept then 3 else -1, AF_INET, SOCK_STREAM, false, None, Some(IPv4Address(peer)))
            && w.k.open == if kept then map[3 := 0] else map[]
  {
    RunTwo(DoCreate(AF_INET, SOCK_STREAM), DoConnect(0, IPv4Address(peer), timeout, Dials(3, false, "")));
    var w1 := Step(Start({}), DoCreate(AF_INET, SOCK_STREAM));
    assert w1.socks[0] == Fresh(AF_INET, SOCK_STREAM) && w1.k == Boot({});
    hide Reached;
  }

  /** What a plain UDP factory makes of an empty world. */
  lemma FirstUdp(v6: bool, newFd: int)
    requires newFd == -1 || newFd == 3
    ensures var w := Step(Start({}), DoCreateUdp(v6, newFd));
            && 0 in w.socks && w.k.open == (if newFd == 3 then map[3 := 0] else map[])
            && (newFd == 3 ==>
                  w.k.gens == [Gen(if v6 then AF_INET6 else AF_INET, SOCK_DGRAM, true, false, "", false, None)])
            && w.socks[0] == Sock(newFd, if v6 then AF_INET6 else AF_INET, SOCK_DGRAM, true, None, None)
  {}

  /** The odd state exists: a plain UDP factory, of either family, whose socket(2) fails leaves an object that is
      connected without a descriptor, whose sends return -1, and whose close returns false. */
  lemma OddStateRun(v6: bool)
    ensures var w := Reached({}, [DoCreateUdp(v6, -1)]);
            && 0 in w.socks && w.k.open == map[]
            && w.socks[0] == Sock(-1, if v6 then AF_INET6 else AF_INET, SOCK_DGRAM, true, None, None)
            && !Close(0, w.socks[0], w.k).ok
            && Transfer(0, w.socks[0], w.k, "", 5).1 == -1
  {
    RunSingle(DoCreateUdp(v6, -1));
    FirstUdp(v6, -1);
    hide Reached, Step, SysClose;
  }

  /** And with a working socket(2) the object can send at once. */
  lemma UdpRun(v6: bool, count: int)
    ensures var w := Reached({}, [DoCreateUdp(v6, 3)]);
            && 0 in w.socks && w.k.open == map[3 := 0]
            && w.socks[0] == Sock(3, if v6 then AF_INET6 else AF_INET, SOCK_DGRAM, true, None, None)
            && Close(0, w.socks[0], w.k).ok
            && Transfer(0, w.socks[0], w.k, "", count).1 == count
  {
    RunSingle(DoCreateUdp(v6, 3));
    FirstUdp(v6, 3);
    hide Reached, Step, SysClose;
  }
}
