/** Four runs that end with a wrong local address in the cache. */
module StaleRuns {
  import opened Addresses
  import opened Kernel
  import opened SocketSpec
  import opened World
  import opened Ownership
  import opened Agreement
  import opened Runs

  lemma RunThree(op0: Op, op1: Op, op2: Op)
    ensures Reached({}, [op0, op1, op2]) == Step(Step(Step(Start({}), op0), op1), op2)
  {
    RunTwo(op0, op1);
    assert [op0, op1] + [op2] == [op0, op1, op2];
    RunOne(Start({}), [op0, op1], op2);
    hide Step;
  }

  /** Connect, close, connect, with two kernel-chosen names: the first one stays. */
  lemma StaleLocalAddressRun()
    ensures var peer := IPv4Address("peer");
            var w := Reached({}, [DoCreate(AF_INET, SOCK_STREAM),
                                  DoConnect(0, peer, NO_TIMEOUT, Dials(3, true, "first")),
                                  DoClose(0),
                                  DoConnect(0, peer, NO_TIMEOUT, Dials(3, true, "second"))]);
            && 0 in w.socks && w.socks[0].connected
            && w.socks[0].local == Some(IPv4Address("first"))
            && PresentName(w.socks[0], w.k) == Some(IPv4Address("second"))
  {
    var peer := IPv4Address("peer");
    var o0, o1 := DoCreate(AF_INET, SOCK_STREAM), DoConnect(0, peer, NO_TIMEOUT, Dials(3, true, "first"));
    RunFour(o0, o1, DoClose(0), DoConnect(0, peer, NO_TIMEOUT, Dials(3, true, "second")));
    FirstConnect(AF_INET, peer, "first");
    hide Reached, Step, PresentName;
    ClosedThenConnects(Step(Step(Start({}), o0), o1), "peer", "first", "second");
  }

  lemma ClosedThenConnects(w: World, peer: string, first: string, second: string)
    requires 0 in w.socks && w.k.open == map[3 := 0] && |w.k.gens| == 1
    requires w.socks[0] == Sock(3, AF_INET, SOCK_STREAM, true, Some(IPv4Address(first)), Some(IPv4Address(peer)))
    ensures var w' := Step(Step(w, DoClose(0)),
                           DoConnect(0, IPv4Address(peer), NO_TIMEOUT, Dials(3, true, second)));
            && 0 in w'.socks && w'.socks[0].connected && w'.socks[0].local == Some(IPv4Address(first))
            && PresentName(w'.socks[0], w'.k) == Some(IPv4Address(second))
  {
    var w1 := Step(w, DoClose(0));
    assert w1.socks[0] == Sock(-1, AF_INET, SOCK_STREAM, false, Some(IPv4Address(first)), Some(IPv4Address(peer)));
    assert w1.k.open == map[] && |w1.k.gens| == 1;
  }

  /** What a UDP object over one nameless descriptor caches when it asks for its name. */
  lemma AsksEarly(w: World)
    requires 0 in w.socks && w.socks[0] == Sock(3, AF_INET, SOCK_DGRAM, true, None, None)
    requires w.k.open == map[3 := 0] && w.k.gens == [Gen(AF_INET, SOCK_DGRAM, true, false, "", false, None)]
    ensures var w' := Step(w, DoGetLocal(0, true));
            && 0 in w'.socks && w'.k.open == w.k.open && w'.k.gens == w.k.gens
            && w'.socks[0] == w.socks[0].(local := Some(IPv4Address("")))
  {}

  /** A query before the connect makes it wrong, on one and the same generation: a UDP socket asks for its name, then
      connects. */
  lemma StaleByQueryRun()
    ensures var peer := IPv4Address("peer");
            var w := Reached({}, [DoCreateUdp(false, 3), DoGetLocal(0, true),
                                  DoConnect(0, peer, NO_TIMEOUT, Dials(-1, true, "chosen"))]);
            && 0 in w.socks && w.socks[0].connected && w.k.open == map[3 := 0]
            && w.socks[0].local == Some(IPv4Address(""))
            && PresentName(w.socks[0], w.k) == Some(IPv4Address("chosen"))
  {
    var o0, o1 := DoCreateUdp(false, 3), DoGetLocal(0, true);
    RunThree(o0, o1, DoConnect(0, IPv4Address("peer"), NO_TIMEOUT, Dials(-1, true, "chosen")));
    FirstUdp(false, 3);
    hide Reached, Step, PresentName;
    AsksEarly(Step(Start({}), o0));
    ConnectsLate(Step(Step(Start({}), o0), o1));
  }

  lemma ConnectsLate(w: World)
    requires 0 in w.socks && w.socks[0] == Sock(3, AF_INET, SOCK_DGRAM, true, Some(IPv4Address("")), None)
    requires w.k.open == map[3 := 0] && w.k.gens == [Gen(AF_INET, SOCK_DGRAM, true, false, "", false, None)]
    ensures var w' := Step(w, DoConnect(0, IPv4Address("peer"), NO_TIMEOUT, Dials(-1, true, "chosen")));
            && 0 in w'.socks && w'.socks[0].connected && w'.k.open == map[3 := 0]
            && w'.socks[0].local == Some(IPv4Address(""))
            && PresentName(w'.socks[0], w'.k) == Some(IPv4Address("chosen"))
  {}

  /** Sending makes it wrong: a UDP socket asks for its name before it has one, then sends. */
  lemma StaleByTransferRun()
    ensures var w := Reached({}, [DoCreateUdp(false, 3), DoGetLocal(0, true), DoTransfer(0, "80host", 1)]);
            && 0 in w.socks && w.k.open == map[3 := 0]
            && w.socks[0].local == Some(IPv4Address(""))
            && PresentName(w.socks[0], w.k) == Some(IPv4Address("80host"))
  {
    var o0, o1 := DoCreateUdp(false, 3), DoGetLocal(0, true);
    RunThree(o0, o1, DoTransfer(0, "80host", 1));
    FirstUdp(false, 3);
    hide Reached, Step, PresentName;
    AsksEarly(Step(Start({}), o0));
    SendsLate(Step(Step(Start({}), o0), o1));
  }

  lemma SendsLate(w: World)
    requires 0 in w.socks && w.socks[0] == Sock(3, AF_INET, SOCK_DGRAM, true, Some(IPv4Address("")), None)
    requires w.k.open == map[3 := 0] && w.k.gens == [Gen(AF_INET, SOCK_DGRAM, true, false, "", false, None)]
    ensures var w' := Step(w, DoTransfer(0, "80host", 1));
            && 0 in w'.socks && w'.k.open == map[3 := 0]
            && w'.socks[0].local == Some(IPv4Address(""))
            && PresentName(w'.socks[0], w'.k) == Some(IPv4Address("80host"))
  {}

  const ANY_PORT := BindAnswer(3, ConnectAnswer(-1, true, "", true), true, true, "80host")

  /** Bind makes it wrong: port zero is asked for, and the kernel chooses one. */
  lemma StaleByBindRun()
    ensures var w := Reached({}, [DoCreate(AF_INET, SOCK_STREAM), DoBind(0, IPv4Address("\0\0host"), ANY_PORT)]);
            && 0 in w.socks && w.k.open == map[3 := 0]
            && w.socks[0].local == Some(IPv4Address("\0\0host"))
            && PresentName(w.socks[0], w.k) == Some(IPv4Address("80host"))
  {
    RunTwo(DoCreate(AF_INET, SOCK_STREAM), DoBind(0, IPv4Address("\0\0host"), ANY_PORT));
    var w1 := Step(Start({}), DoCreate(AF_INET, SOCK_STREAM));
    assert w1.socks[0] == Fresh(AF_INET, SOCK_STREAM) && w1.k == Boot({});
    var asked, given := "\0\0host", "80host";
    assert asked[..2] == "\0\0" && given[..2] == "80";
    hide Reached;
  }
}
