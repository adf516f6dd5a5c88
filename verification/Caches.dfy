/** What the two cached addresses hold, over every run. */
module Caches {
  import opened Addresses
  import opened Kernel
  import opened SocketSpec
  import opened History
  import opened Invariants
  import opened World
  import opened Ownership

  /** Both caches are functions of the trace; the remote one is the argument of the latest connect,
      whatever came of it, and without any connect the first peer name the kernel gave. */
  lemma CachesFollowHistory(files: set<string>, ops: seq<Op>, id: nat)
    ensures var w := Reached(files, ops);
            id in w.socks ==>
              var s, t := w.socks[id], w.k.trace;
              && s.local == CacheOf(t, id, s.family).local
              && s.remote == (if LastConnect(t, id).Some? then LastConnect(t, id)
                              else if FirstPeer(t, id).Some? then Some(Wrap(s.family, FirstPeer(t, id).value))
                              else None)
  {
    var w := Reached(files, ops);
    ReachedInv(files, ops);
    if id in w.socks {
      assert Good(id, w.socks[id], w.k);
      RemoteIsLastConnectElseFirstPeer(w.k.trace, id, w.socks[id].family);
    }
  }

  /** A remote address, once there, is changed by nothing but a connect of the same object. */
  lemma {:induction false} RemoteStays(w: World, ops: seq<Op>, id: nat, addr: Address)
    requires Inv(w) && id in w.socks && w.socks[id].remote == Some(addr)
    requires forall op :: op in ops && op.DoConnect? && op.id == id ==> op.addr == addr
    ensures var w' := Run(w, ops); id in w'.socks ==> w'.socks[id].remote == Some(addr)
    ensures id < Run(w, ops).nextId
  {
    if ops == [] {
    } else {
      var before, op := ops[..|ops| - 1], ops[|ops| - 1];
      assert op in ops && forall o :: o in before ==> o in ops;
      RemoteStays(w, before, id, addr);
      RemoteStep(Run(w, before), op, id);
    }
  }

  lemma RemoteStep(w: World, op: Op, id: nat)
    requires id < w.nextId
    ensures id < Step(w, op).nextId && (id !in w.socks ==> id !in Step(w, op).socks)
    ensures id in w.socks && id in Step(w, op).socks && w.socks[id].remote.Some? ==>
              Step(w, op).socks[id].remote ==
              if op.DoConnect? && op.id == id then Some(op.addr) else w.socks[id].remote
  {
    hide SysSocket, SysAccept, SysConnect, SysBind, SysListen, SysTransfer, SysClose, Probe;
  }
}
