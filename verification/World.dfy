/** Any number of Socket objects over one kernel, driven by an arbitrary sequence of whole operations. */
module World {
  import opened Addresses
  import opened Kernel
  import opened SocketSpec
  import opened Monitor
  import opened Invariants
  import opened Operations

  /** `nextId` is the identity of the next object; each operation may use one for an object it makes. */
  datatype World = World(k: State, socks: map<nat, Sock>, nextId: nat)

  datatype Op =
    | DoCreate(family: int, typ: int)
    | DoCreateUdp(v6: bool, newFd: int)
    | DoBind(id: nat, addr: Address, bind: BindAnswer)
    | DoConnect(id: nat, addr: Address, timeout: uint64, conn: ConnectAnswer)
    | DoReconnect(id: nat, timeout: uint64, conn: ConnectAnswer)
    | DoListen(id: nat, ok: bool, name: string)
    | DoAccept(id: nat, acc: AcceptAnswer)
    | DoClose(id: nat)
    | DoDestroy(id: nat)
    | DoGetLocal(id: nat, ok: bool)
    | DoGetRemote(id: nat, ok: bool)
    | DoTransfer(id: nat, name: string, count: int)

  function Start(files: set<string>): World {
    World(Boot(files), map[], 0)
  }

  /** `id` ends as `s` over `k`; one identity is spent. */
  function Put(w: World, id: nat, s: Sock, k: State): World {
    World(k, w.socks[id := s], w.nextId + 1)
  }

  function Step(w: World, op: Op): World {
    match op
    case DoCreate(family, typ) => Put(w, w.nextId, Fresh(family, typ), w.k)
    case DoCreateUdp(v6, newFd) =>
      var (s, k) := CreateUdp(w.nextId, if v6 then AF_INET6 else AF_INET, w.k, newFd);
      Put(w, w.nextId, s, k)
    case _ => if op.id !in w.socks then w else StepOn(w, op, w.socks[op.id])
  }

  /** An operation of an existing object that makes no lasting other. */
  function Apply(op: Op, nid: nat, s: Sock, k: State): (Sock, State)
    requires !op.DoCreate? && !op.DoCreateUdp? && !op.DoAccept?
  {
    match op
    case DoBind(id, addr, a) => var o := Bind(id, nid, s, k, addr, a); (o.s, o.k)
    case DoConnect(id, addr, timeout, a) => var o := Connect(id, s, k, addr, timeout, a); (o.s, o.k)
    case DoReconnect(id, timeout, a) => var o := Reconnect(id, s, k, timeout, a); (o.s, o.k)
    case DoListen(id, ok, name) => var o := Listen(id, s, k, ok, name); (o.s, o.k)
    case DoClose(id) => var o := Close(id, s, k); (o.s, o.k)
    case DoDestroy(id) => var o := Close(id, s, k); (o.s, o.k)
    case DoGetLocal(id, ok) => QueryLocal(id, s, k, ok)
    case DoGetRemote(id, ok) => QueryRemote(id, s, k, ok)
    case DoTransfer(id, name, count) => (s, Transfer(id, s, k, name, count).0)
  }

  function StepOn(w: World, op: Op, s: Sock): World
    requires !op.DoCreate? && !op.DoCreateUdp?
  {
    if op.DoAccept? then
      var o := Accept(op.id, w.nextId, s, w.k, op.acc);
      if o.ok then Put(w, w.nextId, o.s, o.k) else Put(w, op.id, s, o.k)
    else
      var (s', k') := Apply(op, w.nextId, s, w.k);
      if op.DoDestroy? then World(k', w.socks - {op.id}, w.nextId + 1) else Put(w, op.id, s', k')
  }

  function Run(w: World, ops: seq<Op>): World {
    if ops == [] then w else Step(Run(w, ops[..|ops| - 1]), ops[|ops| - 1])
  }

  lemma RunOne(w: World, ops: seq<Op>, op: Op)
    ensures Run(w, ops + [op]) == Step(Run(w, ops), op)
  {
    hide Watch;
    assert (ops + [op])[..|ops + [op]| - 1] == ops;
  }

  ghost predicate Inv(w: World) {
    && Linked(w.k)
    && (forall id :: id in w.socks ==> id < w.nextId && Good(id, w.socks[id], w.k))
    && (forall fd :: fd in Watch(w.k.trace).table ==> Accounted(w.socks, Watch(w.k.trace).table[fd].holder))
    && (forall e :: e in w.k.trace ==> e.id < w.nextId)
  }

  /** A descriptor belongs to a live object or was dropped. */
  predicate Accounted(socks: map<nat, Sock>, h: Holder) {
    h == Dropped || (h.Owner? && h.id in socks)
  }

  lemma StartInv(files: set<string>)
    ensures Inv(Start(files))
  {}

  ghost predicate SameBut(ids: set<nat>, socks: map<nat, Sock>, socks': map<nat, Sock>) {
    forall j :: j !in ids ==> (j in socks' <==> j in socks) && (j in socks' ==> socks'[j] == socks[j])
  }

  /** Object `id` is live and in order, or gone and owns nothing. */
  ghost predicate Settled(id: nat, socks: map<nat, Sock>, k: State) {
    if id in socks then Good(id, socks[id], k) else HoldsNone(Watch(k.trace), id)
  }

  /** What an operation of `a` and of the newest identity leaves to check: their own invariants. */
  ghost predicate Settles(w: World, a: nat, k': State, socks': map<nat, Sock>) {
    && Linked(k') && a <= w.nextId && ActOnly({a, w.nextId}, w.k, k')
    && SameBut({a, w.nextId}, w.socks, socks')
    && Settled(a, socks', k') && Settled(w.nextId, socks', k')
  }

  lemma SettledTrace(w: World, a: nat, k': State, socks': map<nat, Sock>)
    requires Inv(w) && Settles(w, a, k', socks')
    ensures w.k.trace <= k'.trace && forall e :: e in k'.trace ==> e.id < w.nextId + 1
  {
    hide Watch;
    forall e | e in k'.trace ensures e.id < w.nextId + 1 {
      var i :| 0 <= i < |k'.trace| && k'.trace[i] == e;
      if i < |w.k.trace| {
        assert k'.trace[i] == k'.trace[..|w.k.trace|][i];
      }
    }
  }

  lemma SettledOwners(w: World, a: nat, k': State, socks': map<nat, Sock>, fd: int)
    requires Inv(w) && Settles(w, a, k', socks') && fd in Watch(k'.trace).table
    ensures Accounted(socks', Watch(k'.trace).table[fd].holder)
  {
    hide Watch;
    hide Good, Linked;
    var h := Watch(k'.trace).table[fd].holder;
    if h == Pending {
      assert Pends(Watch(k'.trace), fd);
    } else if h.Owner? && h.id in {a, w.nextId} {
      assert h.id in socks';
    }
  }

  lemma Rebuild(w: World, a: nat, k': State, socks': map<nat, Sock>)
    requires Inv(w) && Settles(w, a, k', socks')
    ensures Inv(World(k', socks', w.nextId + 1)) && w.k.trace <= k'.trace
  {
    hide Watch;
    SettledTrace(w, a, k', socks');
    forall fd | fd in Watch(k'.trace).table ensures Accounted(socks', Watch(k'.trace).table[fd].holder) {
      SettledOwners(w, a, k', socks', fd);
    }
    var ids := {a, w.nextId};
    hide Good, Linked, Acts;
    forall j | j in socks' ensures j < w.nextId + 1 && Good(j, socks'[j], k') {
      if j !in ids {
        BystanderGood(j, w.socks[j], ids, w.k, k');
      }
    }
  }

  lemma NewestIdle(w: World, id: nat, k': State)
    requires Inv(w) && id in w.socks && ActOnly({id}, w.k, k')
    ensures w.nextId !in w.socks && HoldsNone(Watch(k'.trace), w.nextId) && ActOnly({id, w.nextId}, w.k, k')
  {
    hide Watch;
    UnseenElsewhere(w.nextId, {id}, w.k, k');
    UnseenHoldsNothing(k'.trace, w.nextId);
    ActOnlyWidens({id}, {id, w.nextId}, w.k, k');
  }

  /** Rebuild for an operation of one object that made no other, ... */
  lemma RebuildOne(w: World, id: nat, s: Sock, k': State)
    requires Inv(w) && id in w.socks && Good(id, s, k') && ActOnly({id}, w.k, k')
    ensures Inv(Put(w, id, s, k')) && w.k.trace <= k'.trace
  {
    hide Watch;
    NewestIdle(w, id, k');
    RebuildTwo(w, id, s, k');
  }

  /** ... for the destruction of one, ... */
  lemma RebuildGone(w: World, id: nat, s: Sock, k': State)
    requires Inv(w) && id in w.socks && Good(id, s, k') && ActOnly({id}, w.k, k') && s.fd == -1
    ensures Inv(World(k', w.socks - {id}, w.nextId + 1)) && w.k.trace <= k'.trace
  {
    hide Watch;
    NewestIdle(w, id, k');
    GoodMeans(id, s, k');
    assert id < w.nextId;
    hide Good, Linked, Inv, HoldsNone, ActOnly;
    Rebuild(w, id, k', w.socks - {id});
  }

  /** ... for one whose temporary is gone again, ... */
  lemma RebuildTwo(w: World, id: nat, s: Sock, k': State)
    requires Inv(w) && id in w.socks && Good(id, s, k') && ActOnly({id, w.nextId}, w.k, k')
    requires HoldsNone(Watch(k'.trace), w.nextId)
    ensures Inv(Put(w, id, s, k')) && w.k.trace <= k'.trace
  {
    hide Watch;
    GoodMeans(id, s, k');
    assert w.nextId !in w.socks && id < w.nextId;
    hide Good, Linked, Inv, HoldsNone, ActOnly;
    Rebuild(w, id, k', w.socks[id := s]);
  }

  /** ... for one that made another, ... */
  lemma RebuildNew(w: World, id: nat, s: Sock, k': State)
    requires Inv(w) && id in w.socks && Good(id, w.socks[id], k') && Good(w.nextId, s, k')
    requires ActOnly({id, w.nextId}, w.k, k')
    ensures Inv(Put(w, w.nextId, s, k')) && w.k.trace <= k'.trace
  {
    hide Watch;
    GoodMeans(w.nextId, s, k');
    assert w.nextId !in w.socks && id < w.nextId;
    hide Good, Linked, Inv, HoldsNone, ActOnly;
    Rebuild(w, id, k', w.socks[w.nextId := s]);
  }

  /** ... and for the birth of one. */
  lemma RebuildBorn(w: World, s: Sock, k': State)
    requires Inv(w) && Good(w.nextId, s, k') && ActOnly({w.nextId}, w.k, k')
    ensures Inv(Put(w, w.nextId, s, k')) && w.k.trace <= k'.trace
  {
    hide Watch;
    GoodMeans(w.nextId, s, k');
    hide Good, Linked, Inv, HoldsNone, ActOnly;
    assert {w.nextId, w.nextId} == {w.nextId};
    Rebuild(w, w.nextId, k', w.socks[w.nextId := s]);
  }

  lemma StepInv(w: World, op: Op)
    requires Inv(w)
    ensures Inv(Step(w, op)) && w.k.trace <= Step(w, op).k.trace
  {
    hide Watch;
    var nid := w.nextId;
    assert Unseen(w.k.trace, nid) && Linked(w.k);
    ActOnlyReflexive({nid}, w.k);
    hide Good, ActOnly, Linked, Inv, Unseen, CreateUdp, StepOn;
    if op.DoCreate? {
      FreshGood(nid, op.family, op.typ, w.k);
      RebuildBorn(w, Fresh(op.family, op.typ), w.k);
    } else if op.DoCreateUdp? {
      var r := CreateUdp(nid, if op.v6 then AF_INET6 else AF_INET, w.k, op.newFd);
      CreateUdpGood(nid, if op.v6 then AF_INET6 else AF_INET, w.k, op.newFd);
      RebuildBorn(w, r.0, r.1);
    } else if op.id in w.socks {
      StepOnInv(w, op);
    }
  }

  /** All operations of one object but bind and accept, which make another. */
  lemma ApplyGood(op: Op, nid: nat, s: Sock, k: State)
    requires !op.DoCreate? && !op.DoCreateUdp? && !op.DoAccept? && !op.DoBind? && Good(op.id, s, k)
    ensures var r := Apply(op, nid, s, k); Good(op.id, r.0, r.1) && ActOnly({op.id}, k, r.1)
    ensures op.DoDestroy? ==> Apply(op, nid, s, k).0.fd == -1
  {
    hide Watch;
    hide Good, ActOnly, Connect, Reconnect, Listen, Close, QueryLocal, QueryRemote, Transfer;
    match op {
      case DoConnect(id, addr, timeout, a) => ConnectGood(id, s, k, addr, timeout, a);
      case DoReconnect(id, timeout, a) => ReconnectGood(id, s, k, timeout, a);
      case DoListen(id, ok, name) => ListenGood(id, s, k, ok, name);
      case DoClose(id) => CloseGood(id, s, k);
      case DoDestroy(id) =>
        CloseGood(id, s, k);
        CloseEmpties(id, s, k);
      case DoGetLocal(id, ok) => QueryLocalGood(id, s, k, ok);
      case DoGetRemote(id, ok) => QueryRemoteGood(id, s, k, ok);
      case DoTransfer(id, name, count) => TransferGood(id, s, k, name, count);
    }
  }

  lemma StepOnInv(w: World, op: Op)
    requires Inv(w) && !op.DoCreate? && !op.DoCreateUdp? && op.id in w.socks
    ensures Inv(StepOn(w, op, w.socks[op.id])) && w.k.trace <= StepOn(w, op, w.socks[op.id]).k.trace
  {
    hide Watch;
    var id, nid, s := op.id, w.nextId, w.socks[op.id];
    assert Good(id, s, w.k) && Unseen(w.k.trace, nid) && id != nid && nid !in w.socks;
    hide Good, ActOnly, Linked, Inv, Unseen, HoldsNone, Bind, Accept;
    if op.DoAccept? {
      var o := Accept(id, nid, s, w.k, op.acc);
      AcceptGood(id, nid, s, w.k, op.acc);
      GoodMeans(nid, o.s, o.k);
      if o.ok {
        RebuildNew(w, id, o.s, o.k);
      } else {
        RebuildTwo(w, id, s, o.k);
      }
    } else if op.DoBind? {
      var o := Bind(id, nid, s, w.k, op.addr, op.bind);
      BindGood(id, nid, s, w.k, op.addr, op.bind);
      RebuildTwo(w, id, o.s, o.k);
    } else {
      hide Apply;
      ApplyGood(op, nid, s, w.k);
      var r := Apply(op, nid, s, w.k);
      if op.DoDestroy? {
        RebuildGone(w, id, r.0, r.1);
      } else {
        RebuildOne(w, id, r.0, r.1);
      }
    }
  }

  lemma NewestUnseen(w: World)
    requires Inv(w)
    ensures Unseen(w.k.trace, w.nextId)
  {}

  /** The object that an operation acts on. */
  function Actor(w: World, op: Op): nat {
    if op.DoCreate? || op.DoCreateUdp? then w.nextId else op.id
  }

  /** A step is taken by its object and the newest identity alone. */
  lemma StepActs(w: World, op: Op)
    requires Inv(w)
    ensures Acts({Actor(w, op), w.nextId}, w.k, Step(w, op).k)
  {
    hide Watch;
    var nid, k := w.nextId, w.k;
    var ids := {Actor(w, op), nid};
    assert Unseen(k.trace, nid) && Linked(k);
    ActOnlyReflexive(ids, k);
    assert !op.DoCreate? && !op.DoCreateUdp? && op.id in w.socks ==> Good(op.id, w.socks[op.id], k) && op.id != nid;
    hide Good, Linked, Acts, Inv, Unseen, CreateUdp, Bind, Accept, Apply;
    if op.DoCreateUdp? {
      CreateUdpGood(nid, if op.v6 then AF_INET6 else AF_INET, k, op.newFd);
      ActOnlyWidens({nid}, ids, k, Step(w, op).k);
    } else if !op.DoCreate? && op.id in w.socks {
      var s := w.socks[op.id];
      if op.DoAccept? {
        AcceptGood(op.id, nid, s, k, op.acc);
      } else if op.DoBind? {
        BindGood(op.id, nid, s, k, op.addr, op.bind);
        ApplyBind(op, nid, s, k);
      } else {
        ApplyGood(op, nid, s, k);
        ActOnlyWidens({op.id}, ids, k, Step(w, op).k);
      }
    }
  }

  lemma ApplyBind(op: Op, nid: nat, s: Sock, k: State)
    requires op.DoBind?
    ensures Apply(op, nid, s, k).1 == Bind(op.id, nid, s, k, op.addr, op.bind).k
  {}

  /** Every run keeps the invariant, and only appends to the trace. */
  lemma {:induction false} RunInv(w: World, ops: seq<Op>)
    requires Inv(w)
    ensures Inv(Run(w, ops)) && w.k.trace <= Run(w, ops).k.trace
  {
    hide Watch;
    if ops == [] {
    } else {
      RunInv(w, ops[..|ops| - 1]);
      StepInv(Run(w, ops[..|ops| - 1]), ops[|ops| - 1]);
    }
  }
}
