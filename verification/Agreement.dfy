/** When a cached local address is the present name of the descriptor, and when it is not. */
module Agreement {
  import opened Addresses
  import opened Kernel
  import opened SocketSpec
  import opened Monitor
  import opened History
  import opened Invariants
  import opened Operations
  import opened World
  import opened Ownership
  import opened Names

  /** Entries of an object that may change the name of its descriptor or its cached local address; `named` says
      whether the descriptor was bound, connected or accepted before, or has a port. */
  predicate Disturbs(e: Event, family: int, named: bool) {
    match e
    case BindRequest(_, _) => true
    case ReconnectRequest(_) => true
    case BindCall(_, _, ok) => ok
    case CloseCall(_, _) => true
    case ConnectCall(_, _, ok) => ok && family != AF_UNIX
    case ListenCall(_, _, ok) => ok && family != AF_UNIX && !named
    case TransferCall(_, _) => family != AF_UNIX && !named
    case _ => false
  }

  /** From position `from` on the trace holds no entry of object `id` that disturbs its cache. */
  ghost predicate Undisturbed(t: seq<Event>, from: nat, id: nat, family: int) {
    forall j :: from <= j < |t| && t[j].id == id ==> !Disturbs(t[j], family, CacheOf(t[..j], id, family).named)
  }

  /** The same for a named descriptor: sending, receiving and listening do not count. */
  ghost predicate Untouched(t: seq<Event>, from: nat, id: nat, family: int) {
    forall j :: from <= j < |t| && t[j].id == id ==> !Disturbs(t[j], family, true)
  }

  lemma {:induction false} NamedStays(t: seq<Event>, from: nat, id: nat, family: int)
    requires from <= |t| && CacheOf(t[..from], id, family).named && Untouched(t, from, id, family)
    ensures CacheOf(t, id, family).named && Undisturbed(t, from, id, family)
  {
    if from < |t| {
      var n := |t| - 1;
      var p := t[..n];
      assert p[..from] == t[..from];
      NamedStays(p, from, id, family);
      forall j | from <= j < |t| && t[j].id == id
        ensures !Disturbs(t[j], family, CacheOf(t[..j], id, family).named)
      {
        if j < n {
          assert p[..j] == t[..j] && p[j] == t[j];
        }
      }
    } else {
      assert t[..from] == t;
    }
  }

  lemma {:induction false} UndisturbedAgrees(t: seq<Event>, i: nat, id: nat, family: int)
    requires i < |t| && t[i].NameCall? && t[i].id == id && t[i].answer.Some?
    requires CacheOf(t[..i], id, family).local.None? && Undisturbed(t, i + 1, id, family)
    ensures CacheOf(t, id, family).agrees && CacheOf(t, id, family).local == Some(Wrap(family, t[i].answer.value))
  {
    if i == |t| - 1 {
    } else {
      var p := t[..|t| - 1];
      assert p[..i] == t[..i];
      forall j | i < j < |p| && p[j].id == id ensures !Disturbs(p[j], family, CacheOf(p[..j], id, family).named) {
        assert p[..j] == t[..j] && p[j] == t[j];
      }
      UndisturbedAgrees(p, i, id, family);
    }
  }

  /** The present name of the descriptor in an object's field. */
  function PresentName(s: Sock, k: State): Option<Address> {
    if IsOpen(k, s.fd) then Some(Wrap(s.family, k.gens[k.open[s.fd]].name)) else None
  }

  /** The last entry of the trace is a successful query by `id`, made when nothing was cached. */
  ghost predicate EndsWithFill(t: seq<Event>, id: nat, family: int) {
    |t| > 0 && t[|t| - 1].NameCall? && t[|t| - 1].id == id && t[|t| - 1].answer.Some? &&
    CacheOf(t[..|t| - 1], id, family).local.None?
  }

  lemma AgreementMeans(id: nat, s: Sock, k: State)
    requires Good(id, s, k) && CacheOf(k.trace, id, s.family).agrees
    ensures s.local == PresentName(s, k) && s.local.Some?
  {}

  lemma TailAgrees(id: nat, s: Sock, k: State, t: seq<Event>)
    requires Good(id, s, k) && t <= k.trace && Undisturbed(k.trace, |t|, id, s.family)
    requires EndsWithFill(t, id, s.family)
    ensures s.local == PresentName(s, k) && s.local.Some?
  {
    assert k.trace[..|t| - 1] == t[..|t| - 1] && k.trace[|t| - 1] == t[|t| - 1];
    UndisturbedAgrees(k.trace, |t| - 1, id, s.family);
    AgreementMeans(id, s, k);
  }

  lemma NamedTailAgrees(id: nat, s: Sock, k: State, t: seq<Event>)
    requires Good(id, s, k) && t <= k.trace && Untouched(k.trace, |t|, id, s.family)
    requires EndsWithFill(t, id, s.family) && CacheOf(t, id, s.family).named
    ensures s.local == PresentName(s, k) && s.local.Some?
  {
    hide Good, EndsWithFill, PresentName;
    assert k.trace[..|t|] == t;
    NamedStays(k.trace, |t|, id, s.family);
    TailAgrees(id, s, k, t);
  }

  /** A local address filled by a query stays the present name of the descriptor in the field, as long
      as the object was not closed, bound or reconnected, and an internet socket not connected again; nor did it
      listen or transfer before it was bound, connected or accepted or had a port. */
  lemma FilledCacheAgrees(files: set<string>, ops: seq<Op>, id: nat, n: nat)
    requires var w := Reached(files, ops);
             id in w.socks && n <= |w.k.trace| && EndsWithFill(w.k.trace[..n], id, w.socks[id].family) &&
             Undisturbed(w.k.trace, n, id, w.socks[id].family)
    ensures var s := Reached(files, ops).socks[id]; s.local == PresentName(s, Reached(files, ops).k) && s.local.Some?
  {
    var w := Reached(files, ops);
    ReachedInv(files, ops);
    InvGives(w, id);
    TailAgrees(id, w.socks[id], w.k, w.k.trace[..n]);
  }

  lemma DialCache(id: nat, s: Sock, k: State, addr: Address, timeout: uint64, a: ConnectAnswer)
    requires Dial(id, s, k, addr, timeout, a).ok
    ensures var o := Dial(id, s, k, addr, timeout, a);
            PresentName(o.s, o.k).Some? &&
            o.s.local == if s.local.Some? then s.local else if a.nameOk then PresentName(o.s, o.k) else None
  {}

  /** A successful reconnect, from whatever reachable state, leaves the present name or nothing. */
  lemma ReconnectRestoresAgreement(files: set<string>, ops: seq<Op>, id: nat, timeout: uint64, a: ConnectAnswer)
    requires var w := Reached(files, ops);
             id in w.socks && Reconnect(id, w.socks[id], w.k, timeout, a).ok
    ensures var w := Reached(files, ops);
            var o := Reconnect(id, w.socks[id], w.k, timeout, a);
            o.s.local == if a.nameOk then PresentName(o.s, o.k) else None
  {
    var w := Reached(files, ops);
    var s := w.socks[id].(local := None);
    var addr := s.remote.value;
    var k1 := Emit(Emit(w.k, ReconnectRequest(id)), ConnectRequest(id, addr));
    var r := Ready(id, s.(remote := Some(addr)), k1, a.newFd);
    DialCache(id, r.0, r.1, addr, timeout, a);
  }

  /** The query at the end of a successful dial is the last entry of the trace, and fills the cache. */
  lemma DialEndsWithQuery(id: nat, s: Sock, k: State, addr: Address, timeout: uint64, a: ConnectAnswer)
    requires Good(id, s, k) && s.local.None? && a.nameOk && Dial(id, s, k, addr, timeout, a).ok
    ensures EndsWithFill(Dial(id, s, k, addr, timeout, a).k.trace, id, s.family)
    ensures CacheOf(Dial(id, s, k, addr, timeout, a).k.trace, id, s.family).named
  {
    hide CacheOf, Watch;
    var c := SysConnect(k, id, s.fd, addr, a.ok, a.name);
    SysConnectGood(id, s, k, addr, a.ok, a.name);
    assert CacheOf(c.0.trace, id, s.family).local.None?;
    hide Good;
    var e := NameCall(id, s.fd, SysName(c.0, id, s.fd, true).1);
    assert Dial(id, s, k, addr, timeout, a).k.trace == c.0.trace + [e];
    assert (c.0.trace + [e])[..|c.0.trace|] == c.0.trace;
    CacheOne(k.trace, id, s.family, ConnectCall(id, s.fd, true));
    CacheOne(c.0.trace, id, s.family, e);
  }

  lemma ConnectEndsWithQuery(id: nat, s: Sock, k: State, addr: Address, timeout: uint64, a: ConnectAnswer)
    requires Good(id, s, k) && s.local.None? && a.nameOk && Connect(id, s, k, addr, timeout, a).ok
    ensures EndsWithFill(Connect(id, s, k, addr, timeout, a).k.trace, id, s.family)
    ensures CacheOf(Connect(id, s, k, addr, timeout, a).k.trace, id, s.family).named
  {
    var k1 := Emit(k, ConnectRequest(id, addr));
    RequestGood(id, s, k, ConnectRequest(id, addr));
    ReadyGood(id, s.(remote := Some(addr)), k1, a.newFd);
    var r := Ready(id, s.(remote := Some(addr)), k1, a.newFd);
    hide Good, Dial, EndsWithFill;
    DialEndsWithQuery(id, r.0, r.1, addr, timeout, a);
  }

  lemma ReconnectEndsWithQuery(id: nat, s: Sock, k: State, timeout: uint64, a: ConnectAnswer)
    requires Good(id, s, k) && a.nameOk && Reconnect(id, s, k, timeout, a).ok
    ensures EndsWithFill(Reconnect(id, s, k, timeout, a).k.trace, id, s.family)
    ensures CacheOf(Reconnect(id, s, k, timeout, a).k.trace, id, s.family).named
  {
    hide Good, Connect, EndsWithFill;
    RequestGood(id, s, k, ReconnectRequest(id));
    ConnectEndsWithQuery(id, s.(local := None), Emit(k, ReconnectRequest(id)), s.remote.value, timeout, a);
  }

  lemma InvGives(w: World, id: nat)
    requires Inv(w) && id in w.socks
    ensures Good(id, w.socks[id], w.k) && id < w.nextId
  {}

  /** From a successful reconnect on, through any further run, the cached local address is the present name
      of the descriptor, whatever is sent and received, until this object is bound, reconnected or closed, or
      an internet socket is connected again. */
  lemma ReconnectedStaysInAgreement(
    files: set<string>, ops: seq<Op>, id: nat, timeout: uint64, a: ConnectAnswer, rest: seq<Op>)
    requires var w := Reached(files, ops);
             id in w.socks && a.nameOk && Reconnect(id, w.socks[id], w.k, timeout, a).ok
    requires var w1 := Step(Reached(files, ops), DoReconnect(id, timeout, a));
             var w2 := Run(w1, rest);
             id in w2.socks && Untouched(w2.k.trace, |w1.k.trace|, id, w2.socks[id].family)
    ensures var w2 := Run(Step(Reached(files, ops), DoReconnect(id, timeout, a)), rest);
            w2.socks[id].local == PresentName(w2.socks[id], w2.k) && w2.socks[id].local.Some?
  {
    var w := Reached(files, ops);
    var op := DoReconnect(id, timeout, a);
    var w1 := Step(w, op);
    var w2 := Run(w1, rest);
    assert w1.k == Reconnect(id, w.socks[id], w.k, timeout, a).k;
    hide Good, Inv, Reconnect, Linked, Reached, Run, Step, Untouched, EndsWithFill, CacheOf;
    ReachedInv(files, ops);
    InvGives(w, id);
    StepInv(w, op);
    RunInv(w1, rest);
    InvGives(w2, id);
    ReconnectEndsWithQuery(id, w.socks[id], w.k, timeout, a);
    FamilyStays(w, op, id);
    RunFamilyStays(w1, rest, id);
    NamedTailAgrees(id, w2.socks[id], w2.k, w1.k.trace);
  }

  lemma FamilyStays(w: World, op: Op, id: nat)
    requires id < w.nextId
    ensures id < Step(w, op).nextId && (id in Step(w, op).socks ==> id in w.socks)
    ensures id in Step(w, op).socks ==> Step(w, op).socks[id].family == w.socks[id].family
  {
    hide SysSocket, SysAccept, SysConnect, SysBind, SysListen, SysTransfer, SysClose, Probe;
  }

  lemma {:induction false} RunFamilyStays(w: World, ops: seq<Op>, id: nat)
    requires id < w.nextId
    ensures id < Run(w, ops).nextId && (id in Run(w, ops).socks ==> id in w.socks)
    ensures id in Run(w, ops).socks ==> Run(w, ops).socks[id].family == w.socks[id].family
  {
    if ops == [] {
    } else {
      RunFamilyStays(w, ops[..|ops| - 1], id);
      FamilyStays(Run(w, ops[..|ops| - 1]), ops[|ops| - 1], id);
    }
  }

  // ---------- operations that leave a named descriptor's cache alone ----------

  /** The operation does not act on object `id`, or only sends, receives, listens, accepts or asks. */
  predicate Calm(op: Op, id: nat) {
    op.DoCreate? || op.DoCreateUdp? || op.id != id ||
    op.DoTransfer? || op.DoListen? || op.DoAccept? || op.DoGetLocal? || op.DoGetRemote?
  }

  /** The history says that the cached local address is the name of a descriptor that has its name for good. */
  ghost predicate Agreeing(w: World, id: nat) {
    id in w.socks && var c := CacheOf(w.k.trace, id, w.socks[id].family); c.agrees && c.named
  }

  /** `k'` has one more entry by `id` that a settled cache survives, then only entries of `other`. */
  ghost predicate AddsCalm(k: State, k': State, id: nat, other: nat) {
    k.trace <= k'.trace &&
    forall i :: |k.trace| <= i < |k'.trace| ==>
      k'.trace[i].id == other ||
      (i == |k.trace| &&
       var e := k'.trace[i]; e.TransferCall? || e.ListenCall? || e.AcceptCall? || e.PeerCall?)
  }

  lemma CalmEntries(k: State, k': State, id: nat, other: nat, family: int)
    requires AddsCalm(k, k', id, other) && id != other
    requires var c := CacheOf(k.trace, id, family); c.agrees && c.named
    ensures var c, c' := CacheOf(k.trace, id, family), CacheOf(k'.trace, id, family);
            c'.agrees && c'.named && c'.local == c.local
  {
    var n := |k.trace|;
    if n < |k'.trace| {
      var e := k'.trace[n];
      assert k'.trace[..n + 1] == k.trace + [e];
      CacheOne(k.trace, id, family, e);
      CacheSkips(k'.trace, n + 1, id, family);
      hide CacheOf;
    } else {
      assert k'.trace == k.trace;
    }
  }

  lemma CalmAdds(w: World, op: Op, id: nat)
    requires id in w.socks && w.socks[id].local.Some? && Actor(w, op) == id && Calm(op, id) && id < w.nextId
    ensures AddsCalm(w.k, Step(w, op).k, id, w.nextId)
  {
    if op.DoAccept? {
      AcceptAdds(id, w.nextId, w.socks[id], w.k, op.acc);
    }
    hide Accept;
  }

  lemma AcceptAdds(id: nat, nid: nat, s: Sock, k: State, a: AcceptAnswer)
    ensures AddsCalm(k, Accept(id, nid, s, k, a).k, id, nid)
  {}

  lemma CalmKeepsObject(w: World, op: Op, id: nat)
    requires id in w.socks && Calm(op, id) && id < w.nextId && w.socks[id].local.Some?
    ensures var w' := Step(w, op);
            id in w'.socks && w'.socks[id].family == w.socks[id].family && w'.socks[id].local == w.socks[id].local
  {
    hide SysSocket, SysAccept, SysConnect, SysBind, SysListen, SysTransfer, SysClose, Probe, Connect, Dial;
  }

  lemma CalmStep(w: World, op: Op, id: nat)
    requires Inv(w) && Agreeing(w, id) && Calm(op, id)
    ensures Agreeing(Step(w, op), id) && Step(w, op).socks[id].local == w.socks[id].local
  {
    var w' := Step(w, op);
    InvGives(w, id);
    AgreementMeans(id, w.socks[id], w.k);
    CalmKeepsObject(w, op, id);
    StepActs(w, op);
    if Actor(w, op) == id {
      CalmAdds(w, op, id);
      hide Step, Inv, Good, Acts, AddsCalm, Calm;
      CalmEntries(w.k, w'.k, id, w.nextId, w.socks[id].family);
    } else {
      hide Step, Inv, Good, Calm;
      CacheSkips(w'.k.trace, |w.k.trace|, id, w.socks[id].family);
    }
  }

  lemma {:induction false} CalmRun(w: World, rest: seq<Op>, id: nat)
    requires Inv(w) && Agreeing(w, id) && forall op :: op in rest ==> Calm(op, id)
    ensures Inv(Run(w, rest)) && Agreeing(Run(w, rest), id) && Run(w, rest).socks[id].local == w.socks[id].local
  {
    if rest == [] {
    } else {
      var before, op := rest[..|rest| - 1], rest[|rest| - 1];
      assert op in rest && forall o :: o in before ==> o in rest;
      hide Step, Inv, Agreeing, Calm;
      CalmRun(w, before, id);
      CalmStep(Run(w, before), op, id);
      StepInv(Run(w, before), op);
    }
  }

  /** An address that agrees goes on agreeing through any run in which its object sends, receives, listens, accepts
      and asks, as often as it likes, whatever all other objects do. */
  lemma TransfersKeepAgreement(files: set<string>, ops: seq<Op>, id: nat, rest: seq<Op>)
    requires Agreeing(Reached(files, ops), id) && forall op :: op in rest ==> Calm(op, id)
    ensures var w, w' := Reached(files, ops), Run(Reached(files, ops), rest);
            id in w'.socks && w'.socks[id].local == w.socks[id].local == PresentName(w'.socks[id], w'.k)
  {
    ReachedInv(files, ops);
    CalmRun(Reached(files, ops), rest, id);
    var w' := Run(Reached(files, ops), rest);
    InvGives(w', id);
    AgreementMeans(id, w'.socks[id], w'.k);
    hide Inv, Reached, Run, Good, Calm, CacheOf;
  }

  lemma FillBegins(w: World, id: nat)
    requires id in w.socks && EndsWithFill(w.k.trace, id, w.socks[id].family)
    requires CacheOf(w.k.trace, id, w.socks[id].family).named
    ensures Agreeing(w, id)
  {
    UndisturbedAgrees(w.k.trace, |w.k.trace| - 1, id, w.socks[id].family);
  }

  /** Agreement begins where a reconnect succeeds, ... */
  lemma ReconnectBegins(files: set<string>, ops: seq<Op>, id: nat, timeout: uint64, a: ConnectAnswer)
    requires var w := Reached(files, ops);
             id in w.socks && a.nameOk && Reconnect(id, w.socks[id], w.k, timeout, a).ok
    ensures Agreeing(Step(Reached(files, ops), DoReconnect(id, timeout, a)), id)
  {
    var w, op := Reached(files, ops), DoReconnect(id, timeout, a);
    var w' := Step(w, op);
    ReachedInv(files, ops);
    InvGives(w, id);
    FamilyStays(w, op, id);
    assert id in w'.socks && w'.k == Reconnect(id, w.socks[id], w.k, timeout, a).k;
    hide Step, Inv, Good, Reached, Reconnect, CacheOf, EndsWithFill;
    ReconnectEndsWithQuery(id, w.socks[id], w.k, timeout, a);
    FillBegins(w', id);
  }

  /** ... where a connect does with nothing cached before, ... */
  lemma ConnectBegins(files: set<string>, ops: seq<Op>, id: nat, addr: Address, timeout: uint64, a: ConnectAnswer)
    requires var w := Reached(files, ops);
             id in w.socks && a.nameOk && w.socks[id].local.None? &&
             Connect(id, w.socks[id], w.k, addr, timeout, a).ok
    ensures Agreeing(Step(Reached(files, ops), DoConnect(id, addr, timeout, a)), id)
  {
    var w, op := Reached(files, ops), DoConnect(id, addr, timeout, a);
    var w' := Step(w, op);
    ReachedInv(files, ops);
    InvGives(w, id);
    FamilyStays(w, op, id);
    assert id in w'.socks && w'.k == Connect(id, w.socks[id], w.k, addr, timeout, a).k;
    hide Step, Inv, Good, Reached, Connect, CacheOf, EndsWithFill;
    ConnectEndsWithQuery(id, w.socks[id], w.k, addr, timeout, a);
    FillBegins(w', id);
  }

  /** ... and, for the new object, where an accept does. */
  lemma AcceptBegins(files: set<string>, ops: seq<Op>, id: nat, a: AcceptAnswer)
    requires var w := Reached(files, ops);
             id in w.socks && Accept(id, w.nextId, w.socks[id], w.k, a).ok && a.nameOk
    ensures Agreeing(Step(Reached(files, ops), DoAccept(id, a)), Reached(files, ops).nextId)
  {
    var w := Reached(files, ops);
    ReachedInv(files, ops);
    InvGives(w, id);
    assert Unseen(w.k.trace, w.nextId);
    hide Inv, Good, Reached, Accept, CacheOf, Unseen;
    AcceptHistory(id, w.nextId, w.socks[id], w.k, a);
  }

  /** What a successful accept writes: the call itself, the verdict of `init`, and the two queries. */
  function AcceptEntries(id: nat, nid: nat, on: int, fd: int, local: string, peer: Option<string>): seq<Event> {
    [AcceptCall(id, on, fd), InitCall(nid, fd, true), NameCall(nid, fd, Some(local)), PeerCall(nid, fd, peer)]
  }

  lemma AcceptTrace(id: nat, nid: nat, s: Sock, k: State, a: AcceptAnswer) returns (local: string, peer: Option<string>)
    requires Accept(id, nid, s, k, a).ok && a.nameOk
    ensures var o := Accept(id, nid, s, k, a);
            o.s.family == s.family && o.k.trace == k.trace + AcceptEntries(id, nid, s.fd, o.s.fd, local, peer)
  {
    local := Accept(id, nid, s, k, a).k.gens[|k.gens|].name;
    peer := if a.peerOk then Some(a.peer) else None;
  }

  lemma AcceptedCache(
    t: seq<Event>, id: nat, nid: nat, family: int, on: int, fd: int, local: string, peer: Option<string>)
    requires id != nid && Unseen(t, nid)
    ensures var c := CacheOf(t + AcceptEntries(id, nid, on, fd, local, peer), nid, family); c.agrees && c.named
  {
    CacheSkips(t, 0, nid, family);
    var e := AcceptEntries(id, nid, on, fd, local, peer);
    assert CacheOf(t, nid, family) == Cache(None, None, false, false);
    assert t + e == t + [e[0]] + [e[1]] + [e[2]] + [e[3]];
    hide CacheOf, Unseen;
    CacheOne(t, nid, family, e[0]);
    CacheOne(t + [e[0]], nid, family, e[1]);
    CacheOne(t + [e[0]] + [e[1]], nid, family, e[2]);
    CacheOne(t + [e[0]] + [e[1]] + [e[2]], nid, family, e[3]);
  }

  lemma AcceptHistory(id: nat, nid: nat, s: Sock, k: State, a: AcceptAnswer)
    requires id != nid && Unseen(k.trace, nid) && Accept(id, nid, s, k, a).ok && a.nameOk
    ensures var c := CacheOf(Accept(id, nid, s, k, a).k.trace, nid, s.family); c.agrees && c.named
    ensures Accept(id, nid, s, k, a).s.family == s.family
  {
    hide Accept, CacheOf, AcceptEntries, Unseen;
    var local, peer := AcceptTrace(id, nid, s, k, a);
    AcceptedCache(k.trace, id, nid, s.family, s.fd, Accept(id, nid, s, k, a).s.fd, local, peer);
  }

  // ---------- connect ----------

  /** Nothing is cached, or the present name of the descriptor. */
  predicate Agrees(s: Sock, k: State) {
    s.local.None? || s.local == PresentName(s, k)
  }

  predicate ConnectAgrees(id: nat, s: Sock, k: State, addr: Address, timeout: uint64, a: ConnectAnswer) {
    var o := Connect(id, s, k, addr, timeout, a);
    Agrees(o.s, o.k)
  }

  /** The connect ends in agreement whatever name the kernel chooses. */
  ghost predicate AgreesAnyway(id: nat, s: Sock, k: State, addr: Address, timeout: uint64, a: ConnectAnswer) {
    forall name :: ConnectAgrees(id, s, k, addr, timeout, a.(name := name))
  }

  /** The name of the descriptor that connect will use, before it does: none if it is yet to be made. */
  function NameBefore(s: Sock, k: State): string {
    if IsOpen(k, s.fd) then k.gens[k.open[s.fd]].name else ""
  }

  /** Connect will not change that name: the socket is a Unix one, or has a port of one host. */
  predicate SureOnConnect(s: Sock, k: State) {
    s.family == AF_UNIX || (HasPort(NameBefore(s, k)) && HasHost(s.family, NameBefore(s, k)))
  }

  /** The name that the kernel's answer gives it. */
  function NameAfter(s: Sock, k: State, a: ConnectAnswer): string {
    if SureOnConnect(s, k) then NameBefore(s, k) else a.name
  }

  lemma DialName(id: nat, s: Sock, k: State, addr: Address, timeout: uint64, a: ConnectAnswer)
    requires IsOpen(k, s.fd) && k.gens[k.open[s.fd]].family == s.family && Dial(id, s, k, addr, timeout, a).ok
    ensures var o := Dial(id, s, k, addr, timeout, a);
            PresentName(o.s, o.k) == Some(Wrap(s.family, NameAfter(s, k, a)))
  {}

  lemma ReadyName(id: nat, s: Sock, k: State, newFd: int)
    requires s.fd == -1 || (IsOpen(k, s.fd) && k.gens[k.open[s.fd]].family == s.family)
    requires s.fd == -1 ==> -1 !in k.open
    ensures var r := Ready(id, s, k, newFd);
            r.0.fd != -1 ==>
              IsOpen(r.1, r.0.fd) && r.1.gens[r.1.open[r.0.fd]].family == s.family &&
              NameBefore(r.0, r.1) == NameBefore(s, k)
  {}

  /** Exactly when a successful connect ends in agreement: nothing was cached, or what the descriptor is called
      then. */
  lemma ConnectAgreement(id: nat, s: Sock, k: State, addr: Address, timeout: uint64, a: ConnectAnswer)
    requires Good(id, s, k) && Connect(id, s, k, addr, timeout, a).ok
    ensures ConnectAgrees(id, s, k, addr, timeout, a) <==>
            s.local.None? || s.local == Some(Wrap(s.family, NameAfter(s, k, a)))
    ensures s.local.Some? ==> Connect(id, s, k, addr, timeout, a).s.local == s.local
  {
    var s0 := s.(remote := Some(addr));
    var k0 := Emit(k, ConnectRequest(id, addr));
    assert -1 !in k.open;
    hide Good;
    ReadyName(id, s0, k0, a.newFd);
    var r := Ready(id, s0, k0, a.newFd);
    DialName(id, r.0, r.1, addr, timeout, a);
    DialCache(id, r.0, r.1, addr, timeout, a);
    hide Dial, PresentName;
  }

  lemma NameIsFree(id: nat, s: Sock, k: State, addr: Address, timeout: uint64, a: ConnectAnswer, name: string)
    requires Connect(id, s, k, addr, timeout, a).ok
    ensures Connect(id, s, k, addr, timeout, a.(name := name)).ok
  {}

  lemma ConnectAgreesAnyway(id: nat, s: Sock, k: State, addr: Address, timeout: uint64, a: ConnectAnswer)
    requires Good(id, s, k) && Connect(id, s, k, addr, timeout, a).ok
    ensures AgreesAnyway(id, s, k, addr, timeout, a) <==>
            s.local.None? || (SureOnConnect(s, k) && s.local == Some(Wrap(s.family, NameBefore(s, k))))
  {
    hide Good, Connect, ConnectAgrees, NameBefore, SureOnConnect;
    forall name
      ensures ConnectAgrees(id, s, k, addr, timeout, a.(name := name)) <==>
              s.local.None? || s.local == Some(Wrap(s.family, NameAfter(s, k, a.(name := name))))
    {
      NameIsFree(id, s, k, addr, timeout, a, name);
      ConnectAgreement(id, s, k, addr, timeout, a.(name := name));
    }
    if s.local.Some? && !SureOnConnect(s, k) {
      var other := s.local.value.data + "x";
      assert Wrap(s.family, other).data == other && |other| == |s.local.value.data| + 1;
      assert NameAfter(s, k, a.(name := other)) == other;
      assert !ConnectAgrees(id, s, k, addr, timeout, a.(name := other));
    } else {
      assert AgreesAnyway(id, s, k, addr, timeout, a) ==> ConnectAgrees(id, s, k, addr, timeout, a.(name := a.name));
    }
  }

  /** A successful connect from any reachable state, without a close before: the cached address agrees afterwards
      exactly if nothing was cached, or the very name that the kernel leaves or gives the descriptor. Before the
      call agreement is certain exactly if nothing is cached, or the present name of a socket that keeps it. */
  lemma ConnectAgreesExactly(
    files: set<string>, ops: seq<Op>, id: nat, addr: Address, timeout: uint64, a: ConnectAnswer)
    requires var w := Reached(files, ops);
             id in w.socks && Connect(id, w.socks[id], w.k, addr, timeout, a).ok
    ensures var w := Reached(files, ops);
            var s := w.socks[id];
            && (s.local.Some? ==> Connect(id, s, w.k, addr, timeout, a).s.local == s.local)
            && (ConnectAgrees(id, s, w.k, addr, timeout, a) <==>
                s.local.None? || s.local == Some(Wrap(s.family, NameAfter(s, w.k, a))))
            && (AgreesAnyway(id, s, w.k, addr, timeout, a) <==>
                s.local.None? ||
                (SureOnConnect(s, w.k) && s.local == Some(Wrap(s.family, NameBefore(s, w.k)))))
  {
    ReachedInv(files, ops);
    InvGives(Reached(files, ops), id);
    hide Inv, Good, Reached, Connect, ConnectAgrees, AgreesAnyway, NameAfter, NameBefore, SureOnConnect;
    ConnectAgreement(id, Reached(files, ops).socks[id], Reached(files, ops).k, addr, timeout, a);
    ConnectAgreesAnyway(id, Reached(files, ops).socks[id], Reached(files, ops).k, addr, timeout, a);
  }

  /** Close followed by a successful connect keeps an address cached before, on a new generation. It agrees exactly
      if it is the name that the kernel chooses, which for a Unix socket is none; an internet socket's agreement
      is certain before the calls exactly if nothing is cached. */
  lemma CloseConnectKeepsOldAddress(
    files: set<string>, ops: seq<Op>, id: nat, addr: Address, timeout: uint64, a: ConnectAnswer)
    requires var w := Reached(files, ops);
             id in w.socks &&
             var c := Close(id, w.socks[id], w.k);
             Connect(id, c.s, c.k, addr, timeout, a).ok
    ensures var w := Reached(files, ops);
            var s := w.socks[id];
            var c := Close(id, s, w.k);
            var o := Connect(id, c.s, c.k, addr, timeout, a);
            && (s.local.Some? ==> o.s.local == s.local)
            && (Agrees(o.s, o.k) <==>
                s.local.None? || s.local == Some(Wrap(s.family, if s.family == AF_UNIX then "" else a.name)))
            && (AgreesAnyway(id, c.s, c.k, addr, timeout, a) <==>
                s.local.None? || (s.family == AF_UNIX && s.local == Some(UnixAddress(""))))
            && o.k.open[o.s.fd] >= |w.k.gens|
  {
    ReachedInv(files, ops);
    InvGives(Reached(files, ops), id);
    hide Inv, Reached;
    CloseThenConnect(id, Reached(files, ops).socks[id], Reached(files, ops).k, addr, timeout, a);
  }

  lemma CloseThenConnect(id: nat, s: Sock, k: State, addr: Address, timeout: uint64, a: ConnectAnswer)
    requires Good(id, s, k)
    requires var c := Close(id, s, k); Connect(id, c.s, c.k, addr, timeout, a).ok
    ensures var c := Close(id, s, k);
            var o := Connect(id, c.s, c.k, addr, timeout, a);
            && (s.local.Some? ==> o.s.local == s.local)
            && (Agrees(o.s, o.k) <==>
                s.local.None? || s.local == Some(Wrap(s.family, if s.family == AF_UNIX then "" else a.name)))
            && (AgreesAnyway(id, c.s, c.k, addr, timeout, a) <==>
                s.local.None? || (s.family == AF_UNIX && s.local == Some(UnixAddress(""))))
            && o.s.fd in o.k.open && o.k.open[o.s.fd] >= |k.gens|
  {
    var c := Close(id, s, k);
    ClosedName(id, s, k);
    CloseEmpties(id, s, k);
    hide Good, Close;
    ConnectMakesNew(id, c.s, c.k, addr, timeout, a);
    hide Connect, AgreesAnyway, NameBefore, SureOnConnect;
    ConnectAgreement(id, c.s, c.k, addr, timeout, a);
    ConnectAgreesAnyway(id, c.s, c.k, addr, timeout, a);
  }

  lemma ClosedName(id: nat, s: Sock, k: State)
    requires Good(id, s, k)
    ensures var c := Close(id, s, k);
            && Good(id, c.s, c.k) && |c.k.gens| == |k.gens|
            && NameBefore(c.s, c.k) == "" && (SureOnConnect(c.s, c.k) <==> s.family == AF_UNIX)
  {
    var c := Close(id, s, k);
    CloseGood(id, s, k);
    CloseEmpties(id, s, k);
    assert -1 !in c.k.open by {
      GoodMeans(id, c.s, c.k);
    }
    hide Good;
  }

  lemma ConnectMakesNew(id: nat, s: Sock, k: State, addr: Address, timeout: uint64, a: ConnectAnswer)
    requires s.fd == -1 && Connect(id, s, k, addr, timeout, a).ok
    ensures var o := Connect(id, s, k, addr, timeout, a); o.s.fd in o.k.open && o.k.open[o.s.fd] >= |k.gens|
  {}

  // ---------- bind ----------

  /** Binding to this address leaves the kernel nothing to choose: the name of a Unix address is not empty, or the
      port of an internet address not zero; and the address is of the class that the getters would make. */
  predicate Definite(addr: Address) {
    Exact(Some(addr), Family(addr))
  }

  lemma BindName(id: nat, pid: nat, s: Sock, k: State, addr: Address, a: BindAnswer)
    requires Good(id, s, k) && Bind(id, pid, s, k, addr, a).ok
    ensures var o := Bind(id, pid, s, k, addr, a);
            && o.s.local == Some(addr) && o.s.family == s.family == Family(addr)
            && var data := if Fixes(s.family, addr.data) then addr.data else a.chosen;
               Fixes(s.family, data) && PresentName(o.s, o.k) == Some(Wrap(s.family, data))
  {
    var s0 := s.(local := Some(addr));
    var k0 := Emit(k, BindRequest(id, addr));
    assert -1 !in k.open;
    hide Good;
    ReadyName(id, s0, k0, a.newFd);
    var r := BindStart(id, s, k, addr, a);
    if addr.UnixAddress? {
      ProbeNames(id, pid, r.1, addr, a);
    }
    hide Ready, Probe;
  }

  /** What bind caches is the address it was asked for. After a successful bind from any reachable state that is the
      present name exactly if the address leaves the kernel nothing to choose. */
  lemma BindAgreesExactly(files: set<string>, ops: seq<Op>, id: nat, addr: Address, a: BindAnswer)
    requires var w := Reached(files, ops);
             id in w.socks && Bind(id, w.nextId, w.socks[id], w.k, addr, a).ok
    ensures var w := Reached(files, ops);
            var o := Bind(id, w.nextId, w.socks[id], w.k, addr, a);
            o.s.local == PresentName(o.s, o.k) <==> Definite(addr)
  {
    var w := Reached(files, ops);
    ReachedInv(files, ops);
    InvGives(w, id);
    hide Inv, Good, Reached, Bind, PresentName, HasPort;
    BindName(id, w.nextId, w.socks[id], w.k, addr, a);
  }

  /** When bind comes to the kernel, its object is in order and the history has recorded the address. */
  lemma ProbedHistory(id: nat, pid: nat, s: Sock, k: State, addr: Address, a: BindAnswer)
    requires Good(id, s, k) && Unseen(k.trace, pid) && pid != id
    ensures var r := BindStart(id, s, k, addr, a);
            CacheOf(Probe(id, pid, r.1, addr, a).0.trace, id, s.family).local == Some(addr)
  {
    hide CacheOf, Watch;
    var s0 := s.(local := Some(addr));
    var k0 := Emit(k, BindRequest(id, addr));
    RequestGood(id, s, k, BindRequest(id, addr));
    ReadyGood(id, s0, k0, a.newFd);
    var r := BindStart(id, s, k, addr, a);
    hide Ready, Probe;
    UnseenElsewhere(pid, {id}, k, k0);
    UnseenElsewhere(pid, {id}, k0, r.1);
    ProbeGood(id, pid, r.0, r.1, addr, a);
  }

  /** The trace of a successful bind ends with the call. */
  lemma BindHistory(id: nat, pid: nat, s: Sock, k: State, addr: Address, a: BindAnswer)
    requires Good(id, s, k) && Unseen(k.trace, pid) && pid != id && Bind(id, pid, s, k, addr, a).ok
    ensures var c := CacheOf(Bind(id, pid, s, k, addr, a).k.trace, id, s.family);
            c.named && (c.agrees <==> Exact(Some(addr), s.family))
  {
    hide CacheOf, Good, Unseen, Ready, Probe, Exact;
    ProbedHistory(id, pid, s, k, addr, a);
    var r := BindStart(id, s, k, addr, a);
    CacheOne(Probe(id, pid, r.1, addr, a).0.trace, id, s.family, BindCall(id, r.0.fd, true));
    hide BindSucceeds;
  }

  /** Agreement that listening and transfers leave alone begins at a successful bind exactly if the address leaves
      the kernel nothing to choose. */
  lemma BindBeginsExactly(files: set<string>, ops: seq<Op>, id: nat, addr: Address, a: BindAnswer)
    requires var w := Reached(files, ops);
             id in w.socks && Bind(id, w.nextId, w.socks[id], w.k, addr, a).ok
    ensures Agreeing(Step(Reached(files, ops), DoBind(id, addr, a)), id) <==> Definite(addr)
  {
    var w := Reached(files, ops);
    hide Step, Inv, Good, Reached, Bind, CacheOf, Unseen, Exact, PresentName, Fixes, Wrap;
    ReachedInv(files, ops);
    InvGives(w, id);
    NewestUnseen(w);
    BindStep(w, id, addr, a);
    BindHistory(id, w.nextId, w.socks[id], w.k, addr, a);
    BindName(id, w.nextId, w.socks[id], w.k, addr, a);
  }

  lemma BindStep(w: World, id: nat, addr: Address, a: BindAnswer)
    requires id in w.socks
    ensures var w' := Step(w, DoBind(id, addr, a));
            && w'.k == Bind(id, w.nextId, w.socks[id], w.k, addr, a).k && id in w'.socks
            && w'.socks[id].family == w.socks[id].family
  {
    hide SysSocket, SysBind, Probe;
  }

  // ---------- transfer and listen ----------

  /** Sending, receiving and listening leave the name of the descriptor in the field alone: it has a name for good. */
  predicate SureOnUse(s: Sock, k: State) {
    IsOpen(k, s.fd) && Named(k.gens[k.open[s.fd]])
  }

  /** What sending or receiving, or listening (`listens`), leaves behind when the kernel does it. */
  function Used(listens: bool, id: nat, s: Sock, k: State, name: string): State {
    if listens then Listen(id, s, k, true, name).k else Transfer(id, s, k, name, 0).0
  }

  predicate UseAgrees(listens: bool, id: nat, s: Sock, k: State, name: string) {
    Agrees(s, Used(listens, id, s, k, name))
  }

  lemma UseAgreement(listens: bool, id: nat, s: Sock, k: State, name: string)
    requires IsOpen(k, s.fd) && s.fd != -1 && if listens then ListenSucceeds(k, s.fd, true) else s.connected
    ensures UseAgrees(listens, id, s, k, name) <==>
            s.local.None? || s.local == Some(Wrap(s.family, if SureOnUse(s, k) then NameBefore(s, k) else name))
  {}

  /** A send, receive or listen that reaches the kernel, from any reachable state: the cached address agrees afterwards
      exactly if nothing is cached, or the very name that the kernel leaves or gives the descriptor; and whatever
      name it gives, exactly if nothing is cached, or the present name of a socket that keeps it. */
  lemma UseAgreesExactly(files: set<string>, ops: seq<Op>, listens: bool, id: nat, name: string)
    requires var w := Reached(files, ops);
             id in w.socks && w.socks[id].fd != -1 &&
             if listens then ListenSucceeds(w.k, w.socks[id].fd, true) else w.socks[id].connected
    ensures var w := Reached(files, ops);
            var s := w.socks[id];
            && (UseAgrees(listens, id, s, w.k, name) <==>
                s.local.None? ||
                s.local == Some(Wrap(s.family, if SureOnUse(s, w.k) then NameBefore(s, w.k) else name)))
            && ((forall other :: UseAgrees(listens, id, s, w.k, other)) <==>
                s.local.None? || (SureOnUse(s, w.k) && s.local == PresentName(s, w.k)))
  {
    var w := Reached(files, ops);
    var s := w.socks[id];
    ReachedInv(files, ops);
    InvGives(w, id);
    assert IsOpen(w.k, s.fd);
    assert PresentName(s, w.k) == Some(Wrap(s.family, NameBefore(s, w.k)));
    hide Inv, Good, Reached, UseAgrees, SureOnUse, NameBefore, PresentName, ListenSucceeds;
    forall other
      ensures UseAgrees(listens, id, s, w.k, other) <==>
              s.local.None? ||
              s.local == Some(Wrap(s.family, if SureOnUse(s, w.k) then NameBefore(s, w.k) else other))
    {
      UseAgreement(listens, id, s, w.k, other);
    }
    if s.local.Some? {
      var other := s.local.value.data + "x";
      assert Wrap(s.family, other).data == other && |other| == |s.local.value.data| + 1;
      assert SureOnUse(s, w.k) || !UseAgrees(listens, id, s, w.k, other);
      assert (forall other :: UseAgrees(listens, id, s, w.k, other)) ==> UseAgrees(listens, id, s, w.k, name);
    }
  }
}
