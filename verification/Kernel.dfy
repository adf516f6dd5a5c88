/** The operating system as far as src/socket.cc can tell: descriptor numbers that are recycled, one
    generation per descriptor ever made, the Unix name table, and a trace of what was asked of it.
    Every call takes the kernel's free choices as arguments; an impossible choice is a failure. */
module Kernel {
  import opened Addresses

  /** State of one generation, that is of one descriptor from the call that made it to its close. */
  datatype Gen = Gen(
    family: int,
    typ: int,
    alive: bool,
    bound: bool,
    name: string,
    listening: bool,
    peer: Option<string>)

  /** What a Unix name leads to: a socket of this run, or something that was there before. */
  datatype Node = SocketNode(gen: nat) | Leftover

  /** Trace entries: `...Call` is a system call (or the verdict of `init`) with its result,
      `...Request` a call of a Socket method; `id` is the issuing Socket object. */
  datatype Event =
    | SocketCall(id: nat, typ: int, fd: int)
    | AcceptCall(id: nat, on: int, fd: int)
    | InitCall(id: nat, fd: int, taken: bool)
    | ConnectCall(id: nat, fd: int, ok: bool)
    | BindCall(id: nat, fd: int, ok: bool)
    | ListenCall(id: nat, fd: int, ok: bool)
    | NameCall(id: nat, fd: int, answer: Option<string>)
    | PeerCall(id: nat, fd: int, answer: Option<string>)
    | UnlinkCall(id: nat, path: string, ok: bool)
    | TransferCall(id: nat, fd: int)
    | CloseCall(id: nat, fd: int)
    | BindRequest(id: nat, addr: Address)
    | ConnectRequest(id: nat, addr: Address)
    | ReconnectRequest(id: nat)
    | CloseRequest(id: nat)
    | UdpMark(id: nat)

  datatype State = State(
    open: map<int, nat>,
    gens: seq<Gen>,
    names: map<UnixName, Node>,
    trace: seq<Event>)

  function Pathnames(files: set<string>): set<UnixName> {
    set f | f in files :: Pathname(f)
  }

  /** The kernel at the start: nothing open, any files already on disk. */
  function Boot(files: set<string>): State {
    State(map[], [], map n | n in Pathnames(files) :: Leftover, [])
  }

  function Emit(k: State, e: Event): State {
    k.(trace := k.trace + [e])
  }

  predicate IsOpen(k: State, fd: int) {
    fd in k.open && k.open[fd] < |k.gens|
  }

  predicate Usable(k: State, fd: int) {
    fd >= 0 && fd !in k.open
  }

  /** Something at `n` that a socket of type `typ` can be connected to. */
  predicate Answers(k: State, n: UnixName, typ: int) {
    n in k.names && k.names[n].SocketNode? &&
    var t := k.names[n].gen;
    t < |k.gens| && k.gens[t].alive && k.gens[t].typ == typ && (typ == SOCK_STREAM ==> k.gens[t].listening)
  }

  function SysSocket(k: State, id: nat, family: int, typ: int, offer: int): (State, int) {
    if Usable(k, offer) then
      (Emit(k.(open := k.open[offer := |k.gens|],
               gens := k.gens + [Gen(family, typ, true, false, "", false, None)]),
            SocketCall(id, typ, offer)),
       offer)
    else
      (Emit(k, SocketCall(id, typ, -1)), -1)
  }

  function SysAccept(k: State, id: nat, on: int, offer: int, name: string, peer: string): (State, int) {
    if Usable(k, offer) && IsOpen(k, on) && k.gens[k.open[on]].listening then
      var l := k.gens[k.open[on]];
      var local := if l.family == AF_UNIX then l.name else name;
      (Emit(k.(open := k.open[offer := |k.gens|],
               gens := k.gens + [Gen(l.family, l.typ, true, true, local, false, Some(peer))]),
            AcceptCall(id, on, offer)),
       offer)
    else
      (Emit(k, AcceptCall(id, on, -1)), -1)
  }

  /** The kernel does not rename the socket when it is connected: it is bound to a port of one host, ... */
  predicate Placed(g: Gen) {
    g.family == AF_UNIX || (HasPort(g.name) && HasHost(g.family, g.name))
  }

  /** ... or when it listens or transfers: it was bound, connected or accepted, or has a port anyhow. */
  predicate Named(g: Gen) {
    g.family == AF_UNIX || g.bound || g.peer.Some? || HasPort(g.name)
  }

  /** A name the kernel picks unless the socket is sure of its own. */
  function Renamed(g: Gen, sure: bool, name: string): Gen {
    if sure then g else g.(name := name)
  }

  predicate ConnectSucceeds(k: State, fd: int, addr: Address, ok: bool) {
    ok && IsOpen(k, fd) &&
    var g := k.gens[k.open[fd]];
    !g.listening && (g.family == AF_UNIX ==> Answers(k, NameOf(addr.data), g.typ))
  }

  function SysConnect(k: State, id: nat, fd: int, addr: Address, ok: bool, name: string): (State, bool) {
    if ConnectSucceeds(k, fd, addr, ok) then
      var g := k.open[fd];
      (Emit(k.(gens := k.gens[g := Renamed(k.gens[g], Placed(k.gens[g]), name).(peer := Some(addr.data))]),
            ConnectCall(id, fd, true)),
       true)
    else
      (Emit(k, ConnectCall(id, fd, false)), false)
  }

  /** The bytes a socket ends up bound to: as asked, or chosen by the kernel where the address leaves it a choice. */
  function BoundName(g: Gen, addr: Address, chosen: string): string {
    if Fixes(g.family, addr.data) then addr.data else chosen
  }

  predicate BindSucceeds(k: State, fd: int, addr: Address, ok: bool, chosen: string) {
    ok && IsOpen(k, fd) &&
    var g := k.gens[k.open[fd]];
    var data := BoundName(g, addr, chosen);
    !g.bound && Fixes(g.family, data) &&
    (g.family == AF_UNIX ==> NameOf(data) !in k.names && (addr.data == "" ==> NameOf(data).Abstract?))
  }

  function SysBind(k: State, id: nat, fd: int, addr: Address, ok: bool, chosen: string): (State, bool) {
    if BindSucceeds(k, fd, addr, ok, chosen) then
      var g := k.open[fd];
      var data := BoundName(k.gens[g], addr, chosen);
      (Emit(k.(gens := k.gens[g := k.gens[g].(bound := true, name := data)],
               names := if k.gens[g].family == AF_UNIX then k.names[NameOf(data) := SocketNode(g)] else k.names),
            BindCall(id, fd, true)),
       true)
    else
      (Emit(k, BindCall(id, fd, false)), false)
  }

  predicate ListenSucceeds(k: State, fd: int, ok: bool) {
    ok && IsOpen(k, fd) &&
    var g := k.gens[k.open[fd]];
    g.typ == SOCK_STREAM && g.peer.None? && (g.family == AF_UNIX ==> g.bound)
  }

  function SysListen(k: State, id: nat, fd: int, ok: bool, name: string): (State, bool) {
    if ListenSucceeds(k, fd, ok) then
      var g := k.open[fd];
      (Emit(k.(gens := k.gens[g := Renamed(k.gens[g], Named(k.gens[g]), name).(listening := true)]),
            ListenCall(id, fd, true)),
       true)
    else
      (Emit(k, ListenCall(id, fd, false)), false)
  }

  function SysName(k: State, id: nat, fd: int, ok: bool): (State, Option<string>) {
    var answer := if ok && IsOpen(k, fd) then Some(k.gens[k.open[fd]].name) else None;
    (Emit(k, NameCall(id, fd, answer)), answer)
  }

  function SysPeer(k: State, id: nat, fd: int, ok: bool): (State, Option<string>) {
    var answer := if ok && IsOpen(k, fd) then k.gens[k.open[fd]].peer else None;
    (Emit(k, PeerCall(id, fd, answer)), answer)
  }

  function SysTransfer(k: State, id: nat, fd: int, name: string, count: int): (State, int) {
    if IsOpen(k, fd) then
      var g := k.open[fd];
      (Emit(k.(gens := k.gens[g := Renamed(k.gens[g], Named(k.gens[g]), name)]), TransferCall(id, fd)), count)
    else
      (Emit(k, TransferCall(id, fd)), -1)
  }

  function SysUnlink(k: State, id: nat, path: string, ok: bool): State {
    var n := Pathname(CString(path));
    Emit(if ok then k.(names := k.names - {n}) else k, UnlinkCall(id, path, ok && n in k.names))
  }

  /** Closing frees the number and any abstract name, and leaves a file-system entry behind. */
  function SysClose(k: State, id: nat, fd: int): State {
    if IsOpen(k, fd) then
      var g := k.open[fd];
      Emit(k.(open := k.open - {fd},
              gens := k.gens[g := k.gens[g].(alive := false)],
              names := map n | n in k.names && !(n.Abstract? && k.names[n] == SocketNode(g)) :: k.names[n]),
           CloseCall(id, fd))
    else
      Emit(k, CloseCall(id, fd))
  }
}
