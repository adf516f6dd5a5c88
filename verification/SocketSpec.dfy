/** The methods of Socket as functions from one (object, kernel) state to the next. */
module SocketSpec {
  import opened Addresses
  import opened Kernel

  /** uint64_t; the default timeout argument is (uint64_t)-1. */
  type uint64 = x: int | 0 <= x <= 0xFFFF_FFFF_FFFF_FFFF
  const NO_TIMEOUT: uint64 := 0xFFFF_FFFF_FFFF_FFFF

  /** The fields of a Socket object. */
  datatype Sock = Sock(
    fd: int,
    family: int,
    typ: int,
    connected: bool,
    local: Option<Address>,
    remote: Option<Address>)

  datatype Outcome = Outcome(s: Sock, k: State, ok: bool)

  /** The kernel's choices during one call; `newFd` is the number that socket(2) offers. */
  datatype ConnectAnswer = ConnectAnswer(newFd: int, ok: bool, name: string, nameOk: bool)
  datatype BindAnswer = BindAnswer(
    newFd: int, probe: ConnectAnswer, unlinkOk: bool, ok: bool, chosen: string)
  datatype AcceptAnswer = AcceptAnswer(
    newFd: int, name: string, peer: string, registered: bool, nameOk: bool, peerOk: bool)

  function Fresh(family: int, typ: int): Sock {
    Sock(-1, family, typ, false, None, None)
  }

  function NewSock(id: nat, s: Sock, k: State, newFd: int): (Sock, State) {
    var (k1, fd) := SysSocket(k, id, s.family, s.typ, newFd);
    (s.(fd := fd), k1)
  }

  /** The opening step shared by bind and connect: make a descriptor if there is none. */
  function Ready(id: nat, s: Sock, k: State, newFd: int): (Sock, State) {
    if s.fd != -1 then (s, k) else NewSock(id, s, k, newFd)
  }

  function QueryLocal(id: nat, s: Sock, k: State, ok: bool): (Sock, State) {
    if s.local.Some? then (s, k)
    else
      var (k1, answer) := SysName(k, id, s.fd, ok);
      if answer.None? then (s, k1) else (s.(local := Some(Wrap(s.family, answer.value))), k1)
  }

  function QueryRemote(id: nat, s: Sock, k: State, ok: bool): (Sock, State) {
    if s.remote.Some? then (s, k)
    else
      var (k1, answer) := SysPeer(k, id, s.fd, ok);
      if answer.None? then (s, k1) else (s.(remote := Some(Wrap(s.family, answer.value))), k1)
  }

  function Close(id: nat, s: Sock, k: State): Outcome {
    var k1 := Emit(k, CloseRequest(id));
    if !s.connected && s.fd == -1 then Outcome(s, k1, true)
    else if s.fd != -1 then Outcome(s.(connected := false, fd := -1), SysClose(k1, id, s.fd), true)
    else Outcome(s.(connected := false), k1, false)
  }

  /** Lines 210 to 238, after the descriptor was made or found. */
  function Dial(id: nat, s: Sock, k: State, addr: Address, timeout: uint64, a: ConnectAnswer): Outcome {
    if s.fd == -1 || Family(addr) != s.family then Outcome(s, k, false)
    else
      var (k1, ok) := SysConnect(k, id, s.fd, addr, a.ok, a.name);
      if ok then
        var (s2, k2) := QueryLocal(id, s.(connected := true), k1, a.nameOk);
        Outcome(s2, k2, true)
      else if timeout == NO_TIMEOUT then Outcome(s, k1, false)
      else
        var c := Close(id, s, k1);
        Outcome(c.s, c.k, false)
  }

  function Connect(id: nat, s: Sock, k: State, addr: Address, timeout: uint64, a: ConnectAnswer): Outcome {
    var (s1, k1) := Ready(id, s.(remote := Some(addr)), Emit(k, ConnectRequest(id, addr)), a.newFd);
    Dial(id, s1, k1, addr, timeout, a)
  }

  function Reconnect(id: nat, s: Sock, k: State, timeout: uint64, a: ConnectAnswer): Outcome {
    var k1 := Emit(k, ReconnectRequest(id));
    if s.remote.None? then Outcome(s, k1, false)
    else Connect(id, s.(local := None), k1, s.remote.value, timeout, a)
  }

  /** Lines 173 to 181 of bind: the trial connection by a temporary Socket `pid`, the unlink when it
      fails, and the temporary's destruction. The flag says whether bind goes on. */
  function Probe(id: nat, pid: nat, k: State, addr: Address, a: BindAnswer): (State, bool) {
    if !addr.UnixAddress? then (k, true)
    else
      var c := Connect(pid, Fresh(AF_UNIX, SOCK_STREAM), k, addr, NO_TIMEOUT, a.probe);
      if c.ok then (Close(pid, c.s, c.k).k, false)
      else (Close(pid, c.s, SysUnlink(c.k, id, GetPath(addr.data), a.unlinkOk)).k, true)
  }

  function Bind(id: nat, pid: nat, s: Sock, k: State, addr: Address, a: BindAnswer): Outcome {
    var (s1, k1) := Ready(id, s.(local := Some(addr)), Emit(k, BindRequest(id, addr)), a.newFd);
    if s1.fd == -1 || Family(addr) != s.family then Outcome(s1, k1, false)
    else
      var (k2, go) := Probe(id, pid, k1, addr, a);
      if !go then Outcome(s1, k2, false)
      else
        var (k3, ok) := SysBind(k2, id, s1.fd, addr, a.ok, a.chosen);
        Outcome(s1, k3, ok)
  }

  function Listen(id: nat, s: Sock, k: State, ok: bool, name: string): Outcome {
    if s.fd == -1 then Outcome(s, k, false)
    else
      var (k1, done) := SysListen(k, id, s.fd, ok, name);
      Outcome(s, k1, done)
  }

  /** `init`: take over an accepted descriptor if the descriptor manager knows it as a socket. */
  function Init(id: nat, s: Sock, k: State, fd: int, a: AcceptAnswer): Outcome {
    var k1 := Emit(k, InitCall(id, fd, a.registered));
    if !a.registered then Outcome(s, k1, false)
    else
      var (s2, k2) := QueryLocal(id, s.(fd := fd, connected := true), k1, a.nameOk);
      var (s3, k3) := QueryRemote(id, s2, k2, a.peerOk);
      Outcome(s3, k3, true)
  }

  /** `accept`, with the new object `nid`; when `ok` is false that object is destroyed again. */
  function Accept(id: nat, nid: nat, s: Sock, k: State, a: AcceptAnswer): Outcome {
    var n := Fresh(s.family, s.typ);
    var (k1, fd) := SysAccept(k, id, s.fd, a.newFd, a.name, a.peer);
    if fd == -1 then Outcome(n, Close(nid, n, k1).k, false)
    else
      var i := Init(nid, n, k1, fd, a);
      if i.ok then i else Outcome(n, Close(nid, n, i.k).k, false)
  }

  /** CreateUDPSocket and CreateUDPSocket6. */
  function CreateUdp(id: nat, family: int, k: State, newFd: int): (Sock, State) {
    var (s1, k1) := NewSock(id, Fresh(family, SOCK_DGRAM), k, newFd);
    (s1.(connected := true), Emit(k1, UdpMark(id)))
  }

  /** Every send and receive variant: guarded by the connected flag, then one kernel call. */
  function Transfer(id: nat, s: Sock, k: State, name: string, count: int): (State, int) {
    if s.connected then SysTransfer(k, id, s.fd, name, count) else (k, -1)
  }
}
