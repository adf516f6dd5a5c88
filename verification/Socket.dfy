/** The Socket class as it is written, field updates and all, each method tied to its function in
    SocketSpec. Kernel choices are arguments; `nid` is the identity of an object a method makes. */
module Sockets {
  import opened Addresses
  import Kernel
  import Spec = SocketSpec

  /** The operating system as an object that every Socket shares. */
  class System {
    var state: Kernel.State

    constructor (files: set<string>)
      ensures state == Kernel.Boot(files)
    {
      state := Kernel.Boot(files);
    }

    method OpenSocket(id: nat, family: int, typ: int, offer: int) returns (fd: int)
      modifies this
      ensures (state, fd) == Kernel.SysSocket(old(state), id, family, typ, offer)
    {
      var r := Kernel.SysSocket(state, id, family, typ, offer);
      state, fd := r.0, r.1;
    }

    method Accept(id: nat, on: int, offer: int, name: string, peer: string) returns (fd: int)
      modifies this
      ensures (state, fd) == Kernel.SysAccept(old(state), id, on, offer, name, peer)
    {
      var r := Kernel.SysAccept(state, id, on, offer, name, peer);
      state, fd := r.0, r.1;
    }

    method Connect(id: nat, fd: int, addr: Address, may: bool, name: string) returns (ok: bool)
      modifies this
      ensures (state, ok) == Kernel.SysConnect(old(state), id, fd, addr, may, name)
    {
      var r := Kernel.SysConnect(state, id, fd, addr, may, name);
      state, ok := r.0, r.1;
    }

    method Bind(id: nat, fd: int, addr: Address, may: bool, chosen: string) returns (ok: bool)
      modifies this
      ensures (state, ok) == Kernel.SysBind(old(state), id, fd, addr, may, chosen)
    {
      var r := Kernel.SysBind(state, id, fd, addr, may, chosen);
      state, ok := r.0, r.1;
    }

    method Listen(id: nat, fd: int, may: bool, name: string) returns (ok: bool)
      modifies this
      ensures (state, ok) == Kernel.SysListen(old(state), id, fd, may, name)
    {
      var r := Kernel.SysListen(state, id, fd, may, name);
      state, ok := r.0, r.1;
    }

    method GetSockName(id: nat, fd: int, may: bool) returns (answer: Option<string>)
      modifies this
      ensures (state, answer) == Kernel.SysName(old(state), id, fd, may)
    {
      var r := Kernel.SysName(state, id, fd, may);
      state, answer := r.0, r.1;
    }

    method GetPeerName(id: nat, fd: int, may: bool) returns (answer: Option<string>)
      modifies this
      ensures (state, answer) == Kernel.SysPeer(old(state), id, fd, may)
    {
      var r := Kernel.SysPeer(state, id, fd, may);
      state, answer := r.0, r.1;
    }

    method Transfer(id: nat, fd: int, name: string, answer: int) returns (count: int)
      modifies this
      ensures (state, count) == Kernel.SysTransfer(old(state), id, fd, name, answer)
    {
      var r := Kernel.SysTransfer(state, id, fd, name, answer);
      state, count := r.0, r.1;
    }

    method Unlink(id: nat, path: string, may: bool)
      modifies this
      ensures state == Kernel.SysUnlink(old(state), id, path, may)
    {
      state := Kernel.SysUnlink(state, id, path, may);
    }

    method Close(id: nat, fd: int)
      modifies this
      ensures state == Kernel.SysClose(old(state), id, fd)
    {
      state := Kernel.SysClose(state, id, fd);
    }

    /** Adds an entry to the trace that is not a system call. */
    method Note(e: Kernel.Event)
      modifies this
      ensures state == Kernel.Emit(old(state), e)
    {
      state := Kernel.Emit(state, e);
    }
  }

  class Socket {
    const system: System
    const id: nat
    const family: int
    const typ: int
    var sock: int
    var isConnected: bool
    var localAddress: Option<Address>
    var remoteAddress: Option<Address>

    function Fields(): (s: Spec.Sock)
      reads this
    {
      Spec.Sock(sock, family, typ, isConnected, localAddress, remoteAddress)
    }

    constructor (system: System, id: nat, family: int, typ: int)
      ensures this.system == system && this.id == id
      ensures Fields() == Spec.Fresh(family, typ)
    {
      this.system, this.id, this.family, this.typ := system, id, family, typ;
      sock, isConnected, localAddress, remoteAddress := -1, false, None, None;
    }

    predicate IsValid()
      reads this
    {
      sock != -1
    }

    method NewSock(newFd: int)
      modifies this`sock, system
      ensures (Fields(), system.state) == Spec.NewSock(id, old(Fields()), old(system.state), newFd)
    {
      sock := system.OpenSocket(id, family, typ, newFd);
    }

    method Close() returns (ok: bool)
      modifies this`sock, this`isConnected, system
      ensures Spec.Outcome(Fields(), system.state, ok) == Spec.Close(id, old(Fields()), old(system.state))
    {
      system.Note(Kernel.CloseRequest(id));
      if !isConnected && sock == -1 {
        return true;
      }
      isConnected := false;
      if sock != -1 {
        system.Close(id, sock);
        sock := -1;
        return true;
      }
      return false;
    }

    method GetLocalAddress(may: bool) returns (result: Address)
      modifies this`localAddress, system
      ensures (Fields(), system.state) == Spec.QueryLocal(id, old(Fields()), old(system.state), may)
      ensures result == Shown(localAddress, family)
    {
      if localAddress.Some? {
        return localAddress.value;
      }
      var answer := system.GetSockName(id, sock, may);
      if answer.None? {
        return NoAnswer(family);
      }
      localAddress := Some(Wrap(family, answer.value));
      return localAddress.value;
    }

    method GetRemoteAddress(may: bool) returns (result: Address)
      modifies this`remoteAddress, system
      ensures (Fields(), system.state) == Spec.QueryRemote(id, old(Fields()), old(system.state), may)
      ensures result == Shown(remoteAddress, family)
    {
      if remoteAddress.Some? {
        return remoteAddress.value;
      }
      var answer := system.GetPeerName(id, sock, may);
      if answer.None? {
        return NoAnswer(family);
      }
      remoteAddress := Some(Wrap(family, answer.value));
      return remoteAddress.value;
    }

    method Connect(addr: Address, timeout: Spec.uint64, a: Spec.ConnectAnswer) returns (ok: bool)
      modifies this, system
      ensures Spec.Outcome(Fields(), system.state, ok) ==
              Spec.Connect(id, old(Fields()), old(system.state), addr, timeout, a)
    {
      hide Kernel.SysSocket, Kernel.SysConnect, Spec.Close, Spec.QueryLocal;
      system.Note(Kernel.ConnectRequest(id, addr));
      remoteAddress := Some(addr);
      if !IsValid() {
        NewSock(a.newFd);
        if !IsValid() {
          return false;
        }
      }
      if Family(addr) != family {
        return false;
      }
      var done := system.Connect(id, sock, addr, a.ok, a.name);
      if timeout == Spec.NO_TIMEOUT {
        if !done {
          return false;
        }
      } else {
        if !done {
          var _ := Close();
          return false;
        }
      }
      isConnected := true;
      var _ := GetRemoteAddress(true);
      var _ := GetLocalAddress(a.nameOk);
      return true;
    }

    method Reconnect(timeout: Spec.uint64, a: Spec.ConnectAnswer) returns (ok: bool)
      modifies this, system
      ensures Spec.Outcome(Fields(), system.state, ok) ==
              Spec.Reconnect(id, old(Fields()), old(system.state), timeout, a)
    {
      system.Note(Kernel.ReconnectRequest(id));
      if remoteAddress.None? {
        return false;
      }
      localAddress := None;
      ok := Connect(remoteAddress.value, timeout, a);
    }

    method Bind(addr: Address, nid: nat, a: Spec.BindAnswer) returns (ok: bool)
      modifies this, system
      ensures Spec.Outcome(Fields(), system.state, ok) ==
              Spec.Bind(id, nid, old(Fields()), old(system.state), addr, a)
    {
      hide Kernel.SysSocket, Kernel.SysBind, Kernel.SysUnlink, Spec.Connect, Spec.Close;
      system.Note(Kernel.BindRequest(id, addr));
      localAddress := Some(addr);
      if !IsValid() {
        NewSock(a.newFd);
        if !IsValid() {
          return false;
        }
      }
      if Family(addr) != family {
        return false;
      }
      if addr.UnixAddress? {
        var probe := new Socket(system, nid, AF_UNIX, SOCK_STREAM);
        var taken := probe.Connect(addr, Spec.NO_TIMEOUT, a.probe);
        if taken {
          var _ := probe.Close();
          return false;
        } else {
          system.Unlink(id, GetPath(addr.data), a.unlinkOk);
        }
        var _ := probe.Close();
      }
      ok := system.Bind(id, sock, addr, a.ok, a.chosen);
      if !ok {
        return false;
      }
      var _ := GetLocalAddress(true);
      return true;
    }

    method Listen(may: bool, name: string) returns (ok: bool)
      modifies system
      ensures Spec.Outcome(Fields(), system.state, ok) ==
              Spec.Listen(id, old(Fields()), old(system.state), may, name)
    {
      if !IsValid() {
        return false;
      }
      ok := system.Listen(id, sock, may, name);
    }

    method Init(fd: int, a: Spec.AcceptAnswer) returns (ok: bool)
      modifies this, system
      ensures Spec.Outcome(Fields(), system.state, ok) == Spec.Init(id, old(Fields()), old(system.state), fd, a)
    {
      system.Note(Kernel.InitCall(id, fd, a.registered));
      if a.registered {
        sock := fd;
        isConnected := true;
        var _ := GetLocalAddress(a.nameOk);
        var _ := GetRemoteAddress(a.peerOk);
        return true;
      }
      return false;
    }

    method Accept(nid: nat, a: Spec.AcceptAnswer) returns (conn: Socket?)
      modifies system
      ensures var o := Spec.Accept(id, nid, old(Fields()), old(system.state), a);
              && system.state == o.k
              && (conn != null <==> o.ok)
              && (conn != null ==> fresh(conn) && conn.id == nid && conn.system == system && conn.Fields() == o.s)
    {
      var made := new Socket(system, nid, family, typ);
      var fd := system.Accept(id, sock, a.newFd, a.name, a.peer);
      if fd == -1 {
        var _ := made.Close();
        return null;
      }
      var taken := made.Init(fd, a);
      if taken {
        return made;
      }
      var _ := made.Close();
      return null;
    }

    /** Every variant of send and receive; the payload is not modelled. */
    method Transfer(name: string, answer: int) returns (count: int)
      modifies system
      ensures (system.state, count) == Spec.Transfer(id, Fields(), old(system.state), name, answer)
    {
      if isConnected {
        count := system.Transfer(id, sock, name, answer);
        return;
      }
      return -1;
    }
  }

  /** CreateTCP, and with the family fixed CreateTCPSocket, CreateTCPSocket6 and CreateUnixTCPSocket. */
  method CreateTCP(system: System, id: nat, address: Address) returns (s: Socket)
    ensures fresh(s) && s.id == id && s.system == system && s.Fields() == Spec.Fresh(Family(address), SOCK_STREAM)
  {
    s := new Socket(system, id, Family(address), SOCK_STREAM);
  }

  /** CreateUDP, and with the Unix family CreateUnixUDPSocket: no descriptor and no connected flag. */
  method CreateUDP(system: System, id: nat, address: Address) returns (s: Socket)
    ensures fresh(s) && s.id == id && s.system == system && s.Fields() == Spec.Fresh(Family(address), SOCK_DGRAM)
  {
    s := new Socket(system, id, Family(address), SOCK_DGRAM);
  }

  /** CreateUDPSocket and CreateUDPSocket6. */
  method CreateUDPSocket(system: System, id: nat, v6: bool, newFd: int) returns (s: Socket)
    modifies system
    ensures fresh(s) && s.id == id && s.system == system
    ensures (s.Fields(), system.state) ==
            Spec.CreateUdp(id, if v6 then AF_INET6 else AF_INET, old(system.state), newFd)
  {
    s := new Socket(system, id, if v6 then AF_INET6 else AF_INET, SOCK_DGRAM);
    s.NewSock(newFd);
    s.isConnected := true;
    system.Note(Kernel.UdpMark(id));
  }
}
