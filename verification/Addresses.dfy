/** Socket addresses as src/socket.cc sees them, and the names the kernel derives from their bytes. */
module Addresses {

  datatype Option<+T> = None | Some(value: T)

  const AF_UNIX := 1
  const AF_INET := 2
  const AF_INET6 := 10

  const SOCK_STREAM := 1
  const SOCK_DGRAM := 2

  /** One constructor per address class. `data` holds the bytes after the family field; for a
      UnixAddress these are the first `m_len - offsetof(sun_path)` bytes of the path buffer. */
  datatype Address =
    | IPv4Address(data: string)
    | IPv6Address(data: string)
    | UnixAddress(data: string)
    | UnknownAddress(family: int, data: string)

  function Family(a: Address): int {
    match a
    case IPv4Address(_) => AF_INET
    case IPv6Address(_) => AF_INET6
    case UnixAddress(_) => AF_UNIX
    case UnknownAddress(f, _) => f
  }

  /** An internet address (its bytes after the family field) with a port: the first two bytes are not zero. */
  predicate HasPort(data: string) {
    |data| >= 2 && data[..2] != "\0\0"
  }

  /** ... and one that names a host and not the wildcard. */
  predicate HasHost(family: int, data: string) {
    if family == AF_INET then |data| >= 6 && data[2..6] != "\0\0\0\0"
    else family == AF_INET6 && |data| >= 22 && data[6..22] != "\0\0\0\0\0\0\0\0\0\0\0\0\0\0\0\0"
  }

  /** Binding to these bytes leaves the kernel nothing to choose. */
  predicate Fixes(family: int, data: string) {
    if family == AF_UNIX then data != "" else HasPort(data)
  }

  /** The address object that the getters allocate for a family and let the kernel fill. */
  function Wrap(family: int, data: string): Address {
    if family == AF_INET then IPv4Address(data)
    else if family == AF_INET6 then IPv6Address(data)
    else if family == AF_UNIX then UnixAddress(data)
    else UnknownAddress(family, data)
  }

  /** What the getters return, without caching it, when the kernel does not answer. */
  function NoAnswer(family: int): Address {
    UnknownAddress(family, seq(14, _ => '\0'))
  }

  /** The UnixAddress constructor: the bytes of the string with their final NUL, or without it if the string
      starts with a NUL. */
  function FromString(path: string): Address {
    UnixAddress(if path != "" && path[0] == '\0' then path else path + "\0")
  }

  /** What a getter returns, given the field it has filled or not. */
  function Shown(cached: Option<Address>, family: int): Address {
    if cached.Some? then cached.value else NoAnswer(family)
  }

  /** Family and class agree: the getters' address for the family of an address, with its bytes, is that address,
      except for an unknown one that carries a known family. */
  lemma FamilyFixesClass(a: Address)
    ensures Wrap(Family(a), a.data) == a <==> !(a.UnknownAddress? && a.family in {AF_UNIX, AF_INET, AF_INET6})
  {}

  /** What a C string function reads: everything before the first NUL. */
  function CString(s: string): string {
    if s == "" || s[0] == '\0' then "" else [s[0]] + CString(s[1..])
  }

  /** The kernel's reading of a Unix address: a leading NUL selects the abstract name space. */
  datatype UnixName = Unnamed | Abstract(name: string) | Pathname(path: string)

  function NameOf(data: string): UnixName {
    if data == "" then Unnamed
    else if data[0] == '\0' then Abstract(data[1..])
    else Pathname(CString(data))
  }

  /** UnixAddress::getPath: an abstract name is rendered with a visible backslash and zero. */
  function GetPath(data: string): string {
    if data != "" && data[0] == '\0' then "\\0" + data[1..] else CString(data)
  }

  /** The file that FSUtil::Unlink removes when handed GetPath(data): unlink(2) takes a C string. */
  function UnlinkTarget(data: string): UnixName {
    Pathname(CString(GetPath(data)))
  }

  lemma {:induction false} CStringIdempotent(s: string)
    ensures CString(CString(s)) == CString(s)
  {
    if s == "" || s[0] == '\0' {
    } else {
      assert CString(s)[1..] == CString(s[1..]);
      CStringIdempotent(s[1..]);
    }
  }

  lemma {:induction false} CStringEnds(s: string)
    ensures CString(s + "\0") == CString(s)
  {
    if s == "" || s[0] == '\0' {
    } else {
      CStringEnds(s[1..]);
      assert (s + "\0")[1..] == s[1..] + "\0";
    }
  }

  /** What a constructed address names: the abstract name after a leading NUL, else a path. The empty string does
      not give the unnamed address but the abstract name of no bytes. */
  lemma FromStringNames(path: string)
    ensures NameOf(FromString(path).data) ==
            if path == "" then Abstract("")
            else if path[0] == '\0' then Abstract(path[1..])
            else Pathname(CString(path))
  {
    CStringEnds(path);
    if path == "" {
      var data := "\0";
      assert data[1..] == "";
    }
  }

  lemma {:induction false} CStringWhole(s: string)
    requires '\0' !in s
    ensures CString(s) == s
  {
    if s == "" {
    } else {
      CStringWhole(s[1..]);
    }
  }

  /** What getPath says of a constructed address: the path itself, where the string has no NUL, and a visible backslash
      and zero for the leading NUL of an abstract one (and for the empty string). */
  lemma GetPathReadsBack(path: string)
    ensures path != "" && '\0' !in path ==> GetPath(FromString(path).data) == path
    ensures path != "" && path[0] == '\0' ==> GetPath(FromString(path).data) == "\\0" + path[1..]
    ensures path == "" ==> GetPath(FromString(path).data) == "\\0"
  {
    CStringEnds(path);
    if path == "" {
      var data := "\0";
      assert data[1..] == "";
    } else if '\0' !in path {
      CStringWhole(path);
    }
  }

  /** The name that is probed is the name that is unlinked exactly for file-system addresses; an
      abstract address instead hits the file whose name starts with a backslash and a zero. */
  lemma UnlinkTargetIsName(data: string)
    requires data != ""
    ensures UnlinkTarget(data) == NameOf(data) <==> NameOf(data).Pathname?
    ensures NameOf(data).Abstract? ==> UnlinkTarget(data) == Pathname("\\0" + CString(data[1..]))
  {
    if data[0] == '\0' {
      var r := "\\0" + data[1..];
      assert r[1..] == "0" + data[1..];
      assert r[1..][1..] == data[1..];
      assert CString(r) == "\\" + CString(r[1..]);
      assert CString(r[1..]) == "0" + CString(data[1..]);
      assert "\\" + ("0" + CString(data[1..])) == "\\0" + CString(data[1..]);
    } else {
      CStringIdempotent(data);
    }
  }
}
