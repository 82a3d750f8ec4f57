/** The SOCKS5 CONNECT request (section 4 of RFC 1928) as the local proxy reads it. */
module Socks5 {
  import opened Bytes

  datatype Error = BadVersion | NotConnect | BadAddressType | BadName | Closed

  /** The destination; the program turns it into text. */
  datatype Host = V4(octets: seq<byte>) | Name(text: seq<byte>) | V6(octets: seq<byte>)

  datatype Parse = More | Fail(error: Error) | Done(host: Host, port: u16, leftover: seq<byte>)

  const MAX_HEADER_SIZE := 64 * 1024

  predicate Continues(s: seq<byte>, i: nat, n: nat) {
    i + n <= |s| && forall j :: i <= j < i + n ==> 0x80 <= s[j] < 0xC0
  }

  /** The length of the UTF-8 sequence at `i` (section 4 of RFC 3629), or 0 when there is none. */
  function Utf8Length(s: seq<byte>, i: nat): (n: nat)
    requires i < |s|
    ensures i + n <= |s|
  {
    if s[i] < 0x80 then 1
    else if 0xC2 <= s[i] < 0xE0 && Continues(s, i + 1, 1) then 2
    else if 0xE0 <= s[i] < 0xF0 && Continues(s, i + 1, 2)
            && (s[i] == 0xE0 ==> s[i + 1] >= 0xA0) && (s[i] == 0xED ==> s[i + 1] < 0xA0) then 3
    else if 0xF0 <= s[i] < 0xF5 && Continues(s, i + 1, 3)
            && (s[i] == 0xF0 ==> s[i + 1] >= 0x90) && (s[i] == 0xF4 ==> s[i + 1] < 0x90) then 4
    else 0
  }

  predicate IsUtf8From(s: seq<byte>, i: nat)
    requires i <= |s|
    decreases |s| - i
  {
    i == |s| || (Utf8Length(s, i) > 0 && IsUtf8From(s, i + Utf8Length(s, i)))
  }

  predicate IsUtf8(s: seq<byte>) {
    IsUtf8From(s, 0)
  }

  /** The port behind an address that ends at `cursor`. */
  function WithPort(buffer: seq<byte>, host: Host, cursor: nat): (r: Parse) {
    if |buffer| < cursor + 2 then More
    else Done(host, FromBe16(buffer[cursor], buffer[cursor + 1]), buffer[cursor + 2..])
  }

  /** `parse_socks5_connect`. */
  function ParseConnect(buffer: seq<byte>): (r: Parse) {
    if |buffer| < 4 then More
    else if buffer[0] != 5 then Fail(BadVersion)
    else if buffer[1] != 1 then Fail(NotConnect)
    else if buffer[3] == 1 then
      if |buffer| < 10 then More else WithPort(buffer, V4(buffer[4..8]), 8)
    else if buffer[3] == 3 then
      if |buffer| < 5 then More
      else
        var end := 5 + buffer[4] as int;
        if |buffer| < end + 2 then More
        else if !IsUtf8(buffer[5..end]) then Fail(BadName)
        else WithPort(buffer, Name(buffer[5..end]), end)
    else if buffer[3] == 4 then
      if |buffer| < 22 then More else WithPort(buffer, V6(buffer[4..20]), 20)
    else Fail(BadAddressType)
  }

  /** More input is only asked for while the longest request could still be incomplete. */
  lemma MoreIsShort(buffer: seq<byte>)
    ensures ParseConnect(buffer).More? ==> |buffer| < 262
  {
  }

  lemma Grown(buffer: seq<byte>, more: seq<byte>, from: nat, end: nat)
    requires from <= end && end + 2 <= |buffer|
    ensures var all := buffer + more;
            all[from..end] == buffer[from..end] && all[end + 2..] == buffer[end + 2..] + more
  {
  }

  /** A decision already taken is not changed by more input: the leftover grows and nothing else. */
  lemma Stable(buffer: seq<byte>, more: seq<byte>)
    ensures ParseConnect(buffer).Fail? ==> ParseConnect(buffer + more) == ParseConnect(buffer)
    ensures ParseConnect(buffer).Done? ==>
              var r := ParseConnect(buffer);
              ParseConnect(buffer + more) == Done(r.host, r.port, r.leftover + more)
  {
    var all := buffer + more;
    if |buffer| >= 10 {
      Grown(buffer, more, 4, 8);
    }
    if |buffer| >= 22 {
      Grown(buffer, more, 4, 20);
    }
    if |buffer| >= 5 && |buffer| >= 5 + buffer[4] as int + 2 {
      Grown(buffer, more, 5, 5 + buffer[4] as int);
    }
  }

  /** A stream that ends early is reported as closed. */
  function AtEnd(r: Parse): (outcome: Parse) {
    if r.More? then Fail(Closed) else r
  }

  /** The bytes the reads bring: a read of nothing is the end of the stream. */
  function Coming(arrivals: seq<seq<byte>>): (bytes: seq<byte>) {
    if arrivals == [] || arrivals[0] == [] then [] else arrivals[0] + Coming(arrivals[1..])
  }

  lemma Arrived(buffer: seq<byte>, arrivals: seq<seq<byte>>, i: nat)
    requires i < |arrivals| && arrivals[i] != []
    ensures buffer + Coming(arrivals[i..]) == buffer + arrivals[i] + Coming(arrivals[i + 1..])
  {
    assert arrivals[i..][1..] == arrivals[i + 1..];
  }

  /** The same verdict, with the leftover of `whole` split between `r` and the bytes still to come. */
  predicate Agrees(r: Parse, coming: seq<byte>, whole: Parse) {
    if whole.Done? then
      r.Done? && r.host == whole.host && r.port == whole.port && r.leftover + coming == whole.leftover
    else r == whole
  }

  /** One look at the buffer, with `coming` still on its way. */
  method TryConnect(buffer: seq<byte>, ghost coming: seq<byte>) returns (r: Parse)
    ensures r == ParseConnect(buffer)
    ensures r.More? ==> |buffer| < 262
    ensures !r.More? ==> Agrees(r, coming, AtEnd(ParseConnect(buffer + coming)))
  {
    r := ParseConnect(buffer);
    MoreIsShort(buffer);
    Stable(buffer, coming);
  }

  /**
   * The request phase: reads are appended until the parser decides. The result
   * depends on the bytes of the stream alone, not on how they were cut: it is
   * the parser's verdict on all of them, with the leftover split between what
   * was read and what was not. The size limit is never the reason to stop.
   */
  method ReadConnect(arrivals: seq<seq<byte>>) returns (r: Parse, unread: seq<seq<byte>>)
    ensures Agrees(r, Coming(unread), AtEnd(ParseConnect(Coming(arrivals))))
  {
    var buffer: seq<byte> := [];
    var i := 0;
    ghost var whole := Coming(arrivals);
    while i < |arrivals| && arrivals[i] != []
      invariant 0 <= i <= |arrivals|
      invariant buffer + Coming(arrivals[i..]) == whole
      invariant ParseConnect(buffer).More?
    {
      Arrived(buffer, arrivals, i);
      buffer := buffer + arrivals[i];
      i := i + 1;
      r := TryConnect(buffer, Coming(arrivals[i..]));
      if !r.More? {
        return r, arrivals[i..];
      }
      if |buffer| > MAX_HEADER_SIZE {
        assert false;
      }
    }
    assert buffer == whole by {
      assert Coming(arrivals[i..]) == [] && buffer + [] == buffer;
    }
    r, unread := Fail(Closed), [];
  }

  predicate IsHost(h: Host) {
    match h
    case V4(octets) => |octets| == 4
    case Name(text) => |text| <= 255 && IsUtf8(text)
    case V6(octets) => |octets| == 16
  }

  function Address(h: Host): (bytes: seq<byte>)
    requires IsHost(h)
  {
    match h
    case V4(octets) => octets
    case Name(text) => [|text|] + text
    case V6(octets) => octets
  }

  function AddressType(h: Host): (t: byte) {
    match h
    case V4(_) => 1
    case Name(_) => 3
    case V6(_) => 4
  }

  /** VER CMD RSV ATYP DST.ADDR DST.PORT. */
  function Connect(h: Host, port: u16, reserved: byte): (bytes: seq<byte>)
    requires IsHost(h)
  {
    [5, 1, reserved, AddressType(h)] + Address(h) + Be16(port)
  }

  lemma ConnectParts(h: Host, port: u16, reserved: byte, rest: seq<byte>)
    requires IsHost(h)
    ensures var b := Connect(h, port, reserved) + rest; var end := 4 + |Address(h)|;
            && |b| == end + 2 + |rest| && b[0] == 5 && b[1] == 1 && b[2] == reserved && b[3] == AddressType(h)
            && b[4..end] == Address(h) && b[end..end + 2] == Be16(port) && b[end + 2..] == rest
  {
  }

  /** Encoding a request and parsing it gives it back, with whatever followed it. */
  lemma ConnectParses(h: Host, port: u16, reserved: byte, rest: seq<byte>)
    requires IsHost(h)
    ensures ParseConnect(Connect(h, port, reserved) + rest) == Done(h, port, rest)
  {
    var b := Connect(h, port, reserved) + rest;
    var end := 4 + |Address(h)|;
    ConnectParts(h, port, reserved, rest);
    assert [b[end], b[end + 1]] == b[end..end + 2];
    if h.Name? {
      assert b[4] == b[4..end][0];
      assert b[5..end] == b[4..end][1..];
    }
  }

  lemma NameStands(buffer: seq<byte>, end: nat)
    requires |buffer| >= 5 && end == 5 + buffer[4] as int <= |buffer|
    ensures buffer[4..end] == [|buffer[5..end]|] + buffer[5..end]
  {
  }

  lemma PortStands(buffer: seq<byte>, end: nat)
    requires end + 2 <= |buffer|
    ensures buffer[end..end + 2] == Be16(FromBe16(buffer[end], buffer[end + 1]))
  {
    Be16Back(buffer[end], buffer[end + 1]);
  }

  lemma AddressStands(buffer: seq<byte>)
    requires ParseConnect(buffer).Done?
    ensures var r := ParseConnect(buffer);
            && IsHost(r.host) && var end := 4 + |Address(r.host)|;
            && end + 2 <= |buffer| && buffer[4..end] == Address(r.host)
            && buffer[end..end + 2] == Be16(r.port) && buffer[end + 2..] == r.leftover
  {
    var r := ParseConnect(buffer);
    if r.host.Name? {
      NameStands(buffer, 5 + buffer[4] as int);
    }
    var end := 4 + |Address(r.host)|;
    PortStands(buffer, end);
  }

  lemma Cut(s: seq<byte>, a: nat, b: nat)
    requires a <= b && b + 2 <= |s|
    ensures s == s[..a] + s[a..b] + s[b..b + 2] + s[b + 2..]
  {
  }

  /** The parser accepts nothing else: an accepted buffer is an encoded request and its leftover. */
  lemma OnlyConnectParses(buffer: seq<byte>)
    requires ParseConnect(buffer).Done?
    ensures var r := ParseConnect(buffer);
            IsHost(r.host) && buffer == Connect(r.host, r.port, buffer[2]) + r.leftover
  {
    var r := ParseConnect(buffer);
    var end := 4 + |Address(r.host)|;
    AddressStands(buffer);
    assert buffer[..4] == [5, 1, buffer[2], AddressType(r.host)];
    Cut(buffer, 4, end);
  }
}
