/** IPv4 addresses and the address classes `is_safe_url` refuses to contact. */
module Ipv4 {

  type Octet = x: int | 0 <= x < 256

  /** The dotted quad `a.b.c.d`, as returned by `socket.gethostbyname`. */
  datatype Address = Address(a: Octet, b: Octet, c: Octet, d: Octet)

  /** The address as a 32-bit unsigned number, most significant octet first. */
  function ToNat(ip: Address): nat {
    ip.a * 0x100_0000 + ip.b * 0x1_0000 + ip.c * 0x100 + ip.d
  }

  function Pow2(n: nat): (r: nat)
    ensures r >= 1
  {
    if n == 0 then 1 else 2 * Pow2(n - 1)
  }

  type PrefixLength = n: nat | n <= 32

  /** CIDR membership: `ip` lies in `net/len` when the two agree on the first `len` bits. */
  predicate InBlock(ip: Address, net: Address, len: PrefixLength) {
    ToNat(ip) / Pow2(32 - len) == ToNat(net) / Pow2(32 - len)
  }

  /** The three private blocks of section 3 of RFC 1918 (10/8, 172.16/12, 192.168/16), read
      off the first two octets; `BlocksByOctets` relates each test to its CIDR block. */
  predicate IsRfc1918(ip: Address) {
    ip.a == 10 || (ip.a == 172 && 16 <= ip.b < 32) || (ip.a == 192 && ip.b == 168)
  }

  /** `127.0.0.0/8`, section 3.2.1.3 of RFC 1122: `is_loopback`. */
  predicate IsLoopback(ip: Address) {
    ip.a == 127
  }

  /** `169.254.0.0/16`, RFC 3927: `is_link_local`. */
  predicate IsLinkLocal(ip: Address) {
    ip.a == 169 && ip.b == 254
  }

  /** `is_private`: Python's table lists the RFC 1918 blocks, loopback and link-local, and
      further special-purpose blocks of RFC 6890 whose exact list depends on the Python
      release; those are the parameter `special`, and `PythonSpecial` is one such table. */
  predicate IsPrivate(ip: Address, special: Address -> bool) {
    IsRfc1918(ip) || IsLoopback(ip) || IsLinkLocal(ip) || special(ip)
  }

  /** The further blocks of the `ipaddress` table of private networks in Python 3.13:
      0.0.0.0/8, 192.0.0.0/24 except 192.0.0.9 and 192.0.0.10, 192.0.2.0/24, 198.18.0.0/15,
      198.51.100.0/24, 203.0.113.0/24, and 240.0.0.0/4 (which holds 255.255.255.255). The
      shared address space 100.64.0.0/10 of RFC 6598 is not in the table. */
  predicate PythonSpecial(ip: Address) {
    || ip.a == 0
    || (ip.a == 192 && ip.b == 0 && ip.c == 0 && ip.d != 9 && ip.d != 10)
    || (ip.a == 192 && ip.b == 0 && ip.c == 2)
    || (ip.a == 198 && 18 <= ip.b < 20)
    || (ip.a == 198 && ip.b == 51 && ip.c == 100)
    || (ip.a == 203 && ip.b == 0 && ip.c == 113)
    || ip.a >= 240
  }

  /** `ip_obj.is_private or ip_obj.is_loopback or ip_obj.is_link_local`. */
  predicate IsInternal(ip: Address, special: Address -> bool) {
    IsPrivate(ip, special) || IsLoopback(ip) || IsLinkLocal(ip)
  }

  lemma Pow2Values()
    ensures Pow2(16) == 0x1_0000 && Pow2(20) == 0x10_0000 && Pow2(24) == 0x100_0000
  {
    assert Pow2(16) == 0x1_0000 by {
      assert Pow2(4) == 16;
      assert Pow2(8) == 256;
      assert Pow2(12) == 4096;
    }
    assert Pow2(20) == 0x10_0000;
    assert Pow2(24) == 0x100_0000;
  }

  lemma TopBits(ip: Address)
    ensures ToNat(ip) / 0x100_0000 == ip.a
    ensures ToNat(ip) / 0x10_0000 == ip.a * 16 + ip.b / 16
    ensures ToNat(ip) / 0x1_0000 == ip.a * 256 + ip.b
  {
  }

  /** Each octet test above is membership of the CIDR block the RFC names. */
  lemma BlocksByOctets(ip: Address)
    ensures IsRfc1918(ip) <==>
      || InBlock(ip, Address(10, 0, 0, 0), 8)
      || InBlock(ip, Address(172, 16, 0, 0), 12)
      || InBlock(ip, Address(192, 168, 0, 0), 16)
    ensures IsLoopback(ip) <==> InBlock(ip, Address(127, 0, 0, 0), 8)
    ensures IsLinkLocal(ip) <==> InBlock(ip, Address(169, 254, 0, 0), 16)
  {
    Pow2Values();
    TopBits(ip);
    Rfc1918Blocks(ip);
    TopBits(Address(127, 0, 0, 0));
    TopBits(Address(169, 254, 0, 0));
  }

  lemma Rfc1918Blocks(ip: Address)
    ensures IsRfc1918(ip) <==>
      || InBlock(ip, Address(10, 0, 0, 0), 8)
      || InBlock(ip, Address(172, 16, 0, 0), 12)
      || InBlock(ip, Address(192, 168, 0, 0), 16)
  {
    Pow2Values();
    TopBits(ip);
    TopBits(Address(10, 0, 0, 0));
    TopBits(Address(172, 16, 0, 0));
    TopBits(Address(192, 168, 0, 0));
  }

  /** An address is refused exactly when it lies in one of the named RFC blocks or is one of
      the further special-purpose addresses. */
  lemma InternalByBlocks(ip: Address, special: Address -> bool)
    ensures IsInternal(ip, special) <==>
      || InBlock(ip, Address(10, 0, 0, 0), 8)
      || InBlock(ip, Address(172, 16, 0, 0), 12)
      || InBlock(ip, Address(192, 168, 0, 0), 16)
      || InBlock(ip, Address(127, 0, 0, 0), 8)
      || InBlock(ip, Address(169, 254, 0, 0), 16)
      || special(ip)
  {
    BlocksByOctets(ip);
  }

  /** With Python's table, an address of the shared address space 100.64.0.0/10 (first octet
      100, second 64 to 127) is not internal, while the documentation and reserved blocks are. */
  lemma SharedAddressSpaceNotInternal(ip: Address)
    ensures ip.a == 100 && 64 <= ip.b < 128 ==> !IsInternal(ip, PythonSpecial)
    ensures (ip.a == 192 && ip.b == 0 && ip.c == 2) || ip.a >= 240 ==> IsInternal(ip, PythonSpecial)
  {
  }
}
