/** The IPv4 scanner (network/ipv4/scanner.go): it finds, on the local
    networks, services whose expected ports are open, locks the addresses it
    reports, and remembers the network interfaces to scan. The operating
    system is an oracle: the interfaces it lists, the addresses to probe,
    whether a port answers, and the fresh identifiers it generates are
    parameters. */
module Ipv4Scanner {
  import opened Common
  import opened Ipv4Context

  // ---------------------------------------------------------------------
  // Addresses as big-endian numbers

  function Pow256(n: nat): (p: nat)
    ensures p >= 1
  {
    if n == 0 then 1 else 256 * Pow256(n - 1)
  }

  /** The unsigned big-endian number the bytes spell. */
  function Value(s: seq<u8>): nat
    decreases |s|
  {
    if s == [] then 0 else Value(s[..|s| - 1]) * 256 + s[|s| - 1]
  }

  lemma {:induction false} ValueAppend(a: seq<u8>, b: seq<u8>)
    ensures Value(a + b) == Value(a) * Pow256(|b|) + Value(b)
    decreases |b|
  {
    if b == [] {
      assert a + b == a;
    } else {
      var init, x := b[..|b| - 1], b[|b| - 1] as nat;
      assert (a + b)[..|a + b| - 1] == a + init && (a + b)[|a + b| - 1] == b[|b| - 1];
      ValueAppend(a, init);
      var v, p, w := Value(a), Pow256(|init|), Value(init);
      assert Value(a + b) == (v * p + w) * 256 + x;
      assert Value(b) == w * 256 + x && Pow256(|b|) == 256 * p;
      ShiftByte(v, p, w, x);
    }
  }

  lemma ShiftByte(v: nat, p: nat, w: nat, x: nat)
    ensures (v * p + w) * 256 + x == v * (256 * p) + (w * 256 + x)
  {
  }

  lemma {:induction false} ValueBound(s: seq<u8>)
    ensures Value(s) < Pow256(|s|)
    decreases |s|
  {
    if s != [] {
      ValueBound(s[..|s| - 1]);
    }
  }

  lemma {:induction false} ValueAllOnes(m: nat)
    ensures Value(seq(m, _ => 255 as u8)) == Pow256(m) - 1
  {
    if m > 0 {
      var s := seq(m, _ => 255 as u8);
      assert s[..m - 1] == seq(m - 1, _ => 255 as u8);
      ValueAllOnes(m - 1);
    }
  }

  lemma {:induction false} ValueZeros(m: nat)
    ensures Value(seq(m, _ => 0 as u8)) == 0
  {
    if m > 0 {
      var s := seq(m, _ => 0 as u8);
      assert s[..m - 1] == seq(m - 1, _ => 0 as u8);
      ValueZeros(m - 1);
    }
  }

  /** Adding one to a byte followed by m bytes of 255 gives that byte plus
      one followed by m zero bytes. */
  lemma CarryStep(p: seq<u8>, x: u8, m: nat)
    requires x < 255
    ensures Value(p + [x + 1] + seq(m, _ => 0 as u8)) == Value(p + [x] + seq(m, _ => 255 as u8)) + 1
  {
    var ones := seq(m, _ => 255 as u8);
    var zeros := seq(m, _ => 0 as u8);
    ValueAppend(p + [x + 1], zeros);
    ValueAppend(p + [x], ones);
    ValueZeros(m);
    ValueAllOnes(m);
    assert (p + [x + 1])[..|p|] == p && (p + [x])[..|p|] == p;
    var v, q := Value(p + [x]), Pow256(m);
    assert Value(p + [x + 1]) == v + 1;
    AddOneTimes(v, q);
  }

  lemma AddOneTimes(v: nat, q: nat)
    ensures (v + 1) * q == v * q + (q - 1) + 1
  {
  }

  /** The carry stopped at byte j: the bytes before it are unchanged, it
      went up by one, and the bytes after it went from 255 to 0. */
  lemma CarryStopped(before: seq<u8>, after: seq<u8>, j: nat)
    requires |after| == |before| && j < |before| && before[j] < 255
    requires after[..j] == before[..j] && after[j] == before[j] + 1
    requires forall k :: j < k < |before| ==> after[k] == 0 && before[k] == 255
    ensures Value(after) == (Value(before) + 1) % Pow256(|before|)
  {
    var m := |before| - j - 1;
    var p, x := before[..j], before[j];
    var zeros, ones := seq(m, _ => 0 as u8), seq(m, _ => 255 as u8);
    assert after == p + [x + 1] + zeros by {
      forall k | 0 <= k < |after| ensures after[k] == (p + [x + 1] + zeros)[k] {
        if k < j { assert after[k] == after[..j][k]; }
      }
    }
    assert before == p + [x] + ones;
    CarryStep(p, x, m);
    ValueBound(after);
    ModSmall(Value(before) + 1, Pow256(|before|));
  }

  lemma ModSmall(v: nat, n: nat)
    requires v < n
    ensures v % n == v
  {
  }

  /** The carry ran off the front: every byte was 255 and is now 0. */
  lemma CarryOverflowed(before: seq<u8>, after: seq<u8>)
    requires |after| == |before|
    requires forall k :: 0 <= k < |before| ==> after[k] == 0 && before[k] == 255
    ensures Value(after) == (Value(before) + 1) % Pow256(|before|)
  {
    var zeros, ones := seq(|before|, _ => 0 as u8), seq(|before|, _ => 255 as u8);
    assert after == zeros by {
      forall k | 0 <= k < |after| ensures after[k] == zeros[k] { }
    }
    assert before == ones by {
      forall k | 0 <= k < |before| ensures before[k] == ones[k] { }
    }
    ValueZeros(|before|);
    ValueAllOnes(|before|);
    ModSelf(Pow256(|before|));
  }

  lemma ModSelf(n: nat)
    requires n > 0
    ensures n % n == 0
  {
  }

  /** Adds one in place to the big-endian number in `ip`, wrapping around
      to zero past the largest address. */
  method IncrementIP(ip: array<u8>)
    modifies ip
    ensures Value(ip[..]) == (Value(old(ip[..])) + 1) % Pow256(ip.Length)
  {
    ghost var before := ip[..];
    var j := ip.Length - 1;
    while j >= 0
      invariant -1 <= j < ip.Length
      invariant forall k :: 0 <= k <= j ==> ip[k] == before[k]
      invariant forall k :: j < k < ip.Length ==> ip[k] == 0 && before[k] == 255
    {
      ip[j] := if ip[j] == 255 then 0 else ip[j] + 1;
      if ip[j] > 0 {
        assert ip[..j] == before[..j];
        CarryStopped(before, ip[..], j);
        return;
      }
      j := j - 1;
    }
    CarryOverflowed(before, ip[..]);
  }

  // ---------------------------------------------------------------------
  // The scanner

  const IgnoredIPv4Interfaces: set<string> := {"lo0", "tun0"}

  /** A network interface as the operating system lists it. */
  datatype NetInterface = NetInterface(name: string, index: int)

  /** Whether the port answers at the address. */
  type PortOracle = (string, u16) -> bool

  /** The descriptions all of whose ports answer at `ip`. */
  function MatchingIds(descs: map<string, ServiceDescription>, ip: string, open: PortOracle): set<string>
  {
    set id | id in descs && forall k :: 0 <= k < |descs[id].openPorts| ==> open(ip, descs[id].openPorts[k])
  }

  predicate NoDuplicates(s: seq<string>)
  {
    forall i, j :: 0 <= i < j < |s| ==> s[i] != s[j]
  }

  class Scanner {
    var interfaces: map<string, NetInterface>
    var descriptionsByID: map<string, ServiceDescription>
    var activeServicesByIP: set<string>

    /** A scanner with no descriptions, no locked address, and the
        interfaces found (which must be listable). */
    constructor NewScanner(ifaces: seq<NetInterface>)
      ensures descriptionsByID == map[] && activeServicesByIP == {}
      ensures interfaces.Keys == (set i | i in ifaces :: i.name) - IgnoredIPv4Interfaces
    {
      descriptionsByID := map[];
      activeServicesByIP := {};
      interfaces := map[];
      new;
      var _ := RefreshInterfaces(Ok(ifaces));
    }

    /** Searches for services matching the description from now on, under
        the identifier generated for it. */
    method AddDescription(desc: ServiceDescription, freshId: string) returns (id: string)
      modifies this`descriptionsByID
      ensures id == freshId
      ensures descriptionsByID == old(descriptionsByID)[id := desc]
    {
      id := freshId;
      descriptionsByID := descriptionsByID[id := desc];
    }

    /** The identifiers of the descriptions all of whose ports answer at
        `ip`, each once. A port found closed is remembered and not dialled
        again for another description; an open port is not remembered. */
    method GetMatchingDescriptions(ip: string, open: PortOracle)
        returns (matched: seq<string>, ghost dialled: seq<u16>)
      ensures NoDuplicates(matched)
      ensures (set id | id in matched) == MatchingIds(descriptionsByID, ip, open)
      ensures forall i, j :: 0 <= i < j < |dialled| && dialled[i] == dialled[j] ==> open(ip, dialled[i])
    {
      matched := [];
      dialled := [];
      var matchedPorts: map<u16, bool> := map[];
      var todo := descriptionsByID.Keys;
      while todo != {}
        invariant todo <= descriptionsByID.Keys
        invariant NoDuplicates(matched)
        invariant forall id :: id in matched ==> id !in todo
        invariant (set id | id in matched) == MatchingIds(descriptionsByID, ip, open) - todo
        invariant forall p :: p in matchedPorts ==> !matchedPorts[p] && !open(ip, p)
        invariant forall i, j :: 0 <= i < j < |dialled| && dialled[i] == dialled[j] ==> open(ip, dialled[i])
        invariant forall i :: 0 <= i < |dialled| && !open(ip, dialled[i]) ==> dialled[i] in matchedPorts
        decreases todo
      {
        var id :| id in todo;
        todo := todo - {id};
        var ports := descriptionsByID[id].openPorts;
        var allOpen := true;
        var k := 0;
        while k < |ports|
          invariant 0 <= k <= |ports|
          invariant allOpen
          invariant forall q :: 0 <= q < k ==> open(ip, ports[q])
          invariant forall p :: p in matchedPorts ==> !matchedPorts[p] && !open(ip, p)
          invariant forall i, j :: 0 <= i < j < |dialled| && dialled[i] == dialled[j] ==> open(ip, dialled[i])
          invariant forall i :: 0 <= i < |dialled| && !open(ip, dialled[i]) ==> dialled[i] in matchedPorts
        {
          var port := ports[k];
          if port in matchedPorts {
            if !matchedPorts[port] {
              assert !open(ip, ports[k]);
              allOpen := false;
              break;
            }
          } else {
            dialled := dialled + [port];
            if !open(ip, port) {
              assert !open(ip, ports[k]);
              allOpen := false;
              matchedPorts := matchedPorts[port := false];
              break;
            }
          }
          k := k + 1;
        }
        ghost var seen := set x | x in matched;
        if allOpen {
          assert id in MatchingIds(descriptionsByID, ip, open);
          matched := matched + [id];
          assert (set x | x in matched) == seen + {id};
        } else {
          assert 0 <= k < |ports| && !open(ip, ports[k]);
          assert id !in MatchingIds(descriptionsByID, ip, open);
        }
      }
    }

    /** Probes every candidate address that is not locked; each address
        where at least one description matches is reported with its
        matching identifiers and locked. With no descriptions, nothing is
        probed and nothing changes. */
    method Scan(candidates: seq<string>, open: PortOracle) returns (found: map<string, seq<string>>)
      modifies this`activeServicesByIP
      ensures |descriptionsByID| == 0 ==> found == map[] && activeServicesByIP == old(activeServicesByIP)
      ensures found.Keys !! old(activeServicesByIP)
      ensures activeServicesByIP == old(activeServicesByIP) + found.Keys
      ensures forall ip :: ip in found ==>
                ip in candidates && NoDuplicates(found[ip]) && found[ip] != []
                && (set id | id in found[ip]) == MatchingIds(descriptionsByID, ip, open)
      ensures forall ip :: (ip in candidates && ip !in old(activeServicesByIP)
                && MatchingIds(descriptionsByID, ip, open) != {}) ==> ip in found
    {
      found := map[];
      if |descriptionsByID| == 0 {
        return;
      }
      var i := 0;
      while i < |candidates|
        invariant 0 <= i <= |candidates|
        invariant found.Keys !! old(activeServicesByIP)
        invariant activeServicesByIP == old(activeServicesByIP) + found.Keys
        invariant forall ip :: ip in found ==>
                    ip in candidates[..i] && NoDuplicates(found[ip]) && found[ip] != []
                    && (set id | id in found[ip]) == MatchingIds(descriptionsByID, ip, open)
        invariant forall ip :: (ip in candidates[..i] && ip !in old(activeServicesByIP)
                    && MatchingIds(descriptionsByID, ip, open) != {}) ==> ip in found
      {
        var ip := candidates[i];
        if ip !in activeServicesByIP {
          var ids, _ := GetMatchingDescriptions(ip, open);
          if |ids| > 0 {
            found := found[ip := ids];
            activeServicesByIP := activeServicesByIP + {ip};
          } else {
            assert (set id | id in ids) == {};
          }
        }
        assert candidates[..i + 1] == candidates[..i] + [ip];
        i := i + 1;
      }
      assert candidates[..i] == candidates;
    }

    /** Includes the address in later scans again. */
    method Unlock(ip: string)
      modifies this`activeServicesByIP
      ensures activeServicesByIP == old(activeServicesByIP) - {ip}
    {
      activeServicesByIP := activeServicesByIP - {ip};
    }

    /** Replaces the remembered interfaces by those the operating system
        lists now, leaving out the loopback and tunnel interfaces; when
        they cannot be listed, it is an error and nothing changes. */
    method RefreshInterfaces(listed: Result<seq<NetInterface>>) returns (err: Outcome)
      modifies this`interfaces
      ensures err.Fail? <==> listed.Err?
      ensures listed.Err? ==> interfaces == old(interfaces)
      ensures listed.Ok? ==> interfaces.Keys == (set i | i in listed.value :: i.name) - IgnoredIPv4Interfaces
      ensures listed.Ok? ==> forall name :: name in interfaces ==>
                interfaces[name] in listed.value && interfaces[name].name == name
    {
      if listed.Err? {
        return Fail("error while refreshing ipv4 interfaces: " + listed.msg);
      }
      var ifaces := listed.value;
      var foundInterfaces: map<string, NetInterface> := map[];
      var k := 0;
      while k < |ifaces|
        invariant 0 <= k <= |ifaces|
        invariant foundInterfaces.Keys == (set i | i in ifaces[..k] :: i.name) - IgnoredIPv4Interfaces
        invariant forall name :: name in foundInterfaces ==>
                    foundInterfaces[name] in ifaces && foundInterfaces[name].name == name
      {
        var iface := ifaces[k];
        if iface.name !in IgnoredIPv4Interfaces {
          foundInterfaces := foundInterfaces[iface.name := iface];
          interfaces := interfaces - {iface.name};
        }
        assert ifaces[..k + 1] == ifaces[..k] + [iface];
        k := k + 1;
      }
      assert ifaces[..k] == ifaces;
      interfaces := foundInterfaces;
      return Pass;
    }
  }
}
