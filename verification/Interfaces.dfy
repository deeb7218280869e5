/** Which local addresses multicast goes out on (src/discovery/multicast/interfaces.rs). */
module Interfaces {
  import opened Options

  newtype Ipv4 = n: int | 0 <= n < 0x1_0000_0000

  datatype Interface = Interface(name: string, address: Ipv4, netmask: Ipv4)

  /** Neither 0.0.0.0 nor in 127.0.0.0/8. */
  predicate Usable(address: Ipv4) {
    address != 0 && address / 0x100_0000 != 127
  }

  predicate SameSubnet(address: Ipv4, primary: Ipv4, netmask: Ipv4) {
    (address as bv32) & (netmask as bv32) == (primary as bv32) & (netmask as bv32)
  }

  const BRIDGE_PREFIXES: seq<string> :=
    ["br-", "docker", "veth", "virbr", "vboxnet", "vmnet", "lxcbr", "lxdbr", "podman", "cni-"]

  predicate IsContainerBridge(name: string) {
    exists i :: 0 <= i < |BRIDGE_PREFIXES| && BRIDGE_PREFIXES[i] <= name
  }

  // ---- ordered sets ----

  predicate StrictlySorted(s: seq<Ipv4>) {
    forall i, j :: 0 <= i < j < |s| ==> s[i] < s[j]
  }

  lemma AppendSorted(s: seq<Ipv4>, x: Ipv4)
    requires StrictlySorted(s) && forall y :: y in s ==> y < x
    ensures StrictlySorted(s + [x])
  {
    forall i, j | 0 <= i < j < |s + [x]|
      ensures (s + [x])[i] < (s + [x])[j]
    {
      assert s[i] in s;
    }
  }

  lemma LastIsLargest(s: seq<Ipv4>)
    requires StrictlySorted(s) && s != []
    ensures var front, last := s[..|s| - 1], s[|s| - 1];
            && (forall y :: y in s <==> y in front || y == last)
            && (forall y :: y in front ==> y < last)
  {
  }

  function Insert(s: seq<Ipv4>, x: Ipv4): (r: seq<Ipv4>)
    requires StrictlySorted(s)
    ensures StrictlySorted(r) && forall y :: y in r <==> y in s || y == x
  {
    if s == [] then [x]
    else
      var k := |s| - 1;
      LastIsLargest(s);
      if s[k] < x then AppendSorted(s, x); s + [x]
      else if s[k] == x then s
      else
        var r := Insert(s[..k], x);
        AppendSorted(r, s[k]);
        r + [s[k]]
  }

  /** Collecting into an ordered set and iterating over it. */
  function Sorted(xs: seq<Ipv4>): (r: seq<Ipv4>)
    ensures StrictlySorted(r) && forall y :: y in r <==> y in xs
  {
    if xs == [] then [] else Insert(Sorted(xs[..|xs| - 1]), xs[|xs| - 1])
  }

  lemma SomeElement(s: seq<Ipv4>)
    ensures s == [] || exists y :: y in s
  {
    if s != [] { assert s[0] in s; }
  }

  /** A strictly sorted sequence is determined by its elements, so `Sorted` is the sort. */
  lemma {:induction false} SortedIsUnique(a: seq<Ipv4>, b: seq<Ipv4>)
    requires StrictlySorted(a) && StrictlySorted(b)
    requires forall y :: y in a <==> y in b
    ensures a == b
  {
    SomeElement(a);
    SomeElement(b);
    if a != [] {
      var j, k := |a| - 1, |b| - 1;
      assert a[j] in b && b[k] in a;
      assert a[j] == b[k];
      forall y
        ensures y in a[..j] <==> y in b[..k]
      {
        assert y in a[..j] ==> y in a && y < a[j];
        assert y in b[..k] ==> y in b && y < b[k];
      }
      SortedIsUnique(a[..j], b[..k]);
    }
  }

  // ---- selection ----

  predicate Chosen(i: Interface, names: Option<set<string>>, primary: Option<Ipv4>) {
    && (names.Some? ==> i.name in names.value)
    && Usable(i.address)
    && (primary.Some? ==> SameSubnet(i.address, primary.value, i.netmask))
  }

  function ChosenAddresses(
    interfaces: seq<Interface>, names: Option<set<string>>, primary: Option<Ipv4>): (r: seq<Ipv4>)
    ensures forall y :: y in r <==>
              exists i :: 0 <= i < |interfaces| && Chosen(interfaces[i], names, primary) && interfaces[i].address == y
  {
    if interfaces == [] then []
    else
      var k := |interfaces| - 1;
      ChosenAddresses(interfaces[..k], names, primary) +
      if Chosen(interfaces[k], names, primary) then [interfaces[k].address] else []
  }

  /** `select_interface_addresses` */
  function SelectInterfaceAddresses(
    interfaces: seq<Interface>, names: Option<set<string>>, primary: Option<Ipv4>): (r: seq<Ipv4>)
    ensures StrictlySorted(r)
    ensures forall y :: y in r <==>
              exists i :: 0 <= i < |interfaces| && Chosen(interfaces[i], names, primary) && interfaces[i].address == y
  {
    Sorted(ChosenAddresses(interfaces, names, primary))
  }

  predicate Keeps(i: Interface, primary: Option<Ipv4>) {
    Some(i.address) == primary || !IsContainerBridge(i.name)
  }

  function KeptInterfaces(interfaces: seq<Interface>, primary: Option<Ipv4>): (r: seq<Interface>)
    ensures forall i :: i in r <==> i in interfaces && Keeps(i, primary)
  {
    if interfaces == [] then []
    else
      var k := |interfaces| - 1;
      KeptInterfaces(interfaces[..k], primary) + if Keeps(interfaces[k], primary) then [interfaces[k]] else []
  }

  /** Bridges are dropped, but never the primary address, and never all there is. */
  function WithoutContainerBridges(interfaces: seq<Interface>, primary: Option<Ipv4>): (r: seq<Interface>)
    ensures interfaces != [] ==> r != []
    ensures forall i :: i in r ==> i in interfaces
    ensures forall i :: i in interfaces && (Some(i.address) == primary || !IsContainerBridge(i.name)) ==> i in r
    ensures forall i :: i in r && IsContainerBridge(i.name) && Some(i.address) != primary ==>
              r == interfaces && forall j :: j in interfaces ==> !Keeps(j, primary)
  {
    var kept := KeptInterfaces(interfaces, primary);
    if kept == [] then interfaces else kept
  }

  function Rest(all: seq<Ipv4>, near: seq<Ipv4>): (r: seq<Ipv4>)
    ensures forall y :: y in r <==> y in all && y !in near
    ensures StrictlySorted(all) ==> StrictlySorted(r)
  {
    if all == [] then []
    else
      var k := |all| - 1;
      var r := Rest(all[..k], near);
      assert forall y :: y in all <==> y in all[..k] || y == all[k];
      if all[k] in near then r
      else
        if StrictlySorted(all) then LastIsLargest(all); AppendSorted(r, all[k]); r + [all[k]]
        else r + [all[k]]
  }

  /** The sorted block on the primary's subnet, then the sorted rest. */
  function Ordered(kept: seq<Interface>, primary: Option<Ipv4>): seq<Ipv4> {
    var near := SelectInterfaceAddresses(kept, None, primary);
    near + Rest(SelectInterfaceAddresses(kept, None, None), near)
  }

  method SelectMulticastCandidates(interfaces: seq<Interface>, names: Option<set<string>>, primary: Option<Ipv4>)
    returns (candidates: seq<Ipv4>)
    ensures names.Some? ==> candidates == SelectInterfaceAddresses(interfaces, names, None)
    ensures names.None? ==> candidates == Ordered(WithoutContainerBridges(interfaces, primary), primary)
  {
    if names.Some? {
      return SelectInterfaceAddresses(interfaces, names, None);
    }
    var kept := WithoutContainerBridges(interfaces, primary);
    var near := SelectInterfaceAddresses(kept, None, primary);
    candidates := PushMissing(near, SelectInterfaceAddresses(kept, None, None));
  }

  /** The loop that adds every address that is not a candidate yet. */
  method PushMissing(near: seq<Ipv4>, all: seq<Ipv4>) returns (candidates: seq<Ipv4>)
    requires StrictlySorted(all)
    ensures candidates == near + Rest(all, near)
  {
    candidates := near;
    var i := 0;
    while i < |all|
      invariant 0 <= i <= |all|
      invariant candidates == near + Rest(all[..i], near)
    {
      RestStep(all, near, i);
      if all[i] !in candidates {
        candidates := candidates + [all[i]];
      }
      i := i + 1;
    }
    assert all[..i] == all;
  }

  /** Skipping what is already a candidate is skipping what is near, as nothing comes twice. */
  lemma RestStep(all: seq<Ipv4>, near: seq<Ipv4>, i: nat)
    requires StrictlySorted(all) && i < |all|
    ensures Rest(all[..i + 1], near) == Rest(all[..i], near) + if all[i] in near then [] else [all[i]]
    ensures all[i] in near + Rest(all[..i], near) <==> all[i] in near
  {
    assert all[..i + 1][..i] == all[..i];
    assert all[i] !in all[..i];
  }

  /** On the subnet of the primary as one of its interfaces sees it. */
  predicate NearBy(kept: seq<Interface>, primary: Option<Ipv4>, y: Ipv4) {
    exists i :: 0 <= i < |kept| && Chosen(kept[i], None, primary) && kept[i].address == y
  }

  predicate Available(kept: seq<Interface>, y: Ipv4) {
    exists i :: 0 <= i < |kept| && Usable(kept[i].address) && kept[i].address == y
  }

  lemma AvailableIsChosen(kept: seq<Interface>, y: Ipv4)
    ensures Available(kept, y) <==> y in SelectInterfaceAddresses(kept, None, None)
    ensures forall primary :: NearBy(kept, primary, y) ==> Available(kept, y)
  {
    if Available(kept, y) {
      var i :| 0 <= i < |kept| && Usable(kept[i].address) && kept[i].address == y;
      assert Chosen(kept[i], None, None);
    }
  }

  /**
   With no configured names the candidates are, without repetition, exactly the
   usable addresses of the kept interfaces: first those on the primary's subnet in
   ascending order, then all others in ascending order.
   */
  lemma CandidatesAreSortedBlocks(kept: seq<Interface>, primary: Option<Ipv4>, i: nat, j: nat)
    requires i < j < |Ordered(kept, primary)|
    ensures var out := Ordered(kept, primary);
            && out[i] != out[j]
            && (NearBy(kept, primary, out[j]) ==> NearBy(kept, primary, out[i]))
            && ((NearBy(kept, primary, out[i]) <==> NearBy(kept, primary, out[j])) ==> out[i] < out[j])
  {
    var near := SelectInterfaceAddresses(kept, None, primary);
    var rest := Rest(SelectInterfaceAddresses(kept, None, None), near);
    BlockOf(near, rest, i);
    BlockOf(near, rest, j);
  }

  /** Which block an output position belongs to. */
  lemma BlockOf(near: seq<Ipv4>, rest: seq<Ipv4>, i: nat)
    requires i < |near + rest| && forall y :: y in rest ==> y !in near
    ensures (near + rest)[i] in near <==> i < |near|
    ensures i >= |near| ==> (near + rest)[i] == rest[i - |near|]
  {
    if i >= |near| {
      assert rest[i - |near|] in rest;
    }
  }

  lemma CandidatesAreTheUsableAddresses(kept: seq<Interface>, primary: Option<Ipv4>, y: Ipv4)
    ensures y in Ordered(kept, primary) <==> Available(kept, y)
  {
    AvailableIsChosen(kept, y);
    assert y in SelectInterfaceAddresses(kept, None, primary) <==> NearBy(kept, primary, y);
  }
}
