/** Planning the addresses of a new pool: `planned_pool_addresses` and its helpers. */
module PoolPlan {
  import opened Basics
  import opened Cidr

  datatype IpStatus = Free | Reserved | Used | Main

  const MAX_MATERIALIZED: nat := 4096

  /** One item of the reserved list, split and trimmed: an address, a CIDR, a range whose
      ends may fail to parse, or anything else. */
  datatype ReservedItem =
    | Address(addr: IpAddr)
    | Network(net: Net)
    | Range(first: Option<IpAddr>, last: Option<IpAddr>)
    | Malformed

  predicate WellTyped(item: ReservedItem) {
    match item
    case Address(a) => ValidAddr(a)
    case Network(n) => ValidNet(n)
    case Range(f, l) => (f.Some? ==> ValidAddr(f.value)) && (l.Some? ==> ValidAddr(l.value))
    case Malformed => true
  }

  /** The addresses an item asks to reserve. */
  predicate Covers(item: ReservedItem, a: IpAddr)
    requires WellTyped(item)
  {
    match item
    case Address(x) => a == x
    case Network(n) => Contains(n, a)
    case Range(f, l) =>
      && f.Some? && l.Some? && a.family == f.value.family == l.value.family
      && f.value.number <= a.number <= l.value.number
    case Malformed => false
  }

  /** The items that are accepted: ranges run upwards within one family, and neither a
      range nor a network has more than 4096 addresses. */
  predicate Acceptable(item: ReservedItem)
    requires WellTyped(item)
  {
    match item
    case Address(_) => true
    case Network(n) => BlockSize(n) <= 4096
    case Range(f, l) =>
      && f.Some? && l.Some? && f.value.family == l.value.family
      && f.value.number <= l.value.number < f.value.number + 4096
    case Malformed => false
  }

  ghost predicate Requested(gateway: Option<IpAddr>, items: seq<ReservedItem>, a: IpAddr)
    requires forall i :: 0 <= i < |items| ==> WellTyped(items[i])
  {
    gateway == Some(a) || exists i :: 0 <= i < |items| && Covers(items[i], a)
  }

  /** The network and broadcast addresses of an IPv4 pool with prefix up to /30. */
  predicate UnusableEdge(n: Net, a: IpAddr)
    requires ValidNet(n)
  {
    && n.addr.family == V4 && n.prefix <= 30
    && (a.number == FirstOf(n) || a.number == LastOf(n))
  }

  // --- Saturating 128-bit arithmetic ------------------------------------------------------

  function SaturatingAdd(a: nat, b: nat): nat {
    if a + b > MAX_U128 then MAX_U128 else a + b
  }

  function SaturatingSub(a: nat, b: nat): nat {
    if a < b then 0 else a - b
  }

  lemma FitsFamily(family: Family, number: nat)
    requires number < Pow2(Width(family))
    ensures NumberedIp(family, number) == IpAddr(family, number) && number <= MAX_U128
  {
    MaxIsAllOnes();
    Pow2Of32();
  }

  // --- Expanding the reserved list ----------------------------------------------------------

  method InsertNumberedRange(family: Family, first: nat, last: nat, addresses: set<IpAddr>)
    returns (r: Result<set<IpAddr>>)
    requires first <= last < Pow2(Width(family))
    ensures r.Ok? <==> last - first < 4096
    ensures r.Ok? ==> forall a :: a in r.value <==>
                        a in addresses || (a.family == family && first <= a.number <= last)
  {
    FitsFamily(family, last);
    var size := SaturatingAdd(SaturatingSub(last, first), 1);
    if size > MAX_MATERIALIZED { return Err(Validation); }
    var extended := addresses;
    for number := first to last + 1
      invariant forall a :: a in extended <==>
                  a in addresses || (a.family == family && first <= a.number < number)
    {
      FitsFamily(family, number);
      extended := extended + {NumberedIp(family, number)};
    }
    r := Ok(extended);
  }

  method ExpandReservedSpec(item: ReservedItem, addresses: set<IpAddr>) returns (r: Result<set<IpAddr>>)
    requires WellTyped(item)
    ensures r.Ok? <==> Acceptable(item)
    ensures r.Ok? ==> forall a :: a in r.value <==> a in addresses || Covers(item, a)
  {
    match item {
      case Address(a) =>
        r := Ok(addresses + {a});
      case Network(n) =>
        BoundsAreTheBlock(n);
        BlockInRange(n);
        var (family, first, last) := NetworkBounds(n);
        r := InsertNumberedRange(family, first, last, addresses);
      case Range(f, l) =>
        if f.None? || l.None? { return Err(Validation); }
        var (firstFamily, first) := NumberedAddress(f.value);
        var (lastFamily, last) := NumberedAddress(l.value);
        if firstFamily != lastFamily || first > last { return Err(Validation); }
        r := InsertNumberedRange(firstFamily, first, last, addresses);
      case Malformed =>
        r := Err(Validation);
    }
  }

  // --- Entries in address order ---------------------------------------------------------------

  type Entry = (IpAddr, IpStatus)

  ghost predicate StrictlyAscending(entries: seq<Entry>) {
    forall i, j :: 0 <= i < j < |entries| ==> Rank(entries[i].0) < Rank(entries[j].0)
  }

  lemma LeastExists(addresses: set<IpAddr>)
    requires addresses != {}
    ensures exists a :: a in addresses && forall b :: b in addresses ==> Rank(a) <= Rank(b)
    decreases |addresses|
  {
    var a :| a in addresses;
    var rest := addresses - {a};
    if rest == {} {
      assert addresses == {a};
    } else {
      LeastExists(rest);
      var b :| b in rest && forall c :: c in rest ==> Rank(b) <= Rank(c);
      var least := if Rank(a) <= Rank(b) then a else b;
      assert forall c :: c in addresses ==> c == a || c in rest;
      assert least in addresses && forall c :: c in addresses ==> Rank(least) <= Rank(c);
    }
  }

  /** The entries of an ordered map, in the order of its keys. */
  method InOrder(planned: map<IpAddr, IpStatus>) returns (entries: seq<Entry>)
    requires forall a :: a in planned ==> ValidAddr(a)
    ensures StrictlyAscending(entries)
    ensures forall i :: 0 <= i < |entries| ==> entries[i].0 in planned && planned[entries[i].0] == entries[i].1
    ensures forall a :: a in planned ==> (a, planned[a]) in entries
  {
    entries := [];
    var left := planned.Keys;
    while left != {}
      invariant left <= planned.Keys
      invariant StrictlyAscending(entries)
      invariant forall i :: 0 <= i < |entries| ==>
                  && entries[i].0 in planned && planned[entries[i].0] == entries[i].1
                  && forall b :: b in left ==> Rank(entries[i].0) < Rank(b)
      invariant forall a :: a in planned && a !in left ==> (a, planned[a]) in entries
    {
      LeastExists(left);
      var a :| a in left && forall b :: b in left ==> Rank(a) <= Rank(b);
      forall b | b in left - {a} ensures Rank(a) < Rank(b) {
        if Rank(a) == Rank(b) { RankIsInjective(a, b); }
      }
      entries := entries + [(a, planned[a])];
      left := left - {a};
    }
  }

  ghost predicate ListsExactly(entries: seq<Entry>, family: Family, first: nat, last: nat) {
    && StrictlyAscending(entries)
    && (forall i :: 0 <= i < |entries| ==> entries[i].0.family == family && first <= entries[i].0.number <= last)
    && (forall n :: first <= n <= last ==> Lists(entries, IpAddr(family, n)))
  }

  ghost predicate Lists(entries: seq<Entry>, a: IpAddr) {
    exists i :: 0 <= i < |entries| && entries[i].0 == a
  }

  lemma {:induction false} AscendingFrom(entries: seq<Entry>, family: Family, first: nat, last: nat, i: nat)
    requires ListsExactly(entries, family, first, last) && i < |entries|
    ensures first + i <= entries[i].0.number
  {
    if i > 0 {
      AscendingFrom(entries, family, first, last, i - 1);
      assert Rank(entries[i - 1].0) < Rank(entries[i].0);
    }
  }

  /** An ascending list of exactly the numbers of an interval is its enumeration. */
  lemma {:induction false} EnumerationAt(entries: seq<Entry>, family: Family, first: nat, last: nat, i: nat)
    requires ListsExactly(entries, family, first, last) && first + i <= last
    ensures i < |entries| && entries[i].0 == IpAddr(family, first + i)
  {
    assert Lists(entries, IpAddr(family, first + i));
    var j :| 0 <= j < |entries| && entries[j].0 == IpAddr(family, first + i);
    AscendingFrom(entries, family, first, last, j);
    if j < i {
      EnumerationAt(entries, family, first, last, j);
      assert false;
    }
  }

  lemma EnumerationLength(entries: seq<Entry>, family: Family, first: nat, last: nat)
    requires ListsExactly(entries, family, first, last) && first <= last
    ensures |entries| == last + 1 - first
  {
    EnumerationAt(entries, family, first, last, last - first);
    if |entries| > last + 1 - first {
      AscendingFrom(entries, family, first, last, last + 1 - first);
    }
  }

  // --- The plan ----------------------------------------------------------------------------------

  /** What an address of a fully materialised pool is planned as. */
  function PlannedStatus(n: Net, reserved: set<IpAddr>, a: IpAddr): IpStatus
    requires ValidNet(n)
  {
    if a in reserved || UnusableEdge(n, a) then Reserved else Free
  }

  /** Everything asked to be reserved; fails at the first unacceptable item. */
  method CollectReserved(gateway: Option<IpAddr>, items: seq<ReservedItem>) returns (r: Result<set<IpAddr>>)
    requires forall i :: 0 <= i < |items| ==> WellTyped(items[i])
    ensures r.Ok? <==> forall i :: 0 <= i < |items| ==> Acceptable(items[i])
    ensures r.Ok? ==> forall a :: a in r.value <==> Requested(gateway, items, a)
  {
    var reserved: set<IpAddr> := if gateway.Some? then {gateway.value} else {};
    for k := 0 to |items|
      invariant forall a :: a in reserved <==> Requested(gateway, items[..k], a)
      invariant forall i :: 0 <= i < k ==> Acceptable(items[i])
    {
      var expanded := ExpandReservedSpec(items[k], reserved);
      if expanded.Err? { return Err(Validation); }
      reserved := expanded.value;
      RequestedNext(gateway, items, k);
    }
    assert items[..|items|] == items;
    r := Ok(reserved);
  }

  /** The status of every address of the block. */
  method PlanBlock(n: Net, reserved: set<IpAddr>) returns (planned: map<IpAddr, IpStatus>)
    requires ValidNet(n)
    ensures forall a :: a in planned <==> Contains(n, a)
    ensures forall a :: a in planned ==> planned[a] == PlannedStatus(n, reserved, a)
  {
    BoundsAreTheBlock(n);
    BlockInRange(n);
    var (family, first, last) := NetworkBounds(n);
    var reserveEdges := family == V4 && n.prefix <= 30;
    planned := map[];
    for number := first to last + 1
      invariant forall a :: a in planned <==> a.family == family && first <= a.number < number
      invariant forall a :: a in planned ==> planned[a] == PlannedStatus(n, reserved, a)
    {
      FitsFamily(family, number);
      var address := NumberedIp(family, number);
      var edge := reserveEdges && (number == first || number == last);
      planned := planned[address := if address in reserved || edge then Reserved else Free];
    }
  }

  lemma BlockEnumerated(n: Net, planned: map<IpAddr, IpStatus>, entries: seq<Entry>)
    requires ValidNet(n)
    requires forall a :: a in planned <==> Contains(n, a)
    requires StrictlyAscending(entries)
    requires forall i :: 0 <= i < |entries| ==> entries[i].0 in planned && planned[entries[i].0] == entries[i].1
    requires forall a :: a in planned ==> (a, planned[a]) in entries
    ensures |entries| == BlockSize(n)
    ensures forall i :: 0 <= i < |entries| ==> entries[i].0 == IpAddr(n.addr.family, FirstOf(n) + i)
  {
    var family, first, last := n.addr.family, FirstOf(n), LastOf(n);
    forall m | first <= m <= last ensures Lists(entries, IpAddr(family, m)) {
      assert (IpAddr(family, m), planned[IpAddr(family, m)]) in entries;
    }
    EnumerationLength(entries, family, first, last);
    forall i | 0 <= i < |entries| ensures entries[i].0 == IpAddr(family, first + i) {
      EnumerationAt(entries, family, first, last, i);
    }
  }

  predicate Parses(cidr: Option<Net>, gateway: Option<Option<IpAddr>>) {
    cidr.Some? && gateway != Some(None)
  }

  function GatewayOf(gateway: Option<Option<IpAddr>>): Option<IpAddr> {
    if gateway.Some? then gateway.value else None
  }

  /** Every address of the block once and in order, reserved exactly where requested or
      at an unusable IPv4 edge, free elsewhere. */
  ghost predicate IsFullPlan(n: Net, gateway: Option<IpAddr>, items: seq<ReservedItem>, entries: seq<Entry>)
    requires ValidNet(n) && forall i :: 0 <= i < |items| ==> WellTyped(items[i])
  {
    && |entries| == BlockSize(n)
    && forall i :: 0 <= i < |entries| ==>
         && entries[i].0 == IpAddr(n.addr.family, FirstOf(n) + i)
         && entries[i].1 == if Requested(gateway, items, entries[i].0) || UnusableEdge(n, entries[i].0)
                            then Reserved else Free
  }

  /** Exactly the requested addresses, in order, all reserved. */
  ghost predicate IsSparsePlan(gateway: Option<IpAddr>, items: seq<ReservedItem>, entries: seq<Entry>)
    requires forall i :: 0 <= i < |items| ==> WellTyped(items[i])
  {
    && StrictlyAscending(entries)
    && (forall i :: 0 <= i < |entries| ==> entries[i].1 == Reserved && Requested(gateway, items, entries[i].0))
    && (forall a :: Requested(gateway, items, a) ==> (a, Reserved) in entries)
  }

  method ListBlock(n: Net, gateway: Option<IpAddr>, items: seq<ReservedItem>, reserved: set<IpAddr>)
    returns (entries: seq<Entry>)
    requires ValidNet(n) && forall i :: 0 <= i < |items| ==> WellTyped(items[i])
    requires forall a :: a in reserved <==> Requested(gateway, items, a)
    ensures IsFullPlan(n, gateway, items, entries)
  {
    var planned := PlanBlock(n, reserved);
    ContainedIsValid(n);
    entries := InOrder(planned);
    BlockEnumerated(n, planned, entries);
  }

  method ListReserved(n: Net, gateway: Option<IpAddr>, items: seq<ReservedItem>, reserved: set<IpAddr>)
    returns (entries: seq<Entry>)
    requires ValidNet(n) && forall i :: 0 <= i < |items| ==> WellTyped(items[i])
    requires forall a :: a in reserved <==> Requested(gateway, items, a)
    requires forall a :: a in reserved ==> Contains(n, a)
    ensures IsSparsePlan(gateway, items, entries)
  {
    ContainedIsValid(n);
    var planned := map a | a in reserved :: Reserved;
    entries := InOrder(planned);
    forall a | Requested(gateway, items, a) ensures (a, Reserved) in entries {
      assert (a, planned[a]) in entries;
    }
  }

  /** Everything parses, every item is acceptable and everything requested lies in the network. */
  ghost predicate PlanAccepted(cidr: Option<Net>, gateway: Option<Option<IpAddr>>, items: seq<ReservedItem>)
    requires cidr.Some? ==> ValidNet(cidr.value)
    requires forall i :: 0 <= i < |items| ==> WellTyped(items[i])
  {
    && Parses(cidr, gateway)
    && (forall i :: 0 <= i < |items| ==> Acceptable(items[i]))
    && (forall a :: Requested(GatewayOf(gateway), items, a) ==> Contains(cidr.value, a))
  }

  /** `cidr` and `gateway` are None where the text does not parse. */
  method PlannedPoolAddresses(cidr: Option<Net>, gateway: Option<Option<IpAddr>>, items: seq<ReservedItem>)
    returns (r: Result<(seq<Entry>, bool)>)
    requires cidr.Some? ==> ValidNet(cidr.value)
    requires GatewayOf(gateway).Some? ==> ValidAddr(GatewayOf(gateway).value)
    requires forall i :: 0 <= i < |items| ==> WellTyped(items[i])
    ensures r.Ok? <==> PlanAccepted(cidr, gateway, items)
    ensures r.Err? ==> r == Err(Validation)
    ensures r.Ok? ==> (r.value.1 <==> BlockSize(cidr.value) > 4096)
    ensures r.Ok? ==> if r.value.1 then IsSparsePlan(GatewayOf(gateway), items, r.value.0)
                      else IsFullPlan(cidr.value, GatewayOf(gateway), items, r.value.0)
  {
    if cidr.None? { return Err(Validation); }
    var n := cidr.value;
    if gateway == Some(None) { return Err(Validation); }
    var collected := CollectReserved(GatewayOf(gateway), items);
    if collected.Err? { return Err(Validation); }
    var reserved := collected.value;
    if exists a :: a in reserved && !Contains(n, a) { return Err(Validation); }

    var sparse := Capacity(n) > MAX_MATERIALIZED;
    var entries;
    if !sparse {
      entries := ListBlock(n, GatewayOf(gateway), items, reserved);
    } else {
      entries := ListReserved(n, GatewayOf(gateway), items, reserved);
    }
    r := Ok((entries, sparse));
  }

  lemma ContainedIsValid(n: Net)
    requires ValidNet(n)
    ensures forall a :: Contains(n, a) ==> ValidAddr(a)
  {
    BlockInRange(n);
  }

  /** The saturating size of a block: only ::/0 saturates, and it is sparse anyway. */
  function Capacity(n: Net): (capacity: nat)
    requires ValidNet(n)
    ensures capacity > 4096 <==> BlockSize(n) > 4096
  {
    BoundsAreTheBlock(n);
    BlockInRange(n);
    FitsFamily(n.addr.family, LastOf(n));
    var (_, first, last) := NetworkBounds(n);
    SaturatingAdd(SaturatingSub(last, first), 1)
  }

  lemma RequestedNext(gateway: Option<IpAddr>, items: seq<ReservedItem>, k: nat)
    requires k < |items| && forall i :: 0 <= i < |items| ==> WellTyped(items[i])
    ensures forall a :: Requested(gateway, items[..k + 1], a) <==>
              Requested(gateway, items[..k], a) || Covers(items[k], a)
  {
    forall a ensures Requested(gateway, items[..k + 1], a) <==> Requested(gateway, items[..k], a) || Covers(items[k], a) {
      if Covers(items[k], a) { assert Covers(items[..k + 1][k], a); }
      if i :| 0 <= i < k && Covers(items[i], a) { assert Covers(items[..k + 1][i], a); }
    }
  }
}
