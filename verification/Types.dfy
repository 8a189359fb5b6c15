// Values shared by every module: the resource entries of a request, the
// per-resource configuration, and the concurrency policies.

module Types {

  datatype Option<+T> = None | Some(value: T)

  // SYSTEM_HIGH, SYSTEM_LOW, THIRD_PARTY_HIGH, THIRD_PARTY_LOW
  const TOTAL_PRIORITIES := 4

  datatype Policy = InstantApply | HigherBetter | LowerBetter | LazyApply | PassThrough | PassThroughAppend

  datatype ApplyType = ApplyCore | ApplyCluster | ApplyGlobal | ApplyCGroup

  datatype Mode = Resume | Suspend | Doze

  type UInt8 = x: int | 0 <= x < 256
  type UInt16 = x: int | 0 <= x < 65536
  type UInt32 = x: int | 0 <= x < 0x1_0000_0000

  datatype ResConf = ResConf(resType: UInt8, resId: UInt16, applyType: ApplyType, policy: Policy, modes: set<Mode>)

  // True for the policies that arbitrate through a list; the pass-through
  // policies never put a node on a list.
  predicate ListManaged(p: Policy) {
    p != PassThrough && p != PassThroughAppend
  }

  // One configuration entry of a request. Core and cluster numbers are packed
  // into the two low bytes of the 32-bit info word.
  datatype Resource = Resource(code: nat, info: nat, optionalInfo: int, values: seq<int>, skip: bool) {

    function ValueAt(i: int): int {
      if 0 <= i < |values| then values[i] else -1
    }

    function CoreValue(): nat {
      info % 256
    }

    function ClusterValue(): nat {
      (info / 256) % 256
    }

    // The value the ordered policies compare: the only value of a
    // single-valued entry, otherwise the second one.
    function ComparedValue(): int {
      if |values| == 1 then ValueAt(0) else ValueAt(1)
    }
  }

  // A resource entry together with the identity of the allocation that holds it.
  datatype Item = Item(id: nat, res: Resource)

  type DLPolicy = (Item, Item) -> bool

  ghost predicate NoDup<T>(s: seq<T>) {
    forall i, j :: 0 <= i < j < |s| ==> s[i] != s[j]
  }

  lemma SomeMember(s: set<int>)
    requires s != {}
    ensures exists x :: x in s
  {
    if forall x :: x !in s {
      assert false;
    }
  }
}
