/** The two cursor iterators of the CLI platform interface
    (v2/libbox_platform_default.go): a string iterator and a network-interface
    iterator, each a slice of values with an index that Next advances, and the
    empty iterators the CLI platform hands out for system certificates and
    network interfaces. */
module Platform {
  import opened Wrappers

  const Int32Modulus := 0x1_0000_0000
  const Int32Min := -0x8000_0000
  const Int32Max := 0x7fff_ffff

  /** Go's int32(n) conversion: two's-complement truncation to 32 bits. */
  function ToInt32(n: int): (r: int)
    ensures Int32Min <= r <= Int32Max
    ensures (n - r) % Int32Modulus == 0
    ensures Int32Min <= n <= Int32Max ==> r == n
  {
    var m := n % Int32Modulus;
    if m > Int32Max then m - Int32Modulus else m
  }

  /** What one call of Next does to a cursor over `values`: the value at the
      cursor and the cursor one further, or `none` and the same cursor once
      the values are exhausted. */
  function Step<T>(values: seq<T>, index: nat, none: T): (r: (T, nat))
    ensures index < |values| ==> r == (values[index], index + 1)
    ensures index >= |values| ==> r == (none, index)
  {
    if index < |values| then (values[index], index + 1) else (none, index)
  }

  /** The results of k successive calls of Next from cursor `index`. */
  function Iterate<T>(values: seq<T>, index: nat, none: T, k: nat): seq<T>
    decreases k
  {
    if k == 0 then []
    else
      var (v, next) := Step(values, index, none);
      [v] + Iterate(values, next, none, k - 1)
  }

  /** Successive calls of Next yield the remaining values in order, then
      `none` for every further call. */
  lemma {:induction false} IterateInOrder<T>(values: seq<T>, index: nat, none: T, k: nat)
    requires index <= |values|
    ensures var n := if k <= |values| - index then k else |values| - index;
      |Iterate(values, index, none, k)| == k &&
      Iterate(values, index, none, k)[..n] == values[index..index + n] &&
      forall j :: n <= j < k ==> Iterate(values, index, none, k)[j] == none
    decreases k
  {
    if k > 0 {
      var (v, next) := Step(values, index, none);
      IterateInOrder(values, next, none, k - 1);
    }
  }

  /** A fresh iterator yields exactly its values, in order, and then `none`. */
  lemma FreshIteratorYieldsAll<T>(values: seq<T>, none: T, extra: nat)
    ensures Iterate(values, 0, none, |values| + extra) == values + seq(extra, j => none)
  {
    var it := Iterate(values, 0, none, |values| + extra);
    IterateInOrder(values, 0, none, |values| + extra);
    assert it[..|values|] == values;
  }

  /** stringIterator (v2/libbox_platform_default.go:90-114). */
  class StringIterator {
    var values: seq<string>
    var index: nat

    ghost predicate Valid()
      reads this
    {
      index <= |values|
    }

    /** newStringIterator: a cursor at the start of `values`. */
    constructor (values: seq<string>)
      ensures Valid() && this.values == values && index == 0
    {
      this.values := values;
      index := 0;
    }

    /** The number of values, converted to int32. */
    function Len(): (n: int)
      reads this
      ensures Int32Min <= n <= Int32Max
      ensures |values| <= Int32Max ==> n == |values|
    {
      ToInt32(|values|)
    }

    /** Whether Next still has a value to give. */
    function HasNext(): (b: bool)
      reads this
      requires Valid()
      ensures b <==> Step(values, index, "").1 != index
    {
      index < |values|
    }

    method Next() returns (v: string)
      requires Valid()
      modifies this
      ensures Valid() && values == old(values)
      ensures (v, index) == Step(values, old(index), "")
    {
      if !HasNext() {
        return "";
      }
      v := values[index];
      index := index + 1;
    }
  }

  /** libbox.NetworkInterface is not part of this model; only the identity of
      each interface matters to the iterator. */
  class NetworkInterface {
  }

  /** networkIterator (v2/libbox_platform_default.go:116-132). */
  class NetworkIterator {
    var values: seq<NetworkInterface?>
    var index: nat

    ghost predicate Valid()
      reads this
    {
      index <= |values|
    }

    constructor (values: seq<NetworkInterface?>)
      ensures Valid() && this.values == values && index == 0
    {
      this.values := values;
      index := 0;
    }

    function HasNext(): (b: bool)
      reads this
      requires Valid()
      ensures b <==> Step(values, index, null).1 != index
    {
      index < |values|
    }

    method Next() returns (v: NetworkInterface?)
      requires Valid()
      modifies this
      ensures Valid() && values == old(values)
      ensures (v, index) == Step(values, old(index), null)
    {
      if !HasNext() {
        return null;
      }
      v := values[index];
      index := index + 1;
    }
  }

  /** cliPlatform: only the two iterator-returning members are modelled. */
  class CliPlatform {
    constructor ()
    {
    }

    /** SystemCertificates (v2/libbox_platform_default.go:80-82): an iterator
        over no certificates. */
    method SystemCertificates() returns (it: StringIterator)
      ensures fresh(it) && it.Valid() && !it.HasNext() && it.Len() == 0
    {
      it := new StringIterator([]);
    }

    /** GetInterfaces (v2/libbox_platform_default.go:64-66): an iterator over
        no interfaces, and no error. */
    method GetInterfaces() returns (it: NetworkIterator, err: Option<string>)
      ensures fresh(it) && it.Valid() && !it.HasNext() && err.None?
    {
      it := new NetworkIterator([]);
      err := None;
    }
  }
}
