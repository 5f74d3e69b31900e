/** String helpers of the Go standard library that the compiler relies on
    (strings.Contains, strings.SplitAfter, strings.Join), plus
    removeDuplicateStr from config/config.go. Strings are sequences of
    characters; the marker substrings the compiler looks for are compared
    character by character. */
module Text {
  import opened Wrappers

  /** `sep` occurs in `s` starting at position `j`. */
  predicate OccursAt(s: string, sep: string, j: nat)
  {
    j + |sep| <= |s| && s[j..j + |sep|] == sep
  }

  /** The first position at which `sep` occurs in `s`, if any. */
  function IndexOf(s: string, sep: string): (r: Option<nat>)
    ensures r.Some? ==> OccursAt(s, sep, r.value)
    ensures r.Some? ==> forall j: nat :: j < r.value ==> !OccursAt(s, sep, j)
    ensures r.None? ==> forall j: nat :: !OccursAt(s, sep, j)
  {
    if |s| < |sep| then
      None
    else if sep <= s then
      Some(0)
    else
      match IndexOf(s[1..], sep)
      case None =>
        OccursAfterFirst(s, sep);
        None
      case Some(i) =>
        OccursAfterFirst(s, sep);
        assert s[i + 1..i + 1 + |sep|] == s[1..][i..i + |sep|];
        Some(i + 1)
  }

  /** An occurrence past the first character is one in the rest of the string. */
  lemma OccursAfterFirst(s: string, sep: string)
    requires |s| > 0
    ensures forall j: nat | 1 <= j :: OccursAt(s, sep, j) ==> OccursAt(s[1..], sep, j - 1)
  {
  }

  /** strings.Contains. */
  predicate Contains(s: string, sep: string)
  {
    IndexOf(s, sep).Some?
  }

  lemma ContainsIff(s: string, sep: string)
    ensures Contains(s, sep) <==> exists j: nat :: OccursAt(s, sep, j)
  {
  }

  const SchemeSeparator := "://"

  /** Lines 87-90 of addForceDirect: when the address contains "://", keep
      strings.SplitAfter(address, "://")[1], i.e. the text after the first
      "://" up to and including the next one (or to the end). */
  function AfterScheme(address: string): string
  {
    match IndexOf(address, SchemeSeparator)
    case None => address
    case Some(i) =>
      var rest := address[i + |SchemeSeparator|..];
      match IndexOf(rest, SchemeSeparator)
      case None => rest
      case Some(k) => rest[..k + |SchemeSeparator|]
  }

  /** An address written as scheme "://" host, where neither part holds
      another "://", keeps exactly the host part; an address without "://"
      is kept as it is. */
  lemma AfterSchemeStripsScheme(scheme: string, host: string)
    requires !Contains(scheme, SchemeSeparator) && !Contains(host, SchemeSeparator)
    ensures AfterScheme(scheme + SchemeSeparator + host) == host
    ensures AfterScheme(host) == host
  {
    var a := scheme + SchemeSeparator + host;
    assert OccursAt(a, SchemeSeparator, |scheme|);
    var i := IndexOf(a, SchemeSeparator).value;
    if i < |scheme| {
      // an earlier occurrence would overlap the scheme or lie inside it
      if i + |SchemeSeparator| <= |scheme| {
        OccurrenceInPrefix(scheme, SchemeSeparator + host, SchemeSeparator, i);
        assert false;
      } else {
        CharOfOccurrence(a, SchemeSeparator, i, |scheme| - i);
        assert false;
      }
    }
    assert i == |scheme|;
    assert a[i + |SchemeSeparator|..] == host;
  }

  lemma OccurrenceInPrefix(p: string, q: string, sep: string, i: nat)
    requires OccursAt(p + q, sep, i) && i + |sep| <= |p|
    ensures OccursAt(p, sep, i)
  {
    assert (p + q)[i..i + |sep|] == p[i..i + |sep|];
  }

  lemma CharOfOccurrence(s: string, sep: string, i: nat, k: nat)
    requires OccursAt(s, sep, i) && k < |sep|
    ensures s[i + k] == sep[k]
  {
    assert s[i..i + |sep|][k] == sep[k];
  }

  /** strings.Join. */
  function Join(parts: seq<string>, sep: string): string
  {
    if parts == [] then ""
    else if |parts| == 1 then parts[0]
    else parts[0] + sep + Join(parts[1..], sep)
  }

  /** What f makes of each element of xs, laid end to end in order. */
  function FlatMap<A, B>(xs: seq<A>, f: A -> seq<B>): seq<B>
  {
    if xs == [] then [] else FlatMap(xs[..|xs| - 1], f) + f(xs[|xs| - 1])
  }

  lemma FlatMapSingle<A, B>(x: A, f: A -> seq<B>)
    ensures FlatMap([x], f) == f(x)
  {
    assert [x][..0] == [];
  }

  lemma {:induction false} FlatMapAppend<A, B>(a: seq<A>, b: seq<A>, f: A -> seq<B>)
    ensures FlatMap(a + b, f) == FlatMap(a, f) + FlatMap(b, f)
    decreases |b|
  {
    if b == [] {
      assert a + b == a;
    } else {
      var b' := b[..|b| - 1];
      assert (a + b)[..|a + b| - 1] == a + b';
      assert (a + b)[|a + b| - 1] == b[|b| - 1];
      FlatMapAppend(a, b', f);
    }
  }

  lemma {:induction false} FlatMapMembership<A, B>(xs: seq<A>, f: A -> seq<B>, y: B)
    ensures y in FlatMap(xs, f) <==> exists i :: 0 <= i < |xs| && y in f(xs[i])
  {
    if xs != [] {
      var init := xs[..|xs| - 1];
      FlatMapMembership(init, f, y);
      assert forall i :: 0 <= i < |init| ==> init[i] == xs[i];
    }
  }

  /** No value occurs twice. */
  predicate Distinct<T(==)>(s: seq<T>)
  {
    forall i, j :: 0 <= i < j < |s| ==> s[i] != s[j]
  }

  /** Distinct sequences with no value in common concatenate to a distinct one. */
  lemma DistinctConcat<T>(a: seq<T>, b: seq<T>)
    requires Distinct(a) && Distinct(b) && forall x :: x in a ==> x !in b
    ensures Distinct(a + b)
  {
    var c := a + b;
    forall i, j | 0 <= i < j < |c|
      ensures c[i] != c[j]
    {
      if i < |a| && |a| <= j {
        assert c[i] in a && c[j] == b[j - |a|];
      }
    }
  }

  lemma DistinctSnoc<T>(s: seq<T>, x: T)
    requires Distinct(s) && x !in s
    ensures Distinct(s + [x])
  {
  }

  /** Specification of removeDuplicateStr: the first occurrence of every value,
      in input order. */
  function Deduped(s: seq<string>): seq<string>
  {
    if s == [] then []
    else
      var init := s[..|s| - 1];
      Deduped(init) + if s[|s| - 1] in init then [] else [s[|s| - 1]]
  }

  lemma {:induction false} DedupedElements(s: seq<string>)
    ensures forall x :: x in Deduped(s) <==> x in s
    ensures Distinct(Deduped(s))
  {
    if s != [] {
      var init := s[..|s| - 1];
      DedupedElements(init);
      assert s == init + [s[|s| - 1]];
    }
  }

  /** A list without repetitions is its own deduplication. */
  lemma {:induction false} DedupedOfDistinct(s: seq<string>)
    requires Distinct(s)
    ensures Deduped(s) == s
  {
    if s != [] {
      var init := s[..|s| - 1];
      DedupedOfDistinct(init);
      assert s == init + [s[|s| - 1]];
    }
  }

  /** Deduplicating twice changes nothing. */
  lemma DedupedIdempotent(s: seq<string>)
    ensures Deduped(Deduped(s)) == Deduped(s)
  {
    DedupedElements(s);
    DedupedOfDistinct(Deduped(s));
  }

  /** removeDuplicateStr (config/config.go:852-862). */
  method RemoveDuplicateStr(strSlice: seq<string>) returns (list: seq<string>)
    ensures list == Deduped(strSlice)
    ensures Distinct(list) && forall x :: x in list <==> x in strSlice
  {
    var allKeys: map<string, bool> := map[];
    list := [];
    var i := 0;
    while i < |strSlice|
      invariant 0 <= i <= |strSlice|
      invariant list == Deduped(strSlice[..i])
      invariant forall x :: x in allKeys <==> x in strSlice[..i]
    {
      var item := strSlice[i];
      assert strSlice[..i + 1][..i] == strSlice[..i];
      if item !in allKeys {
        allKeys := allKeys[item := true];
        list := list + [item];
      }
      i := i + 1;
    }
    assert strSlice[..i] == strSlice;
    DedupedElements(strSlice);
  }
}
