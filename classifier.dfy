/**
 * The proxy-name classifier of app/api/route.ts: `filterProxies` and the
 * inline "uncategorised" filter, both `proxies.filter(...).map(i => i.name)`.
 */
module Classifier {
  import opened Strings

  /** A scalar, sequence or mapping of the parsed document; fields the
      route does not read travel through as values of this type. */
  datatype Yaml = Scalar(text: string) | List(items: seq<Yaml>) | Mapping(entries: seq<(string, Yaml)>)

  /** One entry of `proxies`: its `name` and every other field, untouched. */
  datatype ProxyNode = ProxyNode(name: string, fields: seq<(string, Yaml)>)

  /** `proxies.map(i => i.name)`. */
  function Names(proxies: seq<ProxyNode>): (r: seq<string>)
    ensures |r| == |proxies|
    ensures forall i :: 0 <= i < |proxies| ==> r[i] == proxies[i].name
  {
    seq(|proxies|, i requires 0 <= i < |proxies| => proxies[i].name)
  }

  /** `names.filter(keep)`: the names that pass, front to back. */
  function Filter(names: seq<string>, keep: string -> bool): (r: seq<string>)
    ensures |r| <= |names|
    ensures forall x :: x in r <==> x in names && keep(x)
  {
    if names == [] then []
    else if keep(names[0]) then [names[0]] + Filter(names[1..], keep)
    else Filter(names[1..], keep)
  }

  /** Entry `k` of `r` is the name at position `ix[k]`. */
  ghost predicate Picks(r: seq<string>, names: seq<string>, ix: seq<nat>) {
    |ix| == |r| && forall k :: 0 <= k < |ix| ==> ix[k] < |names| && r[k] == names[ix[k]]
  }

  ghost predicate Increasing(ix: seq<nat>) {
    forall k, l :: 0 <= k < l < |ix| ==> ix[k] < ix[l]
  }

  /** The positions in `ix` are exactly those whose name passes `keep`. */
  ghost predicate Hits(names: seq<string>, keep: string -> bool, ix: seq<nat>) {
    forall i :: 0 <= i < |names| ==> (keep(names[i]) <==> i in ix)
  }

  /** `r` is `names` with exactly the entries failing `keep` taken out, in the
      original order: `ix` lists the kept positions, strictly increasing, and
      every position whose name passes `keep` is among them. */
  ghost predicate IsFilterOf(r: seq<string>, names: seq<string>, keep: string -> bool, ix: seq<nat>) {
    Picks(r, names, ix) && Increasing(ix) && Hits(names, keep, ix)
  }

  /** Every position moved one place to the right. */
  function Shift(ix: seq<nat>): (r: seq<nat>)
    ensures |r| == |ix|
    ensures forall k :: 0 <= k < |ix| ==> r[k] == ix[k] + 1
  {
    seq(|ix|, k requires 0 <= k < |ix| => ix[k] + 1)
  }

  lemma ShiftIncreasing(ix: seq<nat>)
    requires Increasing(ix)
    ensures Increasing(Shift(ix)) && Increasing([0] + Shift(ix))
  {
    var sh := Shift(ix);
    var ix2 := [0] + sh;
    forall k, l | 0 <= k < l < |ix2|
      ensures ix2[k] < ix2[l]
    {
      if k > 0 {
        assert ix2[k] == sh[k - 1] && ix2[l] == sh[l - 1];
      }
    }
  }

  lemma ShiftPicks(x: string, tail: seq<string>, rt: seq<string>, ix: seq<nat>)
    requires Picks(rt, tail, ix)
    ensures Picks(rt, [x] + tail, Shift(ix))
  {
  }

  lemma ConsPicks(x: string, tail: seq<string>, rt: seq<string>, ix: seq<nat>)
    requires Picks(rt, tail, ix)
    ensures Picks([x] + rt, [x] + tail, [0] + Shift(ix))
  {
    var names, r, sh := [x] + tail, [x] + rt, Shift(ix);
    var ix2 := [0] + sh;
    forall k | 0 <= k < |ix2|
      ensures ix2[k] < |names| && r[k] == names[ix2[k]]
    {
      if k > 0 {
        assert ix2[k] == ix[k - 1] + 1 && r[k] == rt[k - 1];
      }
    }
  }

  /** Shifted positions are the positions of the tail, one further on. */
  lemma InShift(ix: seq<nat>, i: nat)
    requires i > 0
    ensures i in Shift(ix) <==> i - 1 in ix
  {
    var sh := Shift(ix);
    if i - 1 in ix {
      var k :| 0 <= k < |ix| && ix[k] == i - 1;
      assert sh[k] == i;
    }
  }

  /** Prepending a name that fails `keep` shifts the kept positions. */
  lemma FilterOfDrop(x: string, tail: seq<string>, keep: string -> bool, rt: seq<string>, ix: seq<nat>)
    requires !keep(x) && IsFilterOf(rt, tail, keep, ix)
    ensures IsFilterOf(rt, [x] + tail, keep, Shift(ix))
  {
    ShiftPicks(x, tail, rt, ix);
    ShiftIncreasing(ix);
    var names, sh := [x] + tail, Shift(ix);
    forall i | 0 <= i < |names|
      ensures keep(names[i]) <==> i in sh
    {
      if i == 0 {
        assert 0 !in sh;
      } else {
        assert names[i] == tail[i - 1];
        InShift(ix, i);
      }
    }
  }

  /** Prepending a name that passes `keep` adds position 0 before the shifted ones. */
  lemma FilterOfKeep(x: string, tail: seq<string>, keep: string -> bool, rt: seq<string>, ix: seq<nat>)
    requires keep(x) && IsFilterOf(rt, tail, keep, ix)
    ensures IsFilterOf([x] + rt, [x] + tail, keep, [0] + Shift(ix))
  {
    ConsPicks(x, tail, rt, ix);
    ShiftIncreasing(ix);
    var names, sh := [x] + tail, Shift(ix);
    forall i | 0 <= i < |names|
      ensures keep(names[i]) <==> i in [0] + sh
    {
      if i > 0 {
        assert names[i] == tail[i - 1];
        InShift(ix, i);
      }
    }
  }

  /** `Filter` is an order-preserving selection of exactly the passing entries. */
  lemma {:induction false} FilterKeepsOrder(names: seq<string>, keep: string -> bool) returns (ix: seq<nat>)
    ensures IsFilterOf(Filter(names, keep), names, keep, ix)
  {
    if names == [] {
      ix := [];
    } else {
      var tail := names[1..];
      assert names == [names[0]] + tail;
      var ix' := FilterKeepsOrder(tail, keep);
      if keep(names[0]) {
        FilterOfKeep(names[0], tail, keep, Filter(tail, keep), ix');
        ix := [0] + Shift(ix');
      } else {
        FilterOfDrop(names[0], tail, keep, Filter(tail, keep), ix');
        ix := Shift(ix');
      }
    }
  }

  /** Keeping every name leaves the list as it is. */
  lemma {:induction false} FilterAllPass(names: seq<string>, keep: string -> bool)
    requires forall i :: 0 <= i < |names| ==> keep(names[i])
    ensures Filter(names, keep) == names
  {
    if names != [] {
      FilterAllPass(names[1..], keep);
    }
  }

  /** Keeping no name leaves nothing. */
  lemma {:induction false} FilterNonePass(names: seq<string>, keep: string -> bool)
    requires forall i :: 0 <= i < |names| ==> !keep(names[i])
    ensures Filter(names, keep) == []
  {
    if names != [] {
      FilterNonePass(names[1..], keep);
    }
  }

  /** One step of `Filter` on a list with a known head. */
  lemma FilterCons(x: string, rest: seq<string>, keep: string -> bool)
    ensures Filter([x] + rest, keep) == if keep(x) then [x] + Filter(rest, keep) else Filter(rest, keep)
  {
    assert ([x] + rest)[1..] == rest;
  }

  /** Filtering three names keeps the ones that pass, in order. */
  lemma FilterThree(a: string, b: string, c: string, keep: string -> bool)
    ensures Filter([a, b, c], keep)
      == (if keep(a) then [a] else []) + (if keep(b) then [b] else []) + (if keep(c) then [c] else [])
  {
    FilterCons(a, [b, c], keep);
    FilterCons(b, [c], keep);
    FilterCons(c, [], keep);
  }

  /** `filterProxies(proxies, text)`: the names holding `text`, in order. */
  function FilterProxies(proxies: seq<ProxyNode>, text: string): (r: seq<string>)
    ensures |r| <= |proxies|
    ensures forall n :: n in r <==> n in Names(proxies) && Contains(n, text)
  {
    Filter(Names(proxies), n => Contains(n, text))
  }

  /** The test `^(?!.*(?:l1|l2|...)).*$` applies to one name. */
  predicate IsUncategorised(name: string, labels: seq<string>) {
    !HasLineTerminator(name) && !ContainsAny(name, labels)
  }

  /** The uncategorised names: those the pattern built from every label accepts. */
  function Uncategorised(proxies: seq<ProxyNode>, labels: seq<string>): (r: seq<string>)
    ensures |r| <= |proxies|
    ensures forall n :: n in r <==> n in Names(proxies) && !HasLineTerminator(n)
                                     && forall j :: 0 <= j < |labels| ==> !Contains(n, labels[j])
  {
    Filter(Names(proxies), n => IsUncategorised(n, labels))
  }

  /** Both classifier outputs keep the relative order of `proxies`. */
  lemma ClassifierKeepsOrder(proxies: seq<ProxyNode>, labels: seq<string>, text: string)
    returns (ixArea: seq<nat>, ixRest: seq<nat>)
    ensures IsFilterOf(FilterProxies(proxies, text), Names(proxies), n => Contains(n, text), ixArea)
    ensures IsFilterOf(Uncategorised(proxies, labels), Names(proxies), n => IsUncategorised(n, labels), ixRest)
  {
    ixArea := FilterKeepsOrder(Names(proxies), n => Contains(n, text));
    ixRest := FilterKeepsOrder(Names(proxies), n => IsUncategorised(n, labels));
  }

  /** A name without a line terminator is uncategorised exactly when no label
      bucket holds it: the buckets and the uncategorised list cover `proxies`
      and never share a name (buckets may overlap each other). */
  lemma CoverWithoutOverlap(proxies: seq<ProxyNode>, labels: seq<string>, n: string)
    requires n in Names(proxies) && !HasLineTerminator(n)
    ensures n in Uncategorised(proxies, labels) <==>
            forall j :: 0 <= j < |labels| ==> n !in FilterProxies(proxies, labels[j])
  {
  }

  /** A name with a line terminator is uncategorised for no label set, and so
      lands in no list at all when it holds no label. */
  lemma LineTerminatorDropsName(proxies: seq<ProxyNode>, labels: seq<string>, n: string)
    requires HasLineTerminator(n)
    ensures n !in Uncategorised(proxies, labels)
    ensures (forall j :: 0 <= j < |labels| ==> !Contains(n, labels[j])) ==>
            forall j :: 0 <= j < |labels| ==> n !in FilterProxies(proxies, labels[j])
  {
  }
}
