/**
 * Worked inputs for the group rewriter, and the facts about the area labels
 * they rest on.
 */
module Examples {
  import opened Strings
  import opened Classifier
  import opened Groups

  /** Characters of the CJK Unified Ideographs block. */
  predicate IsHan(c: char) {
    '\U{4E00}' <= c <= '\U{9FFF}'
  }

  /** The first Han character of each area label, in `areas` order. */
  const AreaHan: seq<char> := ['香', '台', '美', '日', '英', '新', '马', '澳', '法', '韩', '加', '巴', '德', '以']

  /** Every area label carries a Han character right after its flag and space. */
  lemma AreasCarryHan()
    ensures |AreaHan| == |Areas|
    ensures forall j :: 0 <= j < |Areas| ==> |Areas[j]| > 3 && Areas[j][3] == AreaHan[j] && IsHan(AreaHan[j])
    ensures forall j :: 1 <= j < |Areas| ==> AreaHan[j] != '香' && AreaHan[j] != '港'
  {
  }

  /** A name without Han characters holds no area label. */
  lemma NoHanNoArea(n: string)
    requires forall i :: 0 <= i < |n| ==> !IsHan(n[i])
    ensures forall j :: 0 <= j < |Areas| ==> !Contains(n, Areas[j])
  {
    AreasCarryHan();
    forall j | 0 <= j < |Areas|
      ensures !Contains(n, Areas[j])
    {
      CharMissingRulesOut(n, Areas[j], 3);
    }
  }

  /** A name without Han characters and without line terminators goes to the
      manual-switch tail. */
  lemma NoHanUncategorised(n: string)
    requires forall i :: 0 <= i < |n| ==> !IsHan(n[i]) && !IsLineTerminator(n[i])
    ensures IsUncategorised(n, Areas)
  {
    NoHanNoArea(n);
  }

  /** Names whose area is written only as a flag and Latin letters match no
      label, since each label also spells the area's name in Chinese: the
      three proxies below all land in the manual-switch tail and every area
      group is empty. */
  lemma FlagOnlyNamesStayUncategorised()
    ensures var proxies := [ProxyNode("🇭🇰 HK-01", []), ProxyNode("🇺🇸 US-01", []), ProxyNode("Relay-X", [])];
      var gs := BuildGroups(proxies);
      && ManualTail(gs) == ["🇭🇰 HK-01", "🇺🇸 US-01", "Relay-X"]
      && forall j :: 0 <= j < |Areas| ==> AreaGroupAt(gs, j).proxies == []
  {
    var proxies := [ProxyNode("🇭🇰 HK-01", []), ProxyNode("🇺🇸 US-01", []), ProxyNode("Relay-X", [])];
    var names := Names(proxies);
    assert names == ["🇭🇰 HK-01", "🇺🇸 US-01", "Relay-X"];
    forall i | 0 <= i < |names|
      ensures IsUncategorised(names[i], Areas)
      ensures forall j :: 0 <= j < |Areas| ==> !Contains(names[i], Areas[j])
    {
      NoHanUncategorised(names[i]);
      NoHanNoArea(names[i]);
    }
    FilterAllPass(names, n => IsUncategorised(n, Areas));
    forall j | 0 <= j < |Areas|
      ensures FilterProxies(proxies, Areas[j]) == []
    {
      var area := Areas[j];
      FilterNonePass(names, n => Contains(n, area));
    }
    GroupContents(proxies);
  }

  /** A second input: two Hong Kong nodes that spell out the label around a relay. */
  const Labelled: seq<ProxyNode> := [ProxyNode("🇭🇰 香港 01", []), ProxyNode("Relay-X", []), ProxyNode("🇭🇰 香港 02", [])]

  /** A name that starts with the Hong Kong label and whose only Han
      characters are those of 香港 holds that label and no other: every other
      label carries a Han character outside 香港. */
  lemma OnlyHongKongLabel(n: string)
    requires |n| >= |Areas[0]| && n[..|Areas[0]|] == Areas[0]
    requires forall i :: 0 <= i < |n| && IsHan(n[i]) ==> n[i] == '香' || n[i] == '港'
    ensures Contains(n, Areas[0])
    ensures forall j :: 1 <= j < |Areas| ==> !Contains(n, Areas[j])
  {
    OccursContains(n, Areas[0], 0);
    AreasCarryHan();
    forall j | 1 <= j < |Areas|
      ensures !Contains(n, Areas[j])
    {
      var c := Areas[j][3];
      assert c != '香' && c != '港';
      forall i | 0 <= i < |n|
        ensures n[i] != c
      {
      }
      CharMissingRulesOut(n, Areas[j], 3);
    }
  }

  /** The bucket of an area for three nodes whose middle one lacks its label. */
  lemma BucketOfThree(x: ProxyNode, y: ProxyNode, z: ProxyNode, area: string)
    requires !Contains(y.name, area)
    ensures FilterProxies([x, y, z], area)
      == (if Contains(x.name, area) then [x.name] else []) + (if Contains(z.name, area) then [z.name] else [])
  {
    assert Names([x, y, z]) == [x.name, y.name, z.name];
    FilterThree(x.name, y.name, z.name, n => Contains(n, area));
  }

  /** The manual-switch tail for three nodes whose outer two hold a label. */
  lemma TailOfThree(x: ProxyNode, y: ProxyNode, z: ProxyNode)
    requires !IsUncategorised(x.name, Areas) && !IsUncategorised(z.name, Areas)
    requires IsUncategorised(y.name, Areas)
    ensures Uncategorised([x, y, z], Areas) == [y.name]
  {
    assert Names([x, y, z]) == [x.name, y.name, z.name];
    FilterThree(x.name, y.name, z.name, n => IsUncategorised(n, Areas));
  }

  /** Three nodes where the outer two hold the label of area `k` alone and the
      middle one holds no label: the outer two form that area's group, in
      order, the middle one is the whole manual-switch tail, and every other
      area group is empty. */
  lemma OuterPairBucketed(x: ProxyNode, y: ProxyNode, z: ProxyNode, k: nat)
    requires k < |Areas|
    requires Contains(x.name, Areas[k]) && Contains(z.name, Areas[k])
    requires forall j :: 0 <= j < |Areas| && j != k ==> !Contains(x.name, Areas[j]) && !Contains(z.name, Areas[j])
    requires IsUncategorised(y.name, Areas)
    ensures var gs := BuildGroups([x, y, z]);
      && AreaGroupAt(gs, k).proxies == [x.name, z.name]
      && ManualTail(gs) == [y.name]
      && forall j :: 0 <= j < |Areas| && j != k ==> AreaGroupAt(gs, j).proxies == []
  {
    TailOfThree(x, y, z);
    forall j | 0 <= j < |Areas|
      ensures FilterProxies([x, y, z], Areas[j]) == if j == k then [x.name, z.name] else []
    {
      BucketOfThree(x, y, z, Areas[j]);
    }
    GroupContents([x, y, z]);
  }

  /** Names that spell out the label land in that area's group, in order, and
      the relay in the manual-switch tail; every other area group is empty. */
  lemma LabelledNamesAreBucketed()
    ensures var gs := BuildGroups(Labelled);
      && AreaGroupAt(gs, 0).proxies == ["🇭🇰 香港 01", "🇭🇰 香港 02"]
      && ManualTail(gs) == ["Relay-X"]
      && forall j :: 1 <= j < |Areas| ==> AreaGroupAt(gs, j).proxies == []
  {
    var x, y, z := Labelled[0], Labelled[1], Labelled[2];
    OnlyHongKongLabel(x.name);
    OnlyHongKongLabel(z.name);
    NoHanUncategorised(y.name);
    OuterPairBucketed(x, y, z, 0);
    assert Labelled == [x, y, z];
  }
}
