/**
 * The group rewriter of app/api/route.ts: the fixed-shape `proxy-groups`
 * list built from the classified proxy names.
 */
module Groups {
  import opened Strings
  import opened Classifier

  /** One entry of `proxy-groups`; `proxies` are references by name. */
  datatype ProxyGroup = ProxyGroup(name: string, kind: string, proxies: seq<string>)

  const Direct: string := "DIRECT"
  const ManualSwitch: string := "♻️ 手动切换"
  const SelectKind: string := "select"

  /** The `areas` table, in its order. */
  const Areas: seq<string> := [
    "🇭🇰 香港",
    "🇹🇼 台湾",
    "🇺🇸 美国",
    "🇯🇵 日本",
    "🇬🇧 英国",
    "🇸🇬 新加坡",
    "🇲🇾 马来西亚",
    "🇦🇺 澳大利亚",
    "🇫🇷 法国",
    "🇰🇷 韩国",
    "🇨🇦 加拿大",
    "🇧🇷 巴西",
    "🇩🇪 德国",
    "🇮🇱 以色列"
  ]

  /** The names of the seven service selector groups, in their order. */
  const Services: seq<string> := [
    "🐱 OpenAI",
    "🐱 BardAI",
    "𝕏 Twitter",
    "📲 Telegram",
    "📺 Netflix",
    "🎬 Bilibili",
    "🎮 Steam"
  ]

  /** Every group name the rewriter produces, in output order. */
  const GroupNames: seq<string> := [ManualSwitch] + Services + Areas

  /** `DIRECT`, every area label, then the uncategorised names. */
  function ManualSwitchGroup(proxies: seq<ProxyNode>): ProxyGroup {
    ProxyGroup(ManualSwitch, SelectKind, [Direct] + Areas + Uncategorised(proxies, Areas))
  }

  /** `[DIRECT, ♻️ 手动切换, ...areas]` under a service name. */
  function ServiceGroup(name: string): ProxyGroup {
    ProxyGroup(name, SelectKind, [Direct, ManualSwitch] + Areas)
  }

  /** One area's bucket under the area's own label. */
  function AreaGroup(proxies: seq<ProxyNode>, area: string): ProxyGroup {
    ProxyGroup(area, SelectKind, FilterProxies(proxies, area))
  }

  /** The `proxy-groups` list assigned by the route. */
  function BuildGroups(proxies: seq<ProxyNode>): (r: seq<ProxyGroup>)
    ensures |r| == 1 + |Services| + |Areas| == 22
    ensures forall g :: g in r ==> g.kind == SelectKind
    ensures forall i :: 0 <= i < |r| ==> r[i].name == GroupNames[i]
    ensures |r[0].proxies| >= 1 + |Areas| && r[0].proxies[..1 + |Areas|] == [Direct] + Areas
    ensures forall k :: 1 <= k < 1 + |Services| ==> r[k].proxies == [Direct, ManualSwitch] + Areas
  {
    [ManualSwitchGroup(proxies)]
    + seq(|Services|, k requires 0 <= k < |Services| => ServiceGroup(Services[k]))
    + seq(|Areas|, j requires 0 <= j < |Areas| => AreaGroup(proxies, Areas[j]))
  }

  /** The manual-switch group's tail after `DIRECT` and the labels. */
  function ManualTail(groups: seq<ProxyGroup>): seq<string>
    requires |groups| > 0 && |groups[0].proxies| >= 1 + |Areas|
  {
    groups[0].proxies[1 + |Areas|..]
  }

  /** The area groups sit at the end, one per label in `areas` order. */
  function AreaGroupAt(groups: seq<ProxyGroup>, j: nat): ProxyGroup
    requires j < |Areas| && |groups| == 1 + |Services| + |Areas|
  {
    groups[1 + |Services| + j]
  }

  /** What each rewritten group holds: the manual-switch tail is exactly the
      uncategorised names and each area group exactly that area's bucket. */
  lemma GroupContents(proxies: seq<ProxyNode>)
    ensures var gs := BuildGroups(proxies);
      && ManualTail(gs) == Uncategorised(proxies, Areas)
      && forall j :: 0 <= j < |Areas| ==>
           AreaGroupAt(gs, j).name == Areas[j] && AreaGroupAt(gs, j).proxies == FilterProxies(proxies, Areas[j])
  {
  }

  /** No group name is produced twice: the labels, the service names and
      `♻️ 手动切换` are all different. */
  lemma GroupNamesDistinct(proxies: seq<ProxyNode>)
    ensures var gs := BuildGroups(proxies);
      forall i, j :: 0 <= i < j < |gs| ==> gs[i].name != gs[j].name
  {
    assert forall i, j :: 0 <= i < j < |GroupNames| ==> GroupNames[i] != GroupNames[j];
  }

  /** With no proxies the manual-switch group is `DIRECT` and the labels alone,
      and every area group is empty. */
  lemma EmptyProxies()
    ensures BuildGroups([])[0].proxies == [Direct] + Areas
    ensures forall j :: 0 <= j < |Areas| ==> AreaGroupAt(BuildGroups([]), j).proxies == []
  {
    assert Uncategorised([], Areas) == [];
  }

  /** Every proxy name without a line terminator is in the manual-switch tail
      or in at least one area group, and never in both. */
  lemma {:induction false} GroupsCoverNames(proxies: seq<ProxyNode>, n: string)
    requires n in Names(proxies) && !HasLineTerminator(n)
    ensures var gs := BuildGroups(proxies);
      (n in ManualTail(gs)) != (exists j :: 0 <= j < |Areas| && n in AreaGroupAt(gs, j).proxies)
  {
    GroupContents(proxies);
    CoverWithoutOverlap(proxies, Areas, n);
  }
}
