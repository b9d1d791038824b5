/**
 * The rule-provider catalog of app/api/route.ts: nine remote rule lists,
 * kept as an ordered list of entries because the object literal fixes the
 * key order in which the document is written out.
 */
module Providers {

  /** One value of `rule-providers`. */
  datatype RuleProvider = RuleProvider(kind: string, behavior: string, url: string, path: string, interval: int)

  datatype Option<T> = None | Some(value: T)

  const Http: string := "http"
  const RefreshSeconds: int := 86400
  const UrlBase: string := "https://cdn.jsdelivr.net/gh/blackmatrix7/ios_rule_script@master/rule/Clash/"
  const CacheDir: string := "./ruleset/"

  /** The three ways the downstream client reads a remote list. */
  predicate IsBehavior(b: string) {
    b == "classical" || b == "domain" || b == "ipcidr"
  }

  /** An HTTP provider refreshed daily, fetched from the shared rule
      repository and cached under `./ruleset/`. */
  function Remote(behavior: string, remote: string, file: string): RuleProvider {
    RuleProvider(Http, behavior, UrlBase + remote, CacheDir + file, RefreshSeconds)
  }

  function Keys(entries: seq<(string, RuleProvider)>): (r: seq<string>)
    ensures |r| == |entries|
    ensures forall i :: 0 <= i < |entries| ==> r[i] == entries[i].0
  {
    seq(|entries|, i requires 0 <= i < |entries| => entries[i].0)
  }

  /** The value stored under `key`, or `None` when the catalog lacks it. */
  function Lookup(entries: seq<(string, RuleProvider)>, key: string): (r: Option<RuleProvider>)
    ensures r.Some? <==> key in Keys(entries)
    ensures r.Some? ==> exists i :: 0 <= i < |entries| && entries[i] == (key, r.value)
  {
    if entries == [] then None
    else if entries[0].0 == key then Some(entries[0].1)
    else Lookup(entries[1..], key)
  }

  /** The `rule-providers` mapping assigned by the route. */
  function Catalog(): (r: seq<(string, RuleProvider)>)
    ensures Keys(r) == ["lan", "China", "ChinaDomain", "OpenAI", "BardAI", "Netflix", "NetflixIP", "Bilibili", "Steam"]
    ensures forall i, j :: 0 <= i < j < |r| ==> r[i].0 != r[j].0
    ensures forall i :: 0 <= i < |r| ==>
      && r[i].1.kind == Http
      && r[i].1.interval == RefreshSeconds
      && IsBehavior(r[i].1.behavior)
      && |r[i].1.url| > |UrlBase| && r[i].1.url[..|UrlBase|] == UrlBase
      && |r[i].1.path| > |CacheDir| && r[i].1.path[..|CacheDir|] == CacheDir
  {
    [
      ("lan", Remote("classical", "Lan/Lan.yaml", "lan.yaml")),
      ("China", Remote("classical", "China/China.yaml", "china.yaml")),
      ("ChinaDomain", Remote("domain", "China/China_Domain.yaml", "China_Domain.yaml")),
      ("OpenAI", Remote("classical", "OpenAI/OpenAI.yaml", "OpenAI.yaml")),
      ("BardAI", Remote("classical", "BardAI/BardAI.yaml", "BardAI.yaml")),
      ("Netflix", Remote("classical", "Netflix/Netflix.yaml", "Netflix.yaml")),
      ("NetflixIP", Remote("ipcidr", "Netflix/Netflix_IP.yaml", "NetflixIP.yaml")),
      ("Bilibili", Remote("classical", "BiliBili/BiliBili.yaml", "Bilibili.yaml")),
      ("Steam", Remote("classical", "Steam/Steam.yaml", "Steam.yaml"))
    ]
  }
}
