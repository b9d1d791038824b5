/**
 * The parsed subscription document and the in-place policy rewrite done by
 * `GET` in app/api/route.ts between `parse` and `stringify`.
 */
module Profile {
  import opened Classifier
  import opened Groups
  import opened Providers
  import opened Rules

  /** The document as a value: the four keys the route knows, and every other
      top-level key with its value, passed through untouched. */
  datatype Document = Document(
    proxies: seq<ProxyNode>,
    proxyGroups: seq<ProxyGroup>,
    ruleProviders: seq<(string, RuleProvider)>,
    rules: seq<string>,
    others: seq<(string, Yaml)>)

  /** The document after the rewrite: `proxy-groups`, `rule-providers` and
      `rules` replaced, everything else as it was. */
  function Rewritten(d: Document): (r: Document)
    ensures r.proxies == d.proxies && r.others == d.others
    ensures r.proxyGroups == BuildGroups(d.proxies) && |r.proxyGroups| == 22
    ensures r.ruleProviders == Catalog() && r.rules == RuleLines()
  {
    d.(proxyGroups := BuildGroups(d.proxies), ruleProviders := Catalog(), rules := RuleLines())
  }

  /** A second rewrite changes nothing. */
  lemma RewriteIdempotent(d: Document)
    ensures Rewritten(Rewritten(d)) == Rewritten(d)
  {
  }

  /** The prior `proxy-groups`, `rule-providers` and `rules` are discarded:
      documents that agree on `proxies` and the other keys come out equal,
      and the provider catalog and rule list are the same for every input. */
  lemma RewriteDiscardsPriorPolicy(d1: Document, d2: Document)
    ensures Rewritten(d1).ruleProviders == Rewritten(d2).ruleProviders
    ensures Rewritten(d1).rules == Rewritten(d2).rules
    ensures d1.proxies == d2.proxies && d1.others == d2.others ==> Rewritten(d1) == Rewritten(d2)
  {
  }

  /** The parsed document that `GET` mutates. */
  class Profile {
    var proxies: seq<ProxyNode>
    var proxyGroups: seq<ProxyGroup>
    var ruleProviders: seq<(string, RuleProvider)>
    var rules: seq<string>
    var others: seq<(string, Yaml)>

    function Value(): Document
      reads this
    {
      Document(proxies, proxyGroups, ruleProviders, rules, others)
    }

    /** The tree handed over by the YAML parser. */
    constructor (d: Document)
      ensures Value() == d
    {
      proxies := d.proxies;
      proxyGroups := d.proxyGroups;
      ruleProviders := d.ruleProviders;
      rules := d.rules;
      others := d.others;
    }

    /** Assigns `proxy-groups`, `rule-providers` and `rules` one after another. */
    method RewritePolicy()
      modifies this
      ensures Value() == Rewritten(old(Value()))
      ensures proxies == old(proxies) && others == old(others)
      ensures proxyGroups == BuildGroups(proxies)
      ensures ruleProviders == Catalog() && rules == RuleLines()
    {
      proxyGroups := BuildGroups(proxies);
      ruleProviders := Catalog();
      rules := RuleLines();
    }
  }
}
