/**
 * The rule list of app/api/route.ts: eleven routing directives, read by the
 * downstream client top to bottom, first match wins.
 */
module Rules {
  import opened Strings
  import opened Groups
  import opened Providers

  /** A routing directive before it is written out as text. */
  datatype Rule =
    | RuleSet(provider: string, target: string)
    | IpCidr(cidr: string, target: string, noResolve: bool)
    | Match(target: string)

  /** The text of a directive, spaced exactly as the route writes it (the
      `IP-CIDR` line has no space after its first comma). */
  function Render(rule: Rule): string {
    match rule
    case RuleSet(p, t) => "RULE-SET, " + p + ", " + t
    case IpCidr(c, t, nr) => "IP-CIDR," + c + ", " + t + (if nr then ", no-resolve" else "")
    case Match(t) => "MATCH, " + t
  }

  /** A line reads as a catch-all directive exactly when it was one. */
  lemma RenderMatchPrefix(rule: Rule)
    ensures IsPrefix("MATCH", Render(rule)) <==> rule.Match?
  {
    var line := Render(rule);
    match rule
    case RuleSet(p, t) =>
      assert line[0] == 'R';
    case IpCidr(c, t, nr) =>
      assert line[0] == 'I';
    case Match(t) =>
      assert line[..5] == "MATCH";
  }

  /** The directives assigned to `rules`, in priority order. */
  function RuleList(): seq<Rule>
  {
    [
      RuleSet("lan", Direct),
      IpCidr("172.16.0.0/12", Direct, true),
      RuleSet("China", Direct),
      RuleSet("ChinaDomain", Direct),
      RuleSet("OpenAI", "🐱 OpenAI"),
      RuleSet("BardAI", "🐱 BardAI"),
      RuleSet("Netflix", "📺 Netflix"),
      RuleSet("NetflixIP", "📺 Netflix"),
      RuleSet("Bilibili", "🎬 Bilibili"),
      RuleSet("Steam", "🎮 Steam"),
      Match(ManualSwitch)
    ]
  }

  /** The `rules` value as the text lines of the document. */
  function RuleLines(): (r: seq<string>)
    ensures |r| == |RuleList()|
    ensures forall i :: 0 <= i < |r| ==> r[i] == Render(RuleList()[i])
  {
    seq(|RuleList()|, i requires 0 <= i < |RuleList()| => Render(RuleList()[i]))
  }

  /** The eleven lines as the route spells them, one constant per line. */
  const LanLine: string := "RULE-SET, lan, DIRECT"
  const PrivateRangeLine: string := "IP-CIDR,172.16.0.0/12, DIRECT, no-resolve"
  const ChinaLine: string := "RULE-SET, China, DIRECT"
  const ChinaDomainLine: string := "RULE-SET, ChinaDomain, DIRECT"
  const OpenAiLine: string := "RULE-SET, OpenAI, 🐱 OpenAI"
  const BardAiLine: string := "RULE-SET, BardAI, 🐱 BardAI"
  const NetflixLine: string := "RULE-SET, Netflix, 📺 Netflix"
  const NetflixIpLine: string := "RULE-SET, NetflixIP, 📺 Netflix"
  const BilibiliLine: string := "RULE-SET, Bilibili, 🎬 Bilibili"
  const SteamLine: string := "RULE-SET, Steam, 🎮 Steam"
  const MatchLine: string := "MATCH, ♻️ 手动切换"

  /** The `rules` value as the route writes it. */
  const SourceText: seq<string> := [
    LanLine,
    PrivateRangeLine,
    ChinaLine,
    ChinaDomainLine,
    OpenAiLine,
    BardAiLine,
    NetflixLine,
    NetflixIpLine,
    BilibiliLine,
    SteamLine,
    MatchLine
  ]

  /** A text is its three parts around any two cuts. */
  lemma CutTwice(s: string, i: nat, j: nat)
    requires i <= j <= |s|
    ensures s == s[..i] + s[i..j] + s[j..]
  {
  }

  /** The local-network exemption renders as written. */
  lemma LanLineText()
    ensures RuleLines()[0] == SourceText[0]
  {
    assert RuleList()[0] == RuleSet("lan", Direct);
  }

  /** The three parts of the private-range line. */
  lemma PrivateRangeHead()
    ensures PrivateRangeLine[..21] == "IP-CIDR," + "172.16.0.0/12"
  {
    assert PrivateRangeLine[..21] == "IP-CIDR,172.16.0.0/12";
  }

  lemma PrivateRangeMiddle()
    ensures PrivateRangeLine[21..31] == ", " + Direct + ", "
  {
  }

  lemma PrivateRangeFlag()
    ensures PrivateRangeLine[31..] == "no-resolve"
  {
  }

  /** The private-range exemption, without a space after its first comma,
      renders as written. */
  lemma PrivateRangeLineText()
    ensures RuleLines()[1] == SourceText[1]
  {
    var rule := IpCidr("172.16.0.0/12", Direct, true);
    assert RuleList()[1] == rule;
    var head, middle := "IP-CIDR," + "172.16.0.0/12", ", " + Direct + ", ";
    assert Render(rule) == head + middle + "no-resolve";
    PrivateRangeHead();
    PrivateRangeMiddle();
    PrivateRangeFlag();
    CutTwice(PrivateRangeLine, 21, 31);
    assert SourceText[1] == PrivateRangeLine;
  }

  /** The mainland-China address exemption renders as written. */
  lemma ChinaLineText()
    ensures RuleLines()[2] == SourceText[2]
  {
    assert RuleList()[2] == RuleSet("China", Direct);
  }

  /** The mainland-China domain exemption renders as written. */
  lemma ChinaDomainLineText()
    ensures RuleLines()[3] == SourceText[3]
  {
    assert RuleList()[3] == RuleSet("ChinaDomain", Direct);
  }

  /** The OpenAI rule renders as written. */
  lemma OpenAiLineText()
    ensures RuleLines()[4] == SourceText[4]
  {
    assert RuleList()[4] == RuleSet("OpenAI", "🐱 OpenAI");
  }

  /** The Bard rule renders as written. */
  lemma BardAiLineText()
    ensures RuleLines()[5] == SourceText[5]
  {
    assert RuleList()[5] == RuleSet("BardAI", "🐱 BardAI");
  }

  /** The Netflix domain rule renders as written. */
  lemma NetflixLineText()
    ensures RuleLines()[6] == SourceText[6]
  {
    assert RuleList()[6] == RuleSet("Netflix", "📺 Netflix");
  }

  /** The Netflix address rule renders as written. */
  lemma NetflixIpLineText()
    ensures RuleLines()[7] == SourceText[7]
  {
    assert RuleList()[7] == RuleSet("NetflixIP", "📺 Netflix");
  }

  /** The Bilibili rule renders as written. */
  lemma BilibiliLineText()
    ensures RuleLines()[8] == SourceText[8]
  {
    assert RuleList()[8] == RuleSet("Bilibili", "🎬 Bilibili");
  }

  /** The Steam rule renders as written. */
  lemma SteamLineText()
    ensures RuleLines()[9] == SourceText[9]
  {
    assert RuleList()[9] == RuleSet("Steam", "🎮 Steam");
  }

  /** The catch-all directive renders as written. */
  lemma MatchLineText()
    ensures RuleLines()[10] == SourceText[10]
  {
    assert RuleList()[10] == Match(ManualSwitch);
  }

  /** Two lists of eleven lines that agree line by line are equal. */
  lemma SameElevenLines(a: seq<string>, b: seq<string>)
    requires |a| == |b| == 11
    requires a[0] == b[0] && a[1] == b[1] && a[2] == b[2] && a[3] == b[3] && a[4] == b[4] && a[5] == b[5]
    requires a[6] == b[6] && a[7] == b[7] && a[8] == b[8] && a[9] == b[9] && a[10] == b[10]
    ensures a == b
  {
    forall k | 0 <= k < 11
      ensures a[k] == b[k]
    {
    }
  }

  /** The rendered lines are exactly the eleven strings of the route. */
  lemma RuleLinesText()
    ensures RuleLines() == SourceText
  {
    LanLineText();
    PrivateRangeLineText();
    ChinaLineText();
    ChinaDomainLineText();
    OpenAiLineText();
    BardAiLineText();
    NetflixLineText();
    NetflixIpLineText();
    BilibiliLineText();
    SteamLineText();
    MatchLineText();
    SameElevenLines(RuleLines(), SourceText);
  }

  /** In the text, the last line is `MATCH, ♻️ 手动切换` and it is the only line
      that starts a catch-all directive. */
  lemma SingleTrailingMatch()
    ensures var lines := RuleLines();
      && lines[|lines| - 1] == "MATCH, " + ManualSwitch
      && forall i :: 0 <= i < |lines| ==> (IsPrefix("MATCH", lines[i]) <==> i == |lines| - 1)
  {
    var rules, lines := RuleList(), RuleLines();
    forall i | 0 <= i < |lines|
      ensures IsPrefix("MATCH", lines[i]) <==> i == |lines| - 1
    {
      RenderMatchPrefix(rules[i]);
    }
  }

  /** The list ends with the one catch-all `MATCH, ♻️ 手动切换`; every
      `RULE-SET` names a provider of the catalog; every target is `DIRECT` or
      a group the rewriter builds. None of it depends on the input document. */
  lemma RulesResolve()
    ensures var rules := RuleList();
      && rules[|rules| - 1] == Match(ManualSwitch)
      && (forall i :: 0 <= i < |rules| - 1 ==> !rules[i].Match?)
      && (forall i :: 0 <= i < |rules| && rules[i].RuleSet? ==> Lookup(Catalog(), rules[i].provider).Some?)
      && (forall i :: 0 <= i < |rules| ==> rules[i].target == Direct || rules[i].target in GroupNames)
  {
  }
}
