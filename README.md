# sub-transformer routing rewrite, in Dafny

This project models the routing-policy rewrite of the sub-transformer route
(`app/api/route.ts`). The route fetches a proxy-client subscription document,
parses it, replaces its routing policy with a fixed scheme and serialises it
again. The model covers the part between parsing and serialising:

- **Classifier** (`classifier.dfy`, on top of `strings.dfy`). `filterProxies`
  picks the names of the proxies whose `name` contains an area label. The
  inline "uncategorised" filter picks the names that contain none of the 14
  labels in `areas`. Both are `filter` + `map`, so both are modelled as
  functions over sequences, through one order-preserving `Filter`.
- **Group rewriter** (`groups.dfy`). It builds the 22 `select` groups in
  their fixed order. First comes `♻️ 手动切换`: `DIRECT`, every area label,
  then the uncategorised names. Next come the seven service groups, each
  `[DIRECT, ♻️ 手动切换, ...areas]`. Last comes one group per area, holding
  that area's bucket.
- **Rule-provider catalog** (`providers.dfy`). Nine remote rule lists, kept
  as an ordered entry list because the object literal fixes the key order.
- **Rule list** (`rules.dfy`). Eleven directives, modelled as structured
  rules and rendered to text with the route's exact spacing. The `IP-CIDR`
  line has no space after its first comma. The rendering is proved equal,
  line by line, to the eleven literal lines the route assigns.
- **Document** (`profile.dfy`). `Profile` is a class holding the parsed tree:
  `proxies`, `proxy-groups`, `rule-providers`, `rules` and every other
  top-level key. `RewritePolicy` reassigns three fields and leaves the rest
  alone, as `GET` does. `Rewritten` is the same step written as a function
  on document values.
- **Worked inputs** (`examples.dfy`). Concrete proxy lists and what the
  rewriter makes of them.

Two regular expressions are built at run time. The labels contain no regex
metacharacters, so both patterns are modelled as literal text tests.
`.*label.*` is substring containment. `^(?!.*(?:l1|…|l14)).*$` has no flags,
so `.` and `$` stop at a line terminator (LF, CR, U+2028, U+2029). The
pattern therefore accepts a name exactly when the name has no line
terminator and contains no label. The model keeps the line-terminator
condition instead of assuming it away. As a result, a name with a line
terminator and no label appears in no group at all
(`Classifier.LineTerminatorDropsName`).

A node named `🇭🇰 HK-01` does not land in the `🇭🇰 香港` group: the label is
the whole text `🇭🇰 香港`, which is not a substring of `🇭🇰 HK-01`.
`Examples.FlagOnlyNamesStayUncategorised` proves that such names, with a flag
and Latin letters only, all go to the manual-switch tail and leave every area
group empty. `Examples.LabelledNamesAreBucketed` shows bucketing for names
that spell out the label.

## Model

| member | source | states |
|---|---|---|
| `Strings.ContainsIff` | app/api/route.ts:28-29 | the scanning containment test used for `.*text.*` holds exactly when `text` occurs at some index of the name |
| `Strings.CharMissingRulesOut` | app/api/route.ts:28-29 | a label holding a character that the name lacks never matches that name |
| `Classifier.Names` | app/api/route.ts:29 | `map(i => i.name)` keeps the length and takes each entry's name at the same position |
| `Classifier.Filter` | app/api/route.ts:29 | the filtered list is no longer than the input, and a name is in it exactly when it is in the input and passes the test |
| `Classifier.FilterKeepsOrder` | app/api/route.ts:27-30 | the filtered list is the input with exactly the failing entries removed: kept positions are strictly increasing and are precisely the passing ones |
| `Classifier.FilterAllPass` | app/api/route.ts:29 | filtering with a test every name passes returns the list unchanged |
| `Classifier.FilterNonePass` | app/api/route.ts:29 | filtering with a test no name passes returns the empty list |
| `Classifier.FilterThree` | app/api/route.ts:29 | filtering three names keeps exactly the ones that pass, in their order |
| `Classifier.FilterProxies` | app/api/route.ts:27-30 | a name is in `filterProxies(proxies, text)` exactly when it is a proxy's name that contains `text` |
| `Classifier.Uncategorised` | app/api/route.ts:68-71 | a name is uncategorised exactly when it is a proxy's name, has no line terminator, and contains none of the labels |
| `Classifier.ClassifierKeepsOrder` | app/api/route.ts:68-71 | both the area buckets and the uncategorised list are order-preserving selections of the proxies' names |
| `Classifier.CoverWithoutOverlap` | app/api/route.ts:64-85 | a proxy name without a line terminator is uncategorised exactly when no label bucket holds it; buckets may overlap |
| `Classifier.LineTerminatorDropsName` | app/api/route.ts:68-71 | a name with a line terminator is never uncategorised, and if it also holds no label it is in no bucket either |
| `Groups.BuildGroups` | app/api/route.ts:64-85 | 22 groups, all `select`, named in order `♻️ 手动切换`, the seven services, the 14 areas; the manual-switch list starts `[DIRECT] ++ areas`; every service list is `[DIRECT, ♻️ 手动切换] ++ areas` |
| `Groups.GroupContents` | app/api/route.ts:64-85 | the manual-switch tail is exactly the uncategorised names, and area group j is named `areas[j]` and holds exactly that area's bucket |
| `Groups.GroupNamesDistinct` | app/api/route.ts:64-85 | no two produced groups share a name |
| `Groups.EmptyProxies` | app/api/route.ts:66-68 | with no proxies the manual-switch list is exactly `[DIRECT] ++ areas` and every area group is empty |
| `Groups.GroupsCoverNames` | app/api/route.ts:64-85 | each proxy name without a line terminator is in the manual-switch tail or in some area group, never in both |
| `Providers.Lookup` | app/api/route.ts:87-151 | a key is found exactly when it is one of the catalog's keys, and the value found is the one stored under it |
| `Providers.Catalog` | app/api/route.ts:87-151 | nine providers with distinct keys in source order; each has type `http`, a 86400-second interval, a behaviour among classical/domain/ipcidr, a URL in the shared rule repository and a cache path under `./ruleset/` |
| `Rules.RenderMatchPrefix` | app/api/route.ts:153-165 | a rendered line starts with `MATCH` exactly when it is the catch-all directive |
| `Rules.RuleLines` | app/api/route.ts:153-165 | the `rules` text has one line per directive, each the rendering of that directive |
| `Rules.PrivateRangeLineText` | app/api/route.ts:155 | the `IP-CIDR` directive renders to `IP-CIDR,172.16.0.0/12, DIRECT, no-resolve`, with no space after the first comma |
| `Rules.RuleLinesText` | app/api/route.ts:153-165 | rendering the structured directives gives exactly the eleven lines of the route, character for character and in order |
| `Rules.SingleTrailingMatch` | app/api/route.ts:153-165 | the last line is `MATCH, ♻️ 手动切换` and no other line starts a `MATCH` directive |
| `Rules.RulesResolve` | app/api/route.ts:87-165 | the list ends with `MATCH` to `♻️ 手动切换` and has no other `MATCH`; every `RULE-SET` names a catalog provider; every target is `DIRECT` or a group the rewriter builds |
| `Profile.Rewritten` | app/api/route.ts:62-165 | the rewrite keeps `proxies` and the other keys, and sets the 22 groups built from the proxies, the catalog and the rule lines |
| `Profile.RewriteIdempotent` | app/api/route.ts:62-165 | rewriting a rewritten document changes nothing |
| `Profile.RewriteDiscardsPriorPolicy` | app/api/route.ts:87-165 | providers and rules are the same for every input; documents that agree on `proxies` and the other keys rewrite to the same document |
| `Profile.Profile.constructor` | app/api/route.ts:60 | the object holds exactly the parsed document |
| `Profile.Profile.RewritePolicy` | app/api/route.ts:62-165 | after the call the document is `Rewritten` of the old one: `proxies` and other keys unchanged, the three policy keys replaced |
| `Examples.AreasCarryHan` | app/api/route.ts:32-47 | each area label has a Han character right after its flag and space, and only the Hong Kong label has 香 or 港 there |
| `Examples.NoHanNoArea` | app/api/route.ts:32-47 | a name with no Han character contains no area label |
| `Examples.NoHanUncategorised` | app/api/route.ts:68-71 | a name with no Han character and no line terminator passes the uncategorised test |
| `Examples.OnlyHongKongLabel` | app/api/route.ts:28-47 | a name that starts with `🇭🇰 香港` and has no Han characters besides 香 and 港 contains the Hong Kong label and no other label |
| `Examples.FlagOnlyNamesStayUncategorised` | app/api/route.ts:64-85 | for `🇭🇰 HK-01`, `🇺🇸 US-01`, `Relay-X` the manual-switch tail is all three names and every area group is empty |
| `Examples.OuterPairBucketed` | app/api/route.ts:64-85 | for three nodes whose outer two hold only area k's label and whose middle one is uncategorised: area k's group is the outer two in order, the tail is the middle one, all other area groups are empty |
| `Examples.LabelledNamesAreBucketed` | app/api/route.ts:64-85 | for `🇭🇰 香港 01`, `Relay-X`, `🇭🇰 香港 02` the Hong Kong group is the two Hong Kong nodes in order, the tail is `Relay-X`, and every other area group is empty |

## Left out

- Request handling is not modelled: reading the `url` query parameter and answering 404 without it (app/api/route.ts:49-53). It is framework plumbing.
- The outbound `fetch` with its `User-Agent` header, and reading the body (app/api/route.ts:54-59), are not modelled. They are network I/O.
- YAML `parse` and `stringify` (app/api/route.ts:2, 60, 167) come from a foreign library. The `Profile` constructor takes the parsed tree, and serialisation is not modelled.
- Building the `Response` and its `content-disposition` header (app/api/route.ts:167-173) is not modelled. Neither is the `maxDuration` hosting setting (app/api/route.ts:4).
- The model assumes a well-typed document. When `proxies` is missing or an entry has no string `name`, the source throws or coerces `undefined` to text. The model's document always has a list of named proxies.
- The prior values of `proxy-groups`, `rule-providers` and `rules` in the input are restricted to the shapes the rewrite produces (`ProxyGroup` entries, `RuleProvider` entries, lines of text). A real input may carry other shapes there, such as a `url-test` group with `url` and `interval` fields, provider entries with extra fields, or non-text `rules` (app/api/route.ts:24 declares `rules: any`). The rewrite discards all three values, so no behaviour is lost, but `Profile.RewriteIdempotent` and `Profile.RewriteDiscardsPriorPolicy` are stated only over documents of that shape.
- The output position of the three replaced keys among the other top-level keys is not modelled. The document keeps the other keys as a separate ordered list.
- Strings are sequences of Unicode scalar values. JavaScript strings are UTF-16 code units, so names holding lone surrogates are not represented. For well-formed text, containment is the same in both views.
- General regular-expression semantics are not modelled. The 14 fixed labels contain no metacharacters, so both patterns are literal text tests, as described above.
