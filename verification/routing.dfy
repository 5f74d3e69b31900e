/** The routing-rule compiler of config/config.go (setRoutingOptions and its
    helpers): a single pass over the preference rules that yields the route
    table and, in lockstep, the candidate DNS rules, followed by the fixed
    DNS-probe, ad-block and region entries. */
module Routing {
  import opened Wrappers
  import opened Text
  import opened Engine
  import opened Preferences
  import opened Externals
  import opened Tags

  /** routeActionForOutbound (config/config.go:494-504). */
  function RouteActionForOutbound(tag: string): RouteAction
  {
    RouteAction(RuleActionTypeRoute, if tag == "" then OutboundMainProxyTag else tag)
  }

  /** dnsRouteActionForServer (config/config.go:506-513). */
  function DNSRouteActionForServer(server: string): DNSRuleAction
  {
    DNSRuleAction(RuleActionTypeRoute, DNSRouteOptions(server, false, None), None)
  }

  /** resolveRuleOutbound (config/config.go:515-526). */
  function ResolveRuleOutbound(selection: string): string
  {
    if selection == "bypass" then OutboundBypassTag
    else if selection == "block" then OutboundBlockTag
    else if selection == "proxy" || selection == "" then OutboundMainProxyTag
    else selection
  }

  /** A selection resolves to something other than itself exactly when it is
      "proxy" or empty (both mean the main proxy); bypass and block are their
      own tags. The result is never empty and is a fixed point, so the empty-tag
      fallback of routeActionForOutbound never fires for a user rule. */
  lemma ResolveRuleOutboundFacts(selection: string)
    ensures ResolveRuleOutbound(selection) != selection <==> selection == "proxy" || selection == ""
    ensures ResolveRuleOutbound(selection) == OutboundMainProxyTag <==>
      selection in {"proxy", "", OutboundMainProxyTag}
    ensures ResolveRuleOutbound(selection) != ""
    ensures ResolveRuleOutbound(ResolveRuleOutbound(selection)) == ResolveRuleOutbound(selection)
    ensures RouteActionForOutbound(ResolveRuleOutbound(selection)).outbound == ResolveRuleOutbound(selection)
  {
  }

  /** A DNS rule's route action, if it is one. */
  predicate RoutesTo(d: DNSRule, server: string)
  {
    d.action.action == RuleActionTypeRoute && d.action.route.server == server
  }

  predicate IsValidDNSRule(d: DNSRule)
  {
    d.DefaultDNSRule? && !d.matcher.IsEmpty()
  }

  predicate IsValidRouteRule(r: RouteRule)
  {
    !r.matcher.IsEmpty()
  }

  // ----- one preference rule -----

  /** The route rule of one preference rule, emitted only when valid. */
  function UserRouteRule(rule: RuleSpec, env: Env): seq<RouteRule>
  {
    var r := RouteRule(env.makeRule(rule), RouteActionForOutbound(ResolveRuleOutbound(rule.outbound)));
    if IsValidRouteRule(r) then [r] else []
  }

  /** The DNS companions of one preference rule (config/config.go:623-639):
      direct tier for bypass, block tier without caching for block, and
      otherwise the remote tier, preceded by a fake-DNS twin for the TUN and
      mixed inbounds when fake DNS is on. */
  function CompanionDNSRules(rule: RuleSpec, opt: HiddifyOptions, env: Env): seq<DNSRule>
  {
    var target := ResolveRuleOutbound(rule.outbound);
    var m := env.makeDNSRule(rule);
    if target == OutboundBypassTag then
      [DefaultDNSRule(m, DNSRouteActionForServer(DNSDirectTag))]
    else if target == OutboundBlockTag then
      var a := DNSRouteActionForServer(DNSBlockTag);
      [DefaultDNSRule(m, a.(route := a.route.(disableCache := true)))]
    else
      (if opt.enableFakeDNS then
         [DefaultDNSRule(m.(inbound := [InboundTUNTag, InboundMixedTag]), DNSRouteActionForServer(DNSFakeTag))]
       else [])
      + [DefaultDNSRule(m, DNSRouteActionForServer(DNSRemoteTag))]
  }

  function UserRouteRules(rules: seq<RuleSpec>, env: Env): seq<RouteRule>
  {
    FlatMap(rules, (r: RuleSpec) => UserRouteRule(r, env))
  }

  function UserDNSRules(rules: seq<RuleSpec>, opt: HiddifyOptions, env: Env): seq<DNSRule>
  {
    FlatMap(rules, (r: RuleSpec) => CompanionDNSRules(r, opt, env))
  }

  // ----- fixed entries -----

  const AndroidSelfBypassRule :=
    RouteRule(EmptyMatcher.(inbound := [InboundTUNTag], packageName := ["app.hiddify.com"]),
              RouteActionForOutbound(OutboundBypassTag))
  const DNSInboundRule := RouteRule(EmptyMatcher.(inbound := [InboundDNSTag]), RouteActionForOutbound(OutboundDNSTag))
  const DNSPortRule := RouteRule(EmptyMatcher.(port := [53]), RouteActionForOutbound(OutboundDNSTag))
  const LANBypassRule := RouteRule(EmptyMatcher.(ipIsPrivate := true), RouteActionForOutbound(OutboundBypassTag))

  /** The TTL the connectivity-probe DNS rule rewrites answers to. */
  const ConnectionTestTTL: nat := 3000

  /** The DNS rule pinning the connectivity-test host to the remote tier,
      present when the test URL parses. */
  function ConnectionTestDNSRules(opt: HiddifyOptions, env: Env): seq<DNSRule>
  {
    match env.urlHost(opt.connectionTestUrl)
    case None => []
    case Some(host) =>
      var a := DNSRouteActionForServer(DNSRemoteTag);
      [DefaultDNSRule(EmptyMatcher.(domain := [host]), a.(route := a.route.(rewriteTTL := Some(ConnectionTestTTL))))]
  }

  const RuleSetUpdateIntervalHours: nat := 5 * 24
  const BlockRuleSetURLPrefix := "https://raw.githubusercontent.com/hiddify/hiddify-geo/rule-set/block/"
  const CountryRuleSetURLPrefix := "https://raw.githubusercontent.com/hiddify/hiddify-geo/rule-set/country/"

  function RemoteRuleSet(tag: string, url: string): RuleSet
  {
    RuleSet(RuleSetTypeRemote, tag, RuleSetFormatBinary, url, RuleSetUpdateIntervalHours)
  }

  /** The six ad-block rule sets, in declaration order. */
  const AdBlockRuleSets := [
    RemoteRuleSet("geosite-ads", BlockRuleSetURLPrefix + "geosite-category-ads-all.srs"),
    RemoteRuleSet("geosite-malware", BlockRuleSetURLPrefix + "geosite-malware.srs"),
    RemoteRuleSet("geosite-phishing", BlockRuleSetURLPrefix + "geosite-phishing.srs"),
    RemoteRuleSet("geosite-cryptominers", BlockRuleSetURLPrefix + "geosite-cryptominers.srs"),
    RemoteRuleSet("geoip-phishing", BlockRuleSetURLPrefix + "geoip-phishing.srs"),
    RemoteRuleSet("geoip-malware", BlockRuleSetURLPrefix + "geoip-malware.srs")]

  /** The rule-set tags the ad-block rules match, in the order they list them. */
  const AdBlockTags := ["geosite-ads", "geosite-malware", "geosite-phishing", "geosite-cryptominers",
                        "geoip-malware", "geoip-phishing"]

  const AdBlockRouteRule := RouteRule(EmptyMatcher.(ruleSet := AdBlockTags), RouteActionForOutbound(OutboundBlockTag))

  /** The ad-block DNS rule goes to the block tier; unlike a preference rule
      targeting block, it leaves caching on. */
  const AdBlockDNSRule := DefaultDNSRule(EmptyMatcher.(ruleSet := AdBlockTags), DNSRouteActionForServer(DNSBlockTag))

  function RegionRuleSetTags(region: string): seq<string>
  {
    ["geoip-" + region, "geosite-" + region]
  }

  function RegionRuleSets(region: string): seq<RuleSet>
  {
    [RemoteRuleSet("geoip-" + region, CountryRuleSetURLPrefix + "geoip-" + region + ".srs"),
     RemoteRuleSet("geosite-" + region, CountryRuleSetURLPrefix + "geosite-" + region + ".srs")]
  }

  function RegionRouteRules(region: string): seq<RouteRule>
  {
    [RouteRule(EmptyMatcher.(domainSuffix := ["." + region]), RouteActionForOutbound(OutboundDirectTag)),
     RouteRule(EmptyMatcher.(ruleSet := RegionRuleSetTags(region)), RouteActionForOutbound(OutboundDirectTag))]
  }

  function RegionDNSRules(region: string): seq<DNSRule>
  {
    [DefaultDNSRule(EmptyMatcher.(domainSuffix := ["." + region]), DNSRouteActionForServer(DNSDirectTag)),
     DefaultDNSRule(EmptyMatcher.(ruleSet := RegionRuleSetTags(region)), DNSRouteActionForServer(DNSDirectTag))]
  }

  /** Regions other than "other" get direct rules. */
  predicate HasRegion(opt: HiddifyOptions)
  {
    opt.region != "other"
  }

  // ----- the tables -----

  /** The route table before the preference rules. */
  function LeadingRouteRules(opt: HiddifyOptions, env: Env): seq<RouteRule>
  {
    (if opt.enableTun && env.android then [AndroidSelfBypassRule] else [])
    + [DNSInboundRule, DNSPortRule]
    + (if opt.bypassLAN then [LANBypassRule] else [])
  }

  /** The route table after the preference rules. */
  function TrailingRouteRules(opt: HiddifyOptions): seq<RouteRule>
  {
    (if opt.blockAds then [AdBlockRouteRule] else [])
    + (if HasRegion(opt) then RegionRouteRules(opt.region) else [])
  }

  function RouteRulesFor(opt: HiddifyOptions, env: Env): seq<RouteRule>
  {
    LeadingRouteRules(opt, env) + UserRouteRules(opt.rules, env) + TrailingRouteRules(opt)
  }

  /** The DNS rules after the preference rules' companions. */
  function TrailingDNSRules(opt: HiddifyOptions, env: Env): seq<DNSRule>
  {
    ConnectionTestDNSRules(opt, env)
    + (if opt.blockAds then [AdBlockDNSRule] else [])
    + (if HasRegion(opt) then RegionDNSRules(opt.region) else [])
  }

  /** Every DNS rule setRoutingOptions builds, before validity filtering. */
  function CandidateDNSRules(opt: HiddifyOptions, env: Env): seq<DNSRule>
  {
    UserDNSRules(opt.rules, opt, env) + TrailingDNSRules(opt, env)
  }

  function RuleSetsFor(opt: HiddifyOptions): seq<RuleSet>
  {
    (if opt.blockAds then AdBlockRuleSets else [])
    + (if HasRegion(opt) then RegionRuleSets(opt.region) else [])
  }

  /** options.Route as setRoutingOptions sets it. */
  function RouteOptionsFor(opt: HiddifyOptions, env: Env): RouteOptions
  {
    RouteOptions(RouteRulesFor(opt, env), OutboundMainProxyTag, true, env.android, RuleSetsFor(opt))
  }

  /** The valid rules of `ds`, in order. */
  function ValidOnly(ds: seq<DNSRule>): seq<DNSRule>
  {
    if ds == [] then []
    else ValidOnly(ds[..|ds| - 1]) + if IsValidDNSRule(ds[|ds| - 1]) then [ds[|ds| - 1]] else []
  }

  /** The DNS rules setRoutingOptions appends to options.DNS.Rules. */
  function AppendedDNSRules(opt: HiddifyOptions, env: Env): seq<DNSRule>
  {
    if opt.enableDNSRouting then ValidOnly(CandidateDNSRules(opt, env)) else []
  }

  // ----- properties -----

  /** The DNS tier a resolved rule target is paired with. */
  function DNSTierFor(target: string): string
  {
    if target == OutboundBypassTag then DNSDirectTag
    else if target == OutboundBlockTag then DNSBlockTag
    else DNSRemoteTag
  }

  /** A preference rule proxied through the main selector or a named
      outbound gets a fake-DNS twin when fake DNS is on. */
  predicate HasFakeTwin(rule: RuleSpec, opt: HiddifyOptions)
  {
    var target := ResolveRuleOutbound(rule.outbound);
    opt.enableFakeDNS && target != OutboundBypassTag && target != OutboundBlockTag
  }

  /** The companions of one preference rule: its own matcher routed to the
      tier of its target (with caching off exactly for block targets and no
      TTL rewrite), preceded, when fake DNS is on and the target is proxied,
      by a twin restricted to the TUN and mixed inbounds that answers from
      the fake-IP server. */
  lemma CompanionShape(rule: RuleSpec, opt: HiddifyOptions, env: Env)
    ensures var c := CompanionDNSRules(rule, opt, env);
      var target := ResolveRuleOutbound(rule.outbound);
      var last := c[|c| - 1];
      |c| == (if HasFakeTwin(rule, opt) then 2 else 1) &&
      last == DefaultDNSRule(env.makeDNSRule(rule), last.action) &&
      RoutesTo(last, DNSTierFor(target)) &&
      last.action.rcode == None && last.action.route.rewriteTTL == None &&
      (last.action.route.disableCache <==> target == OutboundBlockTag) &&
      (HasFakeTwin(rule, opt) ==>
         c[0] == DefaultDNSRule(env.makeDNSRule(rule).(inbound := [InboundTUNTag, InboundMixedTag]),
                                DNSRouteActionForServer(DNSFakeTag)))
  {
  }

  lemma UserRouteRulesAppend(a: seq<RuleSpec>, b: seq<RuleSpec>, env: Env)
    ensures UserRouteRules(a + b, env) == UserRouteRules(a, env) + UserRouteRules(b, env)
  {
    FlatMapAppend(a, b, (r: RuleSpec) => UserRouteRule(r, env));
  }

  lemma UserDNSRulesAppend(a: seq<RuleSpec>, b: seq<RuleSpec>, opt: HiddifyOptions, env: Env)
    ensures UserDNSRules(a + b, opt, env) == UserDNSRules(a, opt, env) + UserDNSRules(b, opt, env)
  {
    FlatMapAppend(a, b, (r: RuleSpec) => CompanionDNSRules(r, opt, env));
  }

  /** Where the companions of preference rule i start in the DNS rules. */
  function CompanionOffset(rules: seq<RuleSpec>, i: nat, opt: HiddifyOptions, env: Env): nat
    requires i <= |rules|
  {
    |UserDNSRules(rules[..i], opt, env)|
  }

  /** The DNS rules of the preference rules are their companions laid end to
      end in rule order: those of rule i sit at CompanionOffset(i), right
      after those of rule i - 1. */
  lemma CompanionsInOrder(rules: seq<RuleSpec>, i: nat, opt: HiddifyOptions, env: Env)
    requires i < |rules|
    ensures var off := CompanionOffset(rules, i, opt, env);
      var c := CompanionDNSRules(rules[i], opt, env);
      off + |c| == CompanionOffset(rules, i + 1, opt, env) &&
      off + |c| <= |UserDNSRules(rules, opt, env)| &&
      UserDNSRules(rules, opt, env)[off..off + |c|] == c
  {
    var pre, mid, post := rules[..i], [rules[i]], rules[i + 1..];
    assert rules == pre + mid + post;
    assert rules[..i + 1] == pre + mid;
    UserDNSRulesAppend(pre, mid, opt, env);
    UserDNSRulesAppend(pre + mid, post, opt, env);
    assert mid[..0] == [];
  }

  /** Every DNS rule of a preference rule answers from one of the four
      upstream tiers: the fake-IP tier only when fake DNS is on, and a rule
      of the block tier never caches. */
  lemma {:induction false} UserDNSRulesTiers(rules: seq<RuleSpec>, opt: HiddifyOptions, env: Env)
    ensures forall d :: d in UserDNSRules(rules, opt, env) ==>
      d.DefaultDNSRule? && d.action.action == RuleActionTypeRoute &&
      d.action.route.server in {DNSDirectTag, DNSBlockTag, DNSRemoteTag, DNSFakeTag} &&
      (d.action.route.server == DNSFakeTag ==> opt.enableFakeDNS) &&
      (d.action.route.server == DNSBlockTag ==> d.action.route.disableCache)
  {
    if rules != [] {
      UserDNSRulesTiers(rules[..|rules| - 1], opt, env);
      CompanionShape(rules[|rules| - 1], opt, env);
    }
  }

  /** A route rule is emitted for a preference rule exactly when its matcher
      is non-empty, and it goes to the resolved target of that rule. */
  lemma UserRouteRulesMembership(rules: seq<RuleSpec>, env: Env, r: RouteRule)
    ensures r in UserRouteRules(rules, env) <==>
      exists i :: 0 <= i < |rules| && !env.makeRule(rules[i]).IsEmpty() &&
        r == RouteRule(env.makeRule(rules[i]), RouteActionForOutbound(ResolveRuleOutbound(rules[i].outbound)))
  {
    FlatMapMembership(rules, (x: RuleSpec) => UserRouteRule(x, env), r);
  }

  /** The route table starts with the fixed DNS-hijack entries (after the
      Android self-bypass when TUN is on there), then the preference rules'
      entries in order, then the ad-block and region entries. */
  lemma RouteTableLayout(opt: HiddifyOptions, env: Env)
    ensures var rs := RouteRulesFor(opt, env);
      var k := |LeadingRouteRules(opt, env)|;
      var u := UserRouteRules(opt.rules, env);
      (k == 2 + (if opt.enableTun && env.android then 1 else 0) + (if opt.bypassLAN then 1 else 0)) &&
      |rs| == k + |u| + |TrailingRouteRules(opt)| &&
      rs[k - 2 - (if opt.bypassLAN then 1 else 0)] == DNSInboundRule &&
      rs[k - 1 - (if opt.bypassLAN then 1 else 0)] == DNSPortRule &&
      (opt.enableTun && env.android ==> rs[0] == AndroidSelfBypassRule) &&
      (opt.bypassLAN ==> rs[k - 1] == LANBypassRule) &&
      rs[k..k + |u|] == u &&
      rs[k + |u|..] == TrailingRouteRules(opt)
  {
  }

  /** Every rule set a fixed route or DNS rule matches on is declared among
      the route's rule sets. */
  lemma FixedRuleSetsDeclared(opt: HiddifyOptions, env: Env)
    ensures forall r, t :: r in TrailingRouteRules(opt) && t in r.matcher.ruleSet ==>
      exists s :: s in RuleSetsFor(opt) && s.tag == t
    ensures forall d, t :: d in TrailingDNSRules(opt, env) && t in d.matcher.ruleSet ==>
      exists s :: s in RuleSetsFor(opt) && s.tag == t
  {
    var sets := RuleSetsFor(opt);
    forall r, t | r in TrailingRouteRules(opt) && t in r.matcher.ruleSet
      ensures exists s :: s in sets && s.tag == t
    {
      DeclaredTag(opt, t);
    }
    forall d, t | d in TrailingDNSRules(opt, env) && t in d.matcher.ruleSet
      ensures exists s :: s in sets && s.tag == t
    {
      DeclaredTag(opt, t);
    }
  }

  /** The tags the ad-block and region rules may mention are declared. */
  lemma DeclaredTag(opt: HiddifyOptions, t: string)
    requires (opt.blockAds && t in AdBlockTags) || (HasRegion(opt) && t in RegionRuleSetTags(opt.region))
    ensures exists s :: s in RuleSetsFor(opt) && s.tag == t
  {
    var sets := RuleSetsFor(opt);
    var pre := if opt.blockAds then AdBlockRuleSets else [];
    if opt.blockAds && t in AdBlockTags {
      var i :| 0 <= i < 6 && AdBlockTags[i] == t;
      var j := [0, 1, 2, 3, 5, 4][i];
      assert sets[j] == AdBlockRuleSets[j];
      assert sets[j].tag == t;
    } else {
      var j := if t == "geoip-" + opt.region then 0 else 1;
      assert sets[|pre| + j] == RegionRuleSets(opt.region)[j];
    }
  }

  /** With region "ir" and ad blocking off, the route table ends with the two
      direct rules for ".ir" and the Iranian rule sets, which are the only
      rule sets declared. */
  lemma IranRegionScenario(opt: HiddifyOptions, env: Env)
    requires opt.region == "ir" && !opt.blockAds
    ensures var rs := RouteRulesFor(opt, env);
      |rs| >= 2 &&
      rs[|rs| - 2] == RouteRule(EmptyMatcher.(domainSuffix := [".ir"]), RouteAction("route", "direct")) &&
      rs[|rs| - 1] == RouteRule(EmptyMatcher.(ruleSet := ["geoip-ir", "geosite-ir"]), RouteAction("route", "direct"))
    ensures RuleSetsFor(opt) == [
      RuleSet("remote", "geoip-ir", "binary",
              "https://raw.githubusercontent.com/hiddify/hiddify-geo/rule-set/country/geoip-ir.srs", 120),
      RuleSet("remote", "geosite-ir", "binary",
              "https://raw.githubusercontent.com/hiddify/hiddify-geo/rule-set/country/geosite-ir.srs", 120)]
  {
    var t := TrailingRouteRules(opt);
    assert t == RegionRouteRules(opt.region);
    assert "." + opt.region == ".ir";
    assert "geoip-" + opt.region == "geoip-ir" && "geosite-" + opt.region == "geosite-ir";
    assert CountryRuleSetURLPrefix + "geoip-" + opt.region + ".srs" ==
      "https://raw.githubusercontent.com/hiddify/hiddify-geo/rule-set/country/geoip-ir.srs";
    assert CountryRuleSetURLPrefix + "geosite-" + opt.region + ".srs" ==
      "https://raw.githubusercontent.com/hiddify/hiddify-geo/rule-set/country/geosite-ir.srs";
    assert RuleSetsFor(opt) == RegionRuleSets(opt.region);
  }

  lemma {:induction false} ValidOnlyMembership(ds: seq<DNSRule>, d: DNSRule)
    ensures d in ValidOnly(ds) <==> d in ds && IsValidDNSRule(d)
    ensures |ValidOnly(ds)| <= |ds|
  {
    if ds != [] {
      var init := ds[..|ds| - 1];
      ValidOnlyMembership(init, d);
      assert ds == init + [ds[|ds| - 1]];
    }
  }

  /** A preference rule whose builders produce an empty DNS matcher, proxied
      with fake DNS on, leaves exactly one DNS rule after filtering: its
      fake-IP twin, which matches every query from the TUN and mixed
      inbounds. The remote-tier companion is dropped as empty. */
  lemma EmptyProxiedRuleBecomesCatchAll(rule: RuleSpec, opt: HiddifyOptions, env: Env)
    requires env.makeDNSRule(rule).IsEmpty()
    requires HasFakeTwin(rule, opt)
    ensures ValidOnly(CompanionDNSRules(rule, opt, env)) ==
      [DefaultDNSRule(EmptyMatcher.(inbound := [InboundTUNTag, InboundMixedTag]), DNSRouteActionForServer(DNSFakeTag))]
  {
    var c := CompanionDNSRules(rule, opt, env);
    assert |c| == 2;
    assert !IsValidDNSRule(c[1]);
    assert c[..1][..0] == [];
    assert ValidOnly(c[..1]) == [c[0]];
    assert c[..|c| - 1] == c[..1];
  }

  /** When DNS routing is on, the appended DNS rules are exactly the valid
      candidates; otherwise none are appended. */
  lemma AppendedDNSRulesFacts(opt: HiddifyOptions, env: Env, d: DNSRule)
    ensures d in AppendedDNSRules(opt, env) <==>
      opt.enableDNSRouting && d in CandidateDNSRules(opt, env) && IsValidDNSRule(d)
  {
    ValidOnlyMembership(CandidateDNSRules(opt, env), d);
  }

  /** Every DNS rule setRoutingOptions appends routes to the direct, block,
      remote or fake-IP tier, and to the fake-IP tier only when fake DNS is
      on. */
  lemma AppendedDNSTiers(opt: HiddifyOptions, env: Env)
    ensures forall d :: d in AppendedDNSRules(opt, env) ==>
      d.action.action == RuleActionTypeRoute &&
      d.action.route.server in {DNSDirectTag, DNSBlockTag, DNSRemoteTag, DNSFakeTag} &&
      (d.action.route.server == DNSFakeTag ==> opt.enableFakeDNS)
  {
    UserDNSRulesTiers(opt.rules, opt, env);
    forall d | d in AppendedDNSRules(opt, env)
      ensures d.action.action == RuleActionTypeRoute &&
        d.action.route.server in {DNSDirectTag, DNSBlockTag, DNSRemoteTag, DNSFakeTag} &&
        (d.action.route.server == DNSFakeTag ==> opt.enableFakeDNS)
    {
      AppendedDNSRulesFacts(opt, env, d);
    }
  }
}
