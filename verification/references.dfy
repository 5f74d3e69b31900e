/** How the sections BuildConfig (config/config.go:61-84) writes refer to one
    another by tag: route rules and the route's final name outbounds, DNS
    rules name DNS servers, and some rules name inbounds. Each lemma says
    when such a reference has something to point at and when it does not. */
module References {
  import opened Engine
  import opened Preferences
  import opened Externals
  import opened Tags
  import opened Routing
  import opened DnsChain
  import opened OutboundGraph
  import opened Inbounds
  import opened Compiler

  // ----- outbounds named by the route section -----

  /** The route's final ("select") and the outbound of every fixed route rule
      (the Android self bypass, the DNS hijacks, the LAN bypass, ad blocking
      and the region rules) are outbounds of the built graph, and so are the
      targets a preference rule reaches through "proxy", "", "bypass" or
      "block". Any other preference target is used as a tag unchanged. */
  lemma RouteOutboundsExist(vs: seq<OutboundValue>, opt: HiddifyOptions, env: Env)
    ensures var tags := TagsOf(GraphValues(vs, opt));
      RouteOptionsFor(opt, env).final in tags &&
      (forall r :: r in LeadingRouteRules(opt, env) + TrailingRouteRules(opt) ==> r.action.outbound in tags) &&
      (forall sel :: sel in ["proxy", "", "bypass", "block"] ==> ResolveRuleOutbound(sel) in tags)
  {
    var tags := TagsOf(GraphValues(vs, opt));
    ReservedInGraph(vs, opt);
    forall r | r in LeadingRouteRules(opt, env) + TrailingRouteRules(opt)
      ensures r.action.outbound in tags
    {
      FixedRuleOutbound(opt, env, r);
    }
  }

  /** The graph's own tags are among the built outbounds' tags. */
  lemma ReservedInGraph(vs: seq<OutboundValue>, opt: HiddifyOptions)
    ensures forall t :: t in ReservedTags ==> t in TagsOf(GraphValues(vs, opt))
  {
    GraphTags(vs, opt);
    var tags := TagsOf(GraphValues(vs, opt));
    var k := |TagsOf(KeptOutbounds(vs, opt))|;
    forall t | t in ReservedTags
      ensures t in tags
    {
      if t in GroupTags {
        var i :| 0 <= i < 2 && GroupTags[i] == t;
        assert tags[i] == t;
      } else {
        var i :| 0 <= i < 5 && SystemTags[i] == t;
        assert tags[2 + k + i] == t;
      }
    }
  }

  /** Every fixed route rule sends its traffic to one of the graph's own
      outbounds. */
  lemma FixedRuleOutbound(opt: HiddifyOptions, env: Env, r: RouteRule)
    requires r in LeadingRouteRules(opt, env) + TrailingRouteRules(opt)
    ensures r.action.outbound in ReservedTags
  {
    if r in TrailingRouteRules(opt) && r !in [AdBlockRouteRule] {
      assert r in RegionRouteRules(opt.region);
    }
  }

  // ----- DNS servers named by the DNS section -----

  /** When the input brings no usable DNS section, the compiled section is
      the built chain with the appended rules, the fake-IP tier and the rcode
      rewrite applied; every rule of it that routes then names one of its
      servers. The final names a server unless the upgrade turned the remote
      tier into an rcode server, and the force-direct rule's direct tier is
      present unless the upgrade turned it into one. */
  lemma FallbackDNSResolves(opt: HiddifyOptions, input: InputOptions, env: Env, keys: seq<string>)
    requires UpgradeKeepsTag(env)
    requires !(input.dns.Some? && |input.dns.value.servers| > 0 && env.cloneDNSOk(input.dns.value))
    ensures var pre := DNSBeforeOutbounds(opt, input, env);
      RouteTargetsExist(pre) && pre.final == DNSRemoteTag &&
      (!IsRCodeServer(env.upgrade(LegacyChain(opt)[0])) ==> pre.final in ServerTags(pre.servers))
    ensures !IsRCodeServer(env.upgrade(LegacyChain(opt)[1])) ==>
      RouteTargetsExist(WithForceDirect(DNSBeforeOutbounds(opt, input, env), keys, env))
  {
    var c := LegacyChain(opt);
    var d := DNSFor(input.dns, opt, env);
    DNSForFacts(input.dns, opt, env);
    var w := WithFakeDNS(d.(rules := d.rules + AppendedDNSRules(opt, env)), opt);
    FallbackResolvable(opt, input, env);
    RewriteKeepsTargets(w);
    var pre := RewrittenDNS(w);
    assert pre == DNSBeforeOutbounds(opt, input, env);
    RewrittenDNSFacts(w);
    assert w.servers[..4] == d.servers;
    assert d.servers[0] in w.servers && d.servers[1] in w.servers;
    if !IsRCodeServer(env.upgrade(c[0])) {
      assert d.servers[0] in pre.servers;
      var k :| 0 <= k < |pre.servers| && pre.servers[k] == d.servers[0];
      assert ServerTags(pre.servers)[k] == DNSRemoteTag;
    }
    if !IsRCodeServer(env.upgrade(c[1])) {
      var f := WithForceDirect(pre, keys, env);
      assert d.servers[1] in pre.servers && d.servers[1].tag == DNSDirectTag;
      forall r | r in f.rules && r.action.action == RuleActionTypeRoute
        ensures exists s :: s in f.servers && s.tag == r.action.route.server
      {
        if r != ForceDirectRule(keys, env) {
          assert r in pre.rules;
        }
      }
    }
  }

  /** Before the rcode rewrite, every routing rule of the fallback section
      names a tier of the built chain or the fake-IP server. */
  lemma FallbackResolvable(opt: HiddifyOptions, input: InputOptions, env: Env)
    requires UpgradeKeepsTag(env)
    requires !(input.dns.Some? && |input.dns.value.servers| > 0 && env.cloneDNSOk(input.dns.value))
    ensures var d := DNSFor(input.dns, opt, env);
      RouteTargetsResolvable(WithFakeDNS(d.(rules := d.rules + AppendedDNSRules(opt, env)), opt))
  {
    var d := DNSFor(input.dns, opt, env);
    var w := WithFakeDNS(d.(rules := d.rules + AppendedDNSRules(opt, env)), opt);
    forall r | r in w.rules && r.action.action == RuleActionTypeRoute
      ensures exists s ::
        s in w.servers && s.tag == r.action.route.server && (!IsRCodeServer(s) || s.options.RCodeOptions?)
    {
      var s := FallbackTarget(opt, input, env, r);
      assert s in w.servers;
    }
  }

  /** The server a routing rule of the fallback section names, before the
      rcode rewrite. */
  lemma FallbackTarget(opt: HiddifyOptions, input: InputOptions, env: Env, r: DNSRule) returns (s: DNSServer)
    requires UpgradeKeepsTag(env)
    requires !(input.dns.Some? && |input.dns.value.servers| > 0 && env.cloneDNSOk(input.dns.value))
    requires var d := DNSFor(input.dns, opt, env);
      r in WithFakeDNS(d.(rules := d.rules + AppendedDNSRules(opt, env)), opt).rules &&
      r.action.action == RuleActionTypeRoute
    ensures var d := DNSFor(input.dns, opt, env);
      s in WithFakeDNS(d.(rules := d.rules + AppendedDNSRules(opt, env)), opt).servers &&
      s.tag == r.action.route.server && (!IsRCodeServer(s) || s.options.RCodeOptions?)
  {
    var c := LegacyChain(opt);
    var d := DNSFor(input.dns, opt, env);
    DNSForFacts(input.dns, opt, env);
    var d' := d.(rules := d.rules + AppendedDNSRules(opt, env));
    WithFakeDNSFacts(d', opt);
    var w := WithFakeDNS(d', opt);
    assert d.rules == [];
    if r in AppendedDNSRules(opt, env) {
      AppendedDNSTiers(opt, env);
      var t := r.action.route.server;
      if t == DNSFakeTag {
        s := FakeIPServer;
        assert w.servers[|d'.servers|] == s;
      } else {
        var i := if t == DNSRemoteTag then 0 else if t == DNSDirectTag then 1 else 3;
        s := d.servers[i];
        assert w.servers[..|d'.servers|][i] == s;
      }
    } else {
      assert opt.enableFakeDNS && r == FakeDNSRule;
      s := FakeIPServer;
      assert w.servers[|d'.servers|] == s;
    }
  }

  /** When the input's DNS section is kept as it is, the generated rules
      still name the compiler's own tiers, which that section need not have:
      with DNS routing on, a region set and no server tagged dns-direct, the
      region's direct rule names no server. */
  lemma KeptDNSMayDangle(opt: HiddifyOptions, input: InputOptions, env: Env)
    requires input.dns.Some? && |input.dns.value.servers| > 0 && env.cloneDNSOk(input.dns.value)
    requires forall s :: s in input.dns.value.servers ==> s.tag != DNSDirectTag
    requires opt.enableDNSRouting && HasRegion(opt)
    ensures !RouteTargetsExist(DNSBeforeOutbounds(opt, input, env))
  {
    var d := input.dns.value;
    var rule := RegionDNSRules(opt.region)[0];
    assert rule in TrailingDNSRules(opt, env);
    assert rule in CandidateDNSRules(opt, env);
    AppendedDNSRulesFacts(opt, env, rule);
    var w := WithFakeDNS(d.(rules := d.rules + AppendedDNSRules(opt, env)), opt);
    assert rule in w.rules;
    var k :| 0 <= k < |w.rules| && w.rules[k] == rule;
    var m := RCodeMap(w.servers);
    RCodeMapDomain(w.servers, DNSDirectTag);
    assert DNSDirectTag !in m;
    var pre := RewrittenDNS(w);
    RewrittenDNSFacts(w);
    assert pre.rules[k] == rule;
    assert rule in pre.rules && rule.action.action == RuleActionTypeRoute;
    assert !exists s :: s in pre.servers && s.tag == DNSDirectTag;
  }

  // ----- inbounds named by rules -----

  function InboundTags(ins: seq<Inbound>): seq<string>
  {
    seq(|ins|, i requires 0 <= i < |ins| => ins[i].tag)
  }

  /** The inbounds of the compiled configuration, as BuildConfig sets them. */
  function ConfigInbounds(opt: HiddifyOptions, input: InputOptions): seq<Inbound>
  {
    (if opt.enableFullConfig then input.inbounds else []) + NewInbounds(opt)
  }

  /** tun-in is built only when the tunnel is on and no tunnel service takes
      it over; otherwise only the user's full configuration can bring one.
      mixed-in and dns-in are always built. */
  lemma InboundsBuilt(opt: HiddifyOptions, input: InputOptions)
    ensures var tags := InboundTags(ConfigInbounds(opt, input));
      InboundMixedTag in tags && InboundDNSTag in tags &&
      (InboundTUNTag in tags <==>
         BuildsTun(opt) || (opt.enableFullConfig && InboundTUNTag in InboundTags(input.inbounds)))
  {
    var ins := ConfigInbounds(opt, input);
    var user := if opt.enableFullConfig then input.inbounds else [];
    var n := NewInbounds(opt);
    NewInboundsFacts(opt);
    assert ins == user + n;
    assert InboundTags(ins) == InboundTags(user) + InboundTags(n);
    assert InboundTags(n) == (if BuildsTun(opt) then [InboundTUNTag] else []) + [InboundMixedTag, InboundDNSTag];
  }

  /** The Android self bypass matches on tun-in whenever the tunnel is on,
      also when a tunnel service keeps tun-in from being built. */
  lemma AndroidBypassNamesTun(opt: HiddifyOptions, env: Env)
    requires opt.enableTun && env.android
    ensures InboundTUNTag in RouteRulesFor(opt, env)[0].matcher.inbound
    ensures opt.enableTunService ==> !BuildsTun(opt)
  {
    RouteTableLayout(opt, env);
  }

  /** The fake-DNS rule matches on tun-in whenever fake DNS is on, whether
      or not a TUN inbound is built. */
  lemma FakeDNSNamesTun(opt: HiddifyOptions, d: DNSOptions)
    requires opt.enableFakeDNS
    ensures FakeDNSRule in WithFakeDNS(d, opt).rules
    ensures FakeDNSRule.matcher.inbound == [InboundTUNTag]
  {
    WithFakeDNSFacts(d, opt);
  }
}
