/** The DNS section of config/config.go: the four-tier upstream chain
    setDns builds (or the user's DNS options, kept verbatim), the fake-IP
    server and rule setFakeDns appends, and rewriteRCodeDNSServers, which
    removes rcode-only servers and turns every route to one of them into a
    predefined rcode answer, at any depth of a logical rule. */
module DnsChain {
  import opened Wrappers
  import opened Engine
  import opened Preferences
  import opened Externals
  import opened Tags

  // ----- setDns -----

  /** buildDNSServer before the engine's upgrade. */
  function LegacyDNSServer(tag: string, address: string, resolver: string, strategy: nat, detour: string): DNSServer
  {
    DNSServer(tag, DNSTypeLegacy, LegacyServer(address, resolver, strategy, detour))
  }

  const LocalDNSAddress := "local"
  const BlockDNSAddress := "rcode://success"

  /** The four upstream tiers in order: remote (resolved through direct),
      direct (resolved through local), the system resolver and the block
      tier that answers success without data. */
  function LegacyChain(opt: HiddifyOptions): seq<DNSServer>
  {
    [LegacyDNSServer(DNSRemoteTag, opt.remoteDnsAddress, DNSDirectTag, opt.remoteDnsDomainStrategy, ""),
     LegacyDNSServer(DNSDirectTag, opt.directDnsAddress, DNSLocalTag, opt.directDnsDomainStrategy, ""),
     LegacyDNSServer(DNSLocalTag, LocalDNSAddress, "", DomainStrategyAsIs, ""),
     LegacyDNSServer(DNSBlockTag, BlockDNSAddress, "", DomainStrategyAsIs, "")]
  }

  /** The DNS options setDns builds when the input brings none. */
  function BuiltDNS(opt: HiddifyOptions, env: Env): DNSOptions
  {
    var c := LegacyChain(opt);
    DNSOptions([env.upgrade(c[0]), env.upgrade(c[1]), env.upgrade(c[2]), env.upgrade(c[3])], [], DNSRemoteTag,
               opt.independentDNSCache)
  }

  /** setDns: the input's DNS options when it has servers and the copy
      succeeds, the built chain otherwise. */
  function DNSFor(input: Option<DNSOptions>, opt: HiddifyOptions, env: Env): DNSOptions
  {
    if input.Some? && |input.value.servers| > 0 && env.cloneDNSOk(input.value) then input.value
    else BuiltDNS(opt, env)
  }

  /** The chain's tags are distinct, no tier has a detour, and every address
      resolver names a tier further down the chain, so resolving an upstream's
      address never loops. */
  lemma ResolverChainAcyclic(opt: HiddifyOptions)
    ensures var c := LegacyChain(opt);
      |c| == 4 &&
      (forall i, j :: 0 <= i < j < |c| ==> c[i].tag != c[j].tag) &&
      (forall i :: 0 <= i < |c| ==> c[i].typ == DNSTypeLegacy && c[i].options.LegacyServer? && c[i].options.detour == "") &&
      (forall i :: 0 <= i < |c| && c[i].options.addressResolver != "" ==>
         exists j :: i < j < |c| && c[j].tag == c[i].options.addressResolver)
  {
    var c := LegacyChain(opt);
    assert c[1].tag == c[0].options.addressResolver;
    assert c[2].tag == c[1].options.addressResolver;
  }

  /** The input's DNS options are used exactly when they have a server and
      can be copied; otherwise the result is the built chain, with no rules,
      falling back to the remote tier. */
  lemma DNSForFacts(input: Option<DNSOptions>, opt: HiddifyOptions, env: Env)
    ensures var d := DNSFor(input, opt, env);
      (input.Some? && |input.value.servers| > 0 && env.cloneDNSOk(input.value) ==> d == input.value) &&
      (!(input.Some? && |input.value.servers| > 0 && env.cloneDNSOk(input.value)) ==>
         |d.servers| == 4 && d.rules == [] && d.final == DNSRemoteTag &&
         d.independentCache == opt.independentDNSCache &&
         forall i :: 0 <= i < 4 ==> d.servers[i] == env.upgrade(LegacyChain(opt)[i]))
    ensures |DNSFor(input, opt, env).servers| > 0
    ensures var d := DNSFor(input, opt, env);
      UpgradeKeepsTag(env) && !(input.Some? && |input.value.servers| > 0 && env.cloneDNSOk(input.value)) ==>
        ServerTags(d.servers) == [DNSRemoteTag, DNSDirectTag, DNSLocalTag, DNSBlockTag] &&
        d.final in ServerTags(d.servers)
  {
    var d := DNSFor(input, opt, env);
    if UpgradeKeepsTag(env) && !(input.Some? && |input.value.servers| > 0 && env.cloneDNSOk(input.value)) {
      var c := LegacyChain(opt);
      assert env.upgrade(c[0]).tag == DNSRemoteTag;
      assert env.upgrade(c[1]).tag == DNSDirectTag;
      assert env.upgrade(c[2]).tag == DNSLocalTag;
      assert env.upgrade(c[3]).tag == DNSBlockTag;
      assert ServerTags(d.servers)[0] == d.final;
    }
  }

  /** What the model relies on from the engine's DNSServerOptions.Upgrade:
      it keeps the server's tag, and a server it turns into an rcode server
      (as it does for an "rcode://" address) carries an integer rcode. */
  ghost predicate UpgradeKeepsTag(env: Env)
  {
    forall s :: env.upgrade(s).tag == s.tag &&
      (env.upgrade(s).typ == DNSTypeLegacyRcode ==> env.upgrade(s).options.RCodeOptions?)
  }

  function ServerTags(servers: seq<DNSServer>): seq<string>
  {
    seq(|servers|, i requires 0 <= i < |servers| => servers[i].tag)
  }

  // ----- setFakeDns -----

  const FakeIPv4Range := "198.18.0.0/15"
  const FakeIPv6Range := "fc00::/18"

  const FakeIPServer := DNSServer(DNSFakeTag, DNSTypeFakeIP, FakeIPOptions(FakeIPv4Range, FakeIPv6Range))

  /** Queries arriving on the TUN inbound are answered from the fake-IP
      pool, without caching. */
  const FakeDNSRule := DefaultDNSRule(EmptyMatcher.(inbound := [InboundTUNTag]),
                                      DNSRuleAction(RuleActionTypeRoute, DNSRouteOptions(DNSFakeTag, true, None), None))

  function WithFakeDNS(d: DNSOptions, opt: HiddifyOptions): DNSOptions
  {
    if opt.enableFakeDNS then d.(servers := d.servers + [FakeIPServer], rules := d.rules + [FakeDNSRule]) else d
  }

  // ----- rewriteRCodeDNSServers -----

  predicate IsRCodeServer(s: DNSServer)
  {
    s.typ == DNSTypeLegacyRcode
  }

  /** The rcode servers whose options hold an integer, by tag; a later
      server with the same tag overwrites an earlier one. */
  function RCodeMap(servers: seq<DNSServer>): map<string, int>
  {
    if servers == [] then map[]
    else
      var m := RCodeMap(servers[..|servers| - 1]);
      var s := servers[|servers| - 1];
      if IsRCodeServer(s) && s.options.RCodeOptions? then m[s.tag := s.options.rcode] else m
  }

  /** The servers that are not rcode servers, in order. */
  function FilteredServers(servers: seq<DNSServer>): seq<DNSServer>
  {
    if servers == [] then []
    else
      var last := servers[|servers| - 1];
      FilteredServers(servers[..|servers| - 1]) + (if IsRCodeServer(last) then [] else [last])
  }

  /** rewriteDNSRuleActionRCode (config/config.go:411-424). */
  function RewriteAction(m: map<string, int>, a: DNSRuleAction): DNSRuleAction
  {
    if a.action != RuleActionTypeRoute || a.route.server !in m then a
    else DNSRuleAction(RuleActionTypePredefined, EmptyDNSRouteOptions, Some(m[a.route.server]))
  }

  /** What rewriteDNSRuleRCode makes of a rule: every action in it, at any
      depth, rewritten. */
  function RewrittenRule(m: map<string, int>, r: DNSRule): DNSRule
    decreases r
  {
    match r
    case DefaultDNSRule(matcher, a) => DefaultDNSRule(matcher, RewriteAction(m, a))
    case LogicalDNSRule(mode, rules, a) =>
      LogicalDNSRule(mode, seq(|rules|, i requires 0 <= i < |rules| => RewrittenRule(m, rules[i])), RewriteAction(m, a))
  }

  /** The DNS options after rewriteRCodeDNSServers. */
  function RewrittenDNS(d: DNSOptions): DNSOptions
  {
    if |d.servers| == 0 then d
    else
      var m := RCodeMap(d.servers);
      var filtered := d.(servers := FilteredServers(d.servers));
      if |m| == 0 || |d.rules| == 0 then filtered
      else filtered.(rules := seq(|d.rules|, i requires 0 <= i < |d.rules| => RewrittenRule(m, d.rules[i])))
  }

  /** Some action of the rule, at any depth, routes to a server of `m`. */
  predicate RoutesInto(m: map<string, int>, r: DNSRule)
    decreases r
  {
    (r.action.action == RuleActionTypeRoute && r.action.route.server in m) ||
    (r.LogicalDNSRule? && exists i :: 0 <= i < |r.rules| && RoutesInto(m, r.rules[i]))
  }

  /** The loop of rewriteRCodeDNSServers over the servers (config/config.go:379-389). */
  method SplitRCodeServers(servers: seq<DNSServer>) returns (rcodeServers: map<string, int>, filtered: seq<DNSServer>)
    ensures rcodeServers == RCodeMap(servers)
    ensures filtered == FilteredServers(servers)
  {
    rcodeServers := map[];
    filtered := [];
    var i := 0;
    while i < |servers|
      invariant 0 <= i <= |servers|
      invariant rcodeServers == RCodeMap(servers[..i])
      invariant filtered == FilteredServers(servers[..i])
    {
      var server := servers[i];
      assert servers[..i + 1][..i] == servers[..i];
      if IsRCodeServer(server) {
        if server.options.RCodeOptions? {
          rcodeServers := rcodeServers[server.tag := server.options.rcode];
        }
      } else {
        filtered := filtered + [server];
      }
      i := i + 1;
    }
    assert servers[..i] == servers;
  }

  /** rewriteDNSRuleRCode (config/config.go:399-409): the rule is rewritten
      through its pointer in the source; here the rewritten value is
      returned. */
  method RewriteDNSRuleRCode(rcodeServers: map<string, int>, rule: DNSRule) returns (r: DNSRule)
    ensures r == RewrittenRule(rcodeServers, rule)
    decreases rule
  {
    match rule
    case DefaultDNSRule(matcher, a) =>
      r := DefaultDNSRule(matcher, RewriteAction(rcodeServers, a));
    case LogicalDNSRule(mode, rules, a) =>
      var children := rules;
      var i := 0;
      while i < |rules|
        invariant 0 <= i <= |rules| && |children| == |rules|
        invariant forall k :: 0 <= k < i ==> children[k] == RewrittenRule(rcodeServers, rules[k])
        invariant forall k :: i <= k < |rules| ==> children[k] == rules[k]
      {
        assert rules[i] in rules;
        var c := RewriteDNSRuleRCode(rcodeServers, rules[i]);
        children := children[i := c];
        i := i + 1;
      }
      r := LogicalDNSRule(mode, children, RewriteAction(rcodeServers, a));
  }

  // ----- properties -----

  /** Nothing to rewrite with: every rule is left as it was. */
  lemma {:induction false} RewriteWithEmptyMap(r: DNSRule)
    ensures RewrittenRule(map[], r) == r
    decreases r
  {
    match r
    case DefaultDNSRule(_, _) =>
    case LogicalDNSRule(mode, rules, a) =>
      forall i | 0 <= i < |rules|
        ensures RewrittenRule(map[], rules[i]) == rules[i]
      {
        assert rules[i] in rules;
        RewriteWithEmptyMap(rules[i]);
      }
  }

  /** More generally, a rule none of whose actions routes to an rcode server
      is left as it was. */
  lemma {:induction false} RewriteLeavesOthers(m: map<string, int>, r: DNSRule)
    requires !RoutesInto(m, r)
    ensures RewrittenRule(m, r) == r
    decreases r
  {
    match r
    case DefaultDNSRule(_, _) =>
    case LogicalDNSRule(mode, rules, a) =>
      forall i | 0 <= i < |rules|
        ensures RewrittenRule(m, rules[i]) == rules[i]
      {
        assert rules[i] in rules;
        RewriteLeavesOthers(m, rules[i]);
      }
  }

  /** After the rewrite no action, at any depth, routes to an rcode server;
      the rule keeps its shape (kind, matcher, mode and number of
      sub-rules). */
  lemma {:induction false} RewriteRemovesRCodeRoutes(m: map<string, int>, r: DNSRule)
    ensures !RoutesInto(m, RewrittenRule(m, r))
    ensures RewrittenRule(m, r).DefaultDNSRule? == r.DefaultDNSRule?
    ensures r.DefaultDNSRule? ==> RewrittenRule(m, r).matcher == r.matcher
    ensures r.LogicalDNSRule? ==>
      RewrittenRule(m, r).mode == r.mode && |RewrittenRule(m, r).rules| == |r.rules|
    decreases r
  {
    match r
    case DefaultDNSRule(_, _) =>
    case LogicalDNSRule(mode, rules, a) =>
      var rr := RewrittenRule(m, r);
      forall i | 0 <= i < |rr.rules|
        ensures !RoutesInto(m, rr.rules[i])
      {
        assert rules[i] in rules;
        RewriteRemovesRCodeRoutes(m, rules[i]);
      }
  }

  /** Rewriting a rewritten rule changes nothing. */
  lemma RewriteIdempotent(m: map<string, int>, r: DNSRule)
    ensures RewrittenRule(m, RewrittenRule(m, r)) == RewrittenRule(m, r)
  {
    RewriteRemovesRCodeRoutes(m, r);
    RewriteLeavesOthers(m, RewrittenRule(m, r));
  }

  /** A route to an rcode server becomes a predefined answer carrying that
      server's rcode, with the route options cleared. */
  lemma RewriteActionEffect(m: map<string, int>, a: DNSRuleAction)
    requires a.action == RuleActionTypeRoute && a.route.server in m
    ensures RewriteAction(m, a).action == RuleActionTypePredefined
    ensures RewriteAction(m, a).rcode == Some(m[a.route.server])
    ensures RewriteAction(m, a).route == EmptyDNSRouteOptions
  {
  }

  /** A tag is in the rcode map exactly when some rcode server with integer
      options has it, and its value is that of the last such server. */
  lemma {:induction false} RCodeMapLastWins(servers: seq<DNSServer>, i: nat)
    requires i < |servers| && IsRCodeServer(servers[i]) && servers[i].options.RCodeOptions?
    requires forall j :: i < j < |servers| && IsRCodeServer(servers[j]) && servers[j].options.RCodeOptions? ==>
      servers[j].tag != servers[i].tag
    ensures servers[i].tag in RCodeMap(servers)
    ensures RCodeMap(servers)[servers[i].tag] == servers[i].options.rcode
  {
    var init := servers[..|servers| - 1];
    if i < |init| {
      RCodeMapLastWins(init, i);
    }
  }

  lemma {:induction false} RCodeMapDomain(servers: seq<DNSServer>, t: string)
    ensures t in RCodeMap(servers) <==>
      exists i :: 0 <= i < |servers| && servers[i].tag == t && IsRCodeServer(servers[i]) && servers[i].options.RCodeOptions?
  {
    if servers != [] {
      var init := servers[..|servers| - 1];
      RCodeMapDomain(init, t);
      if exists i :: 0 <= i < |servers| && servers[i].tag == t && IsRCodeServer(servers[i]) && servers[i].options.RCodeOptions? {
        var i :| 0 <= i < |servers| && servers[i].tag == t && IsRCodeServer(servers[i]) && servers[i].options.RCodeOptions?;
        if i < |init| {
          assert init[i] == servers[i];
        }
      }
    }
  }

  /** The kept servers are, in order, exactly those that are not rcode
      servers: an rcode server whose options are not an integer is dropped
      without being recorded. */
  lemma {:induction false} FilteredServersFacts(servers: seq<DNSServer>)
    ensures forall s :: s in FilteredServers(servers) <==> s in servers && !IsRCodeServer(s)
    ensures |FilteredServers(servers)| <= |servers|
    ensures (forall s :: s in servers ==> !IsRCodeServer(s)) ==> FilteredServers(servers) == servers
  {
    if servers != [] {
      var init := servers[..|servers| - 1];
      FilteredServersFacts(init);
      assert servers == init + [servers[|servers| - 1]];
    }
  }

  /** rewriteRCodeDNSServers keeps the fallback tier and the cache mode,
      leaves no rcode server, keeps every other server, keeps the number of
      rules, and leaves no route to a removed rcode server. */
  lemma RewrittenDNSFacts(d: DNSOptions)
    ensures var d' := RewrittenDNS(d);
      d'.final == d.final && d'.independentCache == d.independentCache &&
      |d'.rules| == |d.rules| &&
      (forall s :: s in d'.servers <==> s in d.servers && !IsRCodeServer(s)) &&
      (forall i :: 0 <= i < |d'.rules| ==> !RoutesInto(RCodeMap(d.servers), d'.rules[i]))
  {
    FilteredServersFacts(d.servers);
    var m := RCodeMap(d.servers);
    var d' := RewrittenDNS(d);
    if |d.servers| == 0 || |m| == 0 || |d.rules| == 0 {
      forall i | 0 <= i < |d'.rules|
        ensures !RoutesInto(m, d'.rules[i])
      {
        assert m == map[];
        RoutesIntoEmpty(d'.rules[i]);
      }
    } else {
      forall i | 0 <= i < |d'.rules|
        ensures !RoutesInto(m, d'.rules[i])
      {
        RewriteRemovesRCodeRoutes(m, d.rules[i]);
      }
    }
  }

  /** The action of every rule that routes names a server of the section. */
  predicate RouteTargetsExist(d: DNSOptions)
  {
    forall r :: r in d.rules && r.action.action == RuleActionTypeRoute ==>
      exists s :: s in d.servers && s.tag == r.action.route.server
  }

  /** Before the rcode rewrite: every routed server exists, and is either an
      ordinary server or an rcode server with an integer rcode. */
  predicate RouteTargetsResolvable(d: DNSOptions)
  {
    forall r :: r in d.rules && r.action.action == RuleActionTypeRoute ==>
      exists s :: s in d.servers && s.tag == r.action.route.server && (!IsRCodeServer(s) || s.options.RCodeOptions?)
  }

  /** The rcode rewrite removes servers but leaves no route dangling: a route
      to a removed rcode server has become a predefined answer. */
  lemma RewriteKeepsTargets(d: DNSOptions)
    requires RouteTargetsResolvable(d)
    ensures RouteTargetsExist(RewrittenDNS(d))
  {
    var d' := RewrittenDNS(d);
    forall r | r in d'.rules && r.action.action == RuleActionTypeRoute
      ensures exists s :: s in d'.servers && s.tag == r.action.route.server
    {
      var i :| 0 <= i < |d'.rules| && d'.rules[i] == r;
      RewriteKeepsTarget(d, i);
    }
  }

  /** RewriteKeepsTargets for the rule at index i. */
  lemma RewriteKeepsTarget(d: DNSOptions, i: nat)
    requires RouteTargetsResolvable(d) && i < |d.rules|
    ensures |RewrittenDNS(d).rules| == |d.rules|
    ensures var a := RewrittenDNS(d).rules[i].action;
      a.action == RuleActionTypeRoute ==> exists s :: s in RewrittenDNS(d).servers && s.tag == a.route.server
  {
    var m := RCodeMap(d.servers);
    var o := d.rules[i];
    assert o in d.rules;
    var a := RewrittenDNS(d).rules[i].action;
    var rewritten := |d.servers| > 0 && |m| > 0;
    assert a == if rewritten then RewriteAction(m, o.action) else o.action;
    if a.action == RuleActionTypeRoute {
      assert o.action.action == RuleActionTypeRoute && a.route.server == o.action.route.server;
      var s :| s in d.servers && s.tag == o.action.route.server && (!IsRCodeServer(s) || s.options.RCodeOptions?);
      if IsRCodeServer(s) {
        var k :| 0 <= k < |d.servers| && d.servers[k] == s;
        RCodeMapDomain(d.servers, s.tag);
        assert false;
      }
      FilteredServersFacts(d.servers);
      assert s in RewrittenDNS(d).servers;
    }
  }

  lemma RoutesIntoEmpty(r: DNSRule)
    ensures !RoutesInto(map[], r)
    decreases r
  {
    if r.LogicalDNSRule? {
      forall i | 0 <= i < |r.rules|
        ensures !RoutesInto(map[], r.rules[i])
      {
        assert r.rules[i] in r.rules;
        RoutesIntoEmpty(r.rules[i]);
      }
    }
  }

  /** The fake-DNS step adds exactly the fake-IP server and the TUN rule, at
      the end, and only when fake DNS is on. */
  lemma WithFakeDNSFacts(d: DNSOptions, opt: HiddifyOptions)
    ensures !opt.enableFakeDNS ==> WithFakeDNS(d, opt) == d
    ensures opt.enableFakeDNS ==>
      WithFakeDNS(d, opt).servers[..|d.servers|] == d.servers &&
      WithFakeDNS(d, opt).servers[|d.servers|..] == [FakeIPServer] &&
      WithFakeDNS(d, opt).rules[..|d.rules|] == d.rules &&
      WithFakeDNS(d, opt).rules[|d.rules|..] == [FakeDNSRule]
    ensures WithFakeDNS(d, opt).final == d.final && WithFakeDNS(d, opt).independentCache == d.independentCache
  {
  }

  /** With fake DNS on, the fake-IP server and its TUN rule come through the
      rcode rewrite untouched (provided no rcode server claims the fake
      tier's tag): the server is kept and the rule stays last. */
  lemma FakeDNSSurvivesRewrite(d: DNSOptions, opt: HiddifyOptions)
    requires opt.enableFakeDNS
    requires forall s :: s in d.servers && IsRCodeServer(s) ==> s.tag != DNSFakeTag
    ensures var d' := RewrittenDNS(WithFakeDNS(d, opt));
      FakeIPServer in d'.servers && |d'.rules| > 0 && d'.rules[|d'.rules| - 1] == FakeDNSRule
  {
    var w := WithFakeDNS(d, opt);
    FilteredServersFacts(w.servers);
    assert FakeIPServer in w.servers;
    var last := |w.rules| - 1;
    assert w.rules[last] == FakeDNSRule;
    FakeTagNotRCode(d, opt);
    RewriteLeavesOthers(RCodeMap(w.servers), FakeDNSRule);
  }

  /** Under the assumption of FakeDNSSurvivesRewrite, the fake tier's tag is
      not in the rcode map. */
  lemma FakeTagNotRCode(d: DNSOptions, opt: HiddifyOptions)
    requires opt.enableFakeDNS
    requires forall s :: s in d.servers && IsRCodeServer(s) ==> s.tag != DNSFakeTag
    ensures !RoutesInto(RCodeMap(WithFakeDNS(d, opt).servers), FakeDNSRule)
  {
    var w := WithFakeDNS(d, opt);
    RCodeMapDomain(w.servers, DNSFakeTag);
    forall i | 0 <= i < |w.servers| && IsRCodeServer(w.servers[i])
      ensures w.servers[i].tag != DNSFakeTag
    {
      if i < |d.servers| {
        assert w.servers[i] == d.servers[i];
      }
    }
  }
}
