/** What setOutbounds and addForceDirect of config/config.go produce: the
    outbound graph (main selector, url-test group, the patched user
    outbounds, the five built-in outbounds) and the DNS rule that sends the
    proxies' own server names and the remote resolver's host to the direct
    tier. */
module OutboundGraph {
  import opened Wrappers
  import opened Text
  import opened Engine
  import opened Preferences
  import opened Externals
  import opened Tags
  import opened OutboundPatch
  import opened Routing

  /** A tag containing this is left out of the selector and url-test groups. */
  const HideMarker := "§hide§"
  /** A group member tagged with this makes the selector's default the sentinel. */
  const DefaultMarker := "§default§"

  /** The types setOutbounds drops from the input: the built-in kinds it
      supplies itself. */
  predicate IsSystemType(t: string)
  {
    t == TypeDirect || t == TypeBlock || t == TypeDNS || t == TypeSelector || t == TypeURLTest
  }

  function TagsOf(os: seq<OutboundValue>): (tags: seq<string>)
    ensures |tags| == |os| && forall i :: 0 <= i < |os| ==> tags[i] == os[i].tag
  {
    seq(|os|, i requires 0 <= i < |os| => os[i].tag)
  }

  /** The patched input outbounds setOutbounds keeps, in input order. */
  function KeptOutbounds(vs: seq<OutboundValue>, opt: HiddifyOptions): seq<OutboundValue>
  {
    FlatMap(vs, (v: OutboundValue) => Kept(v, opt))
  }

  /** What setOutbounds keeps of one input outbound: its patched copy, unless
      its type is a system one. */
  function Kept(v: OutboundValue, opt: HiddifyOptions): seq<OutboundValue>
  {
    var p := Patched(v, opt);
    if IsSystemType(p.typ) then [] else [p]
  }

  /** The input outbound joins the selector and url-test groups. */
  predicate Selectable(v: OutboundValue)
  {
    !IsSystemType(v.typ) && !Contains(v.tag, HideMarker)
  }

  /** The tag an input outbound offers to the groups: its own when it is
      selectable, none otherwise. */
  function OfferedTag(v: OutboundValue): seq<string>
  {
    if Selectable(v) then [v.tag] else []
  }

  /** The tags of the group members, in input order. */
  function SelectableTags(vs: seq<OutboundValue>): seq<string>
  {
    FlatMap(vs, OfferedTag)
  }

  /** The selector's default: the sentinel when a member is marked, the
      url-test group otherwise. */
  function DefaultSelect(tags: seq<string>): string
  {
    if exists i :: 0 <= i < |tags| && Contains(tags[i], DefaultMarker) then DefaultMarker else OutboundURLTestTag
  }

  /** The loop of setOutbounds that picks the default (config/config.go:170-176). */
  method PickDefault(tags: seq<string>) returns (defaultSelect: string)
    ensures defaultSelect == DefaultMarker <==> exists i :: 0 <= i < |tags| && Contains(tags[i], DefaultMarker)
    ensures defaultSelect != DefaultMarker ==> defaultSelect == OutboundURLTestTag
  {
    defaultSelect := OutboundURLTestTag;
    var i := 0;
    while i < |tags|
      invariant 0 <= i <= |tags|
      invariant defaultSelect == DefaultMarker <==> exists k :: 0 <= k < i && Contains(tags[k], DefaultMarker)
      invariant defaultSelect != DefaultMarker ==> defaultSelect == OutboundURLTestTag
    {
      if Contains(tags[i], DefaultMarker) {
        defaultSelect := DefaultMarker;
      }
      i := i + 1;
    }
  }

  const URLTestTolerance: nat := 1

  function URLTestValue(tags: seq<string>, opt: HiddifyOptions): OutboundValue
  {
    OutboundValue(TypeURLTest, OutboundURLTestTag,
      BuiltinV(URLTestOptions(tags, opt.connectionTestUrl, opt.urlTestInterval, URLTestTolerance,
                              opt.urlTestInterval * 3, true)))
  }

  function SelectorValue(tags: seq<string>): OutboundValue
  {
    OutboundValue(TypeSelector, OutboundSelectTag,
      BuiltinV(SelectorOptions([OutboundURLTestTag] + tags, DefaultSelect(tags), true)))
  }

  /** The five built-in outbounds appended after the user outbounds. */
  const SystemValues := [
    OutboundValue(TypeDNS, OutboundDNSTag, BuiltinV(StubOptions)),
    OutboundValue(TypeDirect, OutboundDirectTag, BuiltinV(DirectOptions(false))),
    OutboundValue(TypeDirect, OutboundDirectFragmentTag, BuiltinV(DirectOptions(false))),
    OutboundValue(TypeDirect, OutboundBypassTag, BuiltinV(DirectOptions(false))),
    OutboundValue(TypeBlock, OutboundBlockTag, BuiltinV(StubOptions))]

  /** The outbound list setOutbounds writes, as values. */
  function GraphValues(vs: seq<OutboundValue>, opt: HiddifyOptions): seq<OutboundValue>
  {
    var tags := SelectableTags(vs);
    [SelectorValue(tags), URLTestValue(tags, opt)] + KeptOutbounds(vs, opt) + SystemValues
  }

  /** The built-in outbound holding `v`; it owns no object. */
  function AsOutbound(v: OutboundValue): (o: Outbound)
    requires v.options.BuiltinV?
    ensures Footprint(o) == {} && ValueOf(o) == v
  {
    Outbound(v.typ, v.tag, Builtin(v.options.b))
  }

  /** The server domains collected from every input outbound, built-in
      kinds included (the domain is read before the type filter). */
  function ServerDomains(vs: seq<OutboundValue>, env: Env): set<string>
  {
    if vs == [] then {}
    else
      var d := ServerDomain(vs[|vs| - 1], env);
      ServerDomains(vs[..|vs| - 1], env) + (if d != "" then {d} else {})
  }

  /** The first input outbound that cannot be cloned, if any. */
  function FirstCloneFailure(vs: seq<OutboundValue>, env: Env): (r: Option<nat>)
    ensures r.Some? ==> r.value < |vs| && !env.cloneOk(vs[r.value])
    ensures r.Some? ==> forall j :: 0 <= j < r.value ==> env.cloneOk(vs[j])
    ensures r.None? ==> forall j :: 0 <= j < |vs| ==> env.cloneOk(vs[j])
  {
    if vs == [] then None
    else if !env.cloneOk(vs[0]) then Some(0)
    else match FirstCloneFailure(vs[1..], env)
      case None => None
      case Some(k) => Some(k + 1)
  }

  // ----- addForceDirect -----

  /** The host of the remote resolver's address, unless it is an IP
      address (config/config.go:86-94). */
  function RemoteDnsHost(opt: HiddifyOptions, env: Env): Option<string>
  {
    match env.urlHost("https://" + AfterScheme(opt.remoteDnsAddress))
    case None => None
    case Some(host) => if env.isIP(host) then None else Some(host)
  }

  /** The remote resolver's host, as a set of at most one domain. */
  function RemoteHostDomains(opt: HiddifyOptions, env: Env): set<string>
  {
    match RemoteDnsHost(opt, env)
    case None => {}
    case Some(h) => {h}
  }

  /** Every domain addForceDirect pins to the direct tier. */
  function ForceDirectDomains(vs: seq<OutboundValue>, opt: HiddifyOptions, env: Env): set<string>
  {
    ServerDomains(vs, env) + RemoteHostDomains(opt, env)
  }

  /** `keys` lists the set `d`, each element once, in some order. */
  ghost predicate Enumerates(keys: seq<string>, d: set<string>)
  {
    Distinct(keys) && forall k :: k in keys <==> k in d
  }

  /** The DNS rule built from the joined domain list. */
  function ForceDirectRule(keys: seq<string>, env: Env): DNSRule
  {
    DefaultDNSRule(env.makeDNSRule(RuleSpec(Join(keys, ","), OutboundBypassTag, [])),
                   DNSRouteActionForServer(DNSDirectTag))
  }

  function WithForceDirect(d: DNSOptions, keys: seq<string>, env: Env): DNSOptions
  {
    d.(rules := [ForceDirectRule(keys, env)] + d.rules)
  }

  // ----- properties -----

  lemma KeptOutboundsMembership(vs: seq<OutboundValue>, opt: HiddifyOptions, o: OutboundValue)
    ensures o in KeptOutbounds(vs, opt) <==>
      exists i :: 0 <= i < |vs| && !IsSystemType(vs[i].typ) && o == Patched(vs[i], opt)
  {
    FlatMapMembership(vs, (v: OutboundValue) => Kept(v, opt), o);
    forall i | 0 <= i < |vs|
      ensures o in Kept(vs[i], opt) <==> !IsSystemType(vs[i].typ) && o == Patched(vs[i], opt)
    {
      PatchedKeepsShape(vs[i], opt);
    }
  }

  lemma SelectableTagsMembership(vs: seq<OutboundValue>, t: string)
    ensures t in SelectableTags(vs) <==> exists i :: 0 <= i < |vs| && Selectable(vs[i]) && vs[i].tag == t
  {
    FlatMapMembership(vs, OfferedTag, t);
  }

  /** The groups' members are kept outbounds of the graph, none of them
      hidden, and every kept outbound whose tag is not hidden is a member;
      the selector lists the url-test group first. So neither group names an
      outbound that does not exist. */
  lemma GroupMembersExist(vs: seq<OutboundValue>, opt: HiddifyOptions)
    ensures var g := GraphValues(vs, opt);
      var tags := SelectableTags(vs);
      g[0].options.b.outbounds == [OutboundURLTestTag] + tags && g[1].options.b.outbounds == tags &&
      g[1].tag == OutboundURLTestTag &&
      (forall t :: t in tags <==> !Contains(t, HideMarker) && exists o :: o in KeptOutbounds(vs, opt) && o.tag == t) &&
      (forall t :: t in g[0].options.b.outbounds ==> exists o :: o in g && o.tag == t)
  {
    var g := GraphValues(vs, opt);
    var tags := SelectableTags(vs);
    var kept := KeptOutbounds(vs, opt);
    forall t
      ensures t in tags <==> !Contains(t, HideMarker) && exists o :: o in kept && o.tag == t
    {
      SelectableTagsMembership(vs, t);
      if t in tags {
        var i :| 0 <= i < |vs| && Selectable(vs[i]) && vs[i].tag == t;
        PatchedKeepsShape(vs[i], opt);
        KeptOutboundsMembership(vs, opt, Patched(vs[i], opt));
      }
      if !Contains(t, HideMarker) && exists o :: o in kept && o.tag == t {
        var o :| o in kept && o.tag == t;
        KeptOutboundsMembership(vs, opt, o);
        var i :| 0 <= i < |vs| && !IsSystemType(vs[i].typ) && o == Patched(vs[i], opt);
        PatchedKeepsShape(vs[i], opt);
        assert Selectable(vs[i]);
      }
    }
    forall t | t in g[0].options.b.outbounds
      ensures exists o :: o in g && o.tag == t
    {
      if t == OutboundURLTestTag {
        assert g[1] in g;
      } else {
        assert t in tags;
        var o :| o in kept && o.tag == t;
        assert o in g;
      }
    }
  }

  /** The layout of the graph: selector, url-test group, the kept outbounds
      in input order, then dns-out, direct, direct-fragment, bypass and block;
      the three direct outbounds have TCP fast open off. */
  lemma GraphLayout(vs: seq<OutboundValue>, opt: HiddifyOptions)
    ensures var g := GraphValues(vs, opt);
      var k := |KeptOutbounds(vs, opt)|;
      |g| == k + 7 &&
      g[0].typ == TypeSelector && g[0].tag == OutboundSelectTag &&
      g[0].options.b.defaultTag == DefaultSelect(SelectableTags(vs)) && g[0].options.b.interruptExistConnections &&
      g[1].typ == TypeURLTest && g[1].options.b.url == opt.connectionTestUrl &&
      g[1].options.b.interval == opt.urlTestInterval && g[1].options.b.tolerance == 1 &&
      g[1].options.b.idleTimeout == 3 * opt.urlTestInterval &&
      g[2..k + 2] == KeptOutbounds(vs, opt) &&
      TagsOf(g[k + 2..]) == [OutboundDNSTag, OutboundDirectTag, OutboundDirectFragmentTag, OutboundBypassTag, OutboundBlockTag] &&
      (forall j :: k + 3 <= j < k + 6 ==> g[j].typ == TypeDirect && g[j].options == BuiltinV(DirectOptions(false)))
  {
    var g := GraphValues(vs, opt);
    var k := |KeptOutbounds(vs, opt)|;
    assert g[k + 2..] == SystemValues;
  }

  /** The tags of the two groups and of the built-in outbounds. */
  const GroupTags := [OutboundSelectTag, OutboundURLTestTag]
  const SystemTags := [OutboundDNSTag, OutboundDirectTag, OutboundDirectFragmentTag, OutboundBypassTag, OutboundBlockTag]

  /** The tags the graph supplies itself. */
  const ReservedTags := GroupTags + SystemTags

  /** The graph's own tags are pairwise different. */
  lemma ReservedTagsDistinct()
    ensures Distinct(GroupTags) && Distinct(SystemTags)
    ensures forall x :: x in GroupTags ==> x !in SystemTags
    ensures TagsOf(SystemValues) == SystemTags
  {
  }

  /** Every kept outbound carries the tag of a kept input outbound. */
  lemma KeptTagsOrigin(vs: seq<OutboundValue>, opt: HiddifyOptions)
    ensures forall o :: o in KeptOutbounds(vs, opt) ==> exists i :: 0 <= i < |vs| && !IsSystemType(vs[i].typ) && o.tag == vs[i].tag
  {
    forall o | o in KeptOutbounds(vs, opt)
      ensures exists i :: 0 <= i < |vs| && !IsSystemType(vs[i].typ) && o.tag == vs[i].tag
    {
      KeptOutboundsMembership(vs, opt, o);
      var i :| 0 <= i < |vs| && !IsSystemType(vs[i].typ) && o == Patched(vs[i], opt);
      PatchedKeepsShape(vs[i], opt);
    }
  }

  /** The kept outbounds carry distinct tags when the kept input outbounds
      do. */
  lemma {:induction false} KeptTagsDistinct(vs: seq<OutboundValue>, opt: HiddifyOptions)
    requires forall i, j :: 0 <= i < j < |vs| && !IsSystemType(vs[i].typ) && !IsSystemType(vs[j].typ) ==>
      vs[i].tag != vs[j].tag
    ensures Distinct(TagsOf(KeptOutbounds(vs, opt)))
    ensures forall o :: o in KeptOutbounds(vs, opt) ==> exists i :: 0 <= i < |vs| && !IsSystemType(vs[i].typ) && o.tag == vs[i].tag
  {
    KeptTagsOrigin(vs, opt);
    if vs != [] {
      var init := vs[..|vs| - 1];
      var last := vs[|vs| - 1];
      KeptTagsDistinct(init, opt);
      var p := Patched(last, opt);
      var a := KeptOutbounds(init, opt);
      if !IsSystemType(p.typ) {
        PatchedKeepsShape(last, opt);
        forall k | 0 <= k < |a|
          ensures TagsOf(a)[k] != p.tag
        {
          assert a[k] in a;
          var i :| 0 <= i < |init| && !IsSystemType(init[i].typ) && a[k].tag == init[i].tag;
          assert init[i] == vs[i];
        }
        assert TagsOf(a + [p]) == TagsOf(a) + [p.tag];
        DistinctSnoc(TagsOf(a), p.tag);
      }
    }
  }

  /** When the kept input outbounds have distinct tags and none of them is a
      reserved tag, every tag of the graph is distinct. */
  lemma GraphTagsDistinct(vs: seq<OutboundValue>, opt: HiddifyOptions)
    requires forall i, j :: 0 <= i < j < |vs| && !IsSystemType(vs[i].typ) && !IsSystemType(vs[j].typ) ==>
      vs[i].tag != vs[j].tag
    requires forall i :: 0 <= i < |vs| && !IsSystemType(vs[i].typ) ==> vs[i].tag !in ReservedTags
    ensures Distinct(TagsOf(GraphValues(vs, opt)))
  {
    KeptTagsDistinct(vs, opt);
    ReservedTagsDistinct();
    KeptTagsNotReserved(vs, opt);
    GraphTags(vs, opt);
    var middle := TagsOf(KeptOutbounds(vs, opt));
    DistinctConcat(GroupTags, middle);
    DistinctConcat(GroupTags + middle, SystemTags);
  }

  /** The graph's tags: the groups', the kept outbounds', the system ones. */
  lemma GraphTags(vs: seq<OutboundValue>, opt: HiddifyOptions)
    ensures TagsOf(GraphValues(vs, opt)) == GroupTags + TagsOf(KeptOutbounds(vs, opt)) + SystemTags
  {
    ReservedTagsDistinct();
  }

  /** Under the requires of GraphTagsDistinct, no kept outbound carries a
      reserved tag. */
  lemma KeptTagsNotReserved(vs: seq<OutboundValue>, opt: HiddifyOptions)
    requires forall i :: 0 <= i < |vs| && !IsSystemType(vs[i].typ) ==> vs[i].tag !in ReservedTags
    ensures forall x :: x in TagsOf(KeptOutbounds(vs, opt)) ==> x !in GroupTags && x !in SystemTags
  {
    KeptTagsOrigin(vs, opt);
    var kept := KeptOutbounds(vs, opt);
    var middle := TagsOf(kept);
    forall x | x in middle
      ensures x !in GroupTags && x !in SystemTags
    {
      var m :| 0 <= m < |middle| && middle[m] == x;
      assert kept[m] in kept;
    }
  }

  /** A user outbound tagged like a built-in one is not rejected: a VLESS
      outbound tagged "direct" leaves two outbounds tagged "direct". */
  lemma ReservedTagCollision(p: ProxyValue, opt: HiddifyOptions)
    requires p.kind == VLESS
    ensures var g := GraphValues([OutboundValue("vless", "direct", ProxyV(p))], opt);
      |g| == 8 && g[2].tag == "direct" && g[4].tag == "direct" && !Distinct(TagsOf(g))
  {
    var vs := [OutboundValue("vless", "direct", ProxyV(p))];
    PatchedKeepsShape(vs[0], opt);
    FlatMapSingle(vs[0], (v: OutboundValue) => Kept(v, opt));
    var g := GraphValues(vs, opt);
    assert TagsOf(g)[2] == TagsOf(g)[4];
  }

  /** One Shadowsocks outbound tagged "proxy-a" with the stock preferences'
      shape: the selector lists the url-test group then "proxy-a" and
      defaults to the url-test group, which lists "proxy-a"; a direct-fragment
      outbound without TCP fast open follows. */
  lemma SingleShadowsocksScenario(p: ProxyValue, opt: HiddifyOptions)
    requires p.kind == Shadowsocks
    ensures var g := GraphValues([OutboundValue("shadowsocks", "proxy-a", ProxyV(p))], opt);
      |g| == 8 &&
      g[0] == OutboundValue("selector", "select", BuiltinV(SelectorOptions(["urltest", "proxy-a"], "urltest", true))) &&
      g[1].tag == "urltest" && g[1].options.b.outbounds == ["proxy-a"] &&
      g[5] == OutboundValue("direct", "direct-fragment", BuiltinV(DirectOptions(false)))
  {
    var vs := [OutboundValue("shadowsocks", "proxy-a", ProxyV(p))];
    SingleShadowsocksParts(p, opt);
    var g := GraphValues(vs, opt);
    assert g == [SelectorValue(["proxy-a"]), URLTestValue(["proxy-a"], opt), Patched(vs[0], opt)] + SystemValues;
  }

  /** The pieces of SingleShadowsocksScenario: one selectable tag, one kept
      outbound, and the url-test group as the selector default. */
  lemma SingleShadowsocksParts(p: ProxyValue, opt: HiddifyOptions)
    requires p.kind == Shadowsocks
    ensures var vs := [OutboundValue("shadowsocks", "proxy-a", ProxyV(p))];
      SelectableTags(vs) == ["proxy-a"] && KeptOutbounds(vs, opt) == [Patched(vs[0], opt)] &&
      SelectorValue(["proxy-a"]) == OutboundValue("selector", "select", BuiltinV(SelectorOptions(["urltest", "proxy-a"], "urltest", true)))
  {
    var vs := [OutboundValue("shadowsocks", "proxy-a", ProxyV(p))];
    NotContainsWithoutFirstChar("proxy-a", HideMarker);
    NotContainsWithoutFirstChar("proxy-a", DefaultMarker);
    FlatMapSingle(vs[0], OfferedTag);
    FlatMapSingle(vs[0], (v: OutboundValue) => Kept(v, opt));
    var tags := ["proxy-a"];
    assert !exists i :: 0 <= i < |tags| && Contains(tags[i], DefaultMarker);
    PatchedKeepsShape(vs[0], opt);
    assert DefaultSelect(tags) == "urltest";
    assert [OutboundURLTestTag] + tags == ["urltest", "proxy-a"];
  }

  /** A string without the first character of `sep` does not contain it. */
  lemma NotContainsWithoutFirstChar(s: string, sep: string)
    requires |sep| > 0 && sep[0] !in s
    ensures !Contains(s, sep)
  {
    ContainsIff(s, sep);
  }

  /** The selector's default is the url-test group unless a member's tag
      contains the marker; it is then the marker itself, which names a
      member only if some member is tagged exactly so. */
  lemma DefaultSentinel(tags: seq<string>)
    ensures DefaultSelect(tags) in {OutboundURLTestTag, DefaultMarker}
    ensures DefaultSelect(tags) == DefaultMarker ==>
      (DefaultSelect(tags) in [OutboundURLTestTag] + tags <==> DefaultMarker in tags)
    ensures DefaultMarker in tags ==> DefaultSelect(tags) == DefaultMarker
  {
    if DefaultMarker in tags {
      var i :| 0 <= i < |tags| && tags[i] == DefaultMarker;
      assert OccursAt(tags[i], DefaultMarker, 0);
      ContainsIff(tags[i], DefaultMarker);
    }
  }

  lemma {:induction false} ServerDomainsMembership(vs: seq<OutboundValue>, env: Env, d: string)
    ensures d in ServerDomains(vs, env) <==> d != "" && exists i :: 0 <= i < |vs| && ServerDomain(vs[i], env) == d
  {
    if vs != [] {
      var init := vs[..|vs| - 1];
      ServerDomainsMembership(init, env, d);
      assert forall i :: 0 <= i < |init| ==> init[i] == vs[i];
    }
  }

  /** The pinned domains are the "full:"-prefixed names of the proxies that
      dial their server directly by name, plus the remote resolver's host
      when it parses and is not an IP address. */
  lemma ForceDirectDomainsFacts(vs: seq<OutboundValue>, opt: HiddifyOptions, env: Env, d: string)
    ensures d in ForceDirectDomains(vs, opt, env) <==>
      RemoteDnsHost(opt, env) == Some(d) ||
      exists i :: 0 <= i < |vs| && vs[i].options.ProxyV? && vs[i].options.v.detour == "" &&
        vs[i].options.v.server != "" && !env.isIP(vs[i].options.v.server) && d == "full:" + vs[i].options.v.server
    ensures RemoteDnsHost(opt, env).Some? ==>
      env.urlHost("https://" + AfterScheme(opt.remoteDnsAddress)) == RemoteDnsHost(opt, env) &&
      !env.isIP(RemoteDnsHost(opt, env).value)
  {
    ServerDomainsMembership(vs, env, d);
    if exists i :: 0 <= i < |vs| && ServerDomain(vs[i], env) == d && d != "" {
      var i :| 0 <= i < |vs| && ServerDomain(vs[i], env) == d && d != "";
      assert vs[i].options.ProxyV?;
    }
  }

  /** The force-direct rule goes first and routes the listed domains to
      the direct tier; the other rules follow unchanged. */
  lemma WithForceDirectFacts(d: DNSOptions, keys: seq<string>, env: Env)
    ensures var d' := WithForceDirect(d, keys, env);
      |d'.rules| == |d.rules| + 1 && d'.rules[1..] == d.rules &&
      RoutesTo(d'.rules[0], DNSDirectTag) &&
      d'.rules[0].matcher == env.makeDNSRule(RuleSpec(Join(keys, ","), OutboundBypassTag, [])) &&
      d'.servers == d.servers && d'.final == d.final
  {
  }
}
