/** The outbound patcher of config/outbound.go: clone one user outbound,
    read its server domain, then apply the TLS fragment trick and the
    multiplex preference to the clone in place. */
module OutboundPatch {
  import opened Wrappers
  import opened Engine
  import opened Preferences
  import opened Externals

  /** The option structures that carry a TLS container and a Multiplex field
      the patcher sets (Shadowsocks has neither in this patcher). */
  predicate HasTLSAndMux(k: ProxyKind)
  {
    k == VLESS || k == VMess || k == Trojan
  }

  /** What patchTLSOptions does to a non-nil TLS block. */
  function PatchedTLS(t: TLSValue, opt: HiddifyOptions): TLSValue
  {
    if !t.enabled then t
    else if t.reality.Some? && t.reality.value then t
    else if opt.tlsTricks.enableFragment then t.(fragment := true)
    else t
  }

  /** The multiplex options patchOutboundMux installs. */
  function MuxFor(opt: HiddifyOptions): MultiplexOptions
  {
    MultiplexOptions(true, opt.mux.padding, opt.mux.protocol, opt.mux.maxStreams)
  }

  /** cloneMuxOptions: a copy of the options (values need no fresh pointer). */
  function CloneMuxOptions(m: MultiplexOptions): Option<MultiplexOptions>
  {
    Some(m)
  }

  /** What patchOutboundTLSTricks does to an outbound. */
  function TLSTricksPatched(o: OutboundValue, opt: HiddifyOptions): OutboundValue
  {
    match o.options
    case ProxyV(v) =>
      if HasTLSAndMux(v.kind) && v.tls.Some? then
        o.(options := ProxyV(v.(tls := Some(PatchedTLS(v.tls.value, opt)))))
      else o
    case BuiltinV(_) => o
  }

  /** What patchOutboundMux does to an outbound. */
  function MuxPatched(o: OutboundValue, opt: HiddifyOptions): OutboundValue
  {
    match o.options
    case ProxyV(v) =>
      if opt.mux.enable && HasTLSAndMux(v.kind) then
        o.(options := ProxyV(v.(multiplex := CloneMuxOptions(MuxFor(opt)))))
      else o
    case BuiltinV(_) => o
  }

  /** The patched outbound patchOutbound returns for a clone equal to `o`. */
  function Patched(o: OutboundValue, opt: HiddifyOptions): OutboundValue
  {
    MuxPatched(TLSTricksPatched(o, opt), opt)
  }

  /** outboundServerDomain (config/outbound.go:72-98). */
  function ServerDomain(o: OutboundValue, env: Env): (r: string)
    ensures r != "" <==>
      o.options.ProxyV? && o.options.v.detour == "" && o.options.v.server != "" && !env.isIP(o.options.v.server)
    ensures r != "" ==> r == "full:" + o.options.v.server
  {
    var (server, detour) := match o.options
      case ProxyV(v) => (v.server, v.detour)
      case BuiltinV(_) => ("", "");
    if detour != "" || server == "" then ""
    else if env.isIP(server) then ""
    else "full:" + server
  }

  /** patchTLSOptions leaves the block alone when TLS is off or REALITY is
      on; otherwise it sets Fragment when the preference asks for it, and it
      never clears Fragment. */
  lemma PatchedTLSEffect(t: TLSValue, opt: HiddifyOptions)
    ensures PatchedTLS(t, opt).enabled == t.enabled && PatchedTLS(t, opt).reality == t.reality
    ensures !t.enabled || t.reality == Some(true) ==> PatchedTLS(t, opt) == t
    ensures PatchedTLS(t, opt).fragment <==>
      t.fragment || (t.enabled && t.reality != Some(true) && opt.tlsTricks.enableFragment)
  {
  }

  /** The mux patch is a no-op when multiplexing is off and for kinds other
      than VLESS, VMess and Trojan; otherwise Multiplex is enabled and copies
      padding, protocol and max-streams from the preferences. */
  lemma MuxPatchedEffect(o: OutboundValue, opt: HiddifyOptions)
    ensures !opt.mux.enable ==> MuxPatched(o, opt) == o
    ensures o.options.BuiltinV? || !HasTLSAndMux(o.options.v.kind) ==> MuxPatched(o, opt) == o
    ensures opt.mux.enable && o.options.ProxyV? && HasTLSAndMux(o.options.v.kind) ==>
      MuxPatched(o, opt).options.v.multiplex ==
        Some(MultiplexOptions(true, opt.mux.padding, opt.mux.protocol, opt.mux.maxStreams))
  {
  }

  /** Patching keeps the tag, the type, the protocol kind, the server, the
      port and the detour; and patching a patched outbound changes nothing. */
  lemma PatchedKeepsShape(o: OutboundValue, opt: HiddifyOptions)
    ensures Patched(o, opt).tag == o.tag && Patched(o, opt).typ == o.typ
    ensures Patched(o, opt).options.ProxyV? == o.options.ProxyV?
    ensures o.options.ProxyV? ==>
      var (p, v) := (Patched(o, opt).options.v, o.options.v);
      p.kind == v.kind && p.server == v.server && p.serverPort == v.serverPort && p.detour == v.detour
    ensures Patched(Patched(o, opt), opt) == Patched(o, opt)
  {
  }

  /** The server domain read before patching is that of the patched
      outbound too. */
  lemma PatchedKeepsIdentity(o: OutboundValue, opt: HiddifyOptions, env: Env)
    ensures ServerDomain(Patched(o, opt), env) == ServerDomain(o, env)
  {
    PatchedKeepsShape(o, opt);
  }

  /** patchTLSOptions (config/outbound.go:60-70). */
  method PatchTLSOptions(tls: TLSOptions?, opt: HiddifyOptions)
    modifies tls
    ensures tls != null ==> tls.Value() == PatchedTLS(old(tls.Value()), opt)
  {
    if tls == null || !tls.enabled {
      return;
    }
    if tls.reality.Some? && tls.reality.value {
      return;
    }
    if opt.tlsTricks.enableFragment {
      tls.fragment := true;
    }
  }

  /** The TLS block patchOutboundTLSTricks may change. */
  function TLSFrame(o: Outbound): set<object>
  {
    if o.options.Proxy? && o.options.p.tls != null then {o.options.p.tls} else {}
  }

  /** patchOutboundTLSTricks (config/outbound.go:49-58). */
  method PatchOutboundTLSTricks(o: Outbound, opt: HiddifyOptions)
    modifies TLSFrame(o)
    ensures ValueOf(o) == TLSTricksPatched(old(ValueOf(o)), opt)
  {
    match o.options
    case Proxy(p) =>
      if HasTLSAndMux(p.kind) {
        PatchTLSOptions(p.tls, opt);
      }
    case Builtin(_) =>
  }

  /** The protocol options patchOutboundMux may change. */
  function MuxFrame(o: Outbound): set<object>
  {
    if o.options.Proxy? then {o.options.p} else {}
  }

  /** patchOutboundMux (config/outbound.go:23-42). */
  method PatchOutboundMux(o: Outbound, opt: HiddifyOptions)
    modifies MuxFrame(o)
    ensures ValueOf(o) == MuxPatched(old(ValueOf(o)), opt)
  {
    if !opt.mux.enable {
      return;
    }
    var muxOptions := MuxFor(opt);
    match o.options
    case Proxy(p) =>
      if HasTLSAndMux(p.kind) {
        p.multiplex := CloneMuxOptions(muxOptions);
      }
    case Builtin(_) =>
  }

  /** cloneOutbound (config/unmarshal_options.go:44-55): a JSON round trip
      through the engine's registries, so the copy is built from the
      original's value. Whether it succeeds is the engine's business; when it
      does, the copy is equal to the original and owns only new objects. */
  method CloneOutbound(base: OutboundValue, env: Env) returns (r: Option<Outbound>)
    ensures r.Some? <==> env.cloneOk(base)
    ensures r.Some? ==> fresh(Footprint(r.value)) && ValueOf(r.value) == base
  {
    if !env.cloneOk(base) {
      return None;
    }
    match base.options
    case BuiltinV(b) =>
      r := Some(Outbound(base.typ, base.tag, Builtin(b)));
    case ProxyV(v) =>
      var copy := new ProxyOptions(v);
      r := Some(Outbound(base.typ, base.tag, Proxy(copy)));
  }

  /** The error patchOutbound reports: "error patching outbound[tag][type]". */
  datatype PatchError = PatchError(tag: string, typ: string)

  /** patchOutbound (config/outbound.go:10-21): the server domain is read
      from the clone before it is patched; the original is left untouched. */
  method PatchOutbound(base: OutboundValue, opt: HiddifyOptions, env: Env)
    returns (r: Result<(Outbound, string), PatchError>)
    ensures r.Failure? <==> !env.cloneOk(base)
    ensures r.Failure? ==> r.error == PatchError(base.tag, base.typ)
    ensures r.Success? ==>
      fresh(Footprint(r.value.0)) &&
      ValueOf(r.value.0) == Patched(base, opt) &&
      r.value.1 == ServerDomain(base, env)
  {
    var cloned := CloneOutbound(base, env);
    if cloned.None? {
      return Failure(PatchError(base.tag, base.typ));
    }
    var outbound := cloned.value;
    var serverDomain := ServerDomain(ValueOf(outbound), env);
    PatchOutboundTLSTricks(outbound, opt);
    PatchOutboundMux(outbound, opt);
    r := Success((outbound, serverDomain));
  }
}
