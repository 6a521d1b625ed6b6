/** Records of the Master panel, the mutations sent to it, and the saved rollback snapshot. */
module MasterAlgebra {
  import opened Types

  /** One key of a JSON object: missing, null, or holding a value of its declared kind. */
  datatype Field<+T> = Absent | Null | Value(value: T)

  /** A node object as the panel sends it and as the snapshot column stores it. */
  datatype Payload = Payload(
    id: int,
    name: Field<string>, remark: Field<string>, scheme: Field<string>, address: Field<string>,
    port: Field<int>, basePath: Field<string>, hasApiToken: Field<bool>, enable: Field<bool>,
    allowPrivateAddress: Field<bool>, tlsVerifyMode: Field<string>, pinnedCertSha256: Field<string>,
    inboundSyncMode: Field<string>, inboundTags: Field<seq<string>>, outboundTag: Field<string>,
    guid: Field<string>, status: Field<string>, xrayState: Field<string>, transitive: Field<bool>)

  datatype MasterNode = MasterNode(
    id: int, name: string, remark: string, scheme: string, address: string, port: int,
    basePath: string, hasApiToken: bool, enable: bool, allowPrivateAddress: bool,
    tlsVerifyMode: string, pinnedCertSha256: string, inboundSyncMode: string,
    inboundTags: seq<string>, outboundTag: string, guid: string, status: string,
    xrayState: string, transitive: bool)

  /** What an update sets; the token is sent only when there is one. */
  datatype Mutation = Mutation(
    name: string, remark: string, scheme: string, address: string, port: int, basePath: string,
    apiToken: Option<string>, enable: bool, allowPrivateAddress: bool, tlsVerifyMode: string,
    pinnedCertSha256: string, inboundSyncMode: string, inboundTags: seq<string>, outboundTag: string)

  /** The string of a field, or the default when it is missing, null or empty. */
  function Text(f: Field<string>, default: string): string {
    if f.Value? && f.value != "" then f.value else default
  }

  function Number(f: Field<int>): int {
    if f.Value? then f.value else 0
  }

  /** Truthiness of a flag; only a missing key takes the default. */
  function Flag(f: Field<bool>, default: bool): bool {
    match f
    case Absent => default
    case Null => false
    case Value(b) => b
  }

  function Tags(f: Field<seq<string>>): seq<string> {
    if f.Value? then f.value else []
  }

  function FromPayload(p: Payload): MasterNode {
    MasterNode(
      p.id, Text(p.name, ""), Text(p.remark, ""), Text(p.scheme, "http"), Text(p.address, ""),
      Number(p.port), Text(p.basePath, ""), Flag(p.hasApiToken, false), Flag(p.enable, true),
      Flag(p.allowPrivateAddress, false), Text(p.tlsVerifyMode, "verify"),
      Text(p.pinnedCertSha256, ""), Text(p.inboundSyncMode, "all"), Tags(p.inboundTags),
      Text(p.outboundTag, ""), Text(p.guid, ""), Text(p.status, ""), Text(p.xrayState, ""),
      Flag(p.transitive, false))
  }

  /** The rollback metadata saved before a switch; it holds no credential. */
  function SafeSnapshot(n: MasterNode): Payload {
    Payload(
      n.id, Value(n.name), Value(n.remark), Value(n.scheme), Value(n.address), Value(n.port),
      Value(n.basePath), Value(n.hasApiToken), Value(n.enable), Value(n.allowPrivateAddress),
      Value(n.tlsVerifyMode), Value(n.pinnedCertSha256), Value(n.inboundSyncMode),
      Value(n.inboundTags), Value(n.outboundTag), Value(n.guid), Value(n.status),
      Value(n.xrayState), Value(n.transitive))
  }

  /** The mutation rebuilt from a saved snapshot. */
  function FromSnapshot(s: Payload, token: Option<string>): Mutation {
    Mutation(
      Text(s.name, ""), Text(s.remark, ""), Text(s.scheme, "http"), Text(s.address, ""),
      Number(s.port), Text(s.basePath, ""), token, Flag(s.enable, true),
      Flag(s.allowPrivateAddress, false), Text(s.tlsVerifyMode, "verify"),
      Text(s.pinnedCertSha256, ""), Text(s.inboundSyncMode, "all"), Tags(s.inboundTags),
      Text(s.outboundTag, ""))
  }

  /** Where a deployed panel answers, its user, and the references of its token and password. */
  datatype PanelConfig = PanelConfig(
    scheme: string, port: int, basePath: string, tokenRef: string, username: string, passwordRef: string)

  /** The preflight target, built from the record the Master shows now; transitive nodes are refused. */
  function FromExisting(n: MasterNode, host: string, c: PanelConfig): Result<Mutation> {
    if n.transitive then Failure
    else
      var https := c.scheme == "https";
      Success(Mutation(
        n.name, n.remark, c.scheme, host, c.port, c.basePath, Some(c.tokenRef), n.enable,
        n.allowPrivateAddress, if https then n.tlsVerifyMode else "verify",
        if https then n.pinnedCertSha256 else "", n.inboundSyncMode, n.inboundTags, n.outboundTag))
  }

  /** A target reached without TLS carries no TLS settings. */
  function Normalized(m: Mutation): Mutation {
    if m.scheme != "https" then m.(tlsVerifyMode := "verify", pinnedCertSha256 := "") else m
  }

  /** The target rebuilt from the snapshot, as the update and the verification stage both do. */
  function Target(s: Payload, host: string, c: PanelConfig): Mutation {
    Normalized(FromSnapshot(s, Some(c.tokenRef)).(
      scheme := c.scheme, address := host, port := c.port, basePath := c.basePath))
  }

  predicate NeedsPin(m: Mutation) {
    m.scheme == "https" && m.tlsVerifyMode == "pin"
  }

  /** A pinned target takes the fingerprint the Master reads from the new server. */
  function Pinned(m: Mutation, fingerprint: string): Mutation {
    if NeedsPin(m) then m.(pinnedCertSha256 := fingerprint) else m
  }

  /** The fields of a mutation as they are sent. */
  function AsPayload(m: Mutation): Payload {
    Payload(
      0, Value(m.name), Value(m.remark), Value(m.scheme), Value(m.address), Value(m.port),
      Value(m.basePath), Absent, Value(m.enable), Value(m.allowPrivateAddress),
      Value(m.tlsVerifyMode), Value(m.pinnedCertSha256), Value(m.inboundSyncMode),
      Value(m.inboundTags), Value(m.outboundTag), Absent, Absent, Absent, Absent)
  }

  /** What the panel stores after an update: sent keys replace stored ones, a sent token is kept. */
  function Stored(p: Payload, m: Mutation): Payload {
    var sent := AsPayload(m);
    sent.(id := p.id,
          hasApiToken := if m.apiToken.Some? then Value(true) else p.hasApiToken,
          guid := p.guid, status := p.status, xrayState := p.xrayState, transitive := p.transitive)
  }

  /** The same update seen through the parsed record. */
  function Overlay(n: MasterNode, m: Mutation): MasterNode {
    n.(name := m.name, remark := m.remark, scheme := Text(Value(m.scheme), "http"), address := m.address,
       port := m.port, basePath := m.basePath, hasApiToken := n.hasApiToken || m.apiToken.Some?,
       enable := m.enable, allowPrivateAddress := m.allowPrivateAddress,
       tlsVerifyMode := Text(Value(m.tlsVerifyMode), "verify"), pinnedCertSha256 := m.pinnedCertSha256,
       inboundSyncMode := Text(Value(m.inboundSyncMode), "all"), inboundTags := m.inboundTags,
       outboundTag := m.outboundTag)
  }

  /** The three fields a parsed record never leaves empty. */
  predicate Parsed(n: MasterNode) {
    n.scheme != "" && n.tlsVerifyMode != "" && n.inboundSyncMode != ""
  }

  /** The mutation that writes a record back as it is. */
  function Rewrite(n: MasterNode, token: Option<string>): Mutation {
    Mutation(n.name, n.remark, n.scheme, n.address, n.port, n.basePath, token, n.enable,
             n.allowPrivateAddress, n.tlsVerifyMode, n.pinnedCertSha256, n.inboundSyncMode,
             n.inboundTags, n.outboundTag)
  }

  /** A snapshot rebuilds the record's own mutation exactly when the record could have been parsed. */
  lemma SnapshotRoundTrip(n: MasterNode, token: Option<string>)
    ensures FromSnapshot(SafeSnapshot(n), token) == Rewrite(n, token) <==> Parsed(n)
    ensures FromPayload(SafeSnapshot(n)) == n <==> Parsed(n)
  {
  }

  lemma EveryPayloadParses(p: Payload)
    ensures Parsed(FromPayload(p))
  {
  }

  /** A payload read as a snapshot gives the mutation that writes back the record it is read as. */
  lemma SnapshotReadsAsRecord(p: Payload, token: Option<string>)
    ensures FromSnapshot(p, token) == Rewrite(FromPayload(p), token)
  {
  }

  /** What a record looks like of which the panel tells nothing but its identity. */
  lemma BareRecord(id: int)
    ensures FromPayload(Payload(
              id, Absent, Absent, Absent, Absent, Absent, Absent, Absent, Absent, Absent, Absent, Absent,
              Absent, Absent, Absent, Absent, Absent, Absent, Absent))
            == MasterNode(id, "", "", "http", "", 0, "", false, true, false, "verify", "", "all", [], "", "", "", "", false)
    ensures FromPayload(Payload(
              id, Null, Null, Null, Null, Null, Null, Null, Null, Null, Null, Null,
              Null, Null, Null, Null, Null, Null, Null))
            == MasterNode(id, "", "", "http", "", 0, "", false, false, false, "verify", "", "all", [], "", "", "", "", false)
  {
  }

  /** Updating the stored object and then parsing it is the overlay of the parsed record. */
  lemma StoredIsOverlay(p: Payload, m: Mutation)
    ensures FromPayload(Stored(p, m)) == Overlay(FromPayload(p), m)
  {
  }

  /** The fields of the record that the target takes over from the old node. */
  predicate SameCarriedFields(a: MasterNode, b: MasterNode) {
    && a.name == b.name && a.remark == b.remark && a.enable == b.enable
    && a.allowPrivateAddress == b.allowPrivateAddress && a.inboundSyncMode == b.inboundSyncMode
    && a.inboundTags == b.inboundTags && a.outboundTag == b.outboundTag
  }

  /** TLS settings survive a switch only on an https target. */
  predicate SameTls(a: MasterNode, b: MasterNode, scheme: string) {
    scheme == "https" ==>
      && a.tlsVerifyMode == b.tlsVerifyMode
      && (a.tlsVerifyMode != "pin" ==> a.pinnedCertSha256 == b.pinnedCertSha256)
  }

  /**
   The target probed at preflight, built from the record shown now, equals the target that the
   update and the verification rebuild from the saved snapshot -- whatever crashes lie between --
   exactly when the record still agrees with the snapshot in what the switch carries over.
   */
  lemma RebuiltTargetsAgree(saved: MasterNode, shown: MasterNode, host: string, c: PanelConfig, fp: string)
    requires Parsed(saved) && Parsed(shown) && !shown.transitive
    ensures Pinned(FromExisting(shown, host, c).value, fp) == Pinned(Target(SafeSnapshot(saved), host, c), fp)
            <==> SameCarriedFields(saved, shown) && SameTls(saved, shown, c.scheme)
  {
    SnapshotRoundTrip(saved, Some(c.tokenRef));
    var a, b := FromExisting(shown, host, c).value, Target(SafeSnapshot(saved), host, c);
    if c.scheme == "https" && shown.tlsVerifyMode != saved.tlsVerifyMode {
      assert Pinned(a, fp).tlsVerifyMode != Pinned(b, fp).tlsVerifyMode;
    }
  }

  /**
   Writing the target and then rolling back from the snapshot gives the record back in every field
   but the token flag, for any record the Master can show and any target whatever.
   */
  lemma RollbackInvertsUpdate(p: Payload, target: Mutation, oldToken: Option<string>)
    ensures var before := FromPayload(p);
            var after := FromPayload(Stored(Stored(p, target), FromSnapshot(SafeSnapshot(before), oldToken)));
            after == before.(hasApiToken := before.hasApiToken || target.apiToken.Some? || oldToken.Some?)
  {
    var before := FromPayload(p);
    EveryPayloadParses(p);
    SnapshotRoundTrip(before, oldToken);
    StoredIsOverlay(p, target);
    StoredIsOverlay(Stored(p, target), FromSnapshot(SafeSnapshot(before), oldToken));
  }

  // ---- Verification after a write ----

  datatype Probe = Probe(status: string, xrayState: string)

  /** Lower case of the ASCII letters, which is all the two status words need. */
  function Lower(s: string): string {
    seq(|s|, i requires 0 <= i < |s| =>
      if 'A' <= s[i] <= 'Z' then (s[i] as int + 32) as char else s[i])
  }

  /** The probe's own word wins; an empty one falls back to the stored record. */
  function Effective(probe: string, stored: string): string {
    Lower(if probe != "" then probe else stored)
  }

  predicate OnlineOrSilent(status: string, online: string) {
    status == "" || status == online
  }

  /** What a verification looks at: seven fields, the token flag and two status words. */
  datatype Aspect =
    | SchemeAspect | AddressAspect | PortAspect | BasePathAspect | EnableAspect | TlsModeAspect
    | PinAspect | TokenAspect | StatusAspect | XrayAspect

  predicate Differs(n: MasterNode, probe: Probe, m: Mutation, a: Aspect) {
    match a
    case SchemeAspect => n.scheme != m.scheme
    case AddressAspect => n.address != m.address
    case PortAspect => n.port != m.port
    case BasePathAspect => n.basePath != m.basePath
    case EnableAspect => n.enable != m.enable
    case TlsModeAspect => n.tlsVerifyMode != m.tlsVerifyMode
    case PinAspect => n.pinnedCertSha256 != m.pinnedCertSha256
    case TokenAspect => m.apiToken.Some? && !n.hasApiToken
    case StatusAspect => !OnlineOrSilent(Effective(probe.status, n.status), "online")
    case XrayAspect => !OnlineOrSilent(Effective(probe.xrayState, n.xrayState), "running")
  }

  predicate Verifies(n: MasterNode, probe: Probe, m: Mutation) {
    forall a: Aspect :: !Differs(n, probe, m, a)
  }

  const COMPARED := [SchemeAspect, AddressAspect, PortAspect, BasePathAspect, EnableAspect, TlsModeAspect, PinAspect]

  /** Collects what differs, field by field and then the token and the status words. */
  method VerifyNode(n: MasterNode, probe: Probe, m: Mutation) returns (mismatches: seq<Aspect>)
    ensures forall a :: a in mismatches <==> Differs(n, probe, m, a)
    ensures mismatches == [] <==> Verifies(n, probe, m)
  {
    mismatches := [];
    var i := 0;
    while i < |COMPARED|
      invariant 0 <= i <= |COMPARED|
      invariant forall a :: a in mismatches <==> a in COMPARED[..i] && Differs(n, probe, m, a)
    {
      assert COMPARED[..i + 1] == COMPARED[..i] + [COMPARED[i]];
      if Differs(n, probe, m, COMPARED[i]) {
        mismatches := mismatches + [COMPARED[i]];
      }
      i := i + 1;
    }
    assert COMPARED[..i] == COMPARED;
    if m.apiToken.Some? && !n.hasApiToken {
      mismatches := mismatches + [TokenAspect];
    }
    var status := Effective(probe.status, n.status);
    if status != "" && status != "online" {
      mismatches := mismatches + [StatusAspect];
    }
    var xray := Effective(probe.xrayState, n.xrayState);
    if xray != "" && xray != "running" {
      mismatches := mismatches + [XrayAspect];
    }
    assert mismatches != [] ==> mismatches[0] in mismatches;
  }

  /** A record just written by a parsed mutation verifies against it whenever the panel reports health. */
  lemma FreshWriteVerifies(n: MasterNode, m: Mutation, probe: Probe)
    requires m.scheme != "" && m.tlsVerifyMode != "" && m.inboundSyncMode != ""
    ensures Verifies(Overlay(n, m), probe, m) <==>
            && OnlineOrSilent(Effective(probe.status, n.status), "online")
            && OnlineOrSilent(Effective(probe.xrayState, n.xrayState), "running")
  {
    var written := Overlay(n, m);
    assert Differs(written, probe, m, StatusAspect) == !OnlineOrSilent(Effective(probe.status, n.status), "online");
    assert Differs(written, probe, m, XrayAspect) == !OnlineOrSilent(Effective(probe.xrayState, n.xrayState), "running");
  }
}
