/** Which records a route can write: the exact condition on what it puts in one, under encoding v3. */
module Notes {
  import opened Common
  import opened Unicode
  import opened Json
  import opened Canonical
  import opened Encoding
  import opened Log
  import opened Policy
  import opened Lineage
  import opened Labels
  import opened Bindings
  import opened Invoke

  // ---- metadata ----

  predicate MemberEncodes(m: Member<Js>) { WellFormed(m.key) && Encodable(m.value) }

  predicate MembersEncode(ms: seq<Member<Js>>) {
    ms == [] || (MemberEncodes(ms[0]) && MembersEncode(ms[1..]))
  }

  lemma {:induction false} EachMemberEncodes(ms: seq<Member<Js>>)
    ensures MembersEncode(ms) <==> forall m | m in ms :: MemberEncodes(m)
  {
    if ms != [] {
      EachMemberEncodes(ms[1..]);
      assert forall m :: m in ms <==> m == ms[0] || m in ms[1..] by { assert ms == [ms[0]] + ms[1..]; }
    }
  }

  predicate Fresh(ms: seq<Member<Js>>, key: Str) {
    forall i :: 0 <= i < |ms| ==> ms[i].key != key
  }

  lemma {:induction false} PutFresh(ms: seq<Member<Js>>, key: Str, v: Js)
    requires Fresh(ms, key)
    ensures Put(ms, key, v) == ms + [Member(key, v)]
  {
    if ms != [] {
      PutFresh(ms[1..], key, v);
      assert ms == [ms[0]] + ms[1..];
    }
  }

  lemma {:induction false} SpreadFresh(ms: seq<Member<Js>>, more: seq<Member<Js>>)
    requires DistinctKeys(more) && forall i :: 0 <= i < |more| ==> Fresh(ms, more[i].key)
    ensures Spread(ms, more) == ms + more
    decreases |more|
  {
    if more == [] {
      assert ms + more == ms;
    } else {
      PutFresh(ms, more[0].key, more[0].value);
      var ms', rest := ms + [more[0]], more[1..];
      assert Put(ms, more[0].key, more[0].value) == ms';
      forall i | 0 <= i < |rest| ensures Fresh(ms', rest[i].key) { assert rest[i] == more[i + 1]; }
      assert DistinctKeys(rest);
      SpreadFresh(ms', rest);
      assert ms' + rest == ms + more;
    }
  }

  /** An object of distinct keys encodes when its keys and values do. */
  lemma ObjEncodes(ms: seq<Member<Js>>)
    requires DistinctKeys(ms)
    ensures Encodable(Obj(ms)) <==> MembersEncode(ms)
  {
    EachMemberEncodes(ms);
    if Encodable(Obj(ms)) {
      forall m | m in ms ensures MemberEncodes(m) {}
    }
    if MembersEncode(ms) {
      forall m | m in ms ensures WellFormed(m.key) && Encodable(m.value) { assert MemberEncodes(m); }
    }
  }

  lemma {:induction false} EncodeConcat(a: seq<Member<Js>>, b: seq<Member<Js>>)
    ensures MembersEncode(a + b) <==> MembersEncode(a) && MembersEncode(b)
  {
    if a == [] {
      assert a + b == b;
    } else {
      assert (a + b)[1..] == a[1..] + b;
      EncodeConcat(a[1..], b);
    }
  }

  lemma PlainAscii(s: string)
    requires forall i :: 0 <= i < |s| ==> (s[i] as int) < 0x80
    ensures WellFormed(Ascii(s))
  {
    forall u | u in Ascii(s) ensures !High(u) && !Low(u) { var i :| 0 <= i < |s| && Ascii(s)[i] == u; }
    PlainUnits(Ascii(s));
  }

  lemma OneEncodes(key: Str, v: Js)
    requires WellFormed(key)
    ensures MembersEncode([Member(key, v)]) <==> Encodable(v)
  {
    assert [Member(key, v)][1..] == [];
  }

  lemma TwoEncode(k0: Str, v0: Js, k1: Str, v1: Js)
    requires WellFormed(k0) && WellFormed(k1)
    ensures MembersEncode([Member(k0, v0), Member(k1, v1)]) <==> Encodable(v0) && Encodable(v1)
  {
    assert [Member(k0, v0), Member(k1, v1)] == [Member(k0, v0)] + [Member(k1, v1)];
    EncodeConcat([Member(k0, v0)], [Member(k1, v1)]);
    OneEncodes(k0, v0);
    OneEncodes(k1, v1);
  }

  lemma FourEncode(k0: Str, v0: Js, k1: Str, v1: Js, k2: Str, v2: Js, k3: Str, v3: Js)
    requires WellFormed(k0) && WellFormed(k1) && WellFormed(k2) && WellFormed(k3)
    ensures MembersEncode([Member(k0, v0), Member(k1, v1), Member(k2, v2), Member(k3, v3)])
            <==> Encodable(v0) && Encodable(v1) && Encodable(v2) && Encodable(v3)
  {
    var front, back := [Member(k0, v0), Member(k1, v1)], [Member(k2, v2), Member(k3, v3)];
    assert [Member(k0, v0), Member(k1, v1), Member(k2, v2), Member(k3, v3)] == front + back;
    EncodeConcat(front, back);
    TwoEncode(k0, v0, k1, v1);
    TwoEncode(k2, v2, k3, v3);
  }

  predicate AnyEncodes(v: Option<Js>) { v.Some? ==> Encodable(v.value) }

  lemma IfAnyEncodes(key: Str, v: Option<Js>)
    requires WellFormed(key)
    ensures MembersEncode(IfAny(key, v)) <==> AnyEncodes(v)
  {
    if v.Some? { OneEncodes(key, v.value); }
  }

  /** Two members, and three that may be there. */
  lemma FiveEncode(k0: Str, v0: Js, k1: Str, v1: Js, k2: Str, v2: Option<Js>, k3: Str, v3: Option<Js>,
                   k4: Str, v4: Option<Js>)
    requires WellFormed(k0) && WellFormed(k1) && WellFormed(k2) && WellFormed(k3) && WellFormed(k4)
    ensures MembersEncode([Member(k0, v0), Member(k1, v1)] + (IfAny(k2, v2) + (IfAny(k3, v3) + IfAny(k4, v4))))
            <==> Encodable(v0) && Encodable(v1) && AnyEncodes(v2) && AnyEncodes(v3) && AnyEncodes(v4)
  {
    EncodeConcat([Member(k0, v0), Member(k1, v1)], IfAny(k2, v2) + (IfAny(k3, v3) + IfAny(k4, v4)));
    EncodeConcat(IfAny(k2, v2), IfAny(k3, v3) + IfAny(k4, v4));
    EncodeConcat(IfAny(k3, v3), IfAny(k4, v4));
    TwoEncode(k0, v0, k1, v1);
    IfAnyEncodes(k2, v2);
    IfAnyEncodes(k3, v3);
    IfAnyEncodes(k4, v4);
  }

  predicate OptionalEncodes(s: Option<Str>) { s.Some? ==> WellFormed(s.value) }

  predicate TextsEncode(ss: seq<Str>) { forall s | s in ss :: WellFormed(s) }

  lemma TextsJsEncodes(ss: seq<Str>)
    ensures Encodable(TextsJs(ss)) <==> TextsEncode(ss)
  {
    var items := TextsJs(ss).items;
    if Encodable(TextsJs(ss)) {
      forall s | s in ss ensures WellFormed(s) {
        var i :| 0 <= i < |ss| && ss[i] == s;
        assert items[i] in items && items[i] == Text(s) && Encodable(items[i]);
      }
    }
    if TextsEncode(ss) {
      forall x | x in items ensures Encodable(x) { var i :| 0 <= i < |items| && items[i] == x; assert ss[i] in ss; }
    }
  }

  /** A result encodes when the reason it gives and the ancestors it names do. */
  predicate ResultEncodes(r: Result) {
    && (r.reason.Some? ==> WellFormed(ReasonText(r.reason.value)))
    && (r.ancestors.Some? ==> TextsEncode(r.ancestors.value))
  }

  predicate ResultsEncode(rs: seq<Result>) { forall i :: 0 <= i < |rs| ==> ResultEncodes(rs[i]) }

  // ---- names are plain ----

  lemma CheckPlain(c: Check)
    ensures WellFormed(CheckText(c))
  {
    match c {
      case RoleCheck => PlainAscii("role");
      case ScopeCheck => PlainAscii("scope");
      case IntentCheck => PlainAscii("intent");
      case TaintCheck => PlainAscii("taint");
      case ClassificationCheck => PlainAscii("classification");
    }
  }

  lemma TokenCodePlain(c: Code)
    requires c.SessionExpired? || c.SessionRevoked? || c.NonceReplay? || c.TargetMismatch? || c.ContinuityFailed?
    ensures WellFormed(CodeText(c)) && |CodeText(c)| <= 64
  {
    match c {
      case SessionExpired => PlainAscii("ERR_SESSION_EXPIRED");
      case SessionRevoked => PlainAscii("ERR_SESSION_REVOKED");
      case NonceReplay => PlainAscii("ERR_NONCE_REPLAY");
      case TargetMismatch => PlainAscii("ERR_TARGET_MISMATCH");
      case ContinuityFailed => PlainAscii("ERR_CONTINUITY_FAILED");
    }
  }

  lemma LayerCodePlain(c: Code)
    requires c.RoleInvalid? || c.ScopeDenied? || c.IntentDrift? || c.ClassificationViolation? ||
             c.PolicyViolation?
    ensures WellFormed(CodeText(c)) && |CodeText(c)| <= 64
  {
    match c {
      case RoleInvalid => PlainAscii("ERR_ROLE_INVALID");
      case ScopeDenied => PlainAscii("ERR_SCOPE_DENIED");
      case IntentDrift => PlainAscii("ERR_INTENT_DRIFT");
      case ClassificationViolation => PlainAscii("ERR_CLASSIFICATION_VIOLATION");
      case PolicyViolation => PlainAscii("ERR_POLICY_VIOLATION");
    }
  }

  lemma LateCodePlain(c: Code)
    requires c.UpstreamTimeout? || c.ManifestInvalid? || c.DualControlRequired? || c.OperationBlocked? ||
             c.ForwardFailed?
    ensures WellFormed(CodeText(c)) && |CodeText(c)| <= 64
  {
    match c {
      case UpstreamTimeout => PlainAscii("ERR_UPSTREAM_TIMEOUT");
      case ManifestInvalid => PlainAscii("ERR_CONTEXT_MANIFEST_INVALID");
      case DualControlRequired => PlainAscii("ERR_DUAL_CONTROL_REQUIRED");
      case OperationBlocked => PlainAscii("ERR_OPERATION_BLOCKED");
      case ForwardFailed => PlainAscii("ERR_OPENCLAW_FORWARD_FAILED");
    }
  }

  lemma CodePlain(c: Code)
    ensures WellFormed(CodeText(c)) && |CodeText(c)| <= 64
  {
    match c {
      case SessionExpired | SessionRevoked | NonceReplay | TargetMismatch | ContinuityFailed => TokenCodePlain(c);
      case UpstreamTimeout | ManifestInvalid | DualControlRequired | OperationBlocked | ForwardFailed =>
        LateCodePlain(c);
      case _ => LayerCodePlain(c);
    }
  }

  lemma OperationPlain(op: Operation)
    ensures WellFormed(OperationText(op)) && |OperationText(op)| <= 64
  {
    match op {
      case OperatorRead => PlainAscii("operator.read");
      case OperatorWrite => PlainAscii("operator.write");
      case ToolInvoke => PlainAscii("tool.invoke");
      case NodeInvoke => PlainAscii("node.invoke");
      case FileRead => PlainAscii("file.read");
      case FileWrite => PlainAscii("file.write");
      case ExportData => PlainAscii("export.data");
      case ExecRun => PlainAscii("exec.run");
      case AdminControl => PlainAscii("admin.control");
    }
  }

  lemma ProfilePlain(p: Profile)
    ensures WellFormed(ProfileText(p))
  {
    match p {
      case Relaxed => PlainAscii("relaxed");
      case Standard => PlainAscii("standard");
      case Strict => PlainAscii("strict");
      case Scif => PlainAscii("scif");
    }
  }

  lemma ModePlain(m: FheMode)
    ensures WellFormed(ModeText(m))
  {
    match m {
      case ModeA => PlainAscii("A");
      case ModeB => PlainAscii("B");
      case ModeC => PlainAscii("C");
    }
  }

  lemma AwaitPlain(a: Await)
    ensures WellFormed(AwaitText(a))
  {
    match a {
      case TokenVerify => PlainAscii("token-verify");
      case NonceConsume => PlainAscii("nonce");
      case EnvelopeValidate => PlainAscii("envelope");
      case AdapterForward => PlainAscii("adapter");
    }
  }

  lemma ClassificationPlain(c: Classification)
    ensures WellFormed(ClassificationText(c)) && |ClassificationText(c)| <= 64
  {
    match c {
      case Public => PlainAscii("public");
      case Sensitive => PlainAscii("sensitive");
      case Regulated => PlainAscii("regulated");
      case ClassifiedAdjacent => PlainAscii("classified-adjacent");
    }
  }

  lemma OriginPlain(o: Origin)
    ensures WellFormed(Name(o))
  {
    match o {
      case User => PlainAscii("user");
      case System => PlainAscii("system");
      case Rag => PlainAscii("rag");
      case ToolOutput => PlainAscii("tool-output");
      case McpResponse => PlainAscii("mcp-response");
      case ExternalChannel => PlainAscii("external-channel");
    }
  }

  lemma EventPlain(e: EventKind)
    ensures WellFormed(EventText(e)) && |EventText(e)| <= 64
  {
    match e {
      case DenyEvent => PlainAscii("deny");
      case InvokeEvent => PlainAscii("invoke");
      case ContinuityFail => PlainAscii("continuity_fail");
      case EnvelopeRejected => PlainAscii("envelope_rejected");
      case ReplayFail => PlainAscii("replay_fail");
      case ScopeFail => PlainAscii("scope_fail");
      case TargetMismatchEvent => PlainAscii("target_mismatch");
      case ToolBlock => PlainAscii("tool_block");
      case IntentDriftEvent => PlainAscii("intent_drift");
      case DualControlRequested => PlainAscii("dual_control_requested");
    }
  }

  lemma EarlyEventKnown(e: EventKind)
    requires e.DenyEvent? || e.InvokeEvent? || e.ContinuityFail? || e.EnvelopeRejected? || e.ReplayFail?
    ensures EventText(e) in EventTypes()
  {
    match e {
      case DenyEvent => assert EventTypes()[1] == EventText(e);
      case InvokeEvent => assert EventTypes()[2] == EventText(e);
      case ContinuityFail => assert EventTypes()[5] == EventText(e);
      case EnvelopeRejected => assert EventTypes()[6] == EventText(e);
      case ReplayFail => assert EventTypes()[7] == EventText(e);
    }
  }

  lemma LateEventKnown(e: EventKind)
    requires e.ScopeFail? || e.TargetMismatchEvent? || e.ToolBlock? || e.IntentDriftEvent? || e.DualControlRequested?
    ensures EventText(e) in EventTypes()
  {
    match e {
      case ScopeFail => assert EventTypes()[8] == EventText(e);
      case TargetMismatchEvent => assert EventTypes()[9] == EventText(e);
      case ToolBlock => assert EventTypes()[11] == EventText(e);
      case IntentDriftEvent => assert EventTypes()[12] == EventText(e);
      case DualControlRequested => assert EventTypes()[20] == EventText(e);
    }
  }

  lemma EventKnown(e: EventKind)
    ensures EventText(e) in EventTypes()
  {
    if e.DenyEvent? || e.InvokeEvent? || e.ContinuityFail? || e.EnvelopeRejected? || e.ReplayFail? {
      EarlyEventKnown(e);
    } else {
      LateEventKnown(e);
    }
  }

  lemma {:induction false} HexPlain(d: Bytes)
    ensures forall u | u in HexText(d) :: LowerHex(u)
    ensures |HexText(d)| == 2 * |d|
  {
    if d != [] { HexPlain(d[1..]); }
  }

  lemma HexIsHex64(d: Digest)
    ensures Hex64(HexText(d))
  {
    HexPlain(d);
  }

  lemma ShortEncodes(s: Str)
    requires |s| <= 0x1000_0000
    ensures FieldEncodes(s) <==> WellFormed(s)
  {
    Utf8Length(s);
  }

  lemma Hex64Encodes(s: Str)
    requires Hex64OrEmpty(s)
    ensures WellFormed(s) && FieldEncodes(s)
  {
    PlainUnits(s);
    ShortEncodes(s);
  }

  // ---- what each route puts in ----

  lemma ResultKeysPlain()
    ensures WellFormed(Ascii("name")) && WellFormed(Ascii("passed")) && WellFormed(Ascii("reason"))
    ensures WellFormed(Ascii("code")) && WellFormed(Ascii("ancestors"))
  {
    PlainAscii("name");
    PlainAscii("passed");
    PlainAscii("reason");
    PlainAscii("code");
    PlainAscii("ancestors");
  }

  lemma ResultValuesEncode(r: Result)
    ensures Encodable(Text(CheckText(r.check)))
    ensures AnyEncodes(if r.code.Some? then Some(Text(CodeText(r.code.value))) else None)
    ensures (AnyEncodes(if r.reason.Some? then Some(Text(ReasonText(r.reason.value))) else None)
             && AnyEncodes(if r.ancestors.Some? then Some(TextsJs(r.ancestors.value)) else None)) <==> ResultEncodes(r)
  {
    CheckPlain(r.check);
    if r.code.Some? { CodePlain(r.code.value); }
    if r.ancestors.Some? { TextsJsEncodes(r.ancestors.value); }
  }

  lemma ResultMembersEncode(r: Result)
    ensures Encodable(Obj(ResultMembers(r))) <==> ResultEncodes(r)
  {
    ResultKeysDistinct(r);
    ObjEncodes(ResultMembers(r));
    ResultKeysPlain();
    ResultValuesEncode(r);
    FiveEncode(Ascii("name"), Text(CheckText(r.check)), Ascii("passed"), Bool(r.passed),
               Ascii("reason"), if r.reason.Some? then Some(Text(ReasonText(r.reason.value))) else None,
               Ascii("code"), if r.code.Some? then Some(Text(CodeText(r.code.value))) else None,
               Ascii("ancestors"), if r.ancestors.Some? then Some(TextsJs(r.ancestors.value)) else None);
  }

  lemma ResultKeysDistinct(r: Result)
    ensures DistinctKeys(ResultMembers(r))
  {
    assert Ascii("name")[0] != Ascii("code")[0] && Ascii("passed")[0] != Ascii("reason")[0];
  }

  lemma ResultsJsEncodes(rs: seq<Result>)
    ensures Encodable(ResultsJs(rs)) <==> ResultsEncode(rs)
  {
    var items := ResultsJs(rs).items;
    if Encodable(ResultsJs(rs)) {
      forall i | 0 <= i < |rs| ensures ResultEncodes(rs[i]) {
        assert items[i] in items;
        ResultMembersEncode(rs[i]);
      }
    }
    if ResultsEncode(rs) {
      forall x | x in items ensures Encodable(x) {
        var i :| 0 <= i < |items| && items[i] == x;
        ResultMembersEncode(rs[i]);
      }
    }
  }

  /** What a detail puts in of what others supplied. */
  predicate DetailEncodes(sv: Services, id: Str, detail: Detail) {
    match detail
    case Misshapen => Encodable(sv.flaws(id))
    case AtStage(stage) => WellFormed(Ascii(stage))
    case NoSessionId => true
    case TimedOut(await) => Encodable(sv.budget(await))
    case Unsealed(_) => true
    case Drifted(declared, _) => WellFormed(declared)
    case Refused(reason, predicates) =>
      (reason.Some? ==> WellFormed(ReasonText(reason.value))) && ResultsEncode(predicates)
    case Blocked(message) => OptionalEncodes(message)
    case Forwarded(_, _, bindingHash, predicates) => WellFormed(bindingHash) && ResultsEncode(predicates)
    case RegisteredContext(manifest, count, _, _) => WellFormed(manifest) && count <= MAX_SAFE
  }

  lemma StageEncodes(stage: Str, more: seq<Member<Js>>)
    ensures MembersEncode(StageJs(stage) + more) <==> WellFormed(stage) && MembersEncode(more)
  {
    EncodeConcat(StageJs(stage), more);
    PlainAscii("stage");
    OneEncodes(Ascii("stage"), Text(stage));
  }

  lemma RefusedKeysPlain()
    ensures WellFormed(Ascii("policy")) && WellFormed(Ascii("reason")) && WellFormed(Ascii("predicates"))
  {
    PlainAscii("policy");
    PlainAscii("reason");
    PlainAscii("predicates");
  }

  lemma RefusedEncodes(reason: Option<Objection>, predicates: seq<Result>)
    ensures MembersEncode(RefusedJs(reason, predicates))
            <==> (reason.Some? ==> WellFormed(ReasonText(reason.value))) && ResultsEncode(predicates)
  {
    var said := if reason.Some? then Some(Text(ReasonText(reason.value))) else None;
    RefusedKeysPlain();
    StageEncodes(Ascii("policy"), IfAny(Ascii("reason"), said) + [Member(Ascii("predicates"), ResultsJs(predicates))]);
    EncodeConcat(IfAny(Ascii("reason"), said), [Member(Ascii("predicates"), ResultsJs(predicates))]);
    IfAnyEncodes(Ascii("reason"), said);
    OneEncodes(Ascii("predicates"), ResultsJs(predicates));
    ResultsJsEncodes(predicates);
  }

  lemma ModesEncode(modes: seq<FheMode>)
    ensures Encodable(ModesJs(modes))
  {
    forall x | x in ModesJs(modes).items ensures Encodable(x) {
      var i :| 0 <= i < |modes| && ModesJs(modes).items[i] == x;
      ModePlain(modes[i]);
    }
  }

  lemma ForwardedKeysPlain()
    ensures WellFormed(Ascii("profile")) && WellFormed(Ascii("allowedFheModes"))
    ensures WellFormed(Ascii("bindingHash")) && WellFormed(Ascii("predicates"))
  {
    PlainAscii("profile");
    PlainAscii("allowedFheModes");
    PlainAscii("bindingHash");
    PlainAscii("predicates");
  }

  lemma ForwardedEncodes(profile: Profile, modes: seq<FheMode>, bindingHash: Str, predicates: seq<Result>)
    ensures MembersEncode(ForwardedJs(profile, modes, bindingHash, predicates))
            <==> WellFormed(bindingHash) && ResultsEncode(predicates)
  {
    ForwardedKeysPlain();
    FourEncode(Ascii("profile"), Text(ProfileText(profile)), Ascii("allowedFheModes"), ModesJs(modes),
               Ascii("bindingHash"), Text(bindingHash), Ascii("predicates"), ResultsJs(predicates));
    ProfilePlain(profile);
    ModesEncode(modes);
    ResultsJsEncodes(predicates);
  }

  lemma OriginsEncode(os: seq<Origin>)
    ensures Encodable(OriginsJs(os))
  {
    forall x | x in OriginsJs(os).items ensures Encodable(x) {
      var i :| 0 <= i < |os| && OriginsJs(os).items[i] == x;
      OriginPlain(os[i]);
    }
  }

  lemma LabelKeysPlain()
    ensures WellFormed(Ascii("classification")) && WellFormed(Ascii("origins"))
  {
    PlainAscii("classification");
    PlainAscii("origins");
  }

  lemma LabelEncodes(l: Label)
    ensures Encodable(LabelJs(l))
  {
    OriginsEncode(l.origins);
    ClassificationPlain(l.classification);
    LabelKeysPlain();
    TwoEncode(Ascii("classification"), Text(ClassificationText(l.classification)),
              Ascii("origins"), OriginsJs(l.origins));
    ObjEncodes(LabelJs(l).members);
  }

  lemma RegisteredKeysPlain()
    ensures WellFormed(Ascii("manifestHash")) && WellFormed(Ascii("elementCount"))
    ensures WellFormed(Ascii("sessionLabel")) && WellFormed(Ascii("sessionTainted"))
  {
    PlainAscii("manifestHash");
    PlainAscii("elementCount");
    PlainAscii("sessionLabel");
    PlainAscii("sessionTainted");
  }

  lemma RegisteredEncodes(manifest: Str, count: nat, held: Label, tainted: bool)
    ensures MembersEncode(
              [Member(Ascii("manifestHash"), Text(manifest)), Member(Ascii("elementCount"), CountJs(count)),
               Member(Ascii("sessionLabel"), LabelJs(held)), Member(Ascii("sessionTainted"), Bool(tainted))])
            <==> WellFormed(manifest) && count <= MAX_SAFE
  {
    RegisteredKeysPlain();
    LabelEncodes(held);
    FourEncode(Ascii("manifestHash"), Text(manifest), Ascii("elementCount"), CountJs(count),
               Ascii("sessionLabel"), LabelJs(held), Ascii("sessionTainted"), Bool(tainted));
  }

  lemma StagedWith(stage: Str, key: Str, v: Js)
    requires WellFormed(stage) && WellFormed(key)
    ensures MembersEncode(StageJs(stage) + [Member(key, v)]) <==> Encodable(v)
  {
    StageEncodes(stage, [Member(key, v)]);
    OneEncodes(key, v);
  }

  lemma StagedEncodes(sv: Services, id: Str, detail: Detail)
    requires detail.Misshapen? || detail.AtStage? || detail.NoSessionId? || detail.TimedOut? || detail.Unsealed?
    ensures MembersEncode(Describe(sv, id, detail)) <==> DetailEncodes(sv, id, detail)
  {
    match detail {
      case Misshapen =>
        PlainAscii("shape");
        PlainAscii("validation");
        StagedWith(Ascii("shape"), Ascii("validation"), sv.flaws(id));
      case AtStage(stage) =>
        StageEncodes(Ascii(stage), []);
        assert StageJs(Ascii(stage)) + [] == StageJs(Ascii(stage));
      case NoSessionId =>
        PlainAscii("context-register");
        PlainAscii("reason");
        PlainAscii("token carries no session id");
        StagedWith(Ascii("context-register"), Ascii("reason"), Text(Ascii("token carries no session id")));
      case TimedOut(await) =>
        AwaitPlain(await);
        PlainAscii("budgetMs");
        StagedWith(AwaitText(await), Ascii("budgetMs"), sv.budget(await));
      case Unsealed(expired) =>
        PlainAscii("envelope");
        PlainAscii("reason_class");
        PlainAscii("expired");
        PlainAscii("unauthenticated");
        StagedWith(Ascii("envelope"), Ascii("reason_class"),
                   Text(Ascii(if expired then "expired" else "unauthenticated")));
    }
  }

  lemma DriftedEncodes(sv: Services, id: Str, declared: Str, operation: Operation)
    ensures MembersEncode(Describe(sv, id, Drifted(declared, operation))) <==> WellFormed(declared)
  {
    PlainAscii("declaredIntent");
    PlainAscii("operationClass");
    OperationPlain(operation);
    TwoEncode(Ascii("declaredIntent"), Text(declared), Ascii("operationClass"), Text(OperationText(operation)));
  }

  lemma BlockedEncodes(sv: Services, id: Str, message: Option<Str>)
    ensures MembersEncode(Describe(sv, id, Blocked(message))) <==> OptionalEncodes(message)
  {
    PlainAscii("adapter");
    PlainAscii("reason");
    StageEncodes(Ascii("adapter"), IfAny(Ascii("reason"), OptionalText(message)));
    IfAnyEncodes(Ascii("reason"), OptionalText(message));
  }

  lemma ContextEncodes(sv: Services, id: Str, manifest: Str, count: nat, held: Label, tainted: bool)
    ensures MembersEncode(Describe(sv, id, RegisteredContext(manifest, count, held, tainted)))
            <==> WellFormed(manifest) && count <= MAX_SAFE
  {
    RegisteredEncodes(manifest, count, held, tainted);
    PlainAscii("context-register");
    StageEncodes(Ascii("context-register"),
      [Member(Ascii("manifestHash"), Text(manifest)), Member(Ascii("elementCount"), CountJs(count)),
       Member(Ascii("sessionLabel"), LabelJs(held)), Member(Ascii("sessionTainted"), Bool(tainted))]);
  }

  /** The metadata a route gives encode exactly when what others supplied does. */
  lemma DescribeEncodes(sv: Services, id: Str, detail: Detail)
    ensures MembersEncode(Describe(sv, id, detail)) <==> DetailEncodes(sv, id, detail)
  {
    match detail {
      case Drifted(declared, operation) => DriftedEncodes(sv, id, declared, operation);
      case Refused(reason, predicates) => RefusedEncodes(reason, predicates);
      case Blocked(message) => BlockedEncodes(sv, id, message);
      case Forwarded(profile, modes, bindingHash, predicates) =>
        ForwardedEncodes(profile, modes, bindingHash, predicates);
      case RegisteredContext(manifest, count, held, tainted) => ContextEncodes(sv, id, manifest, count, held, tainted);
      case _ => StagedEncodes(sv, id, detail);
    }
  }


  // ---- the whole record ----

  /** Distinct keys, the device label not among them. */
  predicate Apart(ms: seq<Member<Js>>) { DistinctKeys(ms) && Fresh(ms, Ascii("device_label")) }

  lemma StageApart(stage: Str, more: seq<Member<Js>>)
    requires Apart(more) && Fresh(more, Ascii("stage"))
    ensures Apart(StageJs(stage)) && Apart(StageJs(stage) + more)
  {
    var ms := StageJs(stage) + more;
    forall i, j | 0 <= i < j < |ms| ensures ms[i].key != ms[j].key {
      if i == 0 { assert ms[j] == more[j - 1]; }
    }
  }

  lemma OneApart(key: Str, v: Js)
    requires key != Ascii("device_label")
    ensures Apart([Member(key, v)]) && (key != Ascii("stage") ==> Fresh([Member(key, v)], Ascii("stage")))
  {
  }

  lemma RefusedApart(reason: Option<Objection>, predicates: seq<Result>)
    ensures Apart(RefusedJs(reason, predicates))
  {
    var said := if reason.Some? then Some(Text(ReasonText(reason.value))) else None;
    StageApart(Ascii("policy"), IfAny(Ascii("reason"), said) + [Member(Ascii("predicates"), ResultsJs(predicates))]);
  }

  lemma ForwardedApart(profile: Profile, modes: seq<FheMode>, bindingHash: Str, predicates: seq<Result>)
    ensures Apart(ForwardedJs(profile, modes, bindingHash, predicates))
  {
  }

  lemma RegisteredApart(manifest: Str, count: nat, held: Label, tainted: bool)
    ensures var ms := [Member(Ascii("manifestHash"), Text(manifest)), Member(Ascii("elementCount"), CountJs(count)),
                       Member(Ascii("sessionLabel"), LabelJs(held)), Member(Ascii("sessionTainted"), Bool(tainted))];
            Apart(ms) && Fresh(ms, Ascii("stage"))
  {
    assert Ascii("manifestHash")[0] == 109 && Ascii("elementCount")[0] == 101 && Ascii("sessionLabel")[0] == 115;
    assert Ascii("device_label")[0] == 100;
  }

  lemma ReasonClassApart(v: Js)
    ensures Apart([Member(Ascii("reason_class"), v)]) && Fresh([Member(Ascii("reason_class"), v)], Ascii("stage"))
  {
    assert Ascii("reason_class")[0] == 114 && Ascii("device_label")[0] == 100;
  }

  lemma DriftedApart(sv: Services, id: Str, declared: Str, operation: Operation)
    ensures Apart(Describe(sv, id, Drifted(declared, operation)))
  {
    assert Ascii("declaredIntent")[0] == 100 && Ascii("operationClass")[0] == 111;
  }

  lemma DescribesApart(sv: Services, id: Str, detail: Detail)
    ensures Apart(Describe(sv, id, detail))
  {
    match detail {
      case Misshapen =>
        OneApart(Ascii("validation"), sv.flaws(id));
        StageApart(Ascii("shape"), [Member(Ascii("validation"), sv.flaws(id))]);
      case AtStage(stage) => StageApart(Ascii(stage), []);
      case NoSessionId =>
        OneApart(Ascii("reason"), Text(Ascii("token carries no session id")));
        StageApart(Ascii("context-register"), [Member(Ascii("reason"), Text(Ascii("token carries no session id")))]);
      case TimedOut(await) =>
        OneApart(Ascii("budgetMs"), sv.budget(await));
        StageApart(AwaitText(await), [Member(Ascii("budgetMs"), sv.budget(await))]);
      case Unsealed(expired) =>
        var why := Text(Ascii(if expired then "expired" else "unauthenticated"));
        ReasonClassApart(why);
        StageApart(Ascii("envelope"), [Member(Ascii("reason_class"), why)]);
      case Drifted(declared, operation) => DriftedApart(sv, id, declared, operation);
      case Refused(reason, predicates) => RefusedApart(reason, predicates);
      case Blocked(message) => StageApart(Ascii("adapter"), IfAny(Ascii("reason"), OptionalText(message)));
      case Forwarded(profile, modes, bindingHash, predicates) =>
        ForwardedApart(profile, modes, bindingHash, predicates);
      case RegisteredContext(manifest, count, held, tainted) =>
        RegisteredApart(manifest, count, held, tainted);
        StageApart(Ascii("context-register"), Describe(sv, id, detail)[1..]);
    }
  }

  lemma DistinctConcat(a: seq<Member<Js>>, b: seq<Member<Js>>)
    requires DistinctKeys(a) && DistinctKeys(b) && forall i :: 0 <= i < |b| ==> Fresh(a, b[i].key)
    ensures DistinctKeys(a + b)
  {
  }

  /** The transport's name and version. */
  predicate TransportEncodes(sv: Services) { WellFormed(sv.transport) && OptionalEncodes(sv.version) }

  lemma StampEncodes(sv: Services)
    ensures MembersEncode(Stamp(sv)) <==> TransportEncodes(sv)
  {
    var version := if sv.version == Some([]) then None else OptionalText(sv.version);
    PlainAscii("transport");
    PlainAscii("transport_version");
    EncodeConcat([Member(Ascii("transport"), Text(sv.transport))], IfAny(Ascii("transport_version"), version));
    OneEncodes(Ascii("transport"), Text(sv.transport));
    IfAnyEncodes(Ascii("transport_version"), version);
  }

  function StampOf(sv: Services, n: Note): seq<Member<Js>> { if n.forwarded then Stamp(sv) else [] }

  function LabelOf(n: Note): seq<Member<Js>> {
    if n.device != [] && !Hex64(n.device) then [Member(Ascii("device_label"), Text(n.device))] else []
  }

  lemma StampFresh(sv: Services, ms: seq<Member<Js>>)
    requires Unstamped(ms)
    ensures forall i :: 0 <= i < |Stamp(sv)| ==> Fresh(ms, Stamp(sv)[i].key)
    ensures Fresh(Stamp(sv), Ascii("device_label"))
  {
  }

  /** The stamp and the label come after what the route gave, and hide none of it. */
  lemma MetadataIs(sv: Services, n: Note)
    ensures MetadataOf(sv, n) == Describe(sv, n.correlationId, n.detail) + (StampOf(sv, n) + LabelOf(n))
    ensures DistinctKeys(MetadataOf(sv, n))
  {
    var ms, stamp, tag := Describe(sv, n.correlationId, n.detail), StampOf(sv, n), LabelOf(n);
    DescribesApart(sv, n.correlationId, n.detail);
    DescribesUnstamped(sv, n.correlationId, n.detail);
    StampFresh(sv, ms);
    StampHas(sv, []);
    SpreadFresh(ms, stamp);
    assert ms + [] == ms;
    DistinctConcat(ms, stamp);
    Regroup3(ms, stamp, tag);
    if tag != [] {
      PutFresh(ms + stamp, Ascii("device_label"), Text(n.device));
      DistinctConcat(ms + stamp, tag);
    } else {
      assert ms + stamp + [] == ms + stamp;
    }
  }

  /** The metadata encode exactly when what the route, the bindings and the transport supplied does. */
  predicate MetadataEncodes(sv: Services, n: Note) {
    && DetailEncodes(sv, n.correlationId, n.detail)
    && (n.forwarded ==> TransportEncodes(sv))
    && WellFormed(n.device)
  }

  lemma MetadataEncodesExactly(sv: Services, n: Note)
    ensures Encodable(Obj(MetadataOf(sv, n))) <==> MetadataEncodes(sv, n)
  {
    var ms, stamp, tag := Describe(sv, n.correlationId, n.detail), StampOf(sv, n), LabelOf(n);
    MetadataIs(sv, n);
    ObjEncodes(MetadataOf(sv, n));
    EncodeConcat(ms, stamp + tag);
    EncodeConcat(stamp, tag);
    DescribeEncodes(sv, n.correlationId, n.detail);
    StampEncodes(sv);
    LabelPartEncodes(n);
  }

  lemma LabelPartEncodes(n: Note)
    ensures MembersEncode(LabelOf(n)) <==> WellFormed(n.device)
  {
    PlainAscii("device_label");
    OneEncodes(Ascii("device_label"), Text(n.device));
    if Hex64(n.device) { Hex64Encodes(n.device); }
  }

  /** What a note's texts must meet for its record to be written, given the position and the time. */
  predicate NoteEncodes(sv: Services, n: Note, seqNo: nat, now: nat) {
    && seqNo <= MAX_SAFE && now <= MAX_SAFE
    && FieldEncodes(n.correlationId) && Hex64OrEmpty(n.sessionId) && FieldEncodes(n.subjectId)
    && (n.payloadDigest.Some? ==> Hex64OrEmpty(n.payloadDigest.value))
    && FieldEncodes(n.targetHash) && FieldEncodes(n.classification) && FieldEncodes(n.reason)
    && MetadataEncodes(sv, n) && |Blob(Some(Obj(MetadataOf(sv, n))))| < FIELD_LIMIT
  }

  lemma TenFields(fs: seq<Str>)
    requires |fs| == 10 && FieldEncodes(fs[0]) && FieldEncodes(fs[2]) && FieldEncodes(fs[3]) && FieldEncodes(fs[4])
    requires FieldEncodes(fs[6])
    ensures (forall s | s in fs :: FieldEncodes(s))
            <==> FieldEncodes(fs[1]) && FieldEncodes(fs[5]) && FieldEncodes(fs[7]) && FieldEncodes(fs[8])
                 && FieldEncodes(fs[9])
  {
    if FieldEncodes(fs[1]) && FieldEncodes(fs[5]) && FieldEncodes(fs[7]) && FieldEncodes(fs[8]) && FieldEncodes(fs[9]) {
      forall s | s in fs ensures FieldEncodes(s) { var k :| 0 <= k < 10 && fs[k] == s; }
    }
  }

  /** What is left to check of a record once its event, device and operation are known to be fine. */
  predicate RestEncodes(r: Record)
    requires |r.fields| == 10 && r.metadata.Some?
  {
    && r.seqNo <= MAX_SAFE && r.timestamp <= MAX_SAFE
    && Hex64OrEmpty(r.fields[SESSION_HANDLE]) && Hex64OrEmpty(r.fields[PAYLOAD_DIGEST])
    && FieldEncodes(r.fields[1]) && FieldEncodes(r.fields[5]) && FieldEncodes(r.fields[7])
    && FieldEncodes(r.fields[8]) && FieldEncodes(r.fields[9])
    && Encodable(r.metadata.value) && |Blob(r.metadata)| < FIELD_LIMIT
  }

  lemma EncodesParts(r: Record)
    requires |r.fields| == 10 && r.payload == None && r.metadata.Some? && r.metadata.value.Obj?
    requires r.fields[EVENT_TYPE] in EventTypes() && FieldEncodes(r.fields[EVENT_TYPE]) && FieldEncodes(r.fields[6])
    requires Hex64OrEmpty(r.fields[DEVICE_FINGERPRINT])
    ensures Encodes(r) <==> RestEncodes(r)
  {
    JcsExactly(r.metadata.value);
    Hex64Encodes(r.fields[DEVICE_FINGERPRINT]);
    if Hex64OrEmpty(r.fields[SESSION_HANDLE]) && Hex64OrEmpty(r.fields[PAYLOAD_DIGEST]) {
      Hex64Encodes(r.fields[SESSION_HANDLE]);
      Hex64Encodes(r.fields[PAYLOAD_DIGEST]);
      TenFields(r.fields);
    }
  }

  lemma RestIsNotes(sv: Services, n: Note, r: Record)
    requires var e := EntryOf(sv, n); r.fields == e.fields && r.payload == e.payload && r.metadata == e.metadata
    ensures RestEncodes(r) <==> NoteEncodes(sv, n, r.seqNo, r.timestamp)
  {
    MetadataEncodesExactly(sv, n);
  }

  lemma EntryIsFine(sv: Services, n: Note)
    ensures var fields := EntryOf(sv, n).fields;
            && fields[EVENT_TYPE] in EventTypes() && FieldEncodes(fields[EVENT_TYPE]) && FieldEncodes(fields[6])
            && Hex64OrEmpty(fields[DEVICE_FINGERPRINT])
  {
    EventPlain(n.event);
    EventKnown(n.event);
    ShortEncodes(EventText(n.event));
    if n.operation.Some? {
      OperationPlain(n.operation.value);
      ShortEncodes(OperationText(n.operation.value));
    } else {
      Hex64Encodes([]);
    }
  }

  /** A record's encoding succeeds exactly when its note's texts meet the condition. */
  lemma RecordEncodesExactly(sv: Services, n: Note, r: Record)
    requires var e := EntryOf(sv, n); r.fields == e.fields && r.payload == e.payload && r.metadata == e.metadata
    ensures Encodes(r) <==> NoteEncodes(sv, n, r.seqNo, r.timestamp)
  {
    EntryIsFine(sv, n);
    EncodesParts(r);
    RestIsNotes(sv, n, r);
  }

  // ---- the records of a transport call ----

  predicate Fits(sv: Services, n: Note) { |Blob(Some(Obj(MetadataOf(sv, n))))| < FIELD_LIMIT }

  /** What every record of a request carries of the token, and the position and time the log adds. */
  predicate TokenEncodes(id: Str, t: TokenState, seqNo: nat, now: nat) {
    && seqNo <= MAX_SAFE && now <= MAX_SAFE && FieldEncodes(id)
    && Hex64OrEmpty(t.sessionId) && FieldEncodes(t.subjectId) && WellFormed(t.deviceFingerprint)
  }

  /** The record of a success encodes exactly when these inputs do. */
  lemma InvokeNoteEncodes(sv: Services, id: Str, body: Body, t: TokenState, e: Envelope, d: Decision, digest: Digest,
                          seqNo: nat, now: nat)
    requires ClassificationNamed(e.classification).Some?
    ensures var n := InvokeNote(sv, id, body, t, e, d, HexText(digest));
            NoteEncodes(sv, n, seqNo, now)
            <==> TokenEncodes(id, t, seqNo, now) && TransportEncodes(sv) && FieldEncodes(e.targetHash)
                 && ResultsEncode(d.predicates) && Fits(sv, n)
  {
    HexIsHex64(digest);
    ClassificationPlain(ClassificationNamed(e.classification).value);
    ShortEncodes(e.classification);
    var binding := sv.H(Utf8(id + [COLON] + body.targetId + [COLON] + OperationText(body.operation)));
    HexIsHex64(binding);
    Hex64Encodes(HexText(binding));
    Hex64Encodes([]);
  }

  /** The adapter's error as it is recorded. */
  predicate ErrorEncodes(a: AdapterAnswer) {
    a.error.Some? ==> FieldEncodes(a.error.value.code) && WellFormed(a.error.value.message)
  }

  /** A note that carries the token's texts, a reason and its detail. */
  lemma AttributedEncodes(sv: Services, n: Note, id: Str, t: TokenState, seqNo: nat, now: nat)
    requires n.correlationId == id && n.sessionId == t.sessionId && n.subjectId == t.subjectId
    requires n.device == t.deviceFingerprint && n.payloadDigest.None? && n.targetHash == [] && n.classification == []
    ensures NoteEncodes(sv, n, seqNo, now)
            <==> TokenEncodes(id, t, seqNo, now) && FieldEncodes(n.reason) && DetailEncodes(sv, id, n.detail)
                 && (n.forwarded ==> TransportEncodes(sv)) && Fits(sv, n)
  {
    Hex64Encodes([]);
  }

  lemma FallbackEncodes()
    ensures FieldEncodes(CodeText(ForwardFailed))
  {
    CodePlain(ForwardFailed);
    ShortEncodes(CodeText(ForwardFailed));
  }

  /** And so the record of a failure. */
  lemma BlockedNoteEncodes(sv: Services, id: Str, body: Body, t: TokenState, a: AdapterAnswer, seqNo: nat, now: nat)
    ensures var n := BlockedNote(id, body, t, a);
            NoteEncodes(sv, n, seqNo, now)
            <==> TokenEncodes(id, t, seqNo, now) && (a.forwarded ==> TransportEncodes(sv)) && ErrorEncodes(a)
                 && Fits(sv, n)
  {
    AttributedEncodes(sv, BlockedNote(id, body, t, a), id, t, seqNo, now);
    FallbackEncodes();
  }

  // ---- what a session's registrations put into its records ----

  /** The predicates of an allowed decision encode exactly when the ancestors of a tainted session do. */
  lemma AllowedResultsEncode(role: Option<Role>, i: Input)
    requires Judge(role, i).allowed && i.sessionAncestors.Some?
    ensures ResultsEncode(Judge(role, i).predicates) <==> (SessionTainted(i) ==> TextsEncode(i.sessionAncestors.value))
  {
    AllowedExactly(role, i);
    var rs := Judge(role, i).predicates;
    forall k | 0 <= k < 5
      ensures ResultEncodes(rs[k]) <==> (k == 3 && SessionTainted(i) ==> TextsEncode(i.sessionAncestors.value))
    {
      assert rs[k] in rs;
      PassedEncodes(role, i, CheckAt(k));
    }
    assert ResultEncodes(rs[3]) <==> (SessionTainted(i) ==> TextsEncode(i.sessionAncestors.value));
  }

  lemma PassedEncodes(role: Option<Role>, i: Input, check: Check)
    requires ResultOf(role, i, check).passed && i.sessionAncestors.Some?
    ensures ResultEncodes(ResultOf(role, i, check))
            <==> (check.TaintCheck? && SessionTainted(i) ==> TextsEncode(i.sessionAncestors.value))
  {
  }

  /** A session has ancestors only when it is tainted, and they are the untrusted hashes it registered. */
  lemma AncestorsEncode(ops: seq<Op>, s: Str)
    ensures (Tainted(GetLabel(Run(ops), s)) ==> TextsEncode(GetAncestors(Run(ops), s)))
            <==> TextsEncode(HashesGiven(ops, s))
  {
    AncestorsAreHashesGiven(ops, s);
    DedupKeeps(HashesGiven(ops, s));
    if HashesGiven(ops, s) != [] { HashesTaint(ops, s); }
  }
}
