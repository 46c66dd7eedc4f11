/** What the log says of a request, by name: the record of every answer is true and tells who, what and why; an
    expired envelope is never forwarded; and a request reaches the transport exactly when the conditions of every
    layer hold. */
module Evidence {
  import opened Common
  import opened Json
  import opened Encoding
  import opened Lineage
  import opened Labels
  import opened Policy
  import opened Invoke
  import opened Context
  import opened Broker
  import opened Replies
  import L = Log
  import R = Recovery
  import B = Bindings

  // ---- the record as committed ----

  /** The event's name in a record. */
  function EventName(event: EventKind): string {
    match event
    case DenyEvent => "deny"
    case InvokeEvent => "invoke"
    case ContinuityFail => "continuity_fail"
    case EnvelopeRejected => "envelope_rejected"
    case ReplayFail => "replay_fail"
    case ScopeFail => "scope_fail"
    case TargetMismatchEvent => "target_mismatch"
    case ToolBlock => "tool_block"
    case IntentDriftEvent => "intent_drift"
    case DualControlRequested => "dual_control_requested"
  }

  /** The record's fields are the note's, by name; a device that is no fingerprint is a label in the metadata. */
  predicate FieldsSay(r: Record, n: Note) {
    && |r.fields| == 10 && r.fields[EVENT_TYPE] == Ascii(EventName(n.event))
    && r.fields[CORRELATION_ID] == n.correlationId && r.fields[SESSION_HANDLE] == n.sessionId
    && r.fields[SUBJECT_ID] == n.subjectId && r.fields[REASON_CODE] == n.reason
    && r.fields[PAYLOAD_DIGEST] == (if n.payloadDigest.Some? then n.payloadDigest.value else [])
    && r.fields[OPERATION_CLASS] == (if n.operation.Some? then OperationText(n.operation.value) else [])
    && r.fields[TARGET_HASH] == n.targetHash && r.fields[CLASSIFICATION] == n.classification
    && (n.device != [] && Hex64(n.device) ==> r.fields[DEVICE_FINGERPRINT] == n.device)
    && (n.device != [] && !Hex64(n.device) ==>
         r.fields[DEVICE_FINGERPRINT] == [] && Meta(r, "device_label", Some(Text(n.device))))
  }

  /** What the record's metadata has under this key. */
  predicate Meta(r: Record, key: string, v: Option<Js>) {
    r.metadata.Some? && r.metadata.value.Obj? && Get(r.metadata.value.members, Ascii(key)) == v
  }

  predicate AtStageOf(r: Record, stage: string) { Meta(r, "stage", Some(Text(Ascii(stage)))) }

  /** What a record's metadata says beside the fields. */
  predicate MetadataSays(sv: Services, r: Record, n: Note) {
    match n.detail
    case Misshapen => AtStageOf(r, "shape") && Meta(r, "validation", Some(sv.flaws(n.correlationId)))
    case AtStage(stage) => AtStageOf(r, stage)
    case TimedOut(await) =>
      && AtStageOf(r, AwaitName(await))
      && Meta(r, "budgetMs", Some(sv.budget(await)))
    case Unsealed(expired) =>
      && AtStageOf(r, "envelope")
      && Meta(r, "reason_class", Some(Text(Ascii(if expired then "expired" else "unauthenticated"))))
    case Drifted(declared, op) =>
      && Meta(r, "declaredIntent", Some(Text(declared))) && Meta(r, "operationClass", Some(Text(OperationText(op))))
    case Refused(reason, predicates) =>
      && AtStageOf(r, "policy") && Lists(r.metadata, predicates)
      && Meta(r, "reason", if reason.Some? then Some(Text(ReasonText(reason.value))) else None)
    case Blocked(message) =>
      AtStageOf(r, "adapter") && Meta(r, "reason", if message.Some? then Some(Text(message.value)) else None)
    case Forwarded(profile, modes, bindingHash, predicates) =>
      && Meta(r, "profile", Some(Text(ProfileText(profile)))) && Meta(r, "allowedFheModes", Some(ModesJs(modes)))
      && Meta(r, "bindingHash", Some(Text(bindingHash))) && Lists(r.metadata, predicates)
    case NoSessionId => AtStageOf(r, "context-register")
    case RegisteredContext(manifest, count, held, tainted) =>
      && AtStageOf(r, "context-register") && Meta(r, "manifestHash", Some(Text(manifest)))
      && Meta(r, "elementCount", Some(CountJs(count))) && Meta(r, "sessionLabel", Some(LabelJs(held)))
      && Meta(r, "sessionTainted", Some(Bool(tainted)))
  }

  lemma FieldsShown(sv: Services, r: Record, n: Note)
    requires States(sv, r, n)
    ensures FieldsSay(r, n)
  {
    if n.device != [] { DeviceRecorded(sv, n); }
  }

  /** A key of the note's own is in the metadata as described. */
  lemma Described(sv: Services, r: Record, n: Note, key: string)
    requires States(sv, r, n) && |key| != 9 && |key| != 17 && Ascii(key) != Ascii("device_label")
    ensures Meta(r, key, Get(Describe(sv, n.correlationId, n.detail), Ascii(key)))
  {
    DescribedShows(sv, n, Ascii(key));
  }

  /** Where the note's metadata open with their stage. */
  lemma StageShown(sv: Services, r: Record, n: Note, stage: string, more: seq<Member<Js>>)
    requires States(sv, r, n) && Describe(sv, n.correlationId, n.detail) == StageJs(Ascii(stage)) + more
    ensures AtStageOf(r, stage)
  {
    Described(sv, r, n, "stage");
    StageHas(Ascii(stage), more, Ascii("stage"));
  }

  /** And what stands behind it. */
  lemma MemberShown(sv: Services, r: Record, n: Note, stage: Str, key: string, v: Js)
    requires States(sv, r, n) && Describe(sv, n.correlationId, n.detail) == StageJs(stage) + [Member(Ascii(key), v)]
    requires |key| != 5 && |key| != 9 && |key| != 17 && Ascii(key) != Ascii("device_label")
    ensures Meta(r, key, Some(v))
  {
    Described(sv, r, n, key);
    StageHas(stage, [Member(Ascii(key), v)], Ascii(key));
    GetOne(Ascii(key), v, Ascii(key));
  }

  lemma KeysApart()
    ensures Ascii("reason_class") != Ascii("device_label") && Ascii("manifestHash") != Ascii("device_label")
    ensures Ascii("elementCount") != Ascii("device_label")
  {
    assert Ascii("reason_class")[0] == 114 && Ascii("manifestHash")[0] == 109 && Ascii("elementCount")[0] == 101;
    assert Ascii("device_label")[0] == 100;
  }

  lemma ShapeShown(sv: Services, r: Record, n: Note)
    requires States(sv, r, n) && (n.detail.Misshapen? || n.detail.AtStage?)
    ensures MetadataSays(sv, r, n)
  {
    if n.detail.Misshapen? {
      StageShown(sv, r, n, "shape", [Member(Ascii("validation"), sv.flaws(n.correlationId))]);
      MemberShown(sv, r, n, Ascii("shape"), "validation", sv.flaws(n.correlationId));
    } else {
      assert StageJs(Ascii(n.detail.stage)) + [] == StageJs(Ascii(n.detail.stage));
      StageShown(sv, r, n, n.detail.stage, []);
    }
  }

  function AwaitName(await: Await): string {
    match await case TokenVerify => "token-verify" case NonceConsume => "nonce"
    case EnvelopeValidate => "envelope" case AdapterForward => "adapter"
  }

  lemma TimeoutShown(sv: Services, r: Record, n: Note)
    requires States(sv, r, n) && n.detail.TimedOut?
    ensures MetadataSays(sv, r, n)
  {
    var await := n.detail.await;
    StageShown(sv, r, n, AwaitName(await), [Member(Ascii("budgetMs"), sv.budget(await))]);
    MemberShown(sv, r, n, AwaitText(await), "budgetMs", sv.budget(await));
  }

  lemma UnsealedShown(sv: Services, r: Record, n: Note)
    requires States(sv, r, n) && n.detail.Unsealed?
    ensures MetadataSays(sv, r, n)
  {
    var v := Text(Ascii(if n.detail.expired then "expired" else "unauthenticated"));
    KeysApart();
    StageShown(sv, r, n, "envelope", [Member(Ascii("reason_class"), v)]);
    MemberShown(sv, r, n, Ascii("envelope"), "reason_class", v);
  }

  lemma DriftShown(sv: Services, r: Record, n: Note)
    requires States(sv, r, n) && n.detail.Drifted?
    ensures MetadataSays(sv, r, n)
  {
    var ms := Describe(sv, n.correlationId, n.detail);
    assert Ascii("declaredIntent")[0] == 100 && Ascii("operationClass")[0] == 111;
    GetAt(ms, 0);
    GetAt(ms, 1);
    Described(sv, r, n, "declaredIntent");
    Described(sv, r, n, "operationClass");
  }

  lemma DenialShown(sv: Services, r: Record, n: Note)
    requires States(sv, r, n) && n.detail.Refused?
    ensures MetadataSays(sv, r, n)
  {
    var said := if n.detail.reason.Some? then Some(Text(ReasonText(n.detail.reason.value))) else None;
    var last := [Member(Ascii("predicates"), ResultsJs(n.detail.predicates))];
    StageShown(sv, r, n, "policy", IfAny(Ascii("reason"), said) + last);
    PredicatesListed(sv, n);
    Described(sv, r, n, "reason");
    StageHas(Ascii("policy"), IfAny(Ascii("reason"), said) + last, Ascii("reason"));
    AnyHas(Ascii("reason"), said, last, Ascii("reason"));
    GetOne(Ascii("predicates"), last[0].value, Ascii("reason"));
  }

  lemma FailureShown(sv: Services, r: Record, n: Note)
    requires States(sv, r, n) && n.detail.Blocked?
    ensures MetadataSays(sv, r, n)
  {
    var said := OptionalText(n.detail.message);
    StageShown(sv, r, n, "adapter", IfAny(Ascii("reason"), said));
    Described(sv, r, n, "reason");
    StageHas(Ascii("adapter"), IfAny(Ascii("reason"), said), Ascii("reason"));
    assert IfAny(Ascii("reason"), said) + [] == IfAny(Ascii("reason"), said);
    AnyHas(Ascii("reason"), said, [], Ascii("reason"));
  }

  lemma SuccessShown(sv: Services, r: Record, n: Note)
    requires States(sv, r, n) && n.detail.Forwarded?
    ensures MetadataSays(sv, r, n)
  {
    PredicatesListed(sv, n);
    ForwardShown(sv, n);
  }

  /** What describes a registration, member by member. */
  lemma ContextMembers(sv: Services, n: Note)
    requires n.detail.RegisteredContext?
    ensures var ms := Describe(sv, n.correlationId, n.detail);
            && |ms| == 5 && DistinctKeys(ms) && ms == StageJs(Ascii("context-register")) + ms[1..]
            && ms[1] == Member(Ascii("manifestHash"), Text(n.detail.manifest))
            && ms[2] == Member(Ascii("elementCount"), CountJs(n.detail.count))
            && ms[3] == Member(Ascii("sessionLabel"), LabelJs(n.detail.held))
            && ms[4] == Member(Ascii("sessionTainted"), Bool(n.detail.tainted))
  {
    RegisteredKeys();
  }

  lemma MemberAtShown(sv: Services, r: Record, n: Note, i: nat, key: string, v: Js)
    requires States(sv, r, n) && |key| != 9 && |key| != 17 && Ascii(key) != Ascii("device_label")
    requires var ms := Describe(sv, n.correlationId, n.detail);
             DistinctKeys(ms) && i < |ms| && ms[i] == Member(Ascii(key), v)
    ensures Meta(r, key, Some(v))
  {
    GetAt(Describe(sv, n.correlationId, n.detail), i);
    Described(sv, r, n, key);
  }

  lemma ContextShown(sv: Services, r: Record, n: Note)
    requires States(sv, r, n) && n.detail.RegisteredContext?
    ensures MetadataSays(sv, r, n)
  {
    ContextMembers(sv, n);
    StageShown(sv, r, n, "context-register", Describe(sv, n.correlationId, n.detail)[1..]);
    KeysApart();
    RegisteredKeys();
    MemberAtShown(sv, r, n, 1, "manifestHash", Text(n.detail.manifest));
    MemberAtShown(sv, r, n, 2, "elementCount", CountJs(n.detail.count));
    MemberAtShown(sv, r, n, 3, "sessionLabel", LabelJs(n.detail.held));
    MemberAtShown(sv, r, n, 4, "sessionTainted", Bool(n.detail.tainted));
  }

  /** A label in a record: its classification and its origins by name, in order. */
  lemma LabelSays(l: Label)
    ensures var ms := LabelJs(l).members;
            && Get(ms, Ascii("classification")) == Some(Text(ClassificationText(l.classification)))
            && match Get(ms, Ascii("origins"))
               case Some(Arr(names)) =>
                 |names| == |l.origins| && forall i :: 0 <= i < |names| ==> names[i] == Text(Name(l.origins[i]))
               case _ => false
  {
    var ms := LabelJs(l).members;
    GetAt(ms, 0);
    GetAt(ms, 1);
  }

  lemma RegisteredKeys()
    ensures Ascii("manifestHash") != Ascii("elementCount") && Ascii("sessionLabel") != Ascii("manifestHash")
    ensures Ascii("sessionLabel") != Ascii("elementCount") && Ascii("sessionLabel") != Ascii("device_label")
  {
    assert Ascii("manifestHash")[0] == 109 && Ascii("elementCount")[0] == 101;
    assert Ascii("sessionLabel")[0] == 115 && Ascii("device_label")[0] == 100;
  }

  lemma MetadataShown(sv: Services, r: Record, n: Note)
    requires States(sv, r, n)
    ensures MetadataSays(sv, r, n)
  {
    match n.detail {
      case Misshapen => ShapeShown(sv, r, n);
      case AtStage(_) => ShapeShown(sv, r, n);
      case TimedOut(_) => TimeoutShown(sv, r, n);
      case Unsealed(_) => UnsealedShown(sv, r, n);
      case Drifted(_, _) => DriftShown(sv, r, n);
      case Refused(_, _) => DenialShown(sv, r, n);
      case Blocked(_) => FailureShown(sv, r, n);
      case Forwarded(_, _, _, _) => SuccessShown(sv, r, n);
      case NoSessionId =>
        StageShown(sv, r, n, "context-register", Describe(sv, n.correlationId, n.detail)[1..]);
      case RegisteredContext(_, _, _, _) => ContextShown(sv, r, n);
    }
  }

  // ---- the theorems ----

  /** An answer's record is true of its request, the status is the one it calls for, and the line says it all by
      name: who, what and why. */
  lemma ReplyIsTrue(sv: Services, steps: seq<R.Step>, st0: State, es: seq<Event>, st: State, id: Str)
    requires StartsOver(sv, steps, st0) && Runs(sv, st0, es, st)
    requires id in st.reqs && st.reqs[id].stage.Answered?
    ensures var q, stage := st.reqs[id], st.reqs[id].stage;
            && Because(sv, q, stage.note) && CodeFits(stage.note, stage.code) && stage.note.correlationId == id
            && OnlyAt(st.log.chain, id, stage.at) && FieldsSay(st.log.chain[stage.at], stage.note)
            && MetadataSays(sv, st.log.chain[stage.at], stage.note)
  {
    var q := st.reqs[id];
    AnsweredIsRecordedOnce(sv, steps, st0, es, st, id);
    FieldsShown(sv, st.log.chain[q.stage.at], q.stage.note);
    MetadataShown(sv, st.log.chain[q.stage.at], q.stage.note);
    RequestIsTold(sv, steps, st0, es, st, id);
    assert HasNote(q, q.stage.note) && HasReply(q, q.stage.code, q.stage.note);
  }

  /** The record of an envelope refused for its age, or of the check's own deadline. */
  predicate SaysStale(r: Record) {
    && |r.fields| == 10
    && if r.fields[EVENT_TYPE] == Ascii("continuity_fail") then
         r.fields[REASON_CODE] == Ascii("ERR_UPSTREAM_TIMEOUT") && AtStageOf(r, "envelope")
       else
         && r.fields[EVENT_TYPE] == Ascii("envelope_rejected") && r.fields[REASON_CODE] == Ascii("ERR_SESSION_EXPIRED")
         && AtStageOf(r, "envelope") && Meta(r, "reason_class", Some(Text(Ascii("expired"))))
  }

  /** An envelope that opens and has expired by the clock it is checked by never reaches the transport. Its request is
      answered 403 if at all, and its record says `envelope_rejected` and `expired`, or that the check came too
      late. */
  lemma StaleIsRefused(sv: Services, steps: seq<R.Step>, st0: State, es: seq<Event>, st: State, id: Str, e: Envelope)
    requires StartsOver(sv, steps, st0) && Runs(sv, st0, es, st)
    requires id in st.reqs && st.reqs[id].checked.Some?
    requires sv.open(st.reqs[id].body.sealed) == Opens(e) && e.expiresAt < st.reqs[id].checkedAt
    ensures st.reqs[id].call.None? && forall k :: 0 <= k < |st.calls| ==> st.calls[k].id != id
    ensures !st.reqs[id].stage.Died?
    ensures st.reqs[id].stage.Answered? ==>
              && st.reqs[id].stage.code == 403 && OnlyAt(st.log.chain, id, st.reqs[id].stage.at)
              && SaysStale(st.log.chain[st.reqs[id].stage.at])
  {
    var q := st.reqs[id];
    RequestIsTold(sv, steps, st0, es, st, id);
    StaleUngranted(sv, q, e);
    StaleUncalled(sv, steps, st0, es, st, id);
    if q.stage.Answered? {
      ReplyIsTrue(sv, steps, st0, es, st, id);
      StaleSays(sv, st.log.chain[q.stage.at], q, q.stage.code, q.stage.note, e);
    }
  }

  lemma StaleUngranted(sv: Services, q: Req, e: Envelope)
    requires Told(sv, q) && q.checked.Some? && sv.open(q.body.sealed) == Opens(e) && e.expiresAt < q.checkedAt
    ensures q.granted.None? && !q.stage.Died?
  {
    assert HasChecked(q, q.checked.value);
  }

  lemma StaleUncalled(sv: Services, steps: seq<R.Step>, st0: State, es: seq<Event>, st: State, id: Str)
    requires StartsOver(sv, steps, st0) && Runs(sv, st0, es, st) && id in st.reqs && st.reqs[id].granted.None?
    ensures st.reqs[id].call.None? && forall k :: 0 <= k < |st.calls| ==> st.calls[k].id != id
  {
    Reachable(sv, steps, st0, es, st);
    UngrantedUncalled(sv, st, id);
  }

  lemma UngrantedUncalled(sv: Services, st: State, id: Str)
    requires ReqInv(sv, st) && id in st.reqs && st.reqs[id].granted.None?
    ensures st.reqs[id].call.None? && forall k :: 0 <= k < |st.calls| ==> st.calls[k].id != id
  {
    assert ReqSound(sv, st, id, st.reqs[id]);
    forall k | 0 <= k < |st.calls| ensures st.calls[k].id != id { assert CallSound(st.reqs, st.ops, st.calls[k], k); }
  }

  lemma StaleBecause(sv: Services, q: Req, n: Note, e: Envelope)
    requires Because(sv, q, n) && q.checked.Some? && q.granted.None? && q.call.None?
    requires sv.open(q.body.sealed) == Opens(e) && e.expiresAt < q.checkedAt
    ensures n.detail == TimedOut(EnvelopeValidate) || n.detail == Unsealed(true)
  {
  }

  lemma StaleSays(sv: Services, r: Record, q: Req, code: nat, n: Note, e: Envelope)
    requires Because(sv, q, n) && FieldsSay(r, n) && MetadataSays(sv, r, n)
    requires q.checked.Some? && q.granted.None? && q.call.None?
    requires sv.open(q.body.sealed) == Opens(e) && e.expiresAt < q.checkedAt && CodeFits(n, code)
    ensures SaysStale(r) && code == 403
  {
    StaleBecause(sv, q, n, e);
    if n.detail == Unsealed(true) {
      assert Ascii("continuity_fail")[0] == 99 && Ascii("envelope_rejected")[0] == 101;
    }
  }

  // ---- exactly what passes ----

  /** Nothing registered in the session so far came from outside. */
  ghost predicate CleanSession(ops: seq<Op>, s: Str) {
    forall i, x | 0 <= i < |ops| && ops[i].session == s && ops[i].Registers? && x in ops[i].elements ::
      x.provenance == User || x.provenance == System || x.provenance == ToolOutput
  }

  /** The envelope is sound and permitted, its context is registered, the token's role covers the operation, the
      classification is one of the four, and what goes outward comes from a session that took in nothing from
      outside. */
  ghost predicate Passes(sv: Services, st: State, q: Req, t: B.TokenState, e: Envelope) {
    && Sound(sv, q, e) && Intends(e, q.body.operation)
    && (NoContext(e) || exists g :: g in st.regs && st.regs[g].joined && st.regs[g].manifest == e.contextManifestHash)
    && (exists role :: RoleIs(st.bundle, t.role, role) && q.body.operation in role.allowedOperations)
    && ClassificationNamed(e.classification).Some?
    && (e.intent == Ascii("export") || e.intent == Ascii("escalate") ==> CleanSession(st.ops, t.sessionId))
  }

  /** Its role asks for a second signature, and there is none. */
  ghost predicate LacksCosign(st: State, q: Req, t: B.TokenState) {
    !q.body.cosigned && exists role :: RoleIs(st.bundle, t.role, role) && q.body.operation in role.requiresDualControl
  }

  lemma RoleIsNamed(bundle: Option<Bundle>, name: Str, role: Role)
    ensures RoleIs(bundle, name, role) <==> RoleNamed(bundle, name) == Some(role)
  {
  }

  lemma CleanExactly(ops: seq<Op>, s: Str)
    requires forall i :: 0 <= i < |ops| ==> ops[i].Registers?
    ensures CleanSession(ops, s) <==> !Tainted(GetLabel(Run(ops), s))
  {
    TaintedExactly(ops, s);
    forall i | 0 <= i < |ops|
      ensures Taints(ops[i]) <==> exists x :: x in ops[i].elements && !OfInside(x)
    {
      RegistrationIsOutside(ops[i]);
    }
    if CleanSession(ops, s) {
      forall i | 0 <= i < |ops| && ops[i].session == s ensures !Taints(ops[i]) {
        forall x | x in ops[i].elements ensures OfInside(x) {}
      }
    } else {
      var i, x :| 0 <= i < |ops| && ops[i].session == s && x in ops[i].elements && !OfInside(x);
      assert Taints(ops[i]);
    }
  }

  predicate OfInside(x: Element) { x.provenance == User || x.provenance == System || x.provenance == ToolOutput }

  lemma RegistrationIsOutside(op: Op)
    requires op.Registers?
    ensures Taints(op) <==> exists x :: x in op.elements && !OfInside(x)
  {
    RegistrationTaints(op.elements);
    forall x | x in op.elements ensures Untrusted(x.provenance) <==> !OfInside(x) { UntrustedExactly(x.provenance); }
  }

  /** The policy's part of it. */
  lemma AllowedPasses(role: Option<Role>, q: Req, t: B.TokenState, e: Envelope, labels: Store, ops: seq<Op>)
    requires labels == Run(ops) && forall i :: 0 <= i < |ops| ==> ops[i].Registers?
    ensures var d := Judge(role, PolicyInput(q.body, t, e, labels));
            && (d.allowed <==>
                 && role.Some? && q.body.operation in role.value.allowedOperations && Intends(e, q.body.operation)
                 && ClassificationNamed(e.classification).Some?
                 && (e.intent == Ascii("export") || e.intent == Ascii("escalate") ==> CleanSession(ops, t.sessionId)))
            && (d.allowed ==> (d.requiresDualControl <==> q.body.operation in role.value.requiresDualControl))
  {
    var input := PolicyInput(q.body, t, e, labels);
    AllowedExactly(role, input);
    OutwardTexts(e.intent);
    CleanExactly(ops, t.sessionId);
    if Judge(role, input).allowed { AllowedGrants(role, input); }
  }

  lemma ManifestExactly(st: State, m: Str)
    requires ManifestsSound(st) && RegsKnown(st)
    ensures m in st.manifests <==> exists g :: g in st.regs && st.regs[g].joined && st.regs[g].manifest == m
  {
  }

  /** What the layers come to, in terms of the decision. */
  lemma LayersExactly(manifests: set<Str>, id: Str, body: Body, t: B.TokenState, e: Envelope, d: Decision)
    ensures var turn, known := LayersTurn(manifests, id, body, t, e, d),
                               NoContext(e) || e.contextManifestHash in manifests;
            && (turn.Go? <==>
                 Intends(e, body.operation) && known && d.allowed && (d.requiresDualControl ==> body.cosigned))
            && (turn.Answer? && turn.code == 202 <==>
                 Intends(e, body.operation) && known && d.allowed && d.requiresDualControl && !body.cosigned)
            && (!turn.Go? ==> turn.Answer? && (turn.code == 202 || turn.code == 403))
  {
  }

  /** A checked request goes on to the transport exactly when it passes every layer and lacks no signature, is put
      off exactly when it passes and lacks one, and is refused otherwise. */
  lemma PassesExactly(sv: Services, steps: seq<R.Step>, st0: State, es: seq<Event>, st: State, id: Str, now: nat,
                      fault: L.Fault)
    requires StartsOver(sv, steps, st0) && Runs(sv, st0, es, st) && Possible(sv, st, EnvelopeArrives(id, now, fault))
    ensures var q, turn := st.reqs[id], EventTurn(sv, st, EnvelopeArrives(id, now, fault));
            match sv.open(q.body.sealed)
            case Opens(e) =>
              var passes, lacks := Passes(sv, st, q, q.stage.token, e), LacksCosign(st, q, q.stage.token);
              && (turn.Go? <==> passes && !lacks) && (turn.Answer? && turn.code == 202 <==> passes && lacks)
              && (!turn.Go? ==> turn.Answer? && (turn.code == 202 || turn.code == 403))
            case _ => turn.Answer? && turn.code == 403
  {
    ReachedTold(sv, steps, st0, es, st);
    Reachable(sv, steps, st0, es, st);
    assert IsReq(st, id);
    PassesHere(sv, st, id, st.reqs[id], st.reqs[id].stage.token);
  }

  lemma PassesHere(sv: Services, st: State, id: Str, q: Req, t: B.TokenState)
    requires Base(st) && ManifestsSound(st) && RegsKnown(st) && Told(sv, q) && q.checked.Some?
    ensures var turn := EnvelopeTurn(sv, st.bundle, st.manifests, st.labels, id, q.body, t, q.checked.value);
            match sv.open(q.body.sealed)
            case Opens(e) =>
              var passes, lacks := Passes(sv, st, q, t, e), LacksCosign(st, q, t);
              && (turn.Go? <==> passes && !lacks) && (turn.Answer? && turn.code == 202 <==> passes && lacks)
              && (!turn.Go? ==> turn.Answer? && (turn.code == 202 || turn.code == 403))
            case _ => turn.Answer? && turn.code == 403
  {
    assert HasChecked(q, q.checked.value);
    if q.checked.value.Good? {
      GoodPasses(sv, st, id, q, t, q.checked.value.envelope);
    }
  }

  lemma GoodPasses(sv: Services, st: State, id: Str, q: Req, t: B.TokenState, e: Envelope)
    requires Base(st) && ManifestsSound(st) && RegsKnown(st) && Sound(sv, q, e)
    ensures var turn := EnvelopeTurn(sv, st.bundle, st.manifests, st.labels, id, q.body, t, Good(e));
            var passes, lacks := Passes(sv, st, q, t, e), LacksCosign(st, q, t);
            && (turn.Go? <==> passes && !lacks) && (turn.Answer? && turn.code == 202 <==> passes && lacks)
            && (!turn.Go? ==> turn.Answer? && (turn.code == 202 || turn.code == 403))
  {
    var role := RoleNamed(st.bundle, t.role);
    var d := Judge(role, PolicyInput(q.body, t, e, st.labels));
    LayersExactly(st.manifests, id, q.body, t, e, d);
    AllowedPasses(role, q, t, e, st.labels, st.ops);
    ManifestExactly(st, e.contextManifestHash);
    forall r: Role ensures RoleIs(st.bundle, t.role, r) <==> role == Some(r) { RoleIsNamed(st.bundle, t.role, r); }
    assert LacksCosign(st, q, t)
      <==> !q.body.cosigned && role.Some? && q.body.operation in role.value.requiresDualControl;
  }

  // ---- registrations ----

  /** The token a registration brings is checked against the bindings as they are then. */
  lemma RegistrationVerifies(sv: Services, st: State, id: Str, clock: int)
    requires Possible(sv, st, RegVerifies(id, clock))
    ensures var token, st' := st.regs[id].token, After(sv, st, RegVerifies(id, clock));
            && st' == st.(regs := st'.regs) && id in st'.regs && st'.regs[id].verified.Some?
            && (st'.regs[id].verified.value.ValidToken? <==>
                 && token in st.b.b.activeTokens && clock <= st.b.b.activeTokens[token].expiresAt
                 && st.b.b.activeTokens[token].sessionId !in st.b.b.revokedSessions)
            && (st'.regs[id].verified.value.ValidToken? ==>
                 st'.regs[id].verified.value.token == st.b.b.activeTokens[token])
  {
  }

  lemma AppendStates(sv: Services, w: R.World, n: Note, now: nat, fault: L.Fault)
    requires w.proc.Some?
    ensures var w' := Appends(sv, w, EntryOf(sv, n), now, fault);
            w'.chain == w.chain || (|w'.chain| == |w.chain| + 1 && w'.chain == w.chain + [w'.chain[|w.chain|]]
                                    && States(sv, w'.chain[|w.chain|], n))
  {
    AppendAdds(sv, w, EntryOf(sv, n), now, fault);
  }

  /** The record of a context registered for this token, and of one refused because the token has no session. */
  ghost predicate Registered(sv: Services, st: State, id: Str, g: Reg, t: B.TokenState, r: Record) {
    && |r.fields| == 10 && r.fields[CORRELATION_ID] == id && r.fields[SUBJECT_ID] == t.subjectId
    && AtStageOf(r, "context-register")
    && if t.sessionId == [] then
         r.fields[EVENT_TYPE] == Ascii("deny") && r.fields[REASON_CODE] == Ascii("ERR_POLICY_VIOLATION")
       else
         && r.fields[EVENT_TYPE] == Ascii("invoke") && r.fields[REASON_CODE] == []
         && r.fields[SESSION_HANDLE] == t.sessionId
         && Meta(r, "manifestHash", Some(Text(g.manifest))) && Meta(r, "elementCount", Some(CountJs(|g.elements|)))
         && Meta(r, "sessionLabel", Some(LabelJs(JoinAll(Given(st.ops, t.sessionId)))))
         && Meta(r, "sessionTainted", Some(Bool(!CleanSession(st.ops, t.sessionId))))
  }

  /** What a registration changes. */
  ghost predicate RegistersOnly(st: State, st': State, id: Str, g: Reg, t: B.TokenState, now: nat) {
    if t.sessionId == [] then st'.manifests == st.manifests && st'.ops == st.ops && st'.labels == st.labels
    else
      && st'.manifests == st.manifests + {g.manifest}
      && st'.ops == st.ops + [Registers(t.sessionId, g.elements, Some(id), now)] && st'.labels == Run(st'.ops)
  }

  /** The record the append may have added. */
  ghost predicate RecordsIt(sv: Services, st: State, st': State, id: Str, g: Reg, t: B.TokenState) {
    |st'.log.chain| != |st.log.chain| ==>
      && |st'.log.chain| == |st.log.chain| + 1
      && Registered(sv, st', id, g, t, st'.log.chain[|st.log.chain|])
  }

  /** A registration whose token verified: with a session its manifest is known from here on, its elements count
      against its session alone, and its record, if the append adds one, shows the session's label and taint with
      this registration in them; without one nothing is registered. */
  lemma RegistrationTells(sv: Services, steps: seq<R.Step>, st0: State, es: seq<Event>, st: State, id: Str, now: nat,
                          fault: L.Fault, t: B.TokenState)
    requires StartsOver(sv, steps, st0) && Runs(sv, st0, es, st) && Possible(sv, st, RegArrives(id, now, fault))
    requires st.regs[id].verified == Some(B.ValidToken(t))
    ensures var st' := After(sv, st, RegArrives(id, now, fault));
            RegistersOnly(st, st', id, st.regs[id], t, now) && RecordsIt(sv, st, st', id, st.regs[id], t)
  {
    ReachedTold(sv, steps, st0, es, st);
    Reachable(sv, steps, st0, es, st);
    RegSteps(sv, st, id, st.regs[id], t, now, fault);
    RegRecords(sv, st, RegStep(sv, st, id, st.regs[id], now, fault), id, st.regs[id], t, now, fault);
  }

  /** The note of a registration. */
  function NoteFor(st: State, id: Str, g: Reg, t: B.TokenState, now: nat): Note {
    if t.sessionId == [] then RefusedRegNote(id, t)
    else RegNote(id, g.manifest, |g.elements|, t,
                 GetLabel(ElementsJoined(st.labels, t.sessionId, g.elements, Some(id), now), t.sessionId))
  }

  lemma RegSteps(sv: Services, st: State, id: Str, g: Reg, t: B.TokenState, now: nat, fault: L.Fault)
    requires st.log.proc.Some? && g.verified == Some(B.ValidToken(t)) && st.labels == Run(st.ops)
    ensures var st' := RegStep(sv, st, id, g, now, fault);
            && RegistersOnly(st, st', id, g, t, now)
            && st'.log == Appends(sv, st.log, EntryOf(sv, NoteFor(st, id, g, t, now)), now, fault)
            && (t.sessionId != [] ==>
                 st'.labels == ElementsJoined(st.labels, t.sessionId, g.elements, Some(id), now))
  {
    RunGrows(st.ops, Registers(t.sessionId, g.elements, Some(id), now));
  }

  lemma RegRecords(sv: Services, st: State, st': State, id: Str, g: Reg, t: B.TokenState, now: nat, fault: L.Fault)
    requires st.log.proc.Some? && st.labels == Run(st.ops) && RegsKnown(st) && RegistersOnly(st, st', id, g, t, now)
    requires st'.log == Appends(sv, st.log, EntryOf(sv, NoteFor(st, id, g, t, now)), now, fault)
    requires t.sessionId != [] ==> st'.labels == ElementsJoined(st.labels, t.sessionId, g.elements, Some(id), now)
    ensures RecordsIt(sv, st, st', id, g, t)
  {
    AppendStates(sv, st.log, NoteFor(st, id, g, t, now), now, fault);
    if |st'.log.chain| != |st.log.chain| {
      NoteRegistered(sv, st', id, g, t, NoteFor(st, id, g, t, now), st'.log.chain[|st.log.chain|]);
    }
  }

  lemma NoteRegistered(sv: Services, st: State, id: Str, g: Reg, t: B.TokenState, n: Note, r: Record)
    requires States(sv, r, n) && st.labels == Run(st.ops) && forall i :: 0 <= i < |st.ops| ==> st.ops[i].Registers?
    requires n == if t.sessionId == [] then RefusedRegNote(id, t)
                  else RegNote(id, g.manifest, |g.elements|, t, GetLabel(st.labels, t.sessionId))
    ensures Registered(sv, st, id, g, t, r)
  {
    FieldsShown(sv, r, n);
    MetadataShown(sv, r, n);
    if t.sessionId == [] {
      RefusedSays(sv, st, id, g, t, n, r);
    } else {
      LabelIsJoinOfGiven(st.ops, t.sessionId);
      CleanExactly(st.ops, t.sessionId);
      ContextSays(sv, st, id, g, t, JoinAll(Given(st.ops, t.sessionId)), n, r);
    }
  }

  lemma RefusedSays(sv: Services, st: State, id: Str, g: Reg, t: B.TokenState, n: Note, r: Record)
    requires FieldsSay(r, n) && MetadataSays(sv, r, n) && t.sessionId == [] && n == RefusedRegNote(id, t)
    ensures Registered(sv, st, id, g, t, r)
  {
  }

  lemma ContextSays(sv: Services, st: State, id: Str, g: Reg, t: B.TokenState, held: Label, n: Note, r: Record)
    requires FieldsSay(r, n) && MetadataSays(sv, r, n) && t.sessionId != []
    requires n == RegNote(id, g.manifest, |g.elements|, t, held) && held == JoinAll(Given(st.ops, t.sessionId))
    requires Tainted(held) <==> !CleanSession(st.ops, t.sessionId)
    ensures Registered(sv, st, id, g, t, r)
  {
  }
}
