/** Why a request got the reply it got: over every run of the broker, what a request's note says is true of that
    request, its status is the one the note calls for, and what was granted rests on the role, the check and the
    token it should. */
module Replies {
  import opened Common
  import L = Log
  import opened Lineage
  import opened Labels
  import opened Policy
  import opened Invoke
  import opened Broker
  import R = Recovery
  import B = Bindings

  // ---- the envelope's check ----

  /** Past its expiry by this clock, or already refused by the bindings for that. */
  predicate Stale(sv: Services, body: Body, clock: int) {
    match sv.open(body.sealed)
    case Opens(e) => e.expiresAt < clock
    case OpensExpired => true
    case OpenFails => false
  }

  predicate ForTarget(sv: Services, body: Body, e: Envelope) {
    body.targetId == [] || e.targetHash == Sha(sv, body.targetId)
  }

  predicate ForOperation(sv: Services, body: Body, e: Envelope) {
    e.roleScopeHash == Sha(sv, OperationText(body.operation))
  }

  /** The check's result is the right one: the first of expiry, target and operation that does not hold, and the
      envelope itself when all do. */
  predicate CheckTrue(sv: Services, body: Body, clock: int, check: EnvelopeCheck) {
    match sv.open(body.sealed)
    case OpenFails => check == Bad(ContinuityFailed)
    case OpensExpired => check == Bad(SessionExpired)
    case Opens(e) =>
      && (check == Good(e) || check == Bad(SessionExpired) || check == Bad(TargetMismatch) || check == Bad(ScopeDenied))
      && (check == Bad(SessionExpired) <==> e.expiresAt < clock)
      && (check == Bad(TargetMismatch) <==> clock <= e.expiresAt && !ForTarget(sv, body, e))
      && (check == Bad(ScopeDenied) <==> clock <= e.expiresAt && ForTarget(sv, body, e) && !ForOperation(sv, body, e))
  }

  lemma CheckedExactly(sv: Services, body: Body, clock: int, check: EnvelopeCheck)
    ensures CheckTrue(sv, body, clock, check) <==> check == CheckEnvelope(sv, body, clock)
  {
  }

  // ---- what a record says of its request ----

  /** The record names nobody. */
  predicate Anonymous(n: Note) { n.sessionId == [] && n.subjectId == [] && n.device == [] }

  /** The record names the session, the subject and the device of the token the request was verified by. */
  predicate OfBearer(q: Req, n: Note) {
    && q.verified.Some? && q.verified.value.ValidToken?
    && var t := q.verified.value.token;
       n.sessionId == t.sessionId && n.subjectId == t.subjectId && n.device == t.deviceFingerprint
  }

  predicate Says(n: Note, event: EventKind, code: string) { n.event == event && n.reason == Ascii(code) }

  /** The envelope opened, unexpired, for this target and this operation. */
  predicate Sound(sv: Services, q: Req, e: Envelope) {
    && sv.open(q.body.sealed) == Opens(e) && q.checkedAt <= e.expiresAt
    && ForTarget(sv, q.body, e) && ForOperation(sv, q.body, e)
  }

  predicate Intends(e: Envelope, op: Operation) {
    IntentNamed(e.intent).Some? && IntentNamed(e.intent).value in PermittedIntents(op)
  }

  /** `'0'.repeat(64)` stands for no context. */
  predicate NoContext(e: Envelope) { e.contextManifestHash == seq(64, _ => 48) }

  /** The token was active when it was verified, and past its time. */
  predicate Outlived(q: Req) {
    q.body.token in q.verifiedIn.activeTokens && q.verifiedIn.activeTokens[q.body.token].expiresAt < q.verifiedAt
  }

  predicate TokenRefused(q: Req, n: Note) {
    && q.verified.Some? && n.event == DenyEvent && Anonymous(n) && q.nonce == NotAsked && q.checked.None?
    && match q.verified.value
       case Invalid(_) => n.reason == Ascii(if Outlived(q) then "ERR_SESSION_EXPIRED" else "ERR_SESSION_REVOKED")
       case ValidToken(t) => (t.sessionId == [] || t.role == []) && n.reason == Ascii("ERR_SESSION_EXPIRED")
  }

  predicate Replayed(q: Req, n: Note) {
    Says(n, ReplayFail, "ERR_NONCE_REPLAY") && OfBearer(q, n) && q.nonce == Took(n.sessionId, false) && q.checked.None?
  }

  predicate Misdirected(sv: Services, q: Req, n: Note) {
    && OfBearer(q, n) && n.payloadDigest == sv.readable(q.body.sealed) && n.operation == Some(q.body.operation)
    && sv.open(q.body.sealed).Opens?
    && var e := sv.open(q.body.sealed).envelope;
       && q.checkedAt <= e.expiresAt
       && if ForTarget(sv, q.body, e) then Says(n, ContinuityFail, "ERR_SCOPE_DENIED") && !ForOperation(sv, q.body, e)
          else Says(n, TargetMismatchEvent, "ERR_TARGET_MISMATCH")
  }

  /** It opened, and not to an envelope without context. */
  predicate Unregistered(sv: Services, q: Req, n: Note) {
    && Says(n, DenyEvent, "ERR_CONTEXT_MANIFEST_INVALID") && OfBearer(q, n) && q.checked.Some? && q.checked.value.Good?
    && var e := q.checked.value.envelope;
       Sound(sv, q, e) && Intends(e, q.body.operation) && !NoContext(e)
  }

  predicate Uncosigned(sv: Services, q: Req, n: Note) {
    && Says(n, DualControlRequested, "ERR_DUAL_CONTROL_REQUIRED") && OfBearer(q, n)
    && q.checked.Some? && q.checked.value.Good?
    && !q.body.cosigned && n.operation == Some(q.body.operation)
    && var e := q.checked.value.envelope;
       Sound(sv, q, e) && Intends(e, q.body.operation) && ClassificationNamed(e.classification).Some?
  }

  predicate Late(q: Req, n: Note, await: Await) {
    && n.reason == Ascii("ERR_UPSTREAM_TIMEOUT") && n.forwarded
    && match await
       case TokenVerify => n.event == DenyEvent && Anonymous(n) && q.nonce == NotAsked && q.checked.None?
       case NonceConsume => n.event == DenyEvent && OfBearer(q, n) && q.checked.None?
       case EnvelopeValidate =>
         n.event == ContinuityFail && OfBearer(q, n) && n.operation == Some(q.body.operation) && q.granted.None?
       case AdapterForward =>
         && n.event == ToolBlock && OfBearer(q, n) && n.operation == Some(q.body.operation)
         && q.call.Some? && q.heard.None?
  }

  /** Expired, or not authentic. */
  predicate Rebuffed(sv: Services, q: Req, n: Note, expired: bool) {
    && Says(n, EnvelopeRejected, if expired then "ERR_SESSION_EXPIRED" else "ERR_CONTINUITY_FAILED") && OfBearer(q, n)
    && n.payloadDigest == sv.readable(q.body.sealed) && n.operation == Some(q.body.operation)
    && q.checked.Some? && (if expired then Stale(sv, q.body, q.checkedAt) else sv.open(q.body.sealed) == OpenFails)
  }

  predicate Drifts(sv: Services, q: Req, n: Note, declared: Str, op: Operation) {
    && Says(n, IntentDriftEvent, "ERR_INTENT_DRIFT") && OfBearer(q, n) && q.checked.Some? && q.checked.value.Good?
    && op == q.body.operation && n.operation == Some(op)
    && var e := q.checked.value.envelope;
       Sound(sv, q, e) && e.intent == declared && !Intends(e, op)
  }

  predicate FirstFailed(rs: seq<Result>, i: nat) {
    i < |rs| && !rs[i].passed && forall j :: 0 <= j < i ==> rs[j].passed
  }

  /** The code a denial has when this check is the first to fail: role, scope, intent, taint, classification. */
  function DenialCode(i: nat): string {
    if i == 0 then "ERR_ROLE_INVALID" else if i == 2 then "ERR_INTENT_DRIFT"
    else if i == 4 then "ERR_CLASSIFICATION_VIOLATION" else "ERR_SCOPE_DENIED"
  }

  predicate Denied(sv: Services, q: Req, n: Note, predicates: seq<Result>) {
    && OfBearer(q, n) && q.checked.Some? && q.checked.value.Good? && n.operation == Some(q.body.operation)
    && (n.event == ScopeFail || n.event == DenyEvent)
    && (n.event == ScopeFail <==> n.reason == Ascii("ERR_SCOPE_DENIED"))
    && FullList(predicates)
    && (exists i :: 0 <= i < 5 && FirstFailed(predicates, i) && n.reason == Ascii(DenialCode(i)))
    && var e := q.checked.value.envelope;
       Sound(sv, q, e) && Intends(e, q.body.operation) && n.classification == e.classification
  }

  /** The adapter's answer, or its own refusal, which reached no transport. */
  predicate Failed(q: Req, n: Note, message: Option<Str>) {
    && n.event == ToolBlock && OfBearer(q, n) && n.operation == Some(q.body.operation)
    && q.granted.Some? && q.heard.Some?
    && var a := q.heard.value;
       && !a.ok && n.forwarded == a.forwarded
       && (match a.error
           case Some(error) => n.reason == error.code && message == Some(error.message)
           case None => n.reason == Ascii("ERR_OPENCLAW_FORWARD_FAILED") && message == None)
       && (q.call.None? ==> !n.forwarded && n.reason == Ascii("ERR_OPERATION_BLOCKED"))
  }

  predicate Done(sv: Services, q: Req, n: Note) {
    && n.event == InvokeEvent && n.reason == [] && OfBearer(q, n) && n.operation == Some(q.body.operation)
    && n.forwarded && q.granted.Some? && q.heard.Some? && q.heard.value.ok && n.detail.Forwarded?
    && var (t, e, d) := q.granted.value;
       && n.targetHash == e.targetHash && n.classification == e.classification
       && n.payloadDigest.Some? && n.payloadDigest == DigestText(sv, e.content)
       && n.detail.profile == d.profile && n.detail.modes == d.allowedFheModes && n.detail.predicates == d.predicates
  }

  /** What a record says is true of the request. */
  predicate Because(sv: Services, q: Req, n: Note) {
    match n.detail
    case Misshapen => Says(n, DenyEvent, "ERR_POLICY_VIOLATION") && Anonymous(n) && q.verified.None? && q.checked.None?
    case AtStage(stage) =>
      if stage == "token-verify" then TokenRefused(q, n)
      else if stage == "nonce" then Replayed(q, n)
      else if stage == "envelope" then Misdirected(sv, q, n)
      else if stage == "manifest" then Unregistered(sv, q, n)
      else stage == "dual-control" && Uncosigned(sv, q, n)
    case TimedOut(await) => Late(q, n, await)
    case Unsealed(expired) => Rebuffed(sv, q, n, expired)
    case Drifted(declared, op) => Drifts(sv, q, n, declared, op)
    case Refused(_, predicates) => Denied(sv, q, n, predicates)
    case Blocked(message) => Failed(q, n, message)
    case Forwarded(_, _, _, _) => Done(sv, q, n)
    case NoSessionId => false
    case RegisteredContext(_, _, _, _) => false
  }

  /** The status an answer has, by what its record says. */
  predicate CodeFits(n: Note, code: nat) {
    && (code == 200 <==> n.event == InvokeEvent)
    && (code == 202 <==> n.event == DualControlRequested)
    && (code == 400 <==> n.detail == Misshapen)
    && (code == 401 <==> n.detail == AtStage("token-verify"))
    && (code == 403 || code == 401 || code == 400 || code == 202 || code == 200)
  }

  // ---- what a grant rests on ----

  /** The role of this name: the loaded bundle's, or the default matrix's when none is loaded. */
  predicate RoleIs(bundle: Option<Bundle>, name: Str, role: Role) {
    match bundle
    case Some(b) => name in b && b[name] == role
    case None => DefaultRole(name) == Some(role)
  }

  /** The role the token carries covers the operation, and gives the decision its profile and its dual control. */
  predicate RoleGrants(q: Req, t: B.TokenState, e: Envelope, d: Decision, role: Role) {
    && RoleIs(q.under, t.role, role) && q.body.operation in role.allowedOperations
    && d.profile == role.defaultProfile
    && (d.requiresDualControl <==> q.body.operation in role.requiresDualControl)
    && (q.body.operation in role.requiresDualControl ==> q.body.cosigned)
    && ClassificationNamed(e.classification).Some?
    && ModeA in d.allowedFheModes
    && (ModeB in d.allowedFheModes <==> ClassificationNamed(e.classification) != Some(ClassifiedAdjacent))
    && (ModeC in d.allowedFheModes <==> ClassificationNamed(e.classification) != Some(ClassifiedAdjacent))
  }

  predicate GrantFits(sv: Services, q: Req, t: B.TokenState, e: Envelope, d: Decision) {
    && q.verified == Some(B.ValidToken(t)) && q.checked == Some(Good(e)) && Sound(sv, q, e)
    && RoleNamed(q.under, t.role).Some? && RoleGrants(q, t, e, d, RoleNamed(q.under, t.role).value)
  }

  // ---- what holds of every request ----

  predicate HasChecked(q: Req, check: EnvelopeCheck) { q.checked == Some(check) }

  predicate HasGrant(q: Req, t: B.TokenState, e: Envelope, d: Decision) { q.granted == Some((t, e, d)) }

  /** This is the note of its record, or the one its append was for. */
  predicate HasNote(q: Req, n: Note) { NoteOf(q.stage) == Some(n) }

  predicate HasReply(q: Req, code: nat, n: Note) { q.stage.Answered? && q.stage.code == code && q.stage.note == n }

  /** What a request knows, by where it stands. */
  predicate InOrder(q: Req) {
    match q.stage
    case AwaitToken => q.checked.None?
    case AwaitNonce(_) => q.checked.None?
    case AwaitEnvelope(_) => q.granted.None?
    case AwaitAdapter(_, _, _) => q.granted.Some? && q.heard.None?
    case Died(_) => q.checked.Some? ==> q.granted.Some?
    case _ => true
  }

  /** A token is refused as expired exactly when it had outlived itself, and else as revoked. */
  predicate RefusedRightly(q: Req) {
    q.verified.Some? && q.verified.value.Invalid? ==>
      q.verified.value.code == if Outlived(q) then SessionExpired else SessionRevoked
  }

  /** Its check and its grant are right. */
  ghost predicate Truthful(sv: Services, q: Req) {
    && (q.granted.Some? ==> q.checked.Some? && q.checked.value.Good?) && RefusedRightly(q)
    && (forall check :: HasChecked(q, check) ==> CheckTrue(sv, q.body, q.checkedAt, check))
    && (forall t, e, d :: HasGrant(q, t, e, d) ==> GrantFits(sv, q, t, e, d))
  }

  /** And so are its record and its reply. */
  ghost predicate Told(sv: Services, q: Req) {
    && Truthful(sv, q) && InOrder(q)
    && (forall n :: HasNote(q, n) ==> Because(sv, q, n))
    && (forall code, n :: HasReply(q, code, n) ==> CodeFits(n, code))
  }

  // ---- every stretch tells the truth ----

  predicate TurnTold(sv: Services, q: Req, turn: Turn) {
    match turn
    case Answer(code, n) => Because(sv, q, n) && CodeFits(n, code)
    case Go(next) => Pending(next) && InOrder(q.(stage := next))
    case Throw(_) => q.checked.Some? ==> q.granted.Some?
  }

  /** The broker after a stretch of this request: only its own entry changed, and it is told. */
  ghost predicate OnlyTold(sv: Services, st: State, st': State, id: Str) {
    && id in st'.reqs && st'.reqs == st.reqs[id := st'.reqs[id]] && Told(sv, st'.reqs[id])
    && st'.regs == st.regs && st'.manifests == st.manifests && st'.ops == st.ops
  }

  lemma ConcludesTold(sv: Services, st: State, id: Str, q: Req, turn: Turn, now: nat, fault: L.Fault)
    requires st.log.proc.Some? && Truthful(sv, q) && TurnTold(sv, q, turn)
    ensures OnlyTold(sv, st, Concludes(sv, st, id, q, turn, now, fault), id)
  {
    match turn {
      case Answer(code, n) => AnswerTold(sv, q, code, n, StageAfter(sv, st.log, code, n, now, fault));
      case Go(next) => StillTruthful(sv, q, next);
      case Throw(why) => StillTruthful(sv, q, Died(why));
    }
  }

  /** Nothing a check or a grant rests on depends on where the request stands. */
  lemma StillTruthful(sv: Services, q: Req, stage: Stage)
    requires Truthful(sv, q)
    ensures Truthful(sv, q.(stage := stage))
  {
    var q' := q.(stage := stage);
    forall check | HasChecked(q', check) ensures CheckTrue(sv, q'.body, q'.checkedAt, check) {
      assert HasChecked(q, check);
    }
    forall t, e, d | HasGrant(q', t, e, d) ensures GrantFits(sv, q', t, e, d) {
      assert HasGrant(q, t, e, d);
      FitsAnywhere(sv, q, q', t, e, d);
    }
  }

  lemma FitsAnywhere(sv: Services, q: Req, q': Req, t: B.TokenState, e: Envelope, d: Decision)
    requires GrantFits(sv, q, t, e, d)
    requires q' == q.(nonce := q'.nonce, heard := q'.heard, call := q'.call, stage := q'.stage)
    ensures GrantFits(sv, q', t, e, d)
  {
  }

  /** Nor does what a record says. */
  lemma TrueAnywhere(sv: Services, q: Req, stage: Stage, n: Note)
    requires Because(sv, q, n)
    ensures Because(sv, q.(stage := stage), n)
  {
  }

  lemma AnswerTold(sv: Services, q: Req, code: nat, n: Note, stage: Stage)
    requires Truthful(sv, q) && Because(sv, q, n) && CodeFits(n, code)
    requires (stage.Answered? && stage.code == code && stage.note == n) || (stage.Unwritten? && stage.note == n)
    ensures Told(sv, q.(stage := stage))
  {
    StillTruthful(sv, q, stage);
    TrueAnywhere(sv, q, stage, n);
  }

  lemma ShapeTold(sv: Services, id: Str, body: Option<Body>)
    ensures Truthful(sv, NewReq(body)) && TurnTold(sv, NewReq(body), ShapeTurn(id, body))
  {
  }

  lemma TokenTold(sv: Services, id: Str, q: Req)
    requires InOrder(q) && q.stage.AwaitToken? && q.nonce == NotAsked && q.verified.Some? && RefusedRightly(q)
    ensures TurnTold(sv, q, TokenTurn(id, q.verified.value))
  {
  }

  lemma NonceTold(sv: Services, id: Str, q: Req, t: B.TokenState)
    requires InOrder(q) && q.stage == AwaitNonce(t) && Verified(q, t) && q.granted.None?
    requires q.nonce.Took? && q.nonce.session == t.sessionId
    ensures TurnTold(sv, q, NonceTurn(id, t, q.nonce.firstUse))
  {
  }

  lemma RejectedTold(sv: Services, id: Str, q: Req, t: B.TokenState, code: Code)
    requires Verified(q, t) && q.checked == Some(Bad(code)) && CheckTrue(sv, q.body, q.checkedAt, Bad(code))
    ensures TurnTold(sv, q, Invoke.Answer(403, RejectedNote(sv, id, q.body, t, code)))
  {
  }

  lemma CheckedIsSound(sv: Services, q: Req, e: Envelope)
    requires CheckTrue(sv, q.body, q.checkedAt, Good(e))
    ensures Sound(sv, q, e)
  {
  }

  lemma DriftTold(sv: Services, q: Req, e: Envelope, n: Note)
    requires q.checked == Some(Good(e)) && Sound(sv, q, e) && OfBearer(q, n)
    requires n.detail == Drifted(e.intent, q.body.operation) && Says(n, IntentDriftEvent, "ERR_INTENT_DRIFT")
    requires !Intends(e, q.body.operation) && n.operation == Some(q.body.operation)
    ensures TurnTold(sv, q, Invoke.Answer(403, n))
  {
  }

  lemma ManifestTold(sv: Services, q: Req, e: Envelope, n: Note)
    requires q.checked == Some(Good(e)) && Sound(sv, q, e) && OfBearer(q, n)
    requires n.detail == AtStage("manifest") && Says(n, DenyEvent, "ERR_CONTEXT_MANIFEST_INVALID")
    requires Intends(e, q.body.operation) && !NoContext(e)
    ensures TurnTold(sv, q, Invoke.Answer(403, n))
  {
  }

  lemma CosignTold(sv: Services, q: Req, e: Envelope, n: Note)
    requires q.checked == Some(Good(e)) && Sound(sv, q, e) && OfBearer(q, n)
    requires n.detail == AtStage("dual-control") && Says(n, DualControlRequested, "ERR_DUAL_CONTROL_REQUIRED")
    requires Intends(e, q.body.operation) && !q.body.cosigned && n.operation == Some(q.body.operation)
    requires ClassificationNamed(e.classification).Some?
    ensures TurnTold(sv, q, Invoke.Answer(202, n))
  {
  }

  lemma DeniedTold(sv: Services, id: Str, q: Req, t: B.TokenState, e: Envelope, d: Decision, i: nat)
    requires Verified(q, t) && q.checked == Some(Good(e)) && Sound(sv, q, e)
    requires Intends(e, q.body.operation) && FullList(d.predicates) && FirstFailed(d.predicates, i)
    requires d.denyReasonCode.Some? && CodeText(d.denyReasonCode.value) == Ascii(DenialCode(i))
    ensures TurnTold(sv, q, Invoke.Answer(403, DeniedNote(id, q.body, t, e, d)))
  {
    CodesApart(d.denyReasonCode.value);
  }

  lemma DenialCodes(role: Option<Role>, input: Input) returns (i: nat)
    requires !Judge(role, input).allowed
    ensures var d := Judge(role, input);
            && FullList(d.predicates) && FirstFailed(d.predicates, i)
            && d.denyReasonCode.Some? && CodeText(d.denyReasonCode.value) == Ascii(DenialCode(i))
  {
    var d := Judge(role, input);
    DenialExplained(role, input);
    var k :| 0 <= k < 5 && !d.predicates[k].passed && d.predicates[k].code == d.denyReasonCode
             && forall j :: 0 <= j < k ==> d.predicates[j].passed;
    i := k;
  }

  lemma CodesApart(c: Code)
    ensures CodeText(c) == Ascii("ERR_SCOPE_DENIED") <==> c == ScopeDenied
  {
    if |CodeText(c)| == 16 {
      assert Ascii("ERR_SCOPE_DENIED")[4] == 83 && Ascii("ERR_SCOPE_DENIED")[5] == 67;
      assert CodeText(c)[4] != 83 || CodeText(c)[5] != 67 || c == ScopeDenied;
    }
  }

  /** What is known of a decision: the code of a denial, and that what is allowed has a classification. */
  ghost predicate Decided(e: Envelope, d: Decision) {
    if d.allowed then ClassificationNamed(e.classification).Some?
    else
      && FullList(d.predicates) && d.denyReasonCode.Some?
      && exists i :: FirstFailed(d.predicates, i) && CodeText(d.denyReasonCode.value) == Ascii(DenialCode(i))
  }

  lemma JudgedIsDecided(role: Option<Role>, input: Input, e: Envelope)
    requires input.classification == e.classification
    ensures Decided(e, Judge(role, input))
  {
    if Judge(role, input).allowed {
      AllowedExactly(role, input);
    } else {
      var i := DenialCodes(role, input);
    }
  }

  /** What the decision comes to once intent and manifest have passed. */
  lemma DecisionTold(sv: Services, manifests: set<Str>, id: Str, q: Req, t: B.TokenState, e: Envelope, d: Decision)
    requires Verified(q, t) && q.checked == Some(Good(e)) && Sound(sv, q, e) && Decided(e, d)
    requires Intends(e, q.body.operation) && (NoContext(e) || e.contextManifestHash in manifests)
    requires !LayersTurn(manifests, id, q.body, t, e, d).Go?
    ensures TurnTold(sv, q, LayersTurn(manifests, id, q.body, t, e, d))
  {
    if d.allowed {
      CosignTold(sv, q, e, LayersTurn(manifests, id, q.body, t, e, d).note);
    } else {
      var i :| FirstFailed(d.predicates, i) && CodeText(d.denyReasonCode.value) == Ascii(DenialCode(i));
      DeniedTold(sv, id, q, t, e, d, i);
    }
  }

  lemma DriftLayer(sv: Services, manifests: set<Str>, id: Str, q: Req, t: B.TokenState, e: Envelope, d: Decision)
    requires Verified(q, t) && q.checked == Some(Good(e)) && Sound(sv, q, e) && !Intends(e, q.body.operation)
    ensures TurnTold(sv, q, LayersTurn(manifests, id, q.body, t, e, d))
  {
    DriftTold(sv, q, e, LayersTurn(manifests, id, q.body, t, e, d).note);
  }

  lemma ManifestLayer(sv: Services, manifests: set<Str>, id: Str, q: Req, t: B.TokenState, e: Envelope, d: Decision)
    requires Verified(q, t) && q.checked == Some(Good(e)) && Sound(sv, q, e) && Intends(e, q.body.operation)
    requires !NoContext(e) && e.contextManifestHash !in manifests
    ensures TurnTold(sv, q, LayersTurn(manifests, id, q.body, t, e, d))
  {
    ManifestTold(sv, q, e, LayersTurn(manifests, id, q.body, t, e, d).note);
  }

  /** Every refusal of a layer behind the envelope's check. */
  lemma LayersTold(sv: Services, manifests: set<Str>, id: Str, q: Req, t: B.TokenState, e: Envelope, d: Decision)
    requires Verified(q, t) && q.checked == Some(Good(e)) && Sound(sv, q, e) && Decided(e, d)
    requires !LayersTurn(manifests, id, q.body, t, e, d).Go?
    ensures TurnTold(sv, q, LayersTurn(manifests, id, q.body, t, e, d))
  {
    if !Intends(e, q.body.operation) {
      DriftLayer(sv, manifests, id, q, t, e, d);
    } else if !NoContext(e) && e.contextManifestHash !in manifests {
      ManifestLayer(sv, manifests, id, q, t, e, d);
    } else {
      DecisionTold(sv, manifests, id, q, t, e, d);
    }
  }

  /** What a granted request is granted on. */
  lemma GoTold(sv: Services, bundle: Option<Bundle>, manifests: set<Str>, labels: Store, id: Str, q: Req,
               t: B.TokenState, e: Envelope)
    requires EnvelopeTurn(sv, bundle, manifests, labels, id, q.body, t, Good(e)).Go?
    requires Verified(q, t) && q.checked == Some(Good(e)) && Sound(sv, q, e)
    ensures var turn := EnvelopeTurn(sv, bundle, manifests, labels, id, q.body, t, Good(e));
            turn.next.AwaitAdapter? && GrantFits(sv, q.(under := bundle), t, e, turn.next.decision)
  {
    GoMeansCleared(sv, bundle, manifests, labels, id, q.body, t, Good(e));
    AllowedGrants(RoleNamed(bundle, t.role), PolicyInput(q.body, t, e, labels));
    AllowedExactly(RoleNamed(bundle, t.role), PolicyInput(q.body, t, e, labels));
  }

  lemma FailedTold(sv: Services, q: Req, a: AdapterAnswer, n: Note, message: Option<Str>)
    requires q.heard == Some(a) && q.granted.Some? && !a.ok && n.detail == Blocked(message)
    requires Failed(q, n, message)
    ensures TurnTold(sv, q, Invoke.Answer(403, n))
  {
  }

  lemma DoneTold(sv: Services, q: Req, n: Note)
    requires Done(sv, q, n)
    ensures TurnTold(sv, q, Invoke.Answer(200, n))
  {
  }

  /** The adapter's own refusal. */
  predicate Blocks(a: AdapterAnswer) {
    !a.ok && !a.forwarded && a.error.Some? && a.error.value.code == Ascii("ERR_OPERATION_BLOCKED")
  }

  lemma RefusalBlocks(op: Operation)
    ensures Blocks(AdapterRefusal(op))
  {
  }

  lemma AdapterTold(sv: Services, id: Str, q: Req, t: B.TokenState, e: Envelope, d: Decision, a: AdapterAnswer)
    requires q.granted == Some((t, e, d)) && q.checked.Some? && Verified(q, t) && q.heard == Some(a)
    requires q.call.None? ==> Blocks(a)
    ensures TurnTold(sv, q, AdapterTurn(sv, id, q.body, t, e, d, a))
  {
    var turn := AdapterTurn(sv, id, q.body, t, e, d, a);
    if !a.ok {
      FailedTold(sv, q, a, turn.note, turn.note.detail.message);
    } else if turn.Answer? {
      DoneTold(sv, q, turn.note);
    }
  }

  lemma DeadlineTold(sv: Services, id: Str, q: Req)
    requires InOrder(q) && Pending(q.stage)
    requires if q.stage.AwaitToken? then q.nonce == NotAsked else Verified(q, q.stage.token)
    requires q.stage.AwaitAdapter? ==> q.call.Some?
    ensures TurnTold(sv, q, DeadlineTurn(id, q.body, q.stage))
  {
  }

  // ---- over whole runs ----

  /** What the broker's own invariant says of a request that waits. */
  predicate Waiting(q: Req) {
    match q.stage
    case AwaitToken => q.nonce == NotAsked && q.granted.None?
    case AwaitNonce(t) => Verified(q, t) && (q.nonce.Took? ==> q.nonce.session == t.sessionId) && q.granted.None?
    case AwaitEnvelope(t) => Verified(q, t) && q.granted.None? && q.heard.None?
    case AwaitAdapter(t, e, d) =>
      Verified(q, t) && q.granted == Some((t, e, d)) && (q.call.Some? <==> CallsTransport(q))
    case _ => true
  }

  predicate IsReq(st: State, id: Str) { id in st.reqs }

  ghost predicate AllWait(st: State) { forall id :: IsReq(st, id) ==> Waiting(st.reqs[id]) }

  lemma InvWaits(sv: Services, st: State)
    requires ReqInv(sv, st)
    ensures AllWait(st)
  {
    forall id | IsReq(st, id) ensures Waiting(st.reqs[id]) { ReqWaits(sv, st, id, st.reqs[id]); }
  }

  lemma ReqWaits(sv: Services, st: State, id: Str, q: Req)
    requires ReqInv(sv, st) && id in st.reqs && q == st.reqs[id]
    ensures Waiting(q)
  {
    assert ReqSound(sv, st, id, q);
  }

  ghost predicate RegsKnown(st: State) {
    && (forall g | g in st.regs && st.regs[g].joined :: st.regs[g].manifest in st.manifests)
    && forall i :: 0 <= i < |st.ops| ==> st.ops[i].Registers?
  }

  ghost predicate AllTold(sv: Services, st: State) {
    RegsKnown(st) && forall id :: IsReq(st, id) ==> Told(sv, st.reqs[id])
  }

  lemma TokenStepTold(sv: Services, st: State, id: Str, q: Req, now: nat, fault: L.Fault)
    requires st.log.proc.Some? && q.stage.AwaitToken? && q.verified.Some? && Told(sv, q) && Waiting(q)
    ensures OnlyTold(sv, st, TokenStep(sv, st, id, q, now, fault), id)
  {
    var turn := TokenTurn(id, q.verified.value);
    TokenTold(sv, id, q);
    if turn.Go? {
      var q' := q.(nonce := Asked(turn.next.token.sessionId));
      AskingIsTruthful(sv, q, q');
      ConcludesTold(sv, st, id, q', turn, now, fault);
    } else {
      ConcludesTold(sv, st, id, q, turn, now, fault);
    }
  }

  lemma AskingIsTruthful(sv: Services, q: Req, q': Req)
    requires Truthful(sv, q) && q' == q.(nonce := q'.nonce, heard := q'.heard)
    ensures Truthful(sv, q')
  {
    forall check | HasChecked(q', check) ensures CheckTrue(sv, q'.body, q'.checkedAt, check) {
      assert HasChecked(q, check);
    }
    forall t, e, d | HasGrant(q', t, e, d) ensures GrantFits(sv, q', t, e, d) {
      assert HasGrant(q, t, e, d);
      FitsAnywhere(sv, q, q', t, e, d);
    }
  }

  lemma NonceStepTold(sv: Services, st: State, id: Str, q: Req, now: nat, fault: L.Fault)
    requires st.log.proc.Some? && q.stage.AwaitNonce? && q.nonce.Took? && Told(sv, q) && Waiting(q)
    ensures OnlyTold(sv, st, NonceStep(sv, st, id, q, now, fault), id)
  {
    NonceTold(sv, id, q, q.stage.token);
    ConcludesTold(sv, st, id, q, NonceTurn(id, q.stage.token, q.nonce.firstUse), now, fault);
  }

  lemma EnvelopeStepTold(sv: Services, st: State, id: Str, now: nat, fault: L.Fault)
    requires st.log.proc.Some? && AwaitsEnvelope(st, id) && st.reqs[id].checked.Some?
    requires Told(sv, st.reqs[id]) && Waiting(st.reqs[id])
    ensures OnlyTold(sv, st, EnvelopeStep(sv, st, id, st.reqs[id], now, fault), id)
  {
    var q := st.reqs[id];
    var t := q.stage.token;
    var turn := EnvelopeTurn(sv, st.bundle, st.manifests, st.labels, id, q.body, t, q.checked.value);
    assert HasChecked(q, q.checked.value);
    match q.checked.value {
      case Bad(code) =>
        RejectedTold(sv, id, q, t, code);
        ConcludesTold(sv, st, id, q, turn, now, fault);
      case Good(e) =>
        CheckedIsSound(sv, q, e);
        if turn.Go? {
          GrantStepTold(sv, st, id, q, t, e, now, fault);
        } else {
          var role, input := RoleNamed(st.bundle, t.role), PolicyInput(q.body, t, e, st.labels);
          JudgedIsDecided(role, input, e);
          LayersTold(sv, st.manifests, id, q, t, e, Judge(role, input));
          ConcludesTold(sv, st, id, q, turn, now, fault);
        }
    }
  }

  lemma GrantStepTold(sv: Services, st: State, id: Str, q: Req, t: B.TokenState, e: Envelope, now: nat, fault: L.Fault)
    requires st.log.proc.Some? && AwaitsEnvelope(st, id) && q == st.reqs[id] && q.stage.token == t
    requires q.checked == Some(Good(e)) && Sound(sv, q, e) && Told(sv, q) && Waiting(q)
    requires EnvelopeTurn(sv, st.bundle, st.manifests, st.labels, id, q.body, t, Good(e)).Go?
    ensures OnlyTold(sv, st, EnvelopeStep(sv, st, id, q, now, fault), id)
  {
    GoTold(sv, st.bundle, st.manifests, st.labels, id, q, t, e);
    GoIsGrant(sv, st, id, now, fault);
    GoMeansCleared(sv, st.bundle, st.manifests, st.labels, id, q.body, t, Good(e));
    var d := EnvelopeTurn(sv, st.bundle, st.manifests, st.labels, id, q.body, t, Good(e)).next.decision;
    GrantTold(sv, st, id, q, t, e, d);
  }

  lemma GrantTold(sv: Services, st: State, id: Str, q: Req, t: B.TokenState, e: Envelope, d: Decision)
    requires id in st.reqs && q == st.reqs[id] && q.checked == Some(Good(e)) && Told(sv, q) && q.heard.None?
    requires GrantFits(sv, q.(under := st.bundle), t, e, d)
    ensures OnlyTold(sv, st, Grant(st, id, t, e, d), id)
  {
    var q' := Grant(st, id, t, e, d).reqs[id];
    forall check | HasChecked(q', check) ensures CheckTrue(sv, q'.body, q'.checkedAt, check) {
      assert HasChecked(q, check);
    }
    forall x, y, z | HasGrant(q', x, y, z) ensures GrantFits(sv, q', x, y, z) {
      GrantStays(sv, q.(under := st.bundle), q', t, e, d);
    }
  }

  lemma GrantStays(sv: Services, q: Req, q': Req, t: B.TokenState, e: Envelope, d: Decision)
    requires GrantFits(sv, q, t, e, d) && q' == q.(granted := q'.granted, call := q'.call, stage := q'.stage)
    ensures GrantFits(sv, q', t, e, d)
  {
  }

  lemma AdapterStepTold(sv: Services, st: State, id: Str, q: Req, a: AdapterAnswer, now: nat, fault: L.Fault)
    requires st.log.proc.Some? && q.stage.AwaitAdapter? && Told(sv, q) && Waiting(q)
    requires CallsTransport(q) || a == AdapterRefusal(q.body.operation)
    ensures OnlyTold(sv, st, AdapterStep(sv, st, id, q, a, now, fault), id)
  {
    var (t, e, d) := (q.stage.token, q.stage.envelope, q.stage.decision);
    var q' := q.(heard := Some(a));
    RefusalBlocks(q.body.operation);
    AdapterTold(sv, id, q', t, e, d, a);
    AskingIsTruthful(sv, q, q');
    ConcludesTold(sv, st, id, q', AdapterTurn(sv, id, q.body, t, e, d, a), now, fault);
  }

  lemma DeadlineStepTold(sv: Services, st: State, id: Str, q: Req, now: nat, fault: L.Fault)
    requires st.log.proc.Some? && Told(sv, q) && Waiting(q)
    requires q.stage.AwaitToken? || q.stage.AwaitNonce? || q.stage.AwaitEnvelope? || CallsTransport(q)
    ensures OnlyTold(sv, st, DeadlineStep(sv, st, id, q, now, fault), id)
  {
    DeadlineTold(sv, id, q);
    ConcludesTold(sv, st, id, q, DeadlineTurn(id, q.body, q.stage), now, fault);
  }

  lemma VerifyTold(sv: Services, st: State, id: Str, clock: int)
    requires AwaitsToken(st, id) && Told(sv, st.reqs[id]) && Waiting(st.reqs[id])
    ensures OnlyTold(sv, st, VerifyStep(st, id, clock), id)
  {
  }

  lemma CheckTold(sv: Services, st: State, id: Str, clock: int)
    requires AwaitsEnvelope(st, id) && Told(sv, st.reqs[id])
    ensures OnlyTold(sv, st, CheckStep(sv, st, id, clock), id)
  {
    CheckedExactly(sv, st.reqs[id].body, clock, CheckEnvelope(sv, st.reqs[id].body, clock));
  }

  /** No record speaks of a nonce that is asked for. */
  lemma NonceWorkTold(sv: Services, st: State, id: Str)
    requires id in st.reqs && st.reqs[id].nonce.Asked? && Told(sv, st.reqs[id])
    ensures OnlyTold(sv, st, NonceWorkStep(st, id), id)
  {
    var q, q' := st.reqs[id], NonceWorkStep(st, id).reqs[id];
    AskingIsTruthful(sv, q, q');
    forall n | HasNote(q', n) ensures Because(sv, q', n) {
      assert HasNote(q, n);
      AskedIsNoReason(sv, q, q', n);
    }
    forall code, n | HasReply(q', code, n) ensures CodeFits(n, code) { assert HasReply(q, code, n); }
  }

  lemma AskedIsNoReason(sv: Services, q: Req, q': Req, n: Note)
    requires Because(sv, q, n) && q.nonce.Asked? && q' == q.(nonce := q'.nonce)
    ensures Because(sv, q', n)
  {
  }

  lemma ThrowTold(sv: Services, st: State, id: Str)
    requires AwaitsToken(st, id) || AwaitsNonce(st, id) || AwaitsTransport(st, id)
    requires Told(sv, st.reqs[id])
    ensures OnlyTold(sv, st, ThrowStep(st, id), id)
  {
    StillTruthful(sv, st.reqs[id], Died(ServiceThrew));
  }

  /** Work behind an await. */
  lemma WorkTold(sv: Services, st: State, e: Event)
    requires Possible(sv, st, e) && OfWork(e) && Told(sv, st.reqs[e.id]) && Waiting(st.reqs[e.id])
    ensures OnlyTold(sv, st, After(sv, st, e), e.id)
  {
    match e {
      case VerifyWork(id, clock) => VerifyTold(sv, st, id, clock);
      case NonceWorks(id) => NonceWorkTold(sv, st, id);
      case EnvelopeWork(id, clock) => CheckTold(sv, st, id, clock);
      case Throws(id) => ThrowTold(sv, st, id);
    }
  }

  lemma EarlyTold(sv: Services, st: State, e: Event)
    requires Possible(sv, st, e) && OfEarly(e)
    requires !e.Receive? ==> Told(sv, st.reqs[e.id]) && Waiting(st.reqs[e.id])
    ensures OnlyTold(sv, st, After(sv, st, e), e.id)
  {
    match e {
      case Receive(id, body, now, fault) =>
        ShapeTold(sv, id, body);
        ConcludesTold(sv, st, id, NewReq(body), ShapeTurn(id, body), now, fault);
      case TokenArrives(id, now, fault) => TokenStepTold(sv, st, id, st.reqs[id], now, fault);
      case NonceArrives(id, now, fault) => NonceStepTold(sv, st, id, st.reqs[id], now, fault);
    }
  }

  lemma LateTold(sv: Services, st: State, e: Event)
    requires Possible(sv, st, e) && OfLate(e) && Told(sv, st.reqs[e.id]) && Waiting(st.reqs[e.id])
    ensures OnlyTold(sv, st, After(sv, st, e), e.id)
  {
    match e {
      case EnvelopeArrives(id, now, fault) => EnvelopeStepTold(sv, st, id, now, fault);
      case AdapterArrives(id, a, now, fault) => AdapterStepTold(sv, st, id, st.reqs[id], a, now, fault);
      case Deadline(id, now, fault) => DeadlineStepTold(sv, st, id, st.reqs[id], now, fault);
    }
  }

  /** What a registration's stretch does beside the log and the labels. */
  lemma RegStepShape(sv: Services, st: State, id: Str, g: Reg, now: nat, fault: L.Fault)
    requires st.log.proc.Some? && g.verified.Some? && id in st.regs && g == st.regs[id]
    ensures var st', v := RegStep(sv, st, id, g, now, fault), g.verified.value;
            var joins := v.ValidToken? && v.token.sessionId != [];
            && st'.reqs == st.reqs && st'.regs == st.regs[id := g.(done := true, joined := joins || g.joined)]
            && st'.manifests == (if joins then st.manifests + {g.manifest} else st.manifests)
            && st'.ops == if joins then st.ops + [Registers(v.token.sessionId, g.elements, Some(id), now)] else st.ops
  {
  }

  lemma RegStepKnown(sv: Services, st: State, id: Str, g: Reg, now: nat, fault: L.Fault)
    requires st.log.proc.Some? && g.verified.Some? && id in st.regs && g == st.regs[id] && RegsKnown(st)
    ensures RegStep(sv, st, id, g, now, fault).reqs == st.reqs && RegsKnown(RegStep(sv, st, id, g, now, fault))
  {
    RegStepShape(sv, st, id, g, now, fault);
    ShapeKnown(st, RegStep(sv, st, id, g, now, fault), id, g, now);
  }

  lemma ShapeKnown(st: State, st': State, id: Str, g: Reg, now: nat)
    requires g.verified.Some? && id in st.regs && g == st.regs[id] && RegsKnown(st)
    requires var v := g.verified.value;
             var joins := v.ValidToken? && v.token.sessionId != [];
             && st'.regs == st.regs[id := g.(done := true, joined := joins || g.joined)]
             && st'.manifests == (if joins then st.manifests + {g.manifest} else st.manifests)
             && st'.ops == if joins then st.ops + [Registers(v.token.sessionId, g.elements, Some(id), now)] else st.ops
    ensures RegsKnown(st')
  {
  }

  /** Every other event leaves the requests as they were. */
  lemma RestTold(sv: Services, st: State, e: Event)
    requires Possible(sv, st, e) && !OfWork(e) && !OfEarly(e) && !OfLate(e) && RegsKnown(st)
    ensures After(sv, st, e).reqs == st.reqs && RegsKnown(After(sv, st, e))
  {
    if e.RegArrives? { RegStepKnown(sv, st, e.id, st.regs[e.id], e.now, e.fault); }
  }

  lemma RequestTold(sv: Services, st: State, st': State, id: Str)
    requires AllTold(sv, st) && OnlyTold(sv, st, st', id)
    ensures AllTold(sv, st')
  {
    forall i | IsReq(st', i) ensures Told(sv, st'.reqs[i]) {
      if i != id { assert IsReq(st, i); }
    }
  }

  lemma StepTold(sv: Services, st: State, e: Event)
    requires AllWait(st) && AllTold(sv, st) && Possible(sv, st, e)
    ensures AllTold(sv, After(sv, st, e))
  {
    if OfWork(e) || OfEarly(e) || OfLate(e) {
      assert !e.Receive? ==> IsReq(st, e.id);
      if OfWork(e) { WorkTold(sv, st, e); } else if OfEarly(e) { EarlyTold(sv, st, e); } else { LateTold(sv, st, e); }
      RequestTold(sv, st, After(sv, st, e), e.id);
    } else {
      RestTold(sv, st, e);
      forall i | IsReq(After(sv, st, e), i) ensures Told(sv, After(sv, st, e).reqs[i]) { assert IsReq(st, i); }
    }
  }

  lemma {:induction false} RunsTold(sv: Services, st: State, es: seq<Event>, st': State)
    requires Broker.Inv(sv, st) && AllTold(sv, st) && Runs(sv, st, es, st')
    ensures AllTold(sv, st')
    decreases |es|
  {
    if es != [] {
      InvWaits(sv, st);
      StepTold(sv, st, es[0]);
      EventKeeps(sv, st, es[0]);
      RunsTold(sv, After(sv, st, es[0]), es[1..], st');
    }
  }

  lemma ReachedTold(sv: Services, steps: seq<R.Step>, st0: State, es: seq<Event>, st: State)
    requires StartsOver(sv, steps, st0) && Runs(sv, st0, es, st)
    ensures AllTold(sv, st)
  {
    R.ReachedInv(sv.log, steps, st0.log);
    FreshIsSound(sv, st0);
    RunsTold(sv, st0, es, st);
  }

  /** Every request of every run is told truly. */
  lemma RequestIsTold(sv: Services, steps: seq<R.Step>, st0: State, es: seq<Event>, st: State, id: Str)
    requires StartsOver(sv, steps, st0) && Runs(sv, st0, es, st) && id in st.reqs
    ensures Told(sv, st.reqs[id])
  {
    ReachedTold(sv, steps, st0, es, st);
    assert IsReq(st, id);
  }

  /** Whatever was let through to the adapter had a token that verified, an envelope that was sound by the clock it was
      checked by, and a role, of the bundle loaded at that moment, that covers the operation and gives the decision
      its profile and its dual control; where a second signature is called for, the request brought it. */
  lemma GrantRests(sv: Services, steps: seq<R.Step>, st0: State, es: seq<Event>, st: State, id: Str)
    requires StartsOver(sv, steps, st0) && Runs(sv, st0, es, st) && id in st.reqs && st.reqs[id].granted.Some?
    ensures var q, (t, e, d) := st.reqs[id], st.reqs[id].granted.value;
            && q.verified == Some(B.ValidToken(t)) && Sound(sv, q, e)
            && exists role :: RoleGrants(q, t, e, d, role)
  {
    RequestIsTold(sv, steps, st0, es, st, id);
    var (t, e, d) := st.reqs[id].granted.value;
    assert HasGrant(st.reqs[id], t, e, d);
  }
}
