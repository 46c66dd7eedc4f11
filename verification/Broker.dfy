/** The broker as a state machine: invokes and context registrations interleave at every await, the work
    behind a deadline may finish after it, tokens are admitted, derived and revoked in between, and
    every append may fail. One process; its volatile state dies with it. */
module Broker {
  import opened Common
  import opened Json
  import opened Canonical
  import opened Encoding
  import opened Envelopes
  import opened Log
  import opened Lineage
  import opened Labels
  import opened Policy
  import opened Invoke
  import opened Notes
  import opened Context
  import R = Recovery
  import B = Bindings

  /** What has become of the nonce a request asked the bindings to consume. */
  datatype NonceWork = NotAsked | Asked(session: Str) | Took(session: Str, firstUse: bool)

  /** `verifiedIn` is what the bindings held when they verified the token, `checkedAt` the clock its envelope was
      checked by, `granted` what let a request past every layer and `under` the bundle then loaded, `call` its
      transport call, `heard` what the adapter answered in time. */
  datatype Req = Req(
    body: Body, verified: Option<B.Verification>, verifiedAt: int, verifiedIn: B.State, nonce: NonceWork,
    checked: Option<EnvelopeCheck>, checkedAt: int, granted: Option<(B.TokenState, Envelope, Decision)>,
    under: Option<Bundle>, call: Option<nat>, heard: Option<AdapterAnswer>, stage: Stage)

  datatype Reg = Reg(
    token: Str, elements: seq<Element>, manifest: Str, verified: Option<B.Verification>, done: bool, joined: bool)

  /** One transport call, of the method `served`; `at` is how many registrations had been labelled by then. */
  datatype Call = Call(
    id: Str, session: Str, nonce: Str, operation: Operation, intent: Option<Intent>, at: nat, served: Transport)

  datatype State = State(
    b: B.World, bundle: Option<Bundle>, labels: Store, ops: seq<Op>, manifests: set<Str>, log: R.World,
    reqs: map<Str, Req>, regs: map<Str, Reg>, calls: seq<Call>)

  datatype Event =
    | Receive(id: Str, body: Option<Body>, now: nat, fault: Fault)
    | VerifyWork(id: Str, clock: int)
    | NonceWorks(id: Str)
    | EnvelopeWork(id: Str, clock: int)
    | TokenArrives(id: Str, now: nat, fault: Fault)
    | NonceArrives(id: Str, now: nat, fault: Fault)
    | EnvelopeArrives(id: Str, now: nat, fault: Fault)
    | AdapterArrives(id: Str, answer: AdapterAnswer, now: nat, fault: Fault)
    | Deadline(id: Str, now: nat, fault: Fault)
    | Throws(id: Str)
    | RegReceive(id: Str, token: Str, elements: seq<Element>, manifest: Str)
    | RegVerifies(id: Str, clock: int)
    | RegArrives(id: Str, now: nat, fault: Fault)
    | Elsewhere(entry: Entry, now: nat, fault: Fault)
    | LogRefuses(why: Str)
    | BindingsStep(step: B.Step)
    | LoadBundle(bundle: Bundle)

  /** A request that never had a readable body. */
  const NO_BODY: Body := Body([], [], OperatorRead, [], [], false)

  // ---- steps ----

  function CorrelationOf(r: Record): Option<Str> {
    if |r.fields| > 1 then Some(r.fields[1]) else None
  }

  predicate NoneFor(chain: seq<Record>, id: Str) {
    forall r | r in chain :: CorrelationOf(r) != Some(id)
  }

  /** Correlation ids are random in the source; here a new one is simply unused. */
  predicate Unused(st: State, id: Str) {
    id !in st.reqs && id !in st.regs && NoneFor(st.log.chain, id)
  }

  predicate CallsTransport(q: Req) {
    q.stage.AwaitAdapter? && Route(q.body.operation, q.stage.decision.profile).Some?
  }

  predicate AwaitsToken(st: State, id: Str) { id in st.reqs && st.reqs[id].stage.AwaitToken? }

  predicate AwaitsNonce(st: State, id: Str) { id in st.reqs && st.reqs[id].stage.AwaitNonce? }

  predicate AwaitsEnvelope(st: State, id: Str) { id in st.reqs && st.reqs[id].stage.AwaitEnvelope? }

  predicate AwaitsTransport(st: State, id: Str) { id in st.reqs && CallsTransport(st.reqs[id]) }

  predicate AwaitsAdapter(st: State, id: Str, a: AdapterAnswer) {
    && id in st.reqs && st.reqs[id].stage.AwaitAdapter?
    && (CallsTransport(st.reqs[id]) || a == AdapterRefusal(st.reqs[id].body.operation))
  }

  predicate RegReady(st: State, id: Str) { id in st.regs && st.regs[id].verified.Some? && !st.regs[id].done }

  predicate Possible(sv: Services, st: State, e: Event) {
    && st.log.proc.Some?
    && match e
       case Receive(id, _, _, _) => Unused(st, id)
       case VerifyWork(id, _) => AwaitsToken(st, id) && st.reqs[id].verified.None?
       case NonceWorks(id) => id in st.reqs && st.reqs[id].nonce.Asked?
       case EnvelopeWork(id, _) => AwaitsEnvelope(st, id) && st.reqs[id].checked.None?
       case TokenArrives(id, _, _) => AwaitsToken(st, id) && st.reqs[id].verified.Some?
       case NonceArrives(id, _, _) => AwaitsNonce(st, id) && st.reqs[id].nonce.Took?
       case EnvelopeArrives(id, _, _) => AwaitsEnvelope(st, id) && st.reqs[id].checked.Some?
       case AdapterArrives(id, a, _, _) => AwaitsAdapter(st, id, a)
       case Deadline(id, _, _) =>
         AwaitsToken(st, id) || AwaitsNonce(st, id) || AwaitsEnvelope(st, id) || AwaitsTransport(st, id)
       case Throws(id) => AwaitsToken(st, id) || AwaitsNonce(st, id) || AwaitsTransport(st, id)
       case RegReceive(id, _, _, _) => Unused(st, id)
       case RegVerifies(id, _) => id in st.regs && st.regs[id].verified.None?
       case RegArrives(id, _, _) => RegReady(st, id)
       case Elsewhere(entry, _, _) => |entry.fields| == 10 && entry.fields[1] !in st.reqs && entry.fields[1] !in st.regs
       case LogRefuses(_) => true
       case BindingsStep(step) => B.Enabled(st.b, step) && !step.Consume?
       case LoadBundle(_) => true
  }

  function Appends(sv: Services, w: R.World, entry: Entry, now: nat, fault: Fault): R.World
    requires w.proc.Some?
  {
    R.Next(sv.log, w, R.Do(entry, now, fault))
  }

  /** Where a request stands once its append has ended; `renamed` is the position its record was renamed in at. */
  function StageAfter(sv: Services, w: R.World, code: nat, note: Note, now: nat, fault: Fault): Stage
    requires w.proc.Some?
  {
    var m, entry := w.proc.value, EntryOf(sv, note);
    var written := AppendAnswer(sv.log, w.disk, m, entry, now, fault);
    if written.Appended? then Answered(code, note, |w.chain|)
    else Unwritten(note, Compose(m, entry, now), WriteError(written),
                   if R.Commits(sv.log, w.disk, m, entry, now, fault) then Some(|w.chain|) else None)
  }

  /** The note is written, then the request is answered; or it goes on; or it dies. */
  function Concludes(sv: Services, st: State, id: Str, q: Req, turn: Turn, now: nat, fault: Fault): State
    requires st.log.proc.Some?
  {
    match turn
    case Answer(code, note) =>
      var entry := EntryOf(sv, note);
      st.(log := Appends(sv, st.log, entry, now, fault),
          reqs := st.reqs[id := q.(stage := StageAfter(sv, st.log, code, note, now, fault))])
    case Go(next) => st.(reqs := st.reqs[id := q.(stage := next)])
    case Throw(why) => st.(reqs := st.reqs[id := q.(stage := Died(why))])
  }

  function TokenStep(sv: Services, st: State, id: Str, q: Req, now: nat, fault: Fault): State
    requires st.log.proc.Some? && q.verified.Some?
  {
    var turn := TokenTurn(id, q.verified.value);
    var q' := if turn.Go? && turn.next.AwaitNonce? then q.(nonce := Asked(turn.next.token.sessionId)) else q;
    Concludes(sv, st, id, q', turn, now, fault)
  }

  /** The call a granted request makes, if any. */
  function MadeCalls(st: State, id: Str, t: B.TokenState, e: Envelope, served: Option<Transport>): seq<Call>
    requires id in st.reqs
  {
    var body := st.reqs[id].body;
    if served.None? then []
    else [Call(id, t.sessionId, body.nonce, body.operation, IntentNamed(e.intent), |st.ops|, served.value)]
  }

  function EnvelopeStep(sv: Services, st: State, id: Str, q: Req, now: nat, fault: Fault): State
    requires st.log.proc.Some? && q.stage.AwaitEnvelope? && q.checked.Some? && id in st.reqs
  {
    var t := q.stage.token;
    var turn := EnvelopeTurn(sv, st.bundle, st.manifests, st.labels, id, q.body, t, q.checked.value);
    if turn.Go? && turn.next.AwaitAdapter? then
      var (e, d) := (turn.next.envelope, turn.next.decision);
      var call := Route(q.body.operation, d.profile);
      var q' := q.(granted := Some((t, e, d)), under := st.bundle,
                   call := if call.Some? then Some(|st.calls|) else None);
      Concludes(sv, st.(calls := st.calls + MadeCalls(st, id, t, e, call)), id, q', turn, now, fault)
    else Concludes(sv, st, id, q, turn, now, fault)
  }

  /** The registration once its token is verified: the manifest and the label first, then the record,
      whose failure takes neither back. */
  function RegStep(sv: Services, st: State, id: Str, g: Reg, now: nat, fault: Fault): State
    requires st.log.proc.Some? && g.verified.Some?
  {
    match g.verified.value
    case Invalid(_) => st.(regs := st.regs[id := g.(done := true)])
    case ValidToken(t) =>
      if t.sessionId == [] then
        st.(regs := st.regs[id := g.(done := true)],
            log := Appends(sv, st.log, EntryOf(sv, RefusedRegNote(id, t)), now, fault))
      else
        var labels := ElementsJoined(st.labels, t.sessionId, g.elements, Some(id), now);
        st.(regs := st.regs[id := g.(done := true, joined := true)],
            manifests := st.manifests + {g.manifest},
            labels := labels,
            ops := st.ops + [Registers(t.sessionId, g.elements, Some(id), now)],
            log := Appends(
              sv, st.log, EntryOf(sv, RegNote(id, g.manifest, |g.elements|, t, GetLabel(labels, t.sessionId))),
              now, fault))
  }

  function NewReq(body: Option<Body>): Req {
    Req(if body.Some? then body.value else NO_BODY, None, 0, B.EMPTY, NotAsked, None, 0, None, None, None, None,
        AwaitToken)
  }

  function ReceiveStep(sv: Services, st: State, id: Str, body: Option<Body>, now: nat, fault: Fault): State
    requires st.log.proc.Some?
  {
    Concludes(sv, st, id, NewReq(body), ShapeTurn(id, body), now, fault)
  }

  function VerifyStep(st: State, id: Str, clock: int): State
    requires id in st.reqs
  {
    var q := st.reqs[id];
    st.(reqs := st.reqs[id := q.(verified := Some(B.Verify(st.b.b, q.body.token, clock)), verifiedAt := clock,
                                 verifiedIn := st.b.b)])
  }

  function NonceWorkStep(st: State, id: Str): State
    requires id in st.reqs && st.reqs[id].nonce.Asked?
  {
    var q := st.reqs[id];
    var s := q.nonce.session;
    st.(b := B.Next(st.b, B.Consume(q.body.nonce, s)),
        reqs := st.reqs[id := q.(nonce := Took(s, B.FirstUse(st.b.b, s, q.body.nonce)))])
  }

  function CheckStep(sv: Services, st: State, id: Str, clock: int): State
    requires id in st.reqs
  {
    var q := st.reqs[id];
    st.(reqs := st.reqs[id := q.(checked := Some(CheckEnvelope(sv, q.body, clock)), checkedAt := clock)])
  }

  function NonceStep(sv: Services, st: State, id: Str, q: Req, now: nat, fault: Fault): State
    requires st.log.proc.Some? && q.stage.AwaitNonce? && q.nonce.Took?
  {
    Concludes(sv, st, id, q, NonceTurn(id, q.stage.token, q.nonce.firstUse), now, fault)
  }

  function AdapterStep(sv: Services, st: State, id: Str, q: Req, a: AdapterAnswer, now: nat, fault: Fault): State
    requires st.log.proc.Some? && q.stage.AwaitAdapter?
  {
    var turn := AdapterTurn(sv, id, q.body, q.stage.token, q.stage.envelope, q.stage.decision, a);
    Concludes(sv, st, id, q.(heard := Some(a)), turn, now, fault)
  }

  function DeadlineStep(sv: Services, st: State, id: Str, q: Req, now: nat, fault: Fault): State
    requires st.log.proc.Some?
  {
    Concludes(sv, st, id, q, DeadlineTurn(id, q.body, q.stage), now, fault)
  }

  function ThrowStep(st: State, id: Str): State
    requires id in st.reqs
  {
    st.(reqs := st.reqs[id := st.reqs[id].(stage := Died(ServiceThrew))])
  }

  function RegReceiveStep(st: State, id: Str, token: Str, elements: seq<Element>, manifest: Str): State {
    st.(regs := st.regs[id := Reg(token, elements, manifest, None, false, false)])
  }

  function RegVerifyStep(st: State, id: Str, clock: int): State
    requires id in st.regs
  {
    st.(regs := st.regs[id := st.regs[id].(verified := Some(B.Verify(st.b.b, st.regs[id].token, clock)))])
  }

  function After(sv: Services, st: State, e: Event): State
    requires Possible(sv, st, e)
  {
    match e
    case Receive(id, body, now, fault) => ReceiveStep(sv, st, id, body, now, fault)
    case VerifyWork(id, clock) => VerifyStep(st, id, clock)
    case NonceWorks(id) => NonceWorkStep(st, id)
    case EnvelopeWork(id, clock) => CheckStep(sv, st, id, clock)
    case TokenArrives(id, now, fault) => TokenStep(sv, st, id, st.reqs[id], now, fault)
    case NonceArrives(id, now, fault) => NonceStep(sv, st, id, st.reqs[id], now, fault)
    case EnvelopeArrives(id, now, fault) => EnvelopeStep(sv, st, id, st.reqs[id], now, fault)
    case AdapterArrives(id, a, now, fault) => AdapterStep(sv, st, id, st.reqs[id], a, now, fault)
    case Deadline(id, now, fault) => DeadlineStep(sv, st, id, st.reqs[id], now, fault)
    case Throws(id) => ThrowStep(st, id)
    case RegReceive(id, token, elements, manifest) => RegReceiveStep(st, id, token, elements, manifest)
    case RegVerifies(id, clock) => RegVerifyStep(st, id, clock)
    case RegArrives(id, now, fault) => RegStep(sv, st, id, st.regs[id], now, fault)
    case Elsewhere(entry, now, fault) => st.(log := Appends(sv, st.log, entry, now, fault))
    case LogRefuses(why) => st.(log := R.Next(sv.log, st.log, R.Refuse(why)))
    case BindingsStep(step) => st.(b := B.Next(st.b, step))
    case LoadBundle(bundle) => st.(bundle := Some(bundle))
  }

  predicate Runs(sv: Services, st: State, es: seq<Event>, st': State)
    decreases |es|
  {
    if es == [] then st' == st
    else Possible(sv, st, es[0]) && Runs(sv, After(sv, st, es[0]), es[1..], st')
  }

  /** A broker that has just started over an opened log. */
  predicate Starting(st: State) {
    && st.b == B.Start() && st.labels == map[] && st.ops == [] && st.manifests == {}
    && st.reqs == map[] && st.regs == map[] && st.calls == []
  }

  // ---- the invariant ----

  /** The record states what the note says. */
  predicate States(sv: Services, r: Record, n: Note) {
    var e := EntryOf(sv, n);
    r.fields == e.fields && r.payload == e.payload && r.metadata == e.metadata
  }

  predicate OnlyAt(chain: seq<Record>, id: Str, at: nat) {
    && at < |chain| && CorrelationOf(chain[at]) == Some(id)
    && forall i :: 0 <= i < |chain| && i != at ==> CorrelationOf(chain[i]) != Some(id)
  }

  /** What is recorded of a request. One whose append did not return has a record exactly when the rename took
      effect, and none when its record was rejected. */
  predicate RecordSound(sv: Services, w: R.World, id: Str, stage: Stage) {
    match stage
    case Answered(_, note, at) =>
      OnlyAt(w.chain, id, at) && States(sv, w.chain[at], note) && w.chain[at] in w.returned
    case Unwritten(note, tried, why, renamed) =>
      && States(sv, tried, note)
      && (match renamed
          case Some(at) => why == LogUnavailable && OnlyAt(w.chain, id, at) && w.chain[at] == tried
          case None => NoneFor(w.chain, id))
      && (why == RecordRejected ==> !sv.log.encodes(tried)) && (why == RecordRejected || why == LogUnavailable)
    case _ => NoneFor(w.chain, id)
  }

  predicate TokenSound(b: B.World, q: Req) {
    q.verified.Some? && q.verified.value.ValidToken? ==>
      var t := q.verified.value.token;
      q.body.token in b.issued && b.issued[q.body.token] == t && q.verifiedAt <= t.expiresAt
      && !B.Barred(q.verifiedIn, t)
  }

  predicate NonceSound(b: B.State, q: Req) {
    && (!q.nonce.NotAsked? ==> q.nonce.session in b.seenNonces)
    && (q.nonce.Took? && q.nonce.firstUse ==> q.body.nonce in b.seenNonces[q.nonce.session])
  }

  /** The envelope names this target and this operation class. */
  predicate Bound(sv: Services, body: Body, e: Envelope) {
    && (body.targetId != [] ==> e.targetHash == Sha(sv, body.targetId))
    && e.roleScopeHash == Sha(sv, OperationText(body.operation))
  }

  predicate Cleared(manifests: set<Str>, body: Body, e: Envelope, d: Decision) {
    && Permitted(body.operation, e.intent)
    && (e.contextManifestHash == ZeroManifest() || e.contextManifestHash in manifests)
    && d.allowed && FullList(d.predicates) && (forall r | r in d.predicates :: r.passed)
    && (d.requiresDualControl ==> body.cosigned) && ClassificationNamed(e.classification).Some?
  }

  predicate Verified(q: Req, t: B.TokenState) {
    q.verified == Some(B.ValidToken(t)) && t.sessionId != [] && t.role != []
  }

  predicate GrantSound(sv: Services, manifests: set<Str>, q: Req) {
    q.granted.Some? ==>
      var (t, e, d) := q.granted.value;
      && Verified(q, t) && q.nonce == Took(t.sessionId, true) && Bound(sv, q.body, e) && q.checkedAt <= e.expiresAt
      && Cleared(manifests, q.body, e, d)
      && (q.call.Some? <==> Route(q.body.operation, d.profile).Some?)
  }

  predicate StageSound(sv: Services, id: Str, q: Req) {
    && (q.checked.Some? && q.checked.value.Good? ==>
         Bound(sv, q.body, q.checked.value.envelope) && q.checkedAt <= q.checked.value.envelope.expiresAt)
    && (q.granted.None? ==> q.call.None?)
    && HeardSound(sv, id, q)
    && match q.stage
       case AwaitToken => q.nonce == NotAsked && q.granted.None?
       case AwaitNonce(t) => Verified(q, t) && !q.nonce.NotAsked? && q.nonce.session == t.sessionId && q.granted.None?
       case AwaitEnvelope(t) => Verified(q, t) && q.nonce == Took(t.sessionId, true) && q.granted.None?
       case AwaitAdapter(t, e, d) => q.granted == Some((t, e, d))
       case Answered(code, note, _) =>
         && note.correlationId == id && DenialExplains(note)
         && (code == 200 ==>
              && q.granted.Some? && q.call.Some?
              && var (t, e, d) := q.granted.value;
                 && DigestText(sv, e.content).Some?
                 && note == InvokeNote(sv, id, q.body, t, e, d, DigestText(sv, e.content).value))
       case Unwritten(note, _, _, _) => note.correlationId == id
       case Died(why) => why == ServiceThrew || why == DigestThrew
  }

  /** The note a request's append was for. */
  function NoteOf(stage: Stage): Option<Note> {
    match stage
    case Answered(_, note, _) => Some(note)
    case Unwritten(note, _, _, _) => Some(note)
    case _ => None
  }

  /** Once the adapter has answered, the request has ended: with the digest's error when the operation
      succeeded and its envelope does not encode, else with the record its answer calls for, or its error. */
  predicate HeardSound(sv: Services, id: Str, q: Req) {
    match q.heard
    case None => q.stage != Died(DigestThrew)
    case Some(a) =>
      && q.granted.Some?
      && var (t, e, d) := q.granted.value;
         match AdapterTurn(sv, id, q.body, t, e, d, a)
         case Answer(_, note) => NoteOf(q.stage) == Some(note)
         case _ => q.stage == Died(DigestThrew)
  }

  predicate CallMade(calls: seq<Call>, id: Str, q: Req) {
    q.call.Some? ==> q.call.value < |calls| && calls[q.call.value].id == id
  }

  predicate ReqSound(sv: Services, st: State, id: Str, q: Req) {
    && RecordSound(sv, st.log, id, q.stage) && TokenSound(st.b, q) && NonceSound(st.b.b, q) && CallMade(st.calls, id, q)
    && GrantSound(sv, st.manifests, q) && StageSound(sv, id, q)
  }

  predicate TookFirst(q: Req, session: Str, nonce: Str) {
    q.nonce == Took(session, true) && q.body.nonce == nonce
  }

  /** No two requests were each the first use of one nonce in one session. */
  predicate NoncesApart(reqs: map<Str, Req>) {
    forall i, j | i in reqs && j in reqs && i != j && reqs[i].nonce.Took? && reqs[i].nonce.firstUse ::
      !TookFirst(reqs[j], reqs[i].nonce.session, reqs[i].body.nonce)
  }

  /** Nothing untrusted had been registered in the call's session. */
  predicate SessionClean(ops: seq<Op>, call: Call) {
    call.at <= |ops| && forall i :: 0 <= i < call.at && ops[i].session == call.session ==> !Taints(ops[i])
  }

  predicate CallSound(reqs: map<Str, Req>, ops: seq<Op>, call: Call, k: nat) {
    && call.id in reqs
    && var q := reqs[call.id];
       && q.call == Some(k) && TookFirst(q, call.session, call.nonce) && call.operation == q.body.operation
       && call.intent.Some? && call.intent.value in PermittedIntents(call.operation)
       && (Outward(call.intent) ==> SessionClean(ops, call))
       && call.at <= |ops| && q.granted.Some?
       && Route(call.operation, q.granted.value.2.profile) == Some(call.served)
       && HashesDecide(ops[..call.at], call.session, q.granted.value.2)
  }

  /** The predicates of a grant encode exactly when every untrusted hash its session had registered does. */
  predicate HashesDecide(ops: seq<Op>, session: Str, d: Decision) {
    ResultsEncode(d.predicates) <==> TextsEncode(HashesGiven(ops, session))
  }

  predicate CallsSoundOver(reqs: map<Str, Req>, ops: seq<Op>, calls: seq<Call>) {
    forall k :: 0 <= k < |calls| ==> CallSound(reqs, ops, calls[k], k)
  }

  predicate ManifestsSound(st: State) {
    forall m | m in st.manifests :: exists g :: g in st.regs && st.regs[g].joined && st.regs[g].manifest == m
  }

  ghost predicate Base(st: State) {
    st.labels == Run(st.ops) && B.Inv(st.b) && st.reqs.Keys !! st.regs.Keys
  }

  ghost predicate ReqInv(sv: Services, st: State) {
    && Base(st)
    && (forall id | id in st.reqs :: ReqSound(sv, st, id, st.reqs[id]))
    && NoncesApart(st.reqs)
    && CallsSoundOver(st.reqs, st.ops, st.calls)
    && ManifestsSound(st)
  }

  ghost predicate Inv(sv: Services, st: State) {
    R.Inv(sv.log, st.log) && st.log.proc.Some? && ReqInv(sv, st)
  }

  // ---- what each step may do to the requests it is not about ----

  /** At most one record more, and it is `writer`'s. */
  predicate WorldGrows(w: R.World, w': R.World, writer: Str) {
    && w.chain <= w'.chain && |w'.chain| <= |w.chain| + 1
    && (|w'.chain| == |w.chain| + 1 ==> CorrelationOf(w'.chain[|w.chain|]) == Some(writer))
    && (forall r | r in w.returned :: r in w'.returned)
  }

  predicate BindingsGrow(b: B.World, b': B.World) {
    && (forall t | t in b.issued :: t in b'.issued && b'.issued[t] == b.issued[t])
    && (forall s | s in b.b.seenNonces :: s in b'.b.seenNonces && b.b.seenNonces[s] <= b'.b.seenNonces[s])
  }

  /** An append adds its own record exactly when the rename takes effect, and nothing else. */
  ghost predicate AppendSound(sv: Services, w: R.World, entry: Entry, now: nat, fault: Fault)
    requires w.proc.Some? && |entry.fields| == 10
  {
    var w' := Appends(sv, w, entry, now, fault);
    var m, r := w.proc.value, Compose(w.proc.value, entry, now);
    var answer := AppendAnswer(sv.log, w.disk, m, entry, now, fault);
    var commits := R.Commits(sv.log, w.disk, m, entry, now, fault);
    && w'.proc.Some? && WorldGrows(w, w', entry.fields[1])
    && w'.chain == (if commits then w.chain + [r] else w.chain)
    && (answer.Appended? ==> commits && r in w'.returned)
    && (answer.Rejected? ==> !commits && !sv.log.encodes(r))
  }

  ghost predicate Appendable(sv: Services, w: R.World) {
    && w.proc.Some?
    && forall entry: Entry, now: nat, fault: Fault | |entry.fields| == 10 :: AppendSound(sv, w, entry, now, fault)
  }

  lemma LogIsAppendable(sv: Services, w: R.World)
    requires w.proc.Some?
    ensures Appendable(sv, w)
  {
    forall entry: Entry, now: nat, fault: Fault | |entry.fields| == 10 ensures AppendSound(sv, w, entry, now, fault) {
      AppendAdds(sv, w, entry, now, fault);
    }
  }

  lemma AppendAdds(sv: Services, w: R.World, entry: Entry, now: nat, fault: Fault)
    requires w.proc.Some? && |entry.fields| == 10
    ensures AppendSound(sv, w, entry, now, fault)
  {
  }

  lemma BindingsStepGrows(w: B.World, step: B.Step)
    requires B.Inv(w) && B.Enabled(w, step)
    ensures BindingsGrow(w, B.Next(w, step))
  {
  }

  lemma RecordKeeps(sv: Services, w: R.World, w': R.World, writer: Str, id: Str, stage: Stage)
    requires WorldGrows(w, w', writer) && writer != id && RecordSound(sv, w, id, stage)
    ensures RecordSound(sv, w', id, stage)
  {
    match stage {
      case Answered(_, _, at) => OnlyAtKeeps(w.chain, w'.chain, id, at);
      case Unwritten(_, _, _, Some(at)) => OnlyAtKeeps(w.chain, w'.chain, id, at);
      case _ => NoneForKeeps(w.chain, w'.chain, id);
    }
  }

  /** At most one record more, and not this request's. */
  predicate OneMore(chain: seq<Record>, chain': seq<Record>, id: Str) {
    && chain <= chain' && |chain'| <= |chain| + 1
    && (|chain'| == |chain| + 1 ==> CorrelationOf(chain'[|chain|]) != Some(id))
  }

  lemma OnlyAtKeeps(chain: seq<Record>, chain': seq<Record>, id: Str, at: nat)
    requires OneMore(chain, chain', id) && OnlyAt(chain, id, at)
    ensures OnlyAt(chain', id, at) && chain'[at] == chain[at]
  {
    assert forall i :: 0 <= i < |chain'| ==> i == |chain| || chain'[i] == chain[i];
  }

  lemma NoneForKeeps(chain: seq<Record>, chain': seq<Record>, id: Str)
    requires OneMore(chain, chain', id) && NoneFor(chain, id)
    ensures NoneFor(chain', id)
  {
    forall r | r in chain' ensures CorrelationOf(r) != Some(id) {
      var i :| 0 <= i < |chain'| && chain'[i] == r;
      if i < |chain| { assert r == chain[i] && r in chain; }
    }
  }

  lemma ReqKeeps(sv: Services, st: State, st': State, writer: Str, id: Str, q: Req)
    requires ReqSound(sv, st, id, q) && writer != id
    requires WorldGrows(st.log, st'.log, writer) && BindingsGrow(st.b, st'.b) && st.manifests <= st'.manifests
    requires st.calls <= st'.calls
    ensures ReqSound(sv, st', id, q)
  {
    RecordKeeps(sv, st.log, st'.log, writer, id, q.stage);
  }

  // ---- one request's step ----

  /** Everything but request id is sound, and would stay so with q in its place. */
  ghost predicate InvExcept(sv: Services, st: State, id: Str, q: Req) {
    && Base(st) && id !in st.regs
    && (forall i | i in st.reqs && i != id :: ReqSound(sv, st, i, st.reqs[i]))
    && NoncesApart(st.reqs[id := q])
    && CallsSoundOver(st.reqs[id := q], st.ops, st.calls)
    && ManifestsSound(st)
  }

  /** q differs from request id in nothing other requests and calls look at. */
  predicate Follows(st: State, id: Str, q: Req) {
    if id in st.reqs then
      && q.call == st.reqs[id].call
      && (q.call.Some? || (q.nonce.Took? && q.nonce.firstUse) ==> q.nonce == st.reqs[id].nonce)
      && q.body == st.reqs[id].body && (q.call.Some? ==> q.granted == st.reqs[id].granted)
    else q.call.None? && q.nonce == NotAsked
  }

  lemma Excepted(sv: Services, st: State, id: Str, q: Req)
    requires ReqInv(sv, st) && Appendable(sv, st.log) && id !in st.regs && Follows(st, id, q)
    ensures InvExcept(sv, st, id, q)
  {
    forall k | 0 <= k < |st.calls| ensures CallSound(st.reqs[id := q], st.ops, st.calls[k], k) {
      assert CallSound(st.reqs, st.ops, st.calls[k], k);
    }
  }

  lemma StageIsPrivate(st: State, id: Str, q: Req, stage: Stage)
    requires NoncesApart(st.reqs[id := q])
    requires CallsSoundOver(st.reqs[id := q], st.ops, st.calls)
    ensures NoncesApart(st.reqs[id := q.(stage := stage)])
    ensures CallsSoundOver(st.reqs[id := q.(stage := stage)], st.ops, st.calls)
  {
    var was := st.reqs[id := q];
    forall k | 0 <= k < |st.calls| ensures CallSound(st.reqs[id := q.(stage := stage)], st.ops, st.calls[k], k) {
      assert CallSound(was, st.ops, st.calls[k], k);
    }
    var now := st.reqs[id := q.(stage := stage)];
    forall i, j | i in now && j in now && i != j && now[i].nonce.Took? && now[i].nonce.firstUse
      ensures !TookFirst(now[j], now[i].nonce.session, now[i].body.nonce)
    {
      assert !TookFirst(was[j], was[i].nonce.session, was[i].body.nonce);
    }
  }

  /** Request id in its new place is sound, and so is the whole. */
  lemma Placed(sv: Services, st: State, st': State, id: Str, q: Req, stage: Stage)
    requires InvExcept(sv, st, id, q)
    requires st' == st.(log := st'.log, reqs := st.reqs[id := q.(stage := stage)])
    requires WorldGrows(st.log, st'.log, id)
    requires ReqSound(sv, st', id, q.(stage := stage))
    ensures ReqInv(sv, st')
  {
    StageIsPrivate(st, id, q, stage);
    forall i | i in st'.reqs ensures ReqSound(sv, st', i, st'.reqs[i]) {
      if i != id { ReqKeeps(sv, st, st', id, i, st.reqs[i]); }
    }
  }

  /** All of a request but where it stands and what is recorded of it. */
  predicate DataSound(sv: Services, st: State, id: Str, q: Req) {
    CallMade(st.calls, id, q) && TokenSound(st.b, q) && NonceSound(st.b.b, q) && GrantSound(sv, st.manifests, q)
  }

  predicate Pending(stage: Stage) { !stage.Answered? && !stage.Unwritten? && !stage.Died? }

  predicate TurnSound(sv: Services, id: Str, q: Req, turn: Turn) {
    match turn
    case Answer(code, note) => note.correlationId == id && StageSound(sv, id, q.(stage := Answered(code, note, 0)))
    case Go(next) => Pending(next) && StageSound(sv, id, q.(stage := next))
    case Throw(why) => StageSound(sv, id, q.(stage := Died(why)))
  }

  lemma AnswerRecorded(sv: Services, w: R.World, id: Str, note: Note, code: nat, now: nat, fault: Fault)
    requires Appendable(sv, w) && NoneFor(w.chain, id) && note.correlationId == id
    ensures RecordSound(sv, Appends(sv, w, EntryOf(sv, note), now, fault), id,
                        StageAfter(sv, w, code, note, now, fault))
  {
    assert AppendSound(sv, w, EntryOf(sv, note), now, fault);
    assert forall i :: 0 <= i < |w.chain| ==> w.chain[i] in w.chain;
  }

  lemma AnswerKeeps(sv: Services, st: State, id: Str, q: Req, code: nat, note: Note, now: nat, fault: Fault)
    requires InvExcept(sv, st, id, q) && Appendable(sv, st.log) && DataSound(sv, st, id, q) && NoneFor(st.log.chain, id)
    requires TurnSound(sv, id, q, Invoke.Answer(code, note))
    ensures ReqInv(sv, Concludes(sv, st, id, q, Invoke.Answer(code, note), now, fault))
  {
    var st' := Concludes(sv, st, id, q, Invoke.Answer(code, note), now, fault);
    assert AppendSound(sv, st.log, EntryOf(sv, note), now, fault);
    AnswerRecorded(sv, st.log, id, note, code, now, fault);
    var stage := st'.reqs[id].stage;
    AnswerStageSound(sv, id, q, code, note, stage);
    assert ReqSound(sv, st', id, q.(stage := stage));
    Placed(sv, st, st', id, q, stage);
  }

  lemma AnswerStageSound(sv: Services, id: Str, q: Req, code: nat, note: Note, stage: Stage)
    requires TurnSound(sv, id, q, Invoke.Answer(code, note))
    requires (stage.Answered? && stage.code == code && stage.note == note) || (stage.Unwritten? && stage.note == note)
    ensures StageSound(sv, id, q.(stage := stage))
  {
    assert StageSound(sv, id, q.(stage := Answered(code, note, 0)));
  }

  /** A stretch that ends in an answer leaves exactly one record of it; any other leaves none that counts. */
  lemma ConcludesKeeps(sv: Services, st: State, id: Str, q: Req, turn: Turn, now: nat, fault: Fault)
    requires InvExcept(sv, st, id, q) && Appendable(sv, st.log) && DataSound(sv, st, id, q)
    requires TurnSound(sv, id, q, turn) && NoneFor(st.log.chain, id)
    ensures ReqInv(sv, Concludes(sv, st, id, q, turn, now, fault))
  {
    match turn {
      case Answer(code, note) => AnswerKeeps(sv, st, id, q, code, note, now, fault);
      case Go(next) => StageKeeps(sv, st, id, q, next);
      case Throw(why) => StageKeeps(sv, st, id, q, Died(why));
    }
  }

  lemma StageKeeps(sv: Services, st: State, id: Str, q: Req, stage: Stage)
    requires InvExcept(sv, st, id, q) && Appendable(sv, st.log) && DataSound(sv, st, id, q) && NoneFor(st.log.chain, id)
    requires StageSound(sv, id, q.(stage := stage)) && !stage.Answered? && !stage.Unwritten?
    ensures ReqInv(sv, st.(reqs := st.reqs[id := q.(stage := stage)]))
  {
    assert forall i :: 0 <= i < |st.log.chain| ==> st.log.chain[i] in st.log.chain;
    Placed(sv, st, st.(reqs := st.reqs[id := q.(stage := stage)]), id, q, stage);
  }

  // ---- every event keeps the invariant ----

  lemma ReceiveKeeps(sv: Services, st: State, id: Str, body: Option<Body>, now: nat, fault: Fault)
    requires ReqInv(sv, st) && Appendable(sv, st.log) && Unused(st, id)
    ensures ReqInv(sv, ReceiveStep(sv, st, id, body, now, fault))
  {
    var q := NewReq(body);
    Excepted(sv, st, id, q);
    ConcludesKeeps(sv, st, id, q, ShapeTurn(id, body), now, fault);
  }

  lemma VerifyWorkKeeps(sv: Services, st: State, id: Str, clock: int)
    requires ReqInv(sv, st) && Appendable(sv, st.log) && AwaitsToken(st, id) && st.reqs[id].verified.None?
    ensures ReqInv(sv, VerifyStep(st, id, clock))
  {
    var q := st.reqs[id];
    assert ReqSound(sv, st, id, q);
    var v := B.Verify(st.b.b, q.body.token, clock);
    var q' := q.(verified := Some(v), verifiedAt := clock, verifiedIn := st.b.b);
    if v.ValidToken? { B.VerifiedIsFree(st.b, q.body.token, clock); }
    Excepted(sv, st, id, q');
    StageKeeps(sv, st, id, q', q.stage);
  }

  lemma EnvelopeWorkKeeps(sv: Services, st: State, id: Str, clock: int)
    requires ReqInv(sv, st) && Appendable(sv, st.log) && AwaitsEnvelope(st, id) && st.reqs[id].checked.None?
    ensures ReqInv(sv, CheckStep(sv, st, id, clock))
  {
    var q := st.reqs[id];
    var q' := q.(checked := Some(CheckEnvelope(sv, q.body, clock)), checkedAt := clock);
    PendingSound(sv, st, id, q);
    CheckedSound(sv, st, id, q, clock);
    Excepted(sv, st, id, q');
    StageKeeps(sv, st, id, q', q.stage);
  }

  lemma CheckedSound(sv: Services, st: State, id: Str, q: Req, clock: int)
    requires DataSound(sv, st, id, q) && StageSound(sv, id, q) && q.stage.AwaitEnvelope?
    ensures var q' := q.(checked := Some(CheckEnvelope(sv, q.body, clock)), checkedAt := clock);
            DataSound(sv, st, id, q') && StageSound(sv, id, q')
  {
  }

  lemma TokenStepKeeps(sv: Services, st: State, id: Str, now: nat, fault: Fault)
    requires ReqInv(sv, st) && Appendable(sv, st.log) && AwaitsToken(st, id) && st.reqs[id].verified.Some?
    ensures ReqInv(sv, TokenStep(sv, st, id, st.reqs[id], now, fault))
  {
    var q := st.reqs[id];
    assert ReqSound(sv, st, id, q);
    var turn := TokenTurn(id, q.verified.value);
    var q' := if turn.Go? then q.(nonce := Asked(turn.next.token.sessionId)) else q;
    TokenTurnSound(sv, st, id, q);
    Excepted(sv, st, id, q');
    ConcludesKeeps(sv, st, id, q', turn, now, fault);
  }

  lemma TokenTurnSound(sv: Services, st: State, id: Str, q: Req)
    requires B.Inv(st.b) && ReqSound(sv, st, id, q) && q.stage.AwaitToken? && q.verified.Some?
    ensures var turn := TokenTurn(id, q.verified.value);
            var q' := if turn.Go? then q.(nonce := Asked(turn.next.token.sessionId)) else q;
            TurnSound(sv, id, q', turn) && DataSound(sv, st, id, q') && NoneFor(st.log.chain, id)
  {
  }

  lemma NonceArrivesKeeps(sv: Services, st: State, id: Str, now: nat, fault: Fault)
    requires ReqInv(sv, st) && Appendable(sv, st.log) && AwaitsNonce(st, id) && st.reqs[id].nonce.Took?
    ensures ReqInv(sv, NonceStep(sv, st, id, st.reqs[id], now, fault))
  {
    var q := st.reqs[id];
    PendingSound(sv, st, id, q);
    NonceTurnSound(sv, id, q);
    Excepted(sv, st, id, q);
    ConcludesKeeps(sv, st, id, q, NonceTurn(id, q.stage.token, q.nonce.firstUse), now, fault);
  }

  lemma NonceTurnSound(sv: Services, id: Str, q: Req)
    requires StageSound(sv, id, q) && q.stage.AwaitNonce? && q.nonce.Took?
    ensures TurnSound(sv, id, q, NonceTurn(id, q.stage.token, q.nonce.firstUse))
  {
  }

  lemma AdapterArrivesKeeps(sv: Services, st: State, id: Str, a: AdapterAnswer, now: nat, fault: Fault)
    requires ReqInv(sv, st) && Appendable(sv, st.log) && AwaitsAdapter(st, id, a)
    ensures ReqInv(sv, AdapterStep(sv, st, id, st.reqs[id], a, now, fault))
  {
    var q := st.reqs[id];
    assert ReqSound(sv, st, id, q);
    var q' := q.(heard := Some(a));
    Excepted(sv, st, id, q');
    var turn := AdapterTurn(sv, id, q.body, q.stage.token, q.stage.envelope, q.stage.decision, a);
    AdapterTurnSound(sv, st, id, q, a);
    ConcludesKeeps(sv, st, id, q', turn, now, fault);
  }

  /** What the adapter's answer leads to fits what was granted. */
  lemma AdapterTurnSound(sv: Services, st: State, id: Str, q: Req, a: AdapterAnswer)
    requires ReqSound(sv, st, id, q) && q.stage.AwaitAdapter?
    requires CallsTransport(q) || a == AdapterRefusal(q.body.operation)
    ensures TurnSound(sv, id, q.(heard := Some(a)),
                      AdapterTurn(sv, id, q.body, q.stage.token, q.stage.envelope, q.stage.decision, a))
  {
  }

  lemma DeadlineKeeps(sv: Services, st: State, id: Str, now: nat, fault: Fault)
    requires ReqInv(sv, st) && Appendable(sv, st.log)
    requires AwaitsToken(st, id) || AwaitsNonce(st, id) || AwaitsEnvelope(st, id) || AwaitsTransport(st, id)
    ensures ReqInv(sv, DeadlineStep(sv, st, id, st.reqs[id], now, fault))
  {
    var q := st.reqs[id];
    assert ReqSound(sv, st, id, q);
    PendingSound(sv, st, id, q);
    DeadlineTurnSound(sv, id, q);
    Excepted(sv, st, id, q);
    ConcludesKeeps(sv, st, id, q, DeadlineTurn(id, q.body, q.stage), now, fault);
  }

  /** What a request that has not ended owes. */
  lemma PendingSound(sv: Services, st: State, id: Str, q: Req)
    requires ReqSound(sv, st, id, q) && Pending(q.stage)
    ensures DataSound(sv, st, id, q) && NoneFor(st.log.chain, id) && StageSound(sv, id, q)
    ensures StageSound(sv, id, q.(stage := Died(ServiceThrew)))
  {
  }

  lemma DeadlineTurnSound(sv: Services, id: Str, q: Req)
    requires StageSound(sv, id, q) && Pending(q.stage)
    ensures TurnSound(sv, id, q, DeadlineTurn(id, q.body, q.stage))
  {
  }

  lemma ThrowsKeeps(sv: Services, st: State, id: Str)
    requires ReqInv(sv, st) && Appendable(sv, st.log)
    requires AwaitsToken(st, id) || AwaitsNonce(st, id) || AwaitsTransport(st, id)
    ensures ReqInv(sv, ThrowStep(st, id))
  {
    DeathKeeps(sv, st, id, st.reqs[id]);
  }

  lemma DeathKeeps(sv: Services, st: State, id: Str, q: Req)
    requires ReqInv(sv, st) && Appendable(sv, st.log) && id in st.reqs && q == st.reqs[id] && Pending(q.stage)
    ensures ReqInv(sv, st.(reqs := st.reqs[id := q.(stage := Died(ServiceThrew))]))
  {
    PendingSound(sv, st, id, q);
    Excepted(sv, st, id, q);
    StageKeeps(sv, st, id, q, Died(ServiceThrew));
  }

  /** Work on a nonce may finish in any stage, even after the request was answered. */
  lemma NonceWorksKeeps(sv: Services, st: State, id: Str)
    requires ReqInv(sv, st) && Appendable(sv, st.log) && id in st.reqs && st.reqs[id].nonce.Asked?
    ensures ReqInv(sv, NonceWorkStep(st, id))
  {
    var q, st' := st.reqs[id], NonceWorkStep(st, id);
    var step := B.Consume(q.body.nonce, q.nonce.session);
    assert ReqSound(sv, st, id, q);
    assert B.Inv(st'.b) && BindingsGrow(st.b, st'.b) by {
      B.StepKeeps(st.b, step);
      BindingsStepGrows(st.b, step);
    }
    NonceTaken(sv, st, st', id);
    NonceTakenSound(sv, st, id);
    NonceTakenElsewhere(sv, st, st', id, st'.reqs[id]);
  }

  /** What one request's nonce work leaves alone. */
  lemma NonceTakenElsewhere(sv: Services, st: State, st': State, id: Str, q: Req)
    requires ReqInv(sv, st) && id in st.reqs && st.reqs[id].call.None?
    requires st' == st.(b := st'.b, reqs := st.reqs[id := q]) && B.Inv(st'.b) && BindingsGrow(st.b, st'.b)
    requires NoncesApart(st'.reqs) && ReqSound(sv, st', id, q)
    ensures ReqInv(sv, st')
  {
    UncalledIsPrivate(st.reqs, st.ops, st.calls, id, q);
    forall i | i in st'.reqs ensures ReqSound(sv, st', i, st'.reqs[i]) {
      if i != id { ReqKeeps(sv, st, st', id, i, st.reqs[i]); }
    }
  }

  /** No call is about a request that made none. */
  lemma UncalledIsPrivate(reqs: map<Str, Req>, ops: seq<Op>, calls: seq<Call>, id: Str, q: Req)
    requires CallsSoundOver(reqs, ops, calls) && id in reqs && reqs[id].call.None?
    ensures CallsSoundOver(reqs[id := q], ops, calls)
  {
    forall k | 0 <= k < |calls| ensures CallSound(reqs[id := q], ops, calls[k], k) {
      assert CallSound(reqs, ops, calls[k], k);
    }
  }

  lemma NonceTakenSound(sv: Services, st: State, id: Str)
    requires id in st.reqs && st.reqs[id].nonce.Asked? && ReqSound(sv, st, id, st.reqs[id])
    ensures ReqSound(sv, NonceWorkStep(st, id), id, NonceWorkStep(st, id).reqs[id])
  {
  }

  lemma NonceTaken(sv: Services, st: State, st': State, id: Str)
    requires ReqInv(sv, st) && Appendable(sv, st.log) && id in st.reqs && st.reqs[id].nonce.Asked?
             && st' == NonceWorkStep(st, id)
    ensures NoncesApart(st'.reqs)
  {
    var q := st.reqs[id];
    forall j | j in st.reqs && TookFirst(st.reqs[j], q.nonce.session, q.body.nonce)
      ensures !B.FirstUse(st.b.b, q.nonce.session, q.body.nonce)
    {
      assert ReqSound(sv, st, j, st.reqs[j]);
    }
    forall i, j | i in st'.reqs && j in st'.reqs && i != j && st'.reqs[i].nonce.Took? && st'.reqs[i].nonce.firstUse
      ensures !TookFirst(st'.reqs[j], st'.reqs[i].nonce.session, st'.reqs[i].body.nonce)
    {
      if i != id && j != id {
        assert !TookFirst(st.reqs[j], st.reqs[i].nonce.session, st.reqs[i].body.nonce);
      } else if j == id {
        assert TookFirst(st.reqs[i], st.reqs[i].nonce.session, st.reqs[i].body.nonce);
      }
    }
  }

  lemma AllowedOutwardIsUntainted(role: Option<Role>, body: Body, t: B.TokenState, e: Envelope, labels: Store)
    requires Judge(role, PolicyInput(body, t, e, labels)).allowed && Outward(IntentNamed(e.intent))
    ensures !Tainted(GetLabel(labels, t.sessionId))
  {
    AllowedExactly(role, PolicyInput(body, t, e, labels));
  }

  /** An allowed outward intent means the session had registered nothing untrusted. */
  lemma AllowedOutwardIsClean(role: Option<Role>, body: Body, t: B.TokenState, e: Envelope, labels: Store, ops: seq<Op>)
    requires labels == Run(ops) && Judge(role, PolicyInput(body, t, e, labels)).allowed
             && Outward(IntentNamed(e.intent))
    ensures forall i :: 0 <= i < |ops| && ops[i].session == t.sessionId ==> !Taints(ops[i])
  {
    AllowedOutwardIsUntainted(role, body, t, e, labels);
    TaintedExactly(ops, t.sessionId);
  }

  /** What getting past every layer means. */
  lemma GoMeansCleared(sv: Services, bundle: Option<Bundle>, manifests: set<Str>, labels: Store,
                       id: Str, body: Body, t: B.TokenState, check: EnvelopeCheck)
    requires EnvelopeTurn(sv, bundle, manifests, labels, id, body, t, check).Go?
    ensures var next := EnvelopeTurn(sv, bundle, manifests, labels, id, body, t, check).next;
            && next.AwaitAdapter? && next.token == t && check == Good(next.envelope)
            && next.decision == Judge(RoleNamed(bundle, t.role), PolicyInput(body, t, next.envelope, labels))
            && Cleared(manifests, body, next.envelope, next.decision)
            && Judge(RoleNamed(bundle, t.role), PolicyInput(body, t, next.envelope, labels)).allowed
  {
    var next := EnvelopeTurn(sv, bundle, manifests, labels, id, body, t, check).next;
    AllowedExactly(RoleNamed(bundle, t.role), PolicyInput(body, t, next.envelope, labels));
    JudgeListsAll(RoleNamed(bundle, t.role), PolicyInput(body, t, next.envelope, labels));
  }

  lemma NoncesIgnoreRest(reqs: map<Str, Req>, id: Str, q: Req)
    requires NoncesApart(reqs) && id in reqs && q.nonce == reqs[id].nonce && q.body == reqs[id].body
    ensures NoncesApart(reqs[id := q])
  {
    var now := reqs[id := q];
    forall i, j | i in now && j in now && i != j && now[i].nonce.Took? && now[i].nonce.firstUse
      ensures !TookFirst(now[j], now[i].nonce.session, now[i].body.nonce)
    {
      assert !TookFirst(reqs[j], reqs[i].nonce.session, reqs[i].body.nonce);
    }
  }

  lemma CallsGrow(sv: Services, st: State, made: Call)
    requires forall i | i in st.reqs :: ReqSound(sv, st, i, st.reqs[i])
    ensures forall i | i in st.reqs :: ReqSound(sv, st.(calls := st.calls + [made]), i, st.reqs[i])
  {
    forall i | i in st.reqs ensures ReqSound(sv, st.(calls := st.calls + [made]), i, st.reqs[i]) {
      assert ReqSound(sv, st, i, st.reqs[i]);
    }
  }

  lemma CallAdded(sv: Services, st: State, id: Str, q: Req, q': Req, made: Call)
    requires ReqInv(sv, st) && Appendable(sv, st.log) && id in st.reqs && id !in st.regs && q == st.reqs[id]
             && q.call.None?
    requires q' == q.(granted := q'.granted, under := q'.under, call := Some(|st.calls|))
    requires CallSound(st.reqs[id := q'], st.ops, made, |st.calls|)
    ensures InvExcept(sv, st.(calls := st.calls + [made]), id, q')
  {
    CallsSoundAdded(st.reqs, st.ops, st.calls, made, id, q');
    CallsGrow(sv, st, made);
    NoncesIgnoreRest(st.reqs, id, q');
  }

  lemma CallsSoundAdded(reqs: map<Str, Req>, ops: seq<Op>, calls: seq<Call>, made: Call, id: Str, q: Req)
    requires CallsSoundOver(reqs, ops, calls) && id in reqs && reqs[id].call.None?
    requires CallSound(reqs[id := q], ops, made, |calls|)
    ensures CallsSoundOver(reqs[id := q], ops, calls + [made])
  {
    forall k | 0 <= k < |calls + [made]| ensures CallSound(reqs[id := q], ops, (calls + [made])[k], k) {
      if k < |calls| { assert CallSound(reqs, ops, calls[k], k); }
    }
  }

  lemma EnvelopeTurnAnswers(sv: Services, bundle: Option<Bundle>, manifests: set<Str>, labels: Store,
                            id: Str, body: Body, t: B.TokenState, check: EnvelopeCheck)
    requires !EnvelopeTurn(sv, bundle, manifests, labels, id, body, t, check).Go?
    ensures var turn := EnvelopeTurn(sv, bundle, manifests, labels, id, body, t, check);
            turn.Answer? && turn.note.correlationId == id && turn.code != 200 && DenialExplains(turn.note)
  {
    if check.Good? {
      var role, input := RoleNamed(bundle, t.role), PolicyInput(body, t, check.envelope, labels);
      if !Judge(role, input).allowed {
        DenialExplained(role, input);
        DeniedExplains(id, body, t, check.envelope, Judge(role, input));
      }
    }
  }

  lemma DeniedExplains(id: Str, body: Body, t: B.TokenState, e: Envelope, d: Decision)
    requires d.denyReasonCode.Some? && Explains(d.predicates, d.denyReasonCode)
    ensures DenialExplains(DeniedNote(id, body, t, e, d))
  {
  }

  lemma EnvelopeStepKeeps(sv: Services, st: State, id: Str, now: nat, fault: Fault)
    requires ReqInv(sv, st) && Appendable(sv, st.log) && AwaitsEnvelope(st, id) && st.reqs[id].checked.Some?
    ensures ReqInv(sv, EnvelopeStep(sv, st, id, st.reqs[id], now, fault))
  {
    var q := st.reqs[id];
    var t := q.stage.token;
    var turn := EnvelopeTurn(sv, st.bundle, st.manifests, st.labels, id, q.body, t, q.checked.value);
    if turn.Go? {
      GrantKeeps(sv, st, id, now, fault);
    } else {
      EnvelopeTurnAnswers(sv, st.bundle, st.manifests, st.labels, id, q.body, t, q.checked.value);
      RefusedKeeps(sv, st, id, turn, now, fault);
    }
  }

  /** A layer that refuses answers, and not with 200. */
  lemma RefusedKeeps(sv: Services, st: State, id: Str, turn: Turn, now: nat, fault: Fault)
    requires ReqInv(sv, st) && Appendable(sv, st.log) && AwaitsEnvelope(st, id)
    requires turn.Answer? && turn.note.correlationId == id && turn.code != 200 && DenialExplains(turn.note)
    ensures ReqInv(sv, Concludes(sv, st, id, st.reqs[id], turn, now, fault))
  {
    var q := st.reqs[id];
    assert ReqSound(sv, st, id, q);
    Excepted(sv, st, id, q);
    ConcludesKeeps(sv, st, id, q, turn, now, fault);
  }

  lemma GrantKeeps(sv: Services, st: State, id: Str, now: nat, fault: Fault)
    requires ReqInv(sv, st) && Appendable(sv, st.log) && AwaitsEnvelope(st, id) && st.reqs[id].checked.Some?
    requires var q := st.reqs[id];
             EnvelopeTurn(sv, st.bundle, st.manifests, st.labels, id, q.body, q.stage.token, q.checked.value).Go?
    ensures ReqInv(sv, EnvelopeStep(sv, st, id, st.reqs[id], now, fault))
  {
    var q := st.reqs[id];
    var t := q.stage.token;
    var turn := EnvelopeTurn(sv, st.bundle, st.manifests, st.labels, id, q.body, t, q.checked.value);
    GoMeansCleared(sv, st.bundle, st.manifests, st.labels, id, q.body, t, q.checked.value);
    var e := turn.next.envelope;
    if Outward(IntentNamed(e.intent)) {
      AllowedOutwardIsClean(RoleNamed(st.bundle, t.role), q.body, t, e, st.labels, st.ops);
    }
    GrantHashes(RoleNamed(st.bundle, t.role), q.body, t, e, st.labels, st.ops);
    Granted(sv, st, id, t, e, turn.next.decision);
    GoIsGrant(sv, st, id, now, fault);
  }

  lemma GrantHashes(role: Option<Role>, body: Body, t: B.TokenState, e: Envelope, labels: Store, ops: seq<Op>)
    requires labels == Run(ops) && Judge(role, PolicyInput(body, t, e, labels)).allowed
    ensures HashesDecide(ops, t.sessionId, Judge(role, PolicyInput(body, t, e, labels)))
  {
    AllowedResultsEncode(role, PolicyInput(body, t, e, labels));
    AncestorsEncode(ops, t.sessionId);
  }

  lemma GoIsGrant(sv: Services, st: State, id: Str, now: nat, fault: Fault)
    requires st.log.proc.Some? && AwaitsEnvelope(st, id) && st.reqs[id].checked.Some?
    requires var q := st.reqs[id];
             EnvelopeTurn(sv, st.bundle, st.manifests, st.labels, id, q.body, q.stage.token, q.checked.value).Go?
    ensures var q := st.reqs[id];
            var next := EnvelopeTurn(sv, st.bundle, st.manifests, st.labels, id, q.body, q.stage.token,
                                     q.checked.value).next;
            next.AwaitAdapter?
            && EnvelopeStep(sv, st, id, q, now, fault) == Grant(st, id, q.stage.token, next.envelope, next.decision)
  {
    var q := st.reqs[id];
    GoMeansCleared(sv, st.bundle, st.manifests, st.labels, id, q.body, q.stage.token, q.checked.value);
  }

  /** The state once a request is past every layer. */
  function Grant(st: State, id: Str, t: B.TokenState, e: Envelope, d: Decision): State
    requires id in st.reqs
  {
    var q := st.reqs[id];
    var served := Route(q.body.operation, d.profile);
    st.(calls := st.calls + MadeCalls(st, id, t, e, served),
        reqs := st.reqs[id := q.(granted := Some((t, e, d)), under := st.bundle,
                                 call := if served.Some? then Some(|st.calls|) else None,
                                 stage := AwaitAdapter(t, e, d))])
  }

  lemma Granted(sv: Services, st: State, id: Str, t: B.TokenState, e: Envelope, d: Decision)
    requires ReqInv(sv, st) && Appendable(sv, st.log) && AwaitsEnvelope(st, id)
    requires st.reqs[id].checked == Some(Good(e)) && st.reqs[id].stage.token == t
             && Cleared(st.manifests, st.reqs[id].body, e, d)
    requires Outward(IntentNamed(e.intent)) ==>
               forall i :: 0 <= i < |st.ops| && st.ops[i].session == t.sessionId ==> !Taints(st.ops[i])
    requires HashesDecide(st.ops, t.sessionId, d)
    ensures ReqInv(sv, Grant(st, id, t, e, d))
  {
    var q, st' := st.reqs[id], Grant(st, id, t, e, d);
    assert ReqSound(sv, st, id, q);
    var q' := q.(granted := Some((t, e, d)), under := st.bundle, call := st'.reqs[id].call);
    var served := Route(q.body.operation, d.profile);
    if served.Some? {
      var made := MadeCalls(st, id, t, e, served)[0];
      MadeSound(st.reqs, st.ops, id, q, made, t, e, d, st.bundle, |st.calls|);
      CallAdded(sv, st, id, q, q', made);
    } else {
      Excepted(sv, st, id, q');
      assert st.calls + [] == st.calls;
    }
    GrantedSound(sv, st, id, q, t, e, d);
    StageKeeps(sv, st.(calls := st'.calls), id, q', AwaitAdapter(t, e, d));
  }

  lemma MadeSound(reqs: map<Str, Req>, ops: seq<Op>, id: Str, q: Req, made: Call, t: B.TokenState, e: Envelope,
                  d: Decision, bundle: Option<Bundle>, k: nat)
    requires TookFirst(q, t.sessionId, q.body.nonce) && Permitted(q.body.operation, e.intent)
    requires Route(q.body.operation, d.profile) == Some(made.served)
    requires made
             == Call(id, t.sessionId, q.body.nonce, q.body.operation, IntentNamed(e.intent), |ops|, made.served)
    requires Outward(IntentNamed(e.intent)) ==>
               forall i :: 0 <= i < |ops| && ops[i].session == t.sessionId ==> !Taints(ops[i])
    requires HashesDecide(ops, t.sessionId, d)
    ensures CallSound(reqs[id := q.(granted := Some((t, e, d)), under := bundle, call := Some(k))], ops, made, k)
  {
    assert ops[..|ops|] == ops;
  }

  /** A request past every layer owes what a grant owes. */
  lemma GrantedSound(sv: Services, st: State, id: Str, q: Req, t: B.TokenState, e: Envelope, d: Decision)
    requires ReqSound(sv, st, id, q) && q.stage == AwaitEnvelope(t) && q.checked == Some(Good(e)) && id in st.reqs
    requires q == st.reqs[id] && Cleared(st.manifests, q.body, e, d)
    ensures var st' := Grant(st, id, t, e, d);
            var q' := q.(granted := st'.reqs[id].granted, under := st'.reqs[id].under, call := st'.reqs[id].call);
            && DataSound(sv, st.(calls := st'.calls), id, q') && NoneFor(st.log.chain, id)
            && StageSound(sv, id, q'.(stage := AwaitAdapter(t, e, d)))
  {
  }

  // ---- events that are about no request ----

  /** Requests, calls and nonces untouched; the rest grew. */
  lemma Elsewheres(sv: Services, st: State, st': State, writer: Str)
    requires ReqInv(sv, st) && Appendable(sv, st.log) && Base(st') && ManifestsSound(st')
    requires st'.reqs == st.reqs && st'.calls == st.calls && st.ops <= st'.ops
    requires writer !in st.reqs && WorldGrows(st.log, st'.log, writer)
    requires BindingsGrow(st.b, st'.b) && st.manifests <= st'.manifests
    ensures ReqInv(sv, st')
  {
    forall i | i in st'.reqs ensures ReqSound(sv, st', i, st'.reqs[i]) { ReqKeeps(sv, st, st', writer, i, st.reqs[i]); }
    CallsStay(st.reqs, st.ops, st'.ops, st.calls);
  }

  /** Later registrations are not a call's. */
  lemma CallsStay(reqs: map<Str, Req>, ops: seq<Op>, ops': seq<Op>, calls: seq<Call>)
    requires CallsSoundOver(reqs, ops, calls) && ops <= ops'
    ensures CallsSoundOver(reqs, ops', calls)
  {
    forall k | 0 <= k < |calls| ensures CallSound(reqs, ops', calls[k], k) {
      assert CallSound(reqs, ops, calls[k], k);
      assert ops'[..calls[k].at] == ops[..calls[k].at];
    }
  }

  lemma RunGrows(ops: seq<Op>, op: Op)
    ensures Run(ops + [op]) == Apply(Run(ops), op)
  {
    assert (ops + [op])[..|ops|] == ops;
  }

  /** A manifest is only ever added by the registration that names it. */
  lemma ManifestAdded(st: State, st': State, id: Str)
    requires ManifestsSound(st) && id in st.regs && id in st'.regs && st'.regs == st.regs[id := st'.regs[id]]
    requires st'.regs[id].joined && st'.regs[id].manifest == st.regs[id].manifest
    requires st'.manifests == st.manifests + {st.regs[id].manifest}
    ensures ManifestsSound(st')
  {
    forall m | m in st'.manifests ensures exists h :: h in st'.regs && st'.regs[h].joined && st'.regs[h].manifest == m {
      if m in st.manifests {
        var h :| h in st.regs && st.regs[h].joined && st.regs[h].manifest == m;
        assert st'.regs[h].joined && st'.regs[h].manifest == m;
      } else {
        assert st'.regs[id].joined && st'.regs[id].manifest == m;
      }
    }
  }

  /** The same regs but for one that is done; no manifest added. */
  lemma ManifestsStay(st: State, st': State, id: Str, g: Reg)
    requires ManifestsSound(st) && st'.regs == st.regs[id := g] && st'.manifests == st.manifests
    requires id in st.regs ==> g.joined == st.regs[id].joined && g.manifest == st.regs[id].manifest
    ensures ManifestsSound(st')
  {
    forall m | m in st'.manifests ensures exists h :: h in st'.regs && st'.regs[h].joined && st'.regs[h].manifest == m {
      var h :| h in st.regs && st.regs[h].joined && st.regs[h].manifest == m;
      assert st'.regs[h].joined && st'.regs[h].manifest == m;
    }
  }

  /** A registration is labelled and recorded in one stretch. */
  lemma JoinKeeps(sv: Services, st: State, st': State, id: Str, op: Op, entry: Entry, now: nat, fault: Fault)
    requires ReqInv(sv, st) && Appendable(sv, st.log) && id !in st.reqs && |entry.fields| == 10 && entry.fields[1] == id
    requires ManifestsSound(st') && st.manifests <= st'.manifests && st'.regs.Keys == st.regs.Keys
    requires st' == st.(regs := st'.regs, manifests := st'.manifests, labels := Apply(st.labels, op),
                        ops := st.ops + [op],
                        log := Appends(sv, st.log, entry, now, fault))
    ensures ReqInv(sv, st')
  {
    assert AppendSound(sv, st.log, entry, now, fault);
    RunGrows(st.ops, op);
    Elsewheres(sv, st, st', id);
  }

  lemma RegJoins(sv: Services, st: State, id: Str, t: B.TokenState, now: nat, fault: Fault)
    requires ReqInv(sv, st) && Appendable(sv, st.log) && RegReady(st, id)
    requires st.regs[id].verified == Some(B.ValidToken(t)) && t.sessionId != []
    ensures ReqInv(sv, RegStep(sv, st, id, st.regs[id], now, fault))
  {
    var g, st' := st.regs[id], RegStep(sv, st, id, st.regs[id], now, fault);
    var op := Registers(t.sessionId, g.elements, Some(id), now);
    ManifestAdded(st, st', id);
    var note := RegNote(id, g.manifest, |g.elements|, t, GetLabel(Apply(st.labels, op), t.sessionId));
    JoinKeeps(sv, st, st', id, op, EntryOf(sv, note), now, fault);
  }

  /** A record that is no invoke's. */
  lemma WriteKeeps(sv: Services, st: State, st': State, entry: Entry, now: nat, fault: Fault)
    requires ReqInv(sv, st) && Appendable(sv, st.log) && |entry.fields| == 10 && entry.fields[1] !in st.reqs
    requires ManifestsSound(st') && st'.regs.Keys == st.regs.Keys
    requires st' == st.(regs := st'.regs, log := Appends(sv, st.log, entry, now, fault))
    ensures ReqInv(sv, st')
  {
    assert AppendSound(sv, st.log, entry, now, fault);
    Elsewheres(sv, st, st', entry.fields[1]);
  }

  lemma RegRefusedKeeps(sv: Services, st: State, id: Str, t: B.TokenState, now: nat, fault: Fault)
    requires ReqInv(sv, st) && Appendable(sv, st.log) && RegReady(st, id)
    requires st.regs[id].verified == Some(B.ValidToken(t)) && t.sessionId == []
    ensures ReqInv(sv, RegStep(sv, st, id, st.regs[id], now, fault))
  {
    var st' := RegStep(sv, st, id, st.regs[id], now, fault);
    ManifestsStay(st, st', id, st'.regs[id]);
    WriteKeeps(sv, st, st', EntryOf(sv, RefusedRegNote(id, t)), now, fault);
  }

  lemma RegArrivesKeeps(sv: Services, st: State, id: Str, now: nat, fault: Fault)
    requires ReqInv(sv, st) && Appendable(sv, st.log) && RegReady(st, id)
    ensures ReqInv(sv, RegStep(sv, st, id, st.regs[id], now, fault))
  {
    match st.regs[id].verified.value {
      case Invalid(_) =>
        var st' := RegStep(sv, st, id, st.regs[id], now, fault);
        ManifestsStay(st, st', id, st'.regs[id]);
        Elsewheres(sv, st, st', id);
      case ValidToken(t) =>
        if t.sessionId != [] {
          RegJoins(sv, st, id, t, now, fault);
        } else {
          RegRefusedKeeps(sv, st, id, t, now, fault);
        }
    }
  }

  lemma RegReceiveKeeps(sv: Services, st: State, id: Str, token: Str, elements: seq<Element>, manifest: Str)
    requires ReqInv(sv, st) && Appendable(sv, st.log) && Unused(st, id)
    ensures ReqInv(sv, RegReceiveStep(st, id, token, elements, manifest))
  {
    var st' := RegReceiveStep(st, id, token, elements, manifest);
    forall m | m in st'.manifests ensures exists h :: h in st'.regs && st'.regs[h].joined && st'.regs[h].manifest == m {
      var h :| h in st.regs && st.regs[h].joined && st.regs[h].manifest == m;
      assert st'.regs[h].joined && st'.regs[h].manifest == m;
    }
    Elsewheres(sv, st, st', id);
  }

  lemma RegVerifiesKeeps(sv: Services, st: State, id: Str, clock: int)
    requires ReqInv(sv, st) && Appendable(sv, st.log) && id in st.regs
    ensures ReqInv(sv, RegVerifyStep(st, id, clock))
  {
    var st' := RegVerifyStep(st, id, clock);
    ManifestsStay(st, st', id, st'.regs[id]);
    Elsewheres(sv, st, st', id);
  }

  lemma ElsewhereKeeps(sv: Services, st: State, entry: Entry, now: nat, fault: Fault)
    requires ReqInv(sv, st) && Appendable(sv, st.log) && |entry.fields| == 10 && entry.fields[1] !in st.reqs
    ensures ReqInv(sv, st.(log := Appends(sv, st.log, entry, now, fault)))
  {
    WriteKeeps(sv, st, st.(log := Appends(sv, st.log, entry, now, fault)), entry, now, fault);
  }

  lemma SomeoneElse(st: State) returns (writer: Str)
    ensures writer !in st.reqs
  {
    var n := Longest(st.reqs.Keys);
    writer := Zeros(n + 1);
  }

  lemma {:induction false} Longest(ids: set<Str>) returns (n: nat)
    ensures forall id | id in ids :: |id| <= n
    decreases |ids|
  {
    if ids == {} {
      n := 0;
    } else {
      var id :| id in ids;
      var m := Longest(ids - {id});
      n := if |id| > m then |id| else m;
    }
  }

  lemma RefuseKeeps(sv: Services, st: State, why: Str)
    requires ReqInv(sv, st) && Appendable(sv, st.log)
    ensures ReqInv(sv, st.(log := R.Next(sv.log, st.log, R.Refuse(why))))
  {
    var writer := SomeoneElse(st);
    Elsewheres(sv, st, st.(log := R.Next(sv.log, st.log, R.Refuse(why))), writer);
  }

  lemma BindingsKeep(sv: Services, st: State, step: B.Step)
    requires ReqInv(sv, st) && Appendable(sv, st.log) && B.Enabled(st.b, step)
    ensures ReqInv(sv, st.(b := B.Next(st.b, step)))
  {
    B.StepKeeps(st.b, step);
    BindingsStepGrows(st.b, step);
    var writer := SomeoneElse(st);
    Elsewheres(sv, st, st.(b := B.Next(st.b, step)), writer);
  }

  lemma BundleKeeps(sv: Services, st: State, bundle: Bundle)
    requires ReqInv(sv, st) && Appendable(sv, st.log)
    ensures ReqInv(sv, st.(bundle := Some(bundle)))
  {
    var writer := SomeoneElse(st);
    Elsewheres(sv, st, st.(bundle := Some(bundle)), writer);
  }

  /** Something an invoke awaits has done its work, or thrown. */
  predicate OfWork(e: Event) { e.VerifyWork? || e.NonceWorks? || e.EnvelopeWork? || e.Throws? }

  /** A stretch of an invoke, up to the envelope's check. */
  predicate OfEarly(e: Event) { e.Receive? || e.TokenArrives? || e.NonceArrives? }

  /** A stretch of an invoke from there on, or one that follows an expired deadline. */
  predicate OfLate(e: Event) { e.EnvelopeArrives? || e.AdapterArrives? || e.Deadline? }

  lemma WorkKeeps(sv: Services, st: State, e: Event)
    requires ReqInv(sv, st) && Appendable(sv, st.log) && Possible(sv, st, e) && OfWork(e)
    ensures ReqInv(sv, After(sv, st, e))
  {
    if e.NonceWorks? || e.Throws? {
      AwaitedKeeps(sv, st, e);
    } else {
      ChecksKeep(sv, st, e);
    }
  }

  lemma ChecksKeep(sv: Services, st: State, e: Event)
    requires ReqInv(sv, st) && Appendable(sv, st.log) && Possible(sv, st, e) && (e.VerifyWork? || e.EnvelopeWork?)
    ensures ReqInv(sv, After(sv, st, e))
  {
    match e {
      case VerifyWork(id, clock) => VerifyWorkKeeps(sv, st, id, clock);
      case EnvelopeWork(id, clock) => EnvelopeWorkKeeps(sv, st, id, clock);
    }
  }

  lemma AwaitedKeeps(sv: Services, st: State, e: Event)
    requires ReqInv(sv, st) && Appendable(sv, st.log) && Possible(sv, st, e) && (e.NonceWorks? || e.Throws?)
    ensures ReqInv(sv, After(sv, st, e))
  {
    match e {
      case NonceWorks(id) => NonceWorksKeeps(sv, st, id);
      case Throws(id) => ThrowsKeeps(sv, st, id);
    }
  }

  lemma EarlyKeeps(sv: Services, st: State, e: Event)
    requires ReqInv(sv, st) && Appendable(sv, st.log) && Possible(sv, st, e) && OfEarly(e)
    ensures ReqInv(sv, After(sv, st, e))
  {
    match e {
      case Receive(id, body, now, fault) => ReceiveKeeps(sv, st, id, body, now, fault);
      case TokenArrives(id, now, fault) => TokenStepKeeps(sv, st, id, now, fault);
      case NonceArrives(id, now, fault) => NonceArrivesKeeps(sv, st, id, now, fault);
    }
  }

  lemma LateKeeps(sv: Services, st: State, e: Event)
    requires ReqInv(sv, st) && Appendable(sv, st.log) && Possible(sv, st, e) && OfLate(e)
    ensures ReqInv(sv, After(sv, st, e))
  {
    match e {
      case EnvelopeArrives(id, now, fault) => EnvelopeStepKeeps(sv, st, id, now, fault);
      case AdapterArrives(id, a, now, fault) => AdapterArrivesKeeps(sv, st, id, a, now, fault);
      case Deadline(id, now, fault) => DeadlineKeeps(sv, st, id, now, fault);
    }
  }

  lemma OthersKeep(sv: Services, st: State, e: Event)
    requires ReqInv(sv, st) && Appendable(sv, st.log) && Possible(sv, st, e) && !OfWork(e) && !OfEarly(e) && !OfLate(e)
    ensures ReqInv(sv, After(sv, st, e))
  {
    match e {
      case RegReceive(id, token, elements, manifest) => RegReceiveKeeps(sv, st, id, token, elements, manifest);
      case RegVerifies(id, clock) => RegVerifiesKeeps(sv, st, id, clock);
      case RegArrives(id, now, fault) => RegArrivesKeeps(sv, st, id, now, fault);
      case Elsewhere(entry, now, fault) => ElsewhereKeeps(sv, st, entry, now, fault);
      case LogRefuses(why) => RefuseKeeps(sv, st, why);
      case BindingsStep(step) => BindingsKeep(sv, st, step);
      case LoadBundle(bundle) => BundleKeeps(sv, st, bundle);
    }
  }

  lemma RequestsKeep(sv: Services, st: State, e: Event)
    requires ReqInv(sv, st) && Appendable(sv, st.log) && Possible(sv, st, e)
    ensures ReqInv(sv, After(sv, st, e))
  {
    if OfWork(e) {
      WorkKeeps(sv, st, e);
    } else if OfEarly(e) {
      EarlyKeeps(sv, st, e);
    } else if OfLate(e) {
      LateKeeps(sv, st, e);
    } else {
      OthersKeep(sv, st, e);
    }
  }

  /** What an event does to the log: nothing, one append, or a refusal. */
  ghost predicate Logs(sv: Services, w: R.World, w': R.World) {
    || w' == w
    || (w.proc.Some? && exists entry, now, fault :: w' == Appends(sv, w, entry, now, fault))
    || (w.proc.Some? && exists why :: w' == R.Next(sv.log, w, R.Refuse(why)))
  }

  lemma ConcludesLogs(sv: Services, st: State, id: Str, q: Req, turn: Turn, now: nat, fault: Fault)
    requires st.log.proc.Some?
    ensures Logs(sv, st.log, Concludes(sv, st, id, q, turn, now, fault).log)
  {
    if turn.Answer? {
      assert Concludes(sv, st, id, q, turn, now, fault).log == Appends(sv, st.log, EntryOf(sv, turn.note), now, fault);
    }
  }

  lemma EnvelopeLogs(sv: Services, st: State, id: Str, q: Req, now: nat, fault: Fault)
    requires st.log.proc.Some? && q.stage.AwaitEnvelope? && q.checked.Some? && id in st.reqs
    ensures Logs(sv, st.log, EnvelopeStep(sv, st, id, q, now, fault).log)
  {
    var turn := EnvelopeTurn(sv, st.bundle, st.manifests, st.labels, id, q.body, q.stage.token, q.checked.value);
    if !turn.Go? { ConcludesLogs(sv, st, id, q, turn, now, fault); }
  }

  lemma TokenLogs(sv: Services, st: State, id: Str, q: Req, now: nat, fault: Fault)
    requires st.log.proc.Some? && q.verified.Some?
    ensures Logs(sv, st.log, TokenStep(sv, st, id, q, now, fault).log)
  {
    var turn := TokenTurn(id, q.verified.value);
    ConcludesLogs(sv, st, id, if turn.Go? then q.(nonce := Asked(turn.next.token.sessionId)) else q, turn, now, fault);
  }

  lemma AdapterLogs(sv: Services, st: State, id: Str, q: Req, a: AdapterAnswer, now: nat, fault: Fault)
    requires st.log.proc.Some? && q.stage.AwaitAdapter?
    ensures Logs(sv, st.log, AdapterStep(sv, st, id, q, a, now, fault).log)
  {
    var turn := AdapterTurn(sv, id, q.body, q.stage.token, q.stage.envelope, q.stage.decision, a);
    ConcludesLogs(sv, st, id, q.(heard := Some(a)), turn, now, fault);
  }

  lemma RegLogs(sv: Services, st: State, id: Str, g: Reg, now: nat, fault: Fault)
    requires st.log.proc.Some? && g.verified.Some?
    ensures Logs(sv, st.log, RegStep(sv, st, id, g, now, fault).log)
  {
    if g.verified.value.ValidToken? {
      var t := g.verified.value.token;
      var held := GetLabel(ElementsJoined(st.labels, t.sessionId, g.elements, Some(id), now), t.sessionId);
      var note := if t.sessionId == [] then RefusedRegNote(id, t) else RegNote(id, g.manifest, |g.elements|, t, held);
      assert RegStep(sv, st, id, g, now, fault).log == Appends(sv, st.log, EntryOf(sv, note), now, fault);
    }
  }

  lemma ArrivalLogs(sv: Services, st: State, e: Event)
    requires Possible(sv, st, e) && (OfEarly(e) || OfLate(e))
    ensures Logs(sv, st.log, After(sv, st, e).log)
  {
    match e {
      case Receive(id, body, now, fault) => ConcludesLogs(sv, st, id, NewReq(body), ShapeTurn(id, body), now, fault);
      case TokenArrives(id, now, fault) => TokenLogs(sv, st, id, st.reqs[id], now, fault);
      case NonceArrives(id, now, fault) =>
        var q := st.reqs[id];
        ConcludesLogs(sv, st, id, q, NonceTurn(id, q.stage.token, q.nonce.firstUse), now, fault);
      case EnvelopeArrives(id, now, fault) => EnvelopeLogs(sv, st, id, st.reqs[id], now, fault);
      case AdapterArrives(id, a, now, fault) => AdapterLogs(sv, st, id, st.reqs[id], a, now, fault);
      case Deadline(id, now, fault) =>
        ConcludesLogs(sv, st, id, st.reqs[id], DeadlineTurn(id, st.reqs[id].body, st.reqs[id].stage), now, fault);
    }
  }

  lemma EventLogs(sv: Services, st: State, e: Event)
    requires Possible(sv, st, e)
    ensures Logs(sv, st.log, After(sv, st, e).log)
  {
    if OfEarly(e) || OfLate(e) {
      ArrivalLogs(sv, st, e);
    } else if e.RegArrives? {
      RegLogs(sv, st, e.id, st.regs[e.id], e.now, e.fault);
    }
  }

  lemma LogKeeps(sv: Services, w: R.World, w': R.World)
    requires R.Inv(sv.log, w) && w.proc.Some? && Logs(sv, w, w')
    ensures R.Inv(sv.log, w') && w'.proc.Some?
  {
    if w' != w {
      if entry, now, fault :| w' == Appends(sv, w, entry, now, fault) {
        R.DoKeeps(sv.log, w, entry, now, fault);
      } else {
        var why :| w' == R.Next(sv.log, w, R.Refuse(why));
        R.StepKeeps(sv.log, w, R.Refuse(why));
      }
    }
  }

  lemma EventKeeps(sv: Services, st: State, e: Event)
    requires Inv(sv, st) && Possible(sv, st, e)
    ensures Inv(sv, After(sv, st, e))
  {
    LogIsAppendable(sv, st.log);
    RequestsKeep(sv, st, e);
    EventLogs(sv, st, e);
    LogKeeps(sv, st.log, After(sv, st, e).log);
  }

  lemma {:induction false} RunsKeep(sv: Services, st: State, es: seq<Event>, st': State)
    requires Inv(sv, st) && Runs(sv, st, es, st')
    ensures Inv(sv, st')
    decreases |es|
  {
    if es != [] {
      EventKeeps(sv, st, es[0]);
      RunsKeep(sv, After(sv, st, es[0]), es[1..], st');
    }
  }

  // ---- the theorems ----

  /** A broker that starts over a log some earlier run left, opened again. */
  ghost predicate StartsOver(sv: Services, steps: seq<R.Step>, st: State) {
    && Faithful(sv.log) && R.Reaches(sv.log, R.Start(), steps, st.log) && st.log.proc.Some?
    && Starting(st)
  }

  lemma FreshIsSound(sv: Services, st: State)
    requires Starting(st)
    ensures ReqInv(sv, st)
  {
  }

  lemma ReachableInv(sv: Services, steps: seq<R.Step>, st0: State, es: seq<Event>, st: State)
    requires StartsOver(sv, steps, st0) && Runs(sv, st0, es, st)
    ensures Inv(sv, st)
  {
    R.ReachedInv(sv.log, steps, st0.log);
    FreshIsSound(sv, st0);
    RunsKeep(sv, st0, es, st);
  }

  lemma Reachable(sv: Services, steps: seq<R.Step>, st0: State, es: seq<Event>, st: State)
    requires StartsOver(sv, steps, st0) && Runs(sv, st0, es, st)
    ensures ReqInv(sv, st)
  {
    ReachableInv(sv, steps, st0, es, st);
  }

  lemma CallIsClean(sv: Services, st: State, k: nat, i: nat)
    requires ReqInv(sv, st) && k < |st.calls|
    requires var call := st.calls[k];
             && (Outward(call.intent) || call.operation == ExportData || call.operation == AdminControl)
             && i < call.at && i < |st.ops| && st.ops[i].session == call.session
    ensures !Taints(st.ops[i])
  {
    var call := st.calls[k];
    assert CallSound(st.reqs, st.ops, call, k);
    OutwardOperations(call.operation, call.intent.value);
    if call.operation == ExportData { OnlyIntent(call.operation, call.intent.value); }
    if call.operation == AdminControl { OnlyIntent(call.operation, call.intent.value); }
    assert SessionClean(st.ops, call);
  }

  lemma OnlyIntent(op: Operation, i: Intent)
    requires i in PermittedIntents(op) && (op == ExportData || op == AdminControl)
    ensures Outward(Some(i))
  {
  }

  lemma ConcludesCallsNone(sv: Services, st: State, id: Str, q: Req, turn: Turn, now: nat, fault: Fault)
    requires st.log.proc.Some?
    ensures Concludes(sv, st, id, q, turn, now, fault).calls == st.calls
  {
  }

  predicate CallsOnce(st: State, st': State, id: Str) {
    && AwaitsEnvelope(st, id) && |st'.calls| == |st.calls| + 1 && st.calls <= st'.calls
    && var call := st'.calls[|st.calls|];
       call.id == id && call.at == |st.ops| && call.operation == st.reqs[id].body.operation
       && call.nonce == st.reqs[id].body.nonce && call.session == st.reqs[id].stage.token.sessionId
  }

  lemma EnvelopeStepCalls(sv: Services, st: State, id: Str, now: nat, fault: Fault)
    requires st.log.proc.Some? && AwaitsEnvelope(st, id) && st.reqs[id].checked.Some?
    ensures var st' := EnvelopeStep(sv, st, id, st.reqs[id], now, fault);
            st'.calls == st.calls || CallsOnce(st, st', id)
  {
    var q := st.reqs[id];
    var turn := EnvelopeTurn(sv, st.bundle, st.manifests, st.labels, id, q.body, q.stage.token, q.checked.value);
    if turn.Go? {
      GoIsGrant(sv, st, id, now, fault);
    } else {
      ConcludesCallsNone(sv, st, id, q, turn, now, fault);
    }
  }

  /** Only the stretch that follows the envelope calls the transport, at most once, and `at` counts every
      registration labelled by then. */
  lemma CallMoment(sv: Services, st: State, e: Event)
    requires Possible(sv, st, e)
    ensures After(sv, st, e).calls == st.calls || (e.EnvelopeArrives? && CallsOnce(st, After(sv, st, e), e.id))
  {
    if e.EnvelopeArrives? { EnvelopeStepCalls(sv, st, e.id, e.now, e.fault); } else { OthersCallNone(sv, st, e); }
  }

  lemma OthersCallNone(sv: Services, st: State, e: Event)
    requires Possible(sv, st, e) && !e.EnvelopeArrives?
    ensures After(sv, st, e).calls == st.calls
  {
    if OfEarly(e) { EarlyCallsNone(sv, st, e); }
    else if OfLate(e) { LateCallsNone(sv, st, e); }
    else { RestCallsNone(sv, st, e); }
  }

  lemma EarlyCallsNone(sv: Services, st: State, e: Event)
    requires Possible(sv, st, e) && OfEarly(e)
    ensures After(sv, st, e).calls == st.calls
  {
  }

  lemma LateCallsNone(sv: Services, st: State, e: Event)
    requires Possible(sv, st, e) && OfLate(e) && !e.EnvelopeArrives?
    ensures After(sv, st, e).calls == st.calls
  {
  }

  lemma RestCallsNone(sv: Services, st: State, e: Event)
    requires Possible(sv, st, e) && !OfEarly(e) && !OfLate(e)
    ensures After(sv, st, e).calls == st.calls
  {
  }

  /** Whenever the transport is called with intent export or escalate, and so for every `export.data`
      and `admin.control`, no element that session had registered by then has an untrusted origin. */
  lemma TaintGate(sv: Services, steps: seq<R.Step>, st0: State, es: seq<Event>, st: State, k: nat, i: nat, x: Element)
    requires StartsOver(sv, steps, st0) && Runs(sv, st0, es, st)
    requires k < |st.calls|
    requires var call := st.calls[k];
             && (Outward(call.intent) || call.operation == ExportData || call.operation == AdminControl)
             && i < call.at && i < |st.ops| && st.ops[i].session == call.session
             && st.ops[i].Registers? && x in st.ops[i].elements
    ensures x.provenance == User || x.provenance == System || x.provenance == ToolOutput
  {
    Reachable(sv, steps, st0, es, st);
    CallIsClean(sv, st, k, i);
    RegistrationTaints(st.ops[i].elements);
    UntrustedExactly(x.provenance);
  }

  /** Each call reaches the transport by the one method that serves its operation: only writes are written, only code
      and control are executed, and exports are read. Its envelope had not expired when it was checked. */
  lemma CallServed(sv: Services, steps: seq<R.Step>, st0: State, es: seq<Event>, st: State, k: nat)
    requires StartsOver(sv, steps, st0) && Runs(sv, st0, es, st) && k < |st.calls|
    ensures var op, served := st.calls[k].operation, st.calls[k].served;
            && (served == WriteResource <==> op == OperatorWrite || op == FileWrite)
            && (served == ExecuteRestricted <==> op == ExecRun || op == AdminControl)
            && (served == InvokeTool <==> op == ToolInvoke) && (served == InvokeNode <==> op == NodeInvoke)
            && (served == ReadResource <==> op == OperatorRead || op == FileRead || op == ExportData)
    ensures st.calls[k].id in st.reqs
    ensures var q := st.reqs[st.calls[k].id];
            q.body.operation == st.calls[k].operation && q.granted.Some? && q.checkedAt <= q.granted.value.1.expiresAt
  {
    Reachable(sv, steps, st0, es, st);
    CallIsServed(sv, st, k);
    RouteServes(st.calls[k].operation, st.reqs[st.calls[k].id].granted.value.2.profile, st.calls[k].served);
  }

  lemma CallIsServed(sv: Services, st: State, k: nat)
    requires ReqInv(sv, st) && k < |st.calls|
    ensures st.calls[k].id in st.reqs
    ensures var call, q := st.calls[k], st.reqs[st.calls[k].id];
            && q.granted.Some? && q.body.operation == call.operation && q.checkedAt <= q.granted.value.1.expiresAt
            && Route(call.operation, q.granted.value.2.profile) == Some(call.served)
  {
    assert CallSound(st.reqs, st.ops, st.calls[k], k);
    assert ReqSound(sv, st, st.calls[k].id, st.reqs[st.calls[k].id]);
  }

  /** At most one transport call is ever made per session and nonce. */
  lemma NonceAtMostOnce(sv: Services, steps: seq<R.Step>, st0: State, es: seq<Event>, st: State, j: nat, k: nat)
    requires StartsOver(sv, steps, st0) && Runs(sv, st0, es, st)
    requires j < |st.calls| && k < |st.calls|
    requires st.calls[j].session == st.calls[k].session && st.calls[j].nonce == st.calls[k].nonce
    ensures j == k
  {
    Reachable(sv, steps, st0, es, st);
    assert CallSound(st.reqs, st.ops, st.calls[j], j);
    assert CallSound(st.reqs, st.ops, st.calls[k], k);
    assert TookFirst(st.reqs[st.calls[j].id], st.calls[j].session, st.calls[j].nonce);
    assert TookFirst(st.reqs[st.calls[k].id], st.calls[k].session, st.calls[k].nonce);
  }

  /** Every answered invoke has exactly one committed record with its correlation id, saying what its
      note says; an unfinished one has none. One whose append did not return, to which the framework answers
      500, has its one record when the rename took effect and else none; one that died before has none. */
  lemma AnsweredIsRecordedOnce(sv: Services, steps: seq<R.Step>, st0: State, es: seq<Event>, st: State, id: Str)
    requires StartsOver(sv, steps, st0) && Runs(sv, st0, es, st) && id in st.reqs
    ensures var chain := st.log.chain;
            match st.reqs[id].stage
            case Answered(_, note, at) =>
              note.correlationId == id && OnlyAt(chain, id, at) && States(sv, chain[at], note)
            case Unwritten(note, _, _, Some(at)) =>
              note.correlationId == id && OnlyAt(chain, id, at) && States(sv, chain[at], note)
            case _ => NoneFor(chain, id)
  {
    Reachable(sv, steps, st0, es, st);
    assert ReqSound(sv, st, id, st.reqs[id]);
  }

  predicate Ended(q: Req) { q.stage.Answered? || q.stage.Unwritten? || q.stage.Died? }

  predicate RecordedOnce(chain: seq<Record>, id: Str) { exists at :: 0 <= at < |chain| && OnlyAt(chain, id, at) }

  /** The operation was forwarded and succeeded, and its envelope does not encode. */
  predicate Undigestible(q: Req) {
    && q.granted.Some? && q.heard.Some? && q.heard.value.ok
    && !Encodable(q.granted.value.1.content)
  }

  /** The record the request was to leave was rejected: it says what its note says, and does not encode. */
  predicate Rejected(sv: Services, stage: Stage) {
    && stage.Unwritten? && stage.why == RecordRejected
    && States(sv, stage.tried, stage.note) && !sv.log.encodes(stage.tried)
  }

  /** What becomes of the record of a transport call whose request has ended. */
  ghost predicate CallAccounted(sv: Services, chain: seq<Record>, id: Str, q: Req) {
    && (Undigestible(q) <==> q.stage == Died(DigestThrew))
    && match q.stage
       case Answered(_, _, _) => RecordedOnce(chain, id)
       case Unwritten(_, _, why, renamed) =>
         && (why == RecordRejected || why == LogUnavailable)
         && (why == RecordRejected ==> renamed.None? && Rejected(sv, q.stage))
         && if renamed.Some? then RecordedOnce(chain, id) else NoneFor(chain, id)
       case Died(why) => NoneFor(chain, id) && (why == DigestThrew || (why == ServiceThrew && q.heard.None?))
       case _ => true
  }

  /** Every transport call whose request has ended, whatever the reply, has exactly one record, unless the
      operation succeeded with an envelope that does not encode, the record itself does not encode, the
      transport threw, or the log refused or failed before its rename; then it has none. */
  lemma CallRecordedOnce(sv: Services, steps: seq<R.Step>, st0: State, es: seq<Event>, st: State, k: nat)
    requires StartsOver(sv, steps, st0) && Runs(sv, st0, es, st) && k < |st.calls|
    ensures var id := st.calls[k].id;
            id in st.reqs && (Ended(st.reqs[id]) ==> CallAccounted(sv, st.log.chain, id, st.reqs[id]))
  {
    Reachable(sv, steps, st0, es, st);
    CallGranted(sv, st, k);
    var id := st.calls[k].id;
    if Ended(st.reqs[id]) { EndedAccounted(sv, st.log, id, st.reqs[id]); }
  }

  lemma EndedAccounted(sv: Services, w: R.World, id: Str, q: Req)
    requires Ended(q) && q.granted.Some? && HeardSound(sv, id, q) && RecordSound(sv, w, id, q.stage)
    requires q.stage.Died? ==> q.stage.why == ServiceThrew || q.stage.why == DigestThrew
    ensures CallAccounted(sv, w.chain, id, q)
  {
    DigestedExactly(sv, q.granted.value.1.content);
  }

  lemma CallGranted(sv: Services, st: State, k: nat)
    requires ReqInv(sv, st) && k < |st.calls|
    ensures var id := st.calls[k].id;
            && id in st.reqs && st.reqs[id].granted.Some?
            && HeardSound(sv, id, st.reqs[id]) && RecordSound(sv, st.log, id, st.reqs[id].stage)
            && (st.reqs[id].stage.Died? ==>
                 st.reqs[id].stage.why == ServiceThrew || st.reqs[id].stage.why == DigestThrew)
  {
    assert CallSound(st.reqs, st.ops, st.calls[k], k);
    assert ReqSound(sv, st, st.calls[k].id, st.reqs[st.calls[k].id]);
  }

  // ---- exactly when a decision leaves its record ----

  /** What a stretch of an invoke comes to. */
  function EventTurn(sv: Services, st: State, e: Event): Turn
    requires Possible(sv, st, e) && (OfEarly(e) || OfLate(e))
  {
    match e
    case Receive(id, body, _, _) => ShapeTurn(id, body)
    case TokenArrives(id, _, _) => TokenTurn(id, st.reqs[id].verified.value)
    case NonceArrives(id, _, _) => NonceTurn(id, st.reqs[id].stage.token, st.reqs[id].nonce.firstUse)
    case EnvelopeArrives(id, _, _) =>
      var q := st.reqs[id];
      EnvelopeTurn(sv, st.bundle, st.manifests, st.labels, id, q.body, q.stage.token, q.checked.value)
    case AdapterArrives(id, a, _, _) =>
      var q := st.reqs[id];
      AdapterTurn(sv, id, q.body, q.stage.token, q.stage.envelope, q.stage.decision, a)
    case Deadline(id, _, _) => DeadlineTurn(id, st.reqs[id].body, st.reqs[id].stage)
  }

  /** The log and the request after a stretch that comes to an answer. */
  predicate Answers(sv: Services, st: State, st': State, id: Str, code: nat, note: Note, now: nat, fault: Fault) {
    && st.log.proc.Some? && st'.log == Appends(sv, st.log, EntryOf(sv, note), now, fault)
    && id in st'.reqs && st'.reqs[id].stage == StageAfter(sv, st.log, code, note, now, fault)
  }

  lemma ConcludesAnswers(sv: Services, st: State, id: Str, q: Req, code: nat, note: Note, now: nat, fault: Fault)
    requires st.log.proc.Some?
    ensures Answers(sv, st, Concludes(sv, st, id, q, Invoke.Answer(code, note), now, fault), id, code, note, now, fault)
  {
  }

  lemma EarlyAnswers(sv: Services, st: State, e: Event)
    requires Possible(sv, st, e) && OfEarly(e) && EventTurn(sv, st, e).Answer?
    ensures var turn := EventTurn(sv, st, e);
            Answers(sv, st, After(sv, st, e), e.id, turn.code, turn.note, e.now, e.fault)
  {
    var turn := EventTurn(sv, st, e);
    var q := if e.Receive? then NewReq(e.body) else st.reqs[e.id];
    ConcludesAnswers(sv, st, e.id, q, turn.code, turn.note, e.now, e.fault);
  }

  lemma LateAnswers(sv: Services, st: State, e: Event)
    requires Possible(sv, st, e) && OfLate(e) && EventTurn(sv, st, e).Answer?
    ensures var turn := EventTurn(sv, st, e);
            Answers(sv, st, After(sv, st, e), e.id, turn.code, turn.note, e.now, e.fault)
  {
    var turn := EventTurn(sv, st, e);
    var q := if e.AdapterArrives? then st.reqs[e.id].(heard := Some(e.answer)) else st.reqs[e.id];
    ConcludesAnswers(sv, st, e.id, q, turn.code, turn.note, e.now, e.fault);
  }

  /** The log accepts an entry: it does not refuse, and the record encodes. */
  predicate Accepts(sv: Services, m: Mem, entry: Entry, now: nat) {
    m.failure.None? && sv.log.encodes(Compose(m, entry, now))
  }

  /** What an answer leaves, case by case. */
  ghost predicate LeavesRecord(sv: Services, st: State, st': State, id: Str, note: Note, now: nat, fault: Fault)
    requires st.log.proc.Some? && id in st'.reqs
  {
    var m := st.log.proc.value;
    var accepts, renamed := Accepts(sv, m, EntryOf(sv, note), now), Renames(st.log.disk, m, fault);
    && (if accepts && renamed then RecordedOnce(st'.log.chain, id) else NoneFor(st'.log.chain, id))
    && (st'.reqs[id].stage.Answered? <==> accepts && renamed && fault.sync)
    && (m.failure.None? && !accepts ==> Rejected(sv, st'.reqs[id].stage))
    && (!accepts ==> st'.log == st.log)
  }

  lemma AnswerLeaves(sv: Services, st: State, st': State, id: Str, code: nat, note: Note, now: nat, fault: Fault)
    requires Answers(sv, st, st', id, code, note, now, fault) && RecordSound(sv, st'.log, id, st'.reqs[id].stage)
    ensures LeavesRecord(sv, st, st', id, note, now, fault)
  {
  }

  /** Every decision of an invoke leaves its one record if and only if the log accepts it and the rename takes
      effect, and is answered if and only if the append then returns; a record that is not accepted leaves the
      log as it was. Over a log that serves and whose I/O succeeds, that is exactly when the record encodes. */
  lemma DecisionRecordedExactly(sv: Services, steps: seq<R.Step>, st0: State, es: seq<Event>, st: State, e: Event)
    requires StartsOver(sv, steps, st0) && Runs(sv, st0, es, st)
    requires Possible(sv, st, e) && (OfEarly(e) || OfLate(e)) && EventTurn(sv, st, e).Answer?
    ensures e.id in After(sv, st, e).reqs
    ensures LeavesRecord(sv, st, After(sv, st, e), e.id, EventTurn(sv, st, e).note, e.now, e.fault)
  {
    var turn := EventTurn(sv, st, e);
    Reachable(sv, steps, st0, es, st);
    LogIsAppendable(sv, st.log);
    RequestsKeep(sv, st, e);
    if OfEarly(e) { EarlyAnswers(sv, st, e); } else { LateAnswers(sv, st, e); }
    RecordIsSound(sv, After(sv, st, e), e.id);
    AnswerLeaves(sv, st, After(sv, st, e), e.id, turn.code, turn.note, e.now, e.fault);
  }

  lemma RecordIsSound(sv: Services, st: State, id: Str)
    requires ReqInv(sv, st) && id in st.reqs
    ensures RecordSound(sv, st.log, id, st.reqs[id].stage)
  {
    assert ReqSound(sv, st, id, st.reqs[id]);
  }

  /** Under encoding v3, accepting a note's record is a matter of the note's texts, the position and the time. */
  lemma AcceptsExactly(sv: Services, H: Bytes -> Digest, m: Mem, note: Note, now: nat)
    requires IsV3(sv.log, H)
    ensures Accepts(sv, m, EntryOf(sv, note), now) <==> m.failure.None? && NoteEncodes(sv, note, m.head.seqNo, now)
  {
    var r := Compose(m, EntryOf(sv, note), now);
    assert EncodesAsV3(sv.log, H, r);
    RecordEncodesExactly(sv, note, r);
  }

  /** What a transport call's record needs of what was known before the adapter answered, and of its answer:
      the envelope's value, the token's and the transport's texts, every untrusted hash the session had
      registered by the call, the transport's own error. */
  predicate Recordable(sv: Services, ops: seq<Op>, call: Call, q: Req, a: AdapterAnswer, seqNo: nat, now: nat)
    requires q.stage.AwaitAdapter? && call.at <= |ops|
  {
    var (t, e, d) := (q.stage.token, q.stage.envelope, q.stage.decision);
    && TokenEncodes(call.id, t, seqNo, now)
    && if a.ok then
         && Encodable(e.content) && TransportEncodes(sv) && FieldEncodes(e.targetHash)
         && TextsEncode(HashesGiven(ops[..call.at], call.session))
         && AnswerFits(sv, AdapterTurn(sv, call.id, q.body, t, e, d, a))
       else (a.forwarded ==> TransportEncodes(sv)) && ErrorEncodes(a) && Fits(sv, BlockedNote(call.id, q.body, t, a))
  }

  predicate AnswerFits(sv: Services, turn: Turn) { turn.Answer? ==> Fits(sv, turn.note) }

  lemma CallNoteEncodes(sv: Services, ops: seq<Op>, call: Call, q: Req, a: AdapterAnswer, seqNo: nat, now: nat)
    requires q.stage.AwaitAdapter? && call.at <= |ops| && ClassificationNamed(q.stage.envelope.classification).Some?
    requires HashesDecide(ops[..call.at], call.session, q.stage.decision)
    ensures var turn := AdapterTurn(sv, call.id, q.body, q.stage.token, q.stage.envelope, q.stage.decision, a);
            && (turn == Throw(DigestThrew) <==> a.ok && !Encodable(q.stage.envelope.content))
            && (turn != Throw(DigestThrew) ==>
                 turn.Answer? && (NoteEncodes(sv, turn.note, seqNo, now)
                                  <==> Recordable(sv, ops, call, q, a, seqNo, now)))
  {
    var (t, e, d) := (q.stage.token, q.stage.envelope, q.stage.decision);
    DigestedExactly(sv, e.content);
    if a.ok {
      var digest := EnvelopeDigest(sv.H, e.content);
      if digest.Some? { InvokeNoteEncodes(sv, call.id, q.body, t, e, d, digest.value, seqNo, now); }
    } else {
      BlockedNoteEncodes(sv, call.id, q.body, t, a, seqNo, now);
    }
  }

  /** The log does not refuse, and this append's I/O succeeds. */
  predicate Serves(w: R.World, fault: Fault) {
    w.proc.Some? && w.proc.value.failure.None? && Renames(w.disk, w.proc.value, fault) && fault.sync
  }

  /** What an answer leaves in a log that serves, when its record encodes and when it does not. */
  ghost predicate Leaves(sv: Services, st: State, st': State, id: Str, encodes: bool) {
    && id in st'.reqs
    && if encodes then RecordedOnce(st'.log.chain, id) && st'.reqs[id].stage.Answered?
       else st'.log == st.log && NoneFor(st'.log.chain, id) && Rejected(sv, st'.reqs[id].stage)
  }

  lemma ServedLeaves(sv: Services, st: State, st': State, id: Str, note: Note, now: nat, fault: Fault, encodes: bool)
    requires Serves(st.log, fault) && id in st'.reqs && LeavesRecord(sv, st, st', id, note, now, fault)
    requires Accepts(sv, st.log.proc.value, EntryOf(sv, note), now) <==> encodes
    ensures Leaves(sv, st, st', id, encodes)
  {
  }

  /** The log accepts exactly the notes whose texts, position and time encode. */
  ghost predicate AcceptsNotes(sv: Services) {
    forall m: Mem, note: Note, now: nat :: AcceptsNote(sv, m, note, now)
  }

  predicate AcceptsNote(sv: Services, m: Mem, note: Note, now: nat) {
    Accepts(sv, m, EntryOf(sv, note), now) <==> m.failure.None? && NoteEncodes(sv, note, m.head.seqNo, now)
  }

  lemma V3AcceptsNotes(sv: Services, H: Bytes -> Digest)
    requires IsV3(sv.log, H)
    ensures AcceptsNotes(sv)
  {
    forall m: Mem, note: Note, now: nat ensures AcceptsNote(sv, m, note, now) { AcceptsExactly(sv, H, m, note, now); }
  }

  /** Any decision of an invoke, over a log that serves: it is recorded and answered exactly when its note's texts,
      the position and the time encode. */
  lemma DecisionEncodes(sv: Services, steps: seq<R.Step>, st0: State, es: seq<Event>, st: State, e: Event)
    requires StartsOver(sv, steps, st0) && Runs(sv, st0, es, st) && AcceptsNotes(sv)
    requires Possible(sv, st, e) && (OfEarly(e) || OfLate(e)) && EventTurn(sv, st, e).Answer?
    requires Serves(st.log, e.fault)
    ensures Leaves(sv, st, After(sv, st, e), e.id,
                   NoteEncodes(sv, EventTurn(sv, st, e).note, st.log.proc.value.head.seqNo, e.now))
  {
    var note := EventTurn(sv, st, e).note;
    DecisionRecordedExactly(sv, steps, st0, es, st, e);
    assert AcceptsNote(sv, st.log.proc.value, note, e.now);
    ServedLeaves(sv, st, After(sv, st, e), e.id, note, e.now, e.fault,
                 NoteEncodes(sv, note, st.log.proc.value.head.seqNo, e.now));
  }

  /** The same under encoding v3. */
  lemma DecisionEncodesExactly(sv: Services, H: Bytes -> Digest, steps: seq<R.Step>, st0: State, es: seq<Event>,
                               st: State, e: Event)
    requires StartsOver(sv, steps, st0) && Runs(sv, st0, es, st) && IsV3(sv.log, H)
    requires Possible(sv, st, e) && (OfEarly(e) || OfLate(e)) && EventTurn(sv, st, e).Answer?
    requires Serves(st.log, e.fault)
    ensures Leaves(sv, st, After(sv, st, e), e.id,
                   NoteEncodes(sv, EventTurn(sv, st, e).note, st.log.proc.value.head.seqNo, e.now))
  {
    V3AcceptsNotes(sv, H);
    DecisionEncodes(sv, steps, st0, es, st, e);
  }

  lemma CallRecorded(sv: Services, steps: seq<R.Step>, st0: State, es: seq<Event>, st: State,
                     k: nat, a: AdapterAnswer, now: nat, fault: Fault)
    requires StartsOver(sv, steps, st0) && Runs(sv, st0, es, st) && AcceptsNotes(sv)
    requires k < |st.calls| && AwaitsTransport(st, st.calls[k].id) && Serves(st.log, fault)
    requires a.ok ==> Encodable(st.reqs[st.calls[k].id].stage.envelope.content)
    ensures st.calls[k].at <= |st.ops| && Possible(sv, st, AdapterArrives(st.calls[k].id, a, now, fault))
    ensures var id := st.calls[k].id;
            Leaves(sv, st, After(sv, st, AdapterArrives(id, a, now, fault)), id,
                   Recordable(sv, st.ops, st.calls[k], st.reqs[id], a, st.log.proc.value.head.seqNo, now))
  {
    var id := st.calls[k].id;
    Reachable(sv, steps, st0, es, st);
    CallInputs(sv, st, k);
    CallNoteEncodes(sv, st.ops, st.calls[k], st.reqs[id], a, st.log.proc.value.head.seqNo, now);
    DecisionEncodes(sv, steps, st0, es, st, AdapterArrives(id, a, now, fault));
  }

  /** The adapter answers a transport call whose envelope the broker can digest if it needs to, while the log
      serves under encoding v3: the operation gets its record, and its client the answer, exactly when the inputs
      are recordable; otherwise the client is told 500, the log is as it was, and there is no record. The other
      case is `UndigestibleIsLost`. */
  lemma CallRecordedExactly(sv: Services, H: Bytes -> Digest, steps: seq<R.Step>, st0: State, es: seq<Event>, st: State,
                            k: nat, a: AdapterAnswer, now: nat, fault: Fault)
    requires StartsOver(sv, steps, st0) && Runs(sv, st0, es, st) && IsV3(sv.log, H)
    requires k < |st.calls| && AwaitsTransport(st, st.calls[k].id) && Serves(st.log, fault)
    requires a.ok ==> Encodable(st.reqs[st.calls[k].id].stage.envelope.content)
    ensures st.calls[k].at <= |st.ops| && Possible(sv, st, AdapterArrives(st.calls[k].id, a, now, fault))
    ensures var id := st.calls[k].id;
            Leaves(sv, st, After(sv, st, AdapterArrives(id, a, now, fault)), id,
                   Recordable(sv, st.ops, st.calls[k], st.reqs[id], a, st.log.proc.value.head.seqNo, now))
  {
    V3AcceptsNotes(sv, H);
    CallRecorded(sv, steps, st0, es, st, k, a, now, fault);
  }

  lemma CallInputs(sv: Services, st: State, k: nat)
    requires ReqInv(sv, st) && k < |st.calls| && AwaitsTransport(st, st.calls[k].id)
    ensures var call, q := st.calls[k], st.reqs[st.calls[k].id];
            && call.at <= |st.ops| && ClassificationNamed(q.stage.envelope.classification).Some?
            && HashesDecide(st.ops[..call.at], call.session, q.stage.decision)
  {
    assert CallSound(st.reqs, st.ops, st.calls[k], k);
    assert ReqSound(sv, st, st.calls[k].id, st.reqs[st.calls[k].id]);
  }

  /** The reply to a success that cannot be digested: the handler throws after the transport has acted, the
      client is told 500, and the log holds no record of the operation. */
  lemma UndigestibleIsLost(sv: Services, steps: seq<R.Step>, st0: State, es: seq<Event>, st: State, id: Str,
                           a: AdapterAnswer, now: nat, fault: Fault)
    requires StartsOver(sv, steps, st0) && Runs(sv, st0, es, st)
    requires AwaitsTransport(st, id) && a.ok && !Encodable(st.reqs[id].stage.envelope.content)
    ensures Possible(sv, st, AdapterArrives(id, a, now, fault))
    ensures var st' := After(sv, st, AdapterArrives(id, a, now, fault));
            && st'.log == st.log && NoneFor(st'.log.chain, id)
            && st'.reqs[id].stage == Died(DigestThrew) && st'.reqs[id].call.Some?
  {
    ReachableInv(sv, steps, st0, es, st);
    AwaitingCalled(sv, st, id);
    AdapterLoses(sv, st, id, st.reqs[id], a, now, fault);
  }

  lemma AwaitingCalled(sv: Services, st: State, id: Str)
    requires ReqInv(sv, st) && AwaitsTransport(st, id)
    ensures st.reqs[id].call.Some? && NoneFor(st.log.chain, id)
  {
    assert ReqSound(sv, st, id, st.reqs[id]);
  }

  lemma AdapterLoses(sv: Services, st: State, id: Str, q: Req, a: AdapterAnswer, now: nat, fault: Fault)
    requires st.log.proc.Some? && q.stage.AwaitAdapter? && a.ok && !Encodable(q.stage.envelope.content)
    ensures AdapterStep(sv, st, id, q, a, now, fault)
         == st.(reqs := st.reqs[id := q.(heard := Some(a), stage := Died(DigestThrew))])
  {
    DigestedExactly(sv, q.stage.envelope.content);
  }

  /** And that record outlives the broker: whatever happens to the log afterwards, a directory a restart
      accepts has the record's line at its position. */
  lemma AnswerSurvives(sv: Services, steps: seq<R.Step>, st0: State, es: seq<Event>, st: State, id: Str,
                       later: seq<R.Step>, w: R.World)
    requires StartsOver(sv, steps, st0) && Runs(sv, st0, es, st)
    requires id in st.reqs && st.reqs[id].stage.Answered?
    requires R.Reaches(sv.log, st.log, later, w) && Recover(sv.log, w.disk).Some?
    ensures var at := st.reqs[id].stage.at;
            && at < |st.log.chain| && at < |w.chain| && w.chain[at] == st.log.chain[at]
            && at < |ChainFile.Lines(w.disk.chain)|
            && ChainFile.Lines(w.disk.chain)[at] == sv.log.line(st.log.chain[at])
  {
    ReachableInv(sv, steps, st0, es, st);
    AnswerRecordedAt(sv, st, id);
    RecordSurvives(sv, st.log, later, w, st.reqs[id].stage.at);
  }

  lemma AnswerRecordedAt(sv: Services, st: State, id: Str)
    requires ReqInv(sv, st) && id in st.reqs && st.reqs[id].stage.Answered?
    ensures OnlyAt(st.log.chain, id, st.reqs[id].stage.at)
  {
    assert ReqSound(sv, st, id, st.reqs[id]);
  }

  lemma RecordSurvives(sv: Services, w: R.World, later: seq<R.Step>, w': R.World, at: nat)
    requires R.Inv(sv.log, w) && R.Reaches(sv.log, w, later, w') && Recover(sv.log, w'.disk).Some? && at < |w.chain|
    ensures at < |w'.chain| && w'.chain[at] == w.chain[at]
    ensures at < |ChainFile.Lines(w'.disk.chain)| && ChainFile.Lines(w'.disk.chain)[at] == sv.log.line(w.chain[at])
  {
    ChainOnlyGrows(sv, w, later, w');
    R.RunKeeps(sv.log, w, later, w');
    R.Decides(sv.log, w');
    R.LinesOfAt(sv.log, w'.chain, at);
  }

  lemma {:induction false} ChainOnlyGrows(sv: Services, w: R.World, steps: seq<R.Step>, w': R.World)
    requires R.Reaches(sv.log, w, steps, w')
    ensures w.chain <= w'.chain
    decreases |steps|
  {
    if steps != [] { ChainOnlyGrows(sv, R.Next(sv.log, w, steps[0]), steps[1..], w'); }
  }

  /** What a 200 is justified by. */
  ghost predicate Justified(sv: Services, st: State, id: Str, q: Req) {
    && q.granted.Some?
    && var (t, e, d) := q.granted.value;
       && q.body.token in st.b.issued && st.b.issued[q.body.token] == t && q.verifiedAt <= t.expiresAt
       && !B.Barred(q.verifiedIn, t)
       && q.nonce == Took(t.sessionId, true)
       && Bound(sv, q.body, e) && q.checkedAt <= e.expiresAt
       && Permitted(q.body.operation, e.intent)
       && (e.contextManifestHash == ZeroManifest()
           || exists g :: g in st.regs && st.regs[g].joined && st.regs[g].manifest == e.contextManifestHash)
       && FullList(d.predicates) && (forall r | r in d.predicates :: r.passed)
       && (d.requiresDualControl ==> q.body.cosigned)
       && Route(q.body.operation, d.profile).Some?
       && (exists k :: 0 <= k < |st.calls| && st.calls[k].id == id)
  }

  lemma SuccessJustified(sv: Services, st: State, id: Str)
    requires ReqInv(sv, st) && id in st.reqs && st.reqs[id].stage.Answered? && st.reqs[id].stage.code == 200
    ensures Justified(sv, st, id, st.reqs[id])
  {
    var q := st.reqs[id];
    assert ReqSound(sv, st, id, q);
    assert st.calls[q.call.value].id == id;
  }

  /** The one record of a 200 as committed. */
  predicate RecordJustifies(sv: Services, r: Record, id: Str, q: Req)
    requires q.granted.Some?
  {
    var (t, e, d) := q.granted.value;
    && |r.fields| == 10 && r.fields[EVENT_TYPE] == Ascii("invoke") && r.fields[1] == id
    && DigestText(sv, e.content) == Some(r.fields[PAYLOAD_DIGEST])
    && r.metadata.Some? && r.metadata.value.Obj? && ListsFivePassed(r.metadata)
    && var ms := r.metadata.value.members;
       && Get(ms, Ascii("profile")) == Some(Text(ProfileText(d.profile)))
       && Get(ms, Ascii("allowedFheModes")) == Some(ModesJs(d.allowedFheModes))
       && Get(ms, Ascii("bindingHash"))
          == Some(Text(Sha(sv, id + [COLON] + q.body.targetId + [COLON] + OperationText(q.body.operation))))
       && Get(ms, Ascii("transport")) == Some(Text(sv.transport))
  }

  lemma InvokeNoteShows(sv: Services, r: Record, id: Str, q: Req, digest: Str)
    requires q.granted.Some?
    requires var (t, e, d) := q.granted.value;
             && DigestText(sv, e.content) == Some(digest) && States(sv, r, InvokeNote(sv, id, q.body, t, e, d, digest))
             && FullList(d.predicates) && forall p | p in d.predicates :: p.passed
    ensures RecordJustifies(sv, r, id, q)
  {
    var (t, e, d) := q.granted.value;
    var note := InvokeNote(sv, id, q.body, t, e, d, digest);
    PredicatesListed(sv, note);
    AllPassedShown(EntryOf(sv, note).metadata, d.predicates);
    ForwardShown(sv, note);
    StampedExactly(sv, note);
  }

  /** A 200 is justified: the token was issued and verified unexpired and unrevoked, the nonce was this request's first
      use, the envelope names this target and operation, the intent is permitted, the manifest is zero or
      some registration's, all five predicates passed, dual control was met, the adapter's gate passed and
      its transport was called; and the request's one record says so: its metadata lists the five
      predicates, each passed, with the profile, the modes and the binding hash it was forwarded under. */
  lemma SuccessIsJustified(sv: Services, steps: seq<R.Step>, st0: State, es: seq<Event>, st: State, id: Str)
    requires StartsOver(sv, steps, st0) && Runs(sv, st0, es, st)
    requires id in st.reqs && st.reqs[id].stage.Answered? && st.reqs[id].stage.code == 200
    ensures Justified(sv, st, id, st.reqs[id])
    ensures OnlyAt(st.log.chain, id, st.reqs[id].stage.at)
    ensures RecordJustifies(sv, st.log.chain[st.reqs[id].stage.at], id, st.reqs[id])
  {
    Reachable(sv, steps, st0, es, st);
    SuccessJustified(sv, st, id);
    SuccessRecorded(sv, st, id);
  }

  lemma SuccessRecorded(sv: Services, st: State, id: Str)
    requires ReqInv(sv, st) && id in st.reqs && st.reqs[id].stage.Answered? && st.reqs[id].stage.code == 200
    ensures OnlyAt(st.log.chain, id, st.reqs[id].stage.at) && st.reqs[id].granted.Some?
    ensures RecordJustifies(sv, st.log.chain[st.reqs[id].stage.at], id, st.reqs[id])
  {
    var q := st.reqs[id];
    assert ReqSound(sv, st, id, q);
    InvokeNoteShows(sv, st.log.chain[q.stage.at], id, q, DigestText(sv, q.granted.value.1.content).value);
  }

  /** A denial by policy is explained: its one record lists all five predicates, and its reason code is that of
      the first failure listed. */
  lemma DenialIsExplained(sv: Services, steps: seq<R.Step>, st0: State, es: seq<Event>, st: State, id: Str)
    requires StartsOver(sv, steps, st0) && Runs(sv, st0, es, st)
    requires id in st.reqs && st.reqs[id].stage.Answered? && st.reqs[id].stage.note.detail.Refused?
    ensures var at, predicates := st.reqs[id].stage.at, st.reqs[id].stage.note.detail.predicates;
            && OnlyAt(st.log.chain, id, at) && Lists(st.log.chain[at].metadata, predicates)
            && |st.log.chain[at].fields| == 10
            && exists code: Code :: Explains(predicates, Some(code)) && st.log.chain[at].fields[9] == CodeText(code)
  {
    Reachable(sv, steps, st0, es, st);
    DenialRecorded(sv, st, id);
    PredicatesListed(sv, st.reqs[id].stage.note);
  }

  lemma DenialRecorded(sv: Services, st: State, id: Str)
    requires ReqInv(sv, st) && id in st.reqs && st.reqs[id].stage.Answered?
    ensures var stage := st.reqs[id].stage;
            && OnlyAt(st.log.chain, id, stage.at) && States(sv, st.log.chain[stage.at], stage.note)
            && DenialExplains(stage.note)
  {
    assert ReqSound(sv, st, id, st.reqs[id]);
  }
}
