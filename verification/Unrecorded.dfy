/** Two runs of the broker in which an operation is forwarded and succeeds, and no record shows it. */
module Unrecorded {
  import opened Common
  import opened Unicode
  import opened Json
  import opened Canonical
  import opened Encoding
  import opened Lineage
  import opened Labels
  import opened Policy
  import opened Invoke
  import opened Context
  import opened Notes
  import opened Broker
  import L = Log

  // ---- one request ----

  /** The request's correlation id, what it was sent with, and the envelope inside. */
  datatype Scene = Scene(
    id: Str, token: Str, t: B.TokenState, sealed: Str, target: Str, nonce: Str, inside: Envelope)

  function Sent(x: Scene): Body { Body(x.token, x.sealed, OperatorRead, x.target, x.nonce, false) }

  /** An envelope for this target, to be read, without context: the fields, and the whole of it with some
      members more. */
  function Enclosed(sv: Services, x: Scene, more: seq<Member<Js>>): Envelope {
    var target, scope := Sha(sv, x.target), Sha(sv, OperationText(OperatorRead));
    Envelope(target, scope, ZeroManifest(), IntentText(Read), ClassificationText(Public), 0,
             Obj(Members(target, scope) + more))
  }

  function Members(target: Str, scope: Str): seq<Member<Js>> {
    [Member(Ascii("targetHash"), Text(target)), Member(Ascii("roleScopeHash"), Text(scope)),
     Member(Ascii("contextManifestHash"), Text(ZeroManifest())), Member(Ascii("intentClass"), Text(IntentText(Read))),
     Member(Ascii("classification"), Text(ClassificationText(Public))), Member(Ascii("expiresAt"), Num(0))]
  }

  /** The fields are read off the whole. */
  predicate ReadOff(e: Envelope) {
    && e.content.Obj?
    && Get(e.content.members, Ascii("targetHash")) == Some(Text(e.targetHash))
    && Get(e.content.members, Ascii("roleScopeHash")) == Some(Text(e.roleScopeHash))
    && Get(e.content.members, Ascii("contextManifestHash")) == Some(Text(e.contextManifestHash))
    && Get(e.content.members, Ascii("intentClass")) == Some(Text(e.intent))
    && Get(e.content.members, Ascii("classification")) == Some(Text(e.classification))
    && -MAX_SAFE <= e.expiresAt <= MAX_SAFE
    && Get(e.content.members, Ascii("expiresAt")) == Some(Num(e.expiresAt))
  }

  lemma MembersApart(target: Str, scope: Str)
    ensures DistinctKeys(Members(target, scope))
  {
  }

  lemma EnclosedIsRead(sv: Services, x: Scene, more: seq<Member<Js>>)
    ensures ReadOff(Enclosed(sv, x, more))
  {
    var e := Enclosed(sv, x, more);
    MemberReads(e.targetHash, e.roleScopeHash, more, 0);
    MemberReads(e.targetHash, e.roleScopeHash, more, 1);
    MemberReads(e.targetHash, e.roleScopeHash, more, 2);
    MemberReads(e.targetHash, e.roleScopeHash, more, 3);
    MemberReads(e.targetHash, e.roleScopeHash, more, 4);
    MemberReads(e.targetHash, e.roleScopeHash, more, 5);
  }

  lemma MemberReads(target: Str, scope: Str, more: seq<Member<Js>>, i: nat)
    requires i < 6
    ensures var m := Members(target, scope)[i]; Get(Members(target, scope) + more, m.key) == Some(m.value)
  {
    MembersApart(target, scope);
    GetConcat(Members(target, scope), more, Members(target, scope)[i].key);
    GetAt(Members(target, scope), i);
  }

  function Viewer(): B.Admission { B.Admission(seq(8, _ => 0), [], Ascii("viewer"), [OperatorRead]) }

  /** The token is a viewer's. */
  predicate OfViewer(x: Scene) { x.t == B.Admitted([], Viewer(), x.t.sessionId, 0) && x.t.sessionId != [] }

  /** And the sealed text opens to an envelope that reads this target. */
  predicate Set(sv: Services, x: Scene, more: seq<Member<Js>>) {
    OfViewer(x) && x.inside == Enclosed(sv, x, more) && sv.open(x.sealed) == Opens(x.inside)
  }

  /** The bindings once they have issued the token and nothing else. */
  function Issued(x: Scene): B.State { B.Attested(B.EMPTY, x.t, x.token) }

  /** The request as it is received, and after each await in turn. */
  function Received(x: Scene): Req { NewReq(Some(Sent(x))) }

  function Known(x: Scene): Req { Received(x).(verified := Some(B.ValidToken(x.t)), verifiedIn := Issued(x)) }

  function Asking(x: Scene): Req { Known(x).(nonce := Asked(x.t.sessionId), stage := AwaitNonce(x.t)) }

  function Taken(x: Scene): Req { Asking(x).(nonce := Took(x.t.sessionId, true)) }

  function Opening(x: Scene): Req { Taken(x).(stage := AwaitEnvelope(x.t)) }

  function Opened(x: Scene): Req { Opening(x).(checked := Some(Good(x.inside))) }

  function Called(x: Scene, d: Decision): Req {
    Opened(x).(granted := Some((x.t, x.inside, d)), call := Some(0), stage := AwaitAdapter(x.t, x.inside, d))
  }

  /** The broker as in `f`, with this one request in it. */
  predicate Only(f: State, st: State, x: Scene, q: Req) {
    && st.reqs == map[x.id := q] && st.log == f.log && st.log.proc.Some?
    && st.bundle == None && st.labels == f.labels && st.ops == f.ops && st.manifests == f.manifests
    && (q.call.None? ==> st.calls == []) && (q.nonce.Took? || st.b.b == Issued(x))
  }

  /** The event is possible and takes the request from one place to the next. */
  predicate Takes(sv: Services, f: State, st: State, x: Scene, e: Event, q: Req) {
    Possible(sv, st, e) && Only(f, After(sv, st, e), x, q)
  }

  /** A broker that has issued the token and waits for requests. */
  predicate Ready(f: State, x: Scene) {
    && f.reqs == map[] && f.calls == [] && f.bundle == None && f.log.proc.Some?
    && f.b.b == Issued(x)
  }

  lemma RunsSnoc(sv: Services, st0: State, es: seq<Event>, st: State, e: Event)
    requires Runs(sv, st0, es, st) && Possible(sv, st, e)
    ensures Runs(sv, st0, es + [e], After(sv, st, e))
    decreases |es|
  {
    if es == [] {
      assert [e][1..] == [];
    } else {
      assert (es + [e])[1..] == es[1..] + [e];
      RunsSnoc(sv, After(sv, st0, es[0]), es[1..], st, e);
    }
  }

  lemma Further(sv: Services, st0: State, es: seq<Event>, st: State, e: Event) returns (es': seq<Event>, st': State)
    requires Runs(sv, st0, es, st) && Possible(sv, st, e)
    ensures Runs(sv, st0, es', st') && st' == After(sv, st, e)
  {
    RunsSnoc(sv, st0, es, st, e);
    es', st' := es + [e], After(sv, st, e);
  }

  function Issue(x: Scene): Event { BindingsStep(B.Attest([], Viewer(), x.t.sessionId, x.token, 0)) }

  lemma TokenIssued(sv: Services, st0: State, x: Scene)
    requires Starting(st0) && st0.log.proc.Some? && st0.bundle == None && OfViewer(x)
    ensures Possible(sv, st0, Issue(x)) && After(sv, st0, Issue(x)) == st0.(b := After(sv, st0, Issue(x)).b)
    ensures Ready(After(sv, st0, Issue(x)), x)
  {
    assert !(Ascii("browser-pivot-") <= Viewer().attestationPackage);
  }

  lemma RequestReceived(sv: Services, f: State, x: Scene)
    requires Ready(f, x) && Unused(f, x.id)
    ensures Takes(sv, f, f, x, Receive(x.id, Some(Sent(x)), 0, L.SOUND), Received(x))
  {
  }

  lemma TokenVerified(sv: Services, f: State, st: State, x: Scene)
    requires Only(f, st, x, Received(x)) && OfViewer(x)
    ensures Takes(sv, f, st, x, VerifyWork(x.id, 0), Known(x))
  {
  }

  lemma TokenPassed(sv: Services, f: State, st: State, x: Scene)
    requires Only(f, st, x, Known(x)) && OfViewer(x)
    ensures Takes(sv, f, st, x, TokenArrives(x.id, 0, L.SOUND), Asking(x))
  {
  }

  lemma NonceConsumed(sv: Services, f: State, st: State, x: Scene)
    requires Only(f, st, x, Asking(x))
    ensures Takes(sv, f, st, x, NonceWorks(x.id), Taken(x))
  {
  }

  lemma NoncePassed(sv: Services, f: State, st: State, x: Scene)
    requires Only(f, st, x, Taken(x))
    ensures Takes(sv, f, st, x, NonceArrives(x.id, 0, L.SOUND), Opening(x))
  {
    FirstUseGoesOn(sv, st, x.id);
  }

  lemma FirstUseGoesOn(sv: Services, st: State, id: Str)
    requires st.log.proc.Some? && AwaitsNonce(st, id) && st.reqs[id].nonce.Took? && st.reqs[id].nonce.firstUse
    ensures var q := st.reqs[id];
            After(sv, st, NonceArrives(id, 0, L.SOUND))
            == st.(reqs := st.reqs[id := q.(stage := AwaitEnvelope(q.stage.token))])
  {
  }

  /** The envelope has not expired, and is for this target and this operation. */
  predicate Checks(sv: Services, x: Scene) { CheckEnvelope(sv, Sent(x), 0) == Good(x.inside) }

  lemma EnvelopeChecks(sv: Services, x: Scene, more: seq<Member<Js>>)
    requires Set(sv, x, more)
    ensures Checks(sv, x)
  {
  }

  lemma EnvelopeOpened(sv: Services, f: State, st: State, x: Scene)
    requires Only(f, st, x, Opening(x)) && Checks(sv, x)
    ensures Takes(sv, f, st, x, EnvelopeWork(x.id, 0), Opened(x))
  {
  }

  /** A viewer may read, whatever its session has taken in. */
  lemma ViewerMayRead(i: Input)
    requires i.role == Ascii("viewer") && i.operation == OperatorRead && i.requestedProfile == None
    requires i.intent == IntentText(Read) && i.classification == ClassificationText(Public)
    ensures var d := Judge(RoleNamed(None, i.role), i);
            d.allowed && !d.requiresDualControl && Route(OperatorRead, d.profile).Some?
    ensures Permitted(OperatorRead, i.intent)
  {
    assert INTENTS[0] == Read && CLASSIFICATIONS[0] == Public;
    AllowedExactly(RoleNamed(None, i.role), i);
  }

  predicate Goes(sv: Services, f: State, x: Scene, d: Decision) {
    && EnvelopeTurn(sv, None, f.manifests, f.labels, x.id, Sent(x), x.t, Good(x.inside))
       == Go(AwaitAdapter(x.t, x.inside, d))
    && Route(OperatorRead, d.profile).Some?
  }

  lemma EnvelopeGranted(sv: Services, f: State, x: Scene, more: seq<Member<Js>>) returns (d: Decision)
    requires Set(sv, x, more)
    ensures Goes(sv, f, x, d)
  {
    var i := PolicyInput(Sent(x), x.t, x.inside, f.labels);
    ViewerMayRead(i);
    d := Judge(RoleNamed(None, x.t.role), i);
  }

  lemma EnvelopePassed(sv: Services, f: State, st: State, x: Scene, d: Decision)
    requires Only(f, st, x, Opened(x)) && Goes(sv, f, x, d)
    ensures Takes(sv, f, st, x, EnvelopeArrives(x.id, 0, L.SOUND), Called(x, d))
    ensures st.calls == [] && CallOf(After(sv, st, EnvelopeArrives(x.id, 0, L.SOUND)), x, |f.ops|)
  {
    StepGrants(sv, f, st, x, d);
    GrantCalls(f, st, x, d);
  }

  /** The one call so far is this request's. */
  predicate CallOf(st: State, x: Scene, at: nat) {
    |st.calls| == 1 && st.calls[0].id == x.id && st.calls[0].session == x.t.sessionId && st.calls[0].at == at
  }

  lemma GrantCalls(f: State, st: State, x: Scene, d: Decision)
    requires Only(f, st, x, Opened(x)) && Route(OperatorRead, d.profile).Some?
    ensures Only(f, Grant(st, x.id, x.t, x.inside, d), x, Called(x, d))
    ensures CallOf(Grant(st, x.id, x.t, x.inside, d), x, |f.ops|)
  {
  }

  lemma StepGrants(sv: Services, f: State, st: State, x: Scene, d: Decision)
    requires Only(f, st, x, Opened(x)) && Goes(sv, f, x, d)
    ensures var arrives := EnvelopeArrives(x.id, 0, L.SOUND);
            Possible(sv, st, arrives) && After(sv, st, arrives) == Grant(st, x.id, x.t, x.inside, d)
  {
    GoIsGrant(sv, st, x.id, 0, L.SOUND);
  }

  /** From a broker that is ready up to the nonce's use. */
  lemma RunOpens(sv: Services, st0: State, before: seq<Event>, f: State, x: Scene) returns (es: seq<Event>, st: State)
    requires Runs(sv, st0, before, f) && Ready(f, x) && Unused(f, x.id) && OfViewer(x)
    ensures Runs(sv, st0, es, st) && Only(f, st, x, Asking(x))
  {
    RequestReceived(sv, f, x);
    es, st := Further(sv, st0, before, f, Receive(x.id, Some(Sent(x)), 0, L.SOUND));
    TokenVerified(sv, f, st, x);
    es, st := Further(sv, st0, es, st, VerifyWork(x.id, 0));
    TokenPassed(sv, f, st, x);
    es, st := Further(sv, st0, es, st, TokenArrives(x.id, 0, L.SOUND));
  }

  /** And on to the transport call. */
  lemma RunCalls(sv: Services, st0: State, before: seq<Event>, f: State, x: Scene, more: seq<Member<Js>>)
    returns (es: seq<Event>, st: State)
    requires Runs(sv, st0, before, f) && Ready(f, x) && Unused(f, x.id) && Set(sv, x, more)
    ensures Runs(sv, st0, es, st) && AwaitsTransport(st, x.id) && st.reqs[x.id].stage.envelope == x.inside
    ensures st.log == f.log && st.ops == f.ops && CallOf(st, x, |f.ops|)
  {
    es, st := RunOpens(sv, st0, before, f, x);
    NonceConsumed(sv, f, st, x);
    es, st := Further(sv, st0, es, st, NonceWorks(x.id));
    NoncePassed(sv, f, st, x);
    es, st := Further(sv, st0, es, st, NonceArrives(x.id, 0, L.SOUND));
    EnvelopeChecks(sv, x, more);
    EnvelopeOpened(sv, f, st, x);
    es, st := Further(sv, st0, es, st, EnvelopeWork(x.id, 0));
    var d := EnvelopeGranted(sv, f, x, more);
    EnvelopePassed(sv, f, st, x, d);
    es, st := Further(sv, st0, es, st, EnvelopeArrives(x.id, 0, L.SOUND));
    CalledAwaits(f, st, x, d);
  }

  lemma CalledAwaits(f: State, st: State, x: Scene, d: Decision)
    requires Only(f, st, x, Called(x, d)) && Route(OperatorRead, d.profile).Some?
    ensures AwaitsTransport(st, x.id) && st.reqs[x.id].stage.envelope == x.inside && st.log == f.log && st.ops == f.ops
  {
  }

  // ---- an envelope that does not encode ----

  /** One member the encoder refuses, the number 0.5. */
  function Half(): seq<Member<Js>> { [Member(Ascii("ttl"), OtherNum(Ascii("0.5")))] }

  lemma HalfIsRefused(sv: Services, x: Scene)
    ensures !Encodable(Enclosed(sv, x, Half()).content)
  {
    var ms := Members(Sha(sv, x.target), Sha(sv, OperationText(OperatorRead))) + Half();
    assert ms[6] == Half()[0] && ms[6] in ms;
  }

  /** A run that awaits the transport goes on so. */
  lemma CallEnds(sv: Services, steps: seq<R.Step>, st0: State, es: seq<Event>, st: State, id: Str, a: AdapterAnswer)
    returns (es': seq<Event>, st': State)
    requires StartsOver(sv, steps, st0) && Runs(sv, st0, es, st)
    requires AwaitsTransport(st, id) && a.ok && !Encodable(st.reqs[id].stage.envelope.content)
    ensures Runs(sv, st0, es', st') && id in st'.reqs
    ensures st'.reqs[id].call.Some? && st'.reqs[id].stage == Died(DigestThrew)
    ensures st'.log == st.log && NoneFor(st'.log.chain, id)
  {
    UndigestibleIsLost(sv, steps, st0, es, st, id, a, 0, L.SOUND);
    es', st' := Further(sv, st0, es, st, AdapterArrives(id, a, 0, L.SOUND));
  }

  /** Over any log that some earlier run left: every layer passes, the transport is called and succeeds, the
      envelope holds the number 0.5, and the request ends with no record. */
  lemma ForwardedWithoutRecord(sv: Services, steps: seq<R.Step>, st0: State, x: Scene, a: AdapterAnswer)
    returns (es: seq<Event>, st: State)
    requires StartsOver(sv, steps, st0) && st0.bundle == None && Unused(st0, x.id) && Set(sv, x, Half()) && a.ok
    ensures ReadOff(x.inside)
    ensures Runs(sv, st0, es, st) && x.id in st.reqs
    ensures st.reqs[x.id].call.Some? && st.reqs[x.id].stage == Died(DigestThrew)
    ensures st.log == st0.log && NoneFor(st.log.chain, x.id)
  {
    EnclosedIsRead(sv, x, Half());
    TokenIssued(sv, st0, x);
    var issued, f := Further(sv, st0, [], st0, Issue(x));
    es, st := RunCalls(sv, st0, issued, f, x, Half());
    HalfIsRefused(sv, x);
    es, st := CallEnds(sv, steps, st0, es, st, x.id, a);
  }

  // ---- a session whose records do not encode ----

  /** A content hash of the length the registration route asks for, and no more: 64 lone surrogates. */
  function LoneHash(): Str { seq(64, _ => 0xD800) }

  function Fetched(): seq<Element> { [Element(Rag, Public, Some(LoneHash()))] }

  function Registration(x: Scene, rid: Str): Op { Registers(x.t.sessionId, Fetched(), Some(rid), 0) }

  lemma LoneHashIsGiven(x: Scene, rid: Str)
    ensures !TextsEncode(HashesGiven([Registration(x, rid)], x.t.sessionId))
  {
    var ops := [Registration(x, rid)];
    assert LoneAt(LoneHash(), 0);
    assert ops[..0] == [] && Fetched()[..0] == [];
    assert HashesGiven(ops, x.t.sessionId) == [] + UntrustedHashes(Fetched());
    assert UntrustedHashes(Fetched()) == [] + [LoneHash()];
    assert LoneHash() in HashesGiven(ops, x.t.sessionId);
  }

  lemma EnclosedKeysPlain()
    ensures WellFormed(Ascii("targetHash")) && WellFormed(Ascii("roleScopeHash"))
    ensures WellFormed(Ascii("contextManifestHash")) && WellFormed(Ascii("intentClass"))
    ensures WellFormed(Ascii("classification")) && WellFormed(Ascii("expiresAt"))
  {
    PlainAscii("targetHash");
    PlainAscii("roleScopeHash");
    PlainAscii("contextManifestHash");
    PlainAscii("intentClass");
    PlainAscii("classification");
    PlainAscii("expiresAt");
  }

  lemma ShaPlain(sv: Services, s: Str)
    ensures WellFormed(Sha(sv, s))
  {
    HexIsHex64(sv.H(Utf8(s)));
    Hex64Encodes(Sha(sv, s));
  }

  lemma ZeroManifestPlain()
    ensures WellFormed(ZeroManifest())
  {
    PlainUnits(ZeroManifest());
  }

  lemma AllMembersEncode(target: Str, scope: Str)
    requires WellFormed(target) && WellFormed(scope)
    ensures MembersEncode(Members(target, scope))
  {
    var ms := Members(target, scope);
    ZeroManifestPlain();
    PlainAscii("read");
    ClassificationPlain(Public);
    EnclosedKeysPlain();
    FourEncode(ms[0].key, ms[0].value, ms[1].key, ms[1].value, ms[2].key, ms[2].value, ms[3].key, ms[3].value);
    TwoEncode(ms[4].key, ms[4].value, ms[5].key, ms[5].value);
    var front, back := [ms[0], ms[1], ms[2], ms[3]], [ms[4], ms[5]];
    EncodeConcat(front, back);
    assert front + back == ms;
  }

  lemma EnclosedEncodes(sv: Services, x: Scene)
    ensures Encodable(Enclosed(sv, x, []).content)
  {
    var target, scope := Sha(sv, x.target), Sha(sv, OperationText(OperatorRead));
    ShaPlain(sv, x.target);
    ShaPlain(sv, OperationText(OperatorRead));
    AllMembersEncode(target, scope);
    MembersApart(target, scope);
    ObjEncodes(Members(target, scope));
    assert Members(target, scope) + [] == Members(target, scope);
  }

  /** The entry of the registration's record. */
  function RegEntry(sv: Services, x: Scene, rid: Str, manifest: Str): L.Entry {
    var held := GetLabel(ElementsJoined(map[], x.t.sessionId, Fetched(), Some(rid), 0), x.t.sessionId);
    EntryOf(sv, RegNote(rid, manifest, 1, x.t, held))
  }

  lemma RegistrationVerified(sv: Services, f: State, x: Scene, rid: Str, manifest: Str)
    requires Ready(f, x) && f.regs == map[] && Unused(f, rid) && OfViewer(x)
    ensures var receive, verify := RegReceive(rid, x.token, Fetched(), manifest), RegVerifies(rid, 0);
            && Possible(sv, f, receive) && Possible(sv, After(sv, f, receive), verify)
            && After(sv, After(sv, f, receive), verify)
               == f.(regs := map[rid := Reg(x.token, Fetched(), manifest, Some(B.ValidToken(x.t)), false, false)])
  {
  }

  lemma RegistrationArrives(sv: Services, f: State, x: Scene, rid: Str, manifest: Str)
    requires f.log.proc.Some? && rid in f.regs && f.labels == map[] && f.ops == [] && x.t.sessionId != []
    requires f.regs[rid] == Reg(x.token, Fetched(), manifest, Some(B.ValidToken(x.t)), false, false)
    ensures var arrive := RegArrives(rid, 0, L.SOUND);
            && Possible(sv, f, arrive)
            && var g := After(sv, f, arrive);
               && g.log == Appends(sv, f.log, RegEntry(sv, x, rid, manifest), 0, L.SOUND)
               && g.ops == [Registration(x, rid)] && g.reqs == f.reqs && g.calls == f.calls && g.bundle == f.bundle
               && g.b == f.b && g.regs.Keys == f.regs.Keys
  {
  }

  /** An append whose I/O succeeds leaves a log that serves. */
  lemma SoundAppendServes(sv: Services, w: R.World, entry: L.Entry, now: nat)
    requires Serves(w, L.SOUND) && |entry.fields| == 10
    ensures Serves(Appends(sv, w, entry, now, L.SOUND), L.SOUND)
    ensures var w', r := Appends(sv, w, entry, now, L.SOUND), L.Compose(w.proc.value, entry, now);
            w'.chain == if Accepts(sv, w.proc.value, entry, now) then w.chain + [r] else w.chain
  {
  }

  /** The run up to the registration's end. */
  lemma RunRegisters(sv: Services, st0: State, x: Scene, rid: Str, manifest: Str) returns (es: seq<Event>, f: State)
    requires Starting(st0) && st0.bundle == None && Serves(st0.log, L.SOUND)
    requires Unused(st0, x.id) && Unused(st0, rid) && x.id != rid && OfViewer(x)
    ensures Runs(sv, st0, es, f) && Ready(f, x) && Unused(f, x.id) && f.ops == [Registration(x, rid)]
    ensures f.log == Appends(sv, st0.log, RegEntry(sv, x, rid, manifest), 0, L.SOUND) && Serves(f.log, L.SOUND)
  {
    TokenIssued(sv, st0, x);
    es, f := Further(sv, st0, [], st0, Issue(x));
    RegistrationVerified(sv, f, x, rid, manifest);
    es, f := Further(sv, st0, es, f, RegReceive(rid, x.token, Fetched(), manifest));
    es, f := Further(sv, st0, es, f, RegVerifies(rid, 0));
    RegistrationArrives(sv, f, x, rid, manifest);
    es, f := Further(sv, st0, es, f, RegArrives(rid, 0, L.SOUND));
    SoundAppendServes(sv, st0.log, RegEntry(sv, x, rid, manifest), 0);
    OthersUnused(sv, st0.log, x.id, rid, RegEntry(sv, x, rid, manifest));
  }

  lemma OthersUnused(sv: Services, w: R.World, id: Str, rid: Str, entry: L.Entry)
    requires Serves(w, L.SOUND) && |entry.fields| == 10 && entry.fields[1] == rid && id != rid && NoneFor(w.chain, id)
    ensures NoneFor(Appends(sv, w, entry, 0, L.SOUND).chain, id)
  {
    SoundAppendServes(sv, w, entry, 0);
  }

  /** The registration's own record is there when it encodes. */
  lemma RegistrationRecorded(sv: Services, w: R.World, rid: Str, entry: L.Entry)
    requires Serves(w, L.SOUND) && |entry.fields| == 10 && entry.fields[1] == rid && NoneFor(w.chain, rid)
    requires Accepts(sv, w.proc.value, entry, 0)
    ensures RecordedOnce(Appends(sv, w, entry, 0, L.SOUND).chain, rid)
  {
    SoundAppendServes(sv, w, entry, 0);
    var chain := Appends(sv, w, entry, 0, L.SOUND).chain;
    assert forall i :: 0 <= i < |w.chain| ==> w.chain[i] in w.chain;
    assert OnlyAt(chain, rid, |w.chain|);
  }

  /** Over a log that serves, no I/O failing: a viewer's session registers one untrusted element whose hash is no
      text; the registration has its record when its own note encodes. Then the session's operation passes every
      layer, its envelope encodes, the transport is called and succeeds, and its record is rejected: the client is
      told 500, there is no record of it, and the log goes on serving. */
  lemma ForwardedAndRejected(sv: Services, H: Bytes -> Digest, steps: seq<R.Step>, st0: State, x: Scene, rid: Str,
                             manifest: Str, a: AdapterAnswer) returns (es: seq<Event>, st: State)
    requires StartsOver(sv, steps, st0) && st0.bundle == None && Serves(st0.log, L.SOUND) && L.IsV3(sv.log, H)
    requires Unused(st0, x.id) && Unused(st0, rid) && x.id != rid && Set(sv, x, []) && a.ok
    ensures ReadOff(x.inside) && Encodable(x.inside.content)
    ensures Runs(sv, st0, es, st) && x.id in st.reqs
    ensures Rejected(sv, st.reqs[x.id].stage) && NoneFor(st.log.chain, x.id) && Serves(st.log, L.SOUND)
    ensures Accepts(sv, st0.log.proc.value, RegEntry(sv, x, rid, manifest), 0) ==> RecordedOnce(st.log.chain, rid)
  {
    EnclosedIsRead(sv, x, []);
    EnclosedEncodes(sv, x);
    es, st := RunToRejected(sv, st0, x, rid, manifest);
    RegistrationKept(sv, st0, x, rid, manifest);
    es, st := CallRejected(sv, H, steps, st0, es, st, x, rid, a);
  }

  /** Both runs up to the transport call. */
  lemma RunToRejected(sv: Services, st0: State, x: Scene, rid: Str, manifest: Str) returns (es: seq<Event>, st: State)
    requires Starting(st0) && st0.bundle == None && Serves(st0.log, L.SOUND)
    requires Unused(st0, x.id) && Unused(st0, rid) && x.id != rid && Set(sv, x, [])
    ensures Runs(sv, st0, es, st) && AwaitsTransport(st, x.id) && st.reqs[x.id].stage.envelope == x.inside
    ensures st.ops == [Registration(x, rid)] && CallOf(st, x, 1) && Serves(st.log, L.SOUND)
    ensures st.log == Appends(sv, st0.log, RegEntry(sv, x, rid, manifest), 0, L.SOUND)
  {
    var registered, f := RunRegisters(sv, st0, x, rid, manifest);
    es, st := RunCalls(sv, st0, registered, f, x, []);
  }

  lemma RegistrationKept(sv: Services, st0: State, x: Scene, rid: Str, manifest: Str)
    requires Serves(st0.log, L.SOUND) && Unused(st0, rid)
    ensures var entry := RegEntry(sv, x, rid, manifest);
            Accepts(sv, st0.log.proc.value, entry, 0) ==>
              RecordedOnce(Appends(sv, st0.log, entry, 0, L.SOUND).chain, rid)
  {
    if Accepts(sv, st0.log.proc.value, RegEntry(sv, x, rid, manifest), 0) {
      RegistrationRecorded(sv, st0.log, rid, RegEntry(sv, x, rid, manifest));
    }
  }

  lemma CallRejected(sv: Services, H: Bytes -> Digest, steps: seq<R.Step>, st0: State, es: seq<Event>, st: State,
                     x: Scene, rid: Str, a: AdapterAnswer) returns (es': seq<Event>, st': State)
    requires StartsOver(sv, steps, st0) && Runs(sv, st0, es, st) && L.IsV3(sv.log, H) && Serves(st.log, L.SOUND)
    requires st.ops == [Registration(x, rid)] && CallOf(st, x, 1) && AwaitsTransport(st, x.id) && a.ok
    requires Encodable(st.reqs[x.id].stage.envelope.content)
    ensures Runs(sv, st0, es', st') && x.id in st'.reqs && st'.log == st.log
    ensures Rejected(sv, st'.reqs[x.id].stage) && NoneFor(st'.log.chain, x.id)
  {
    LoneHashIsGiven(x, rid);
    assert st.ops[..1] == st.ops;
    CallRecordedExactly(sv, H, steps, st0, es, st, 0, a, 0, L.SOUND);
    es', st' := Further(sv, st0, es, st, AdapterArrives(x.id, a, 0, L.SOUND));
  }
}
