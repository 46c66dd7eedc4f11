/** The `/v1/invoke` pipeline cut at its awaits: what each stretch of code between two awaits decides,
    and the one record it writes before it answers. */
module Invoke {
  import opened Common
  import opened Unicode
  import opened Json
  import opened Canonical
  import opened Encoding
  import opened Envelopes
  import opened Log
  import opened Lineage
  import opened Labels
  import opened Policy
  import opened Bindings

  datatype Body = Body(
    token: Str, sealed: Str, operation: Operation, targetId: Str, nonce: Str, cosigned: bool)

  /** The fields of an opened envelope the broker reads, and the whole of it. */
  datatype Envelope = Envelope(
    targetHash: Str, roleScopeHash: Str, contextManifestHash: Str, intent: Str, classification: Str,
    expiresAt: int, content: Js)

  datatype Opening = Opens(envelope: Envelope) | OpensExpired | OpenFails

  datatype EnvelopeCheck = Good(envelope: Envelope) | Bad(code: Code)

  datatype AdapterError = AdapterError(code: Str, message: Str)

  datatype AdapterAnswer = AdapterAnswer(ok: bool, forwarded: bool, error: Option<AdapterError>)

  datatype Await = TokenVerify | NonceConsume | EnvelopeValidate | AdapterForward

  datatype EventKind =
    | DenyEvent | InvokeEvent | ContinuityFail | EnvelopeRejected | ReplayFail | ScopeFail | TargetMismatchEvent
    | ToolBlock | IntentDriftEvent | DualControlRequested

  /** What a record's metadata is about; `Describe` writes it out. */
  datatype Detail =
    | Misshapen
    | AtStage(stage: string)
    | NoSessionId
    | TimedOut(await: Await)
    | Unsealed(expired: bool)
    | Drifted(declared: Str, operation: Operation)
    | Refused(reason: Option<Objection>, predicates: seq<Result>)
    | Blocked(message: Option<Str>)
    | Forwarded(profile: Profile, modes: seq<FheMode>, bindingHash: Str, predicates: seq<Result>)
    | RegisteredContext(manifest: Str, count: nat, held: Label, tainted: bool)

  /** One record as a route states it. */
  datatype Note = Note(
    event: EventKind, correlationId: Str, sessionId: Str, subjectId: Str, device: Str, payloadDigest: Option<Str>,
    operation: Option<Operation>, targetHash: Str, classification: Str, reason: Str, detail: Detail, forwarded: bool)

  /** What the broker calls but does not decide: its log, SHA-256, the bindings' opening of an envelope and
      digest of its readable copy, the shape check's report on a request, the deadlines, and the transport's
      name and version. */
  datatype Services = Services(
    log: Config, H: Bytes -> Digest, open: Str -> Opening, readable: Str -> Option<Str>, flaws: Str -> Js,
    budget: Await -> Js, transport: Str, version: Option<Str>)

  /** SHA-256 of a text, in hex. */
  function Sha(sv: Services, s: Str): Str { HexText(sv.H(Utf8(s))) }

  /** `envelopeDigest`, in hex; None is a thrown encoding error. */
  function DigestText(sv: Services, v: Js): Option<Str> {
    match EnvelopeDigest(sv.H, v)
    case None => None
    case Some(d) => Some(HexText(d))
  }

  /** The broker can digest exactly the envelopes that encode. */
  lemma DigestedExactly(sv: Services, v: Js)
    ensures DigestText(sv, v).Some? <==> Encodable(v)
  {
    JcsExactly(v);
  }

  // ---- names ----

  function EventText(e: EventKind): Str {
    match e
    case DenyEvent => Ascii("deny")
    case InvokeEvent => Ascii("invoke")
    case ContinuityFail => Ascii("continuity_fail")
    case EnvelopeRejected => Ascii("envelope_rejected")
    case ReplayFail => Ascii("replay_fail")
    case ScopeFail => Ascii("scope_fail")
    case TargetMismatchEvent => Ascii("target_mismatch")
    case ToolBlock => Ascii("tool_block")
    case IntentDriftEvent => Ascii("intent_drift")
    case DualControlRequested => Ascii("dual_control_requested")
  }

  function ProfileText(p: Profile): Str {
    match p
    case Relaxed => Ascii("relaxed")
    case Standard => Ascii("standard")
    case Strict => Ascii("strict")
    case Scif => Ascii("scif")
  }

  function ModeText(m: FheMode): Str {
    match m
    case ModeA => Ascii("A")
    case ModeB => Ascii("B")
    case ModeC => Ascii("C")
  }

  function AwaitText(a: Await): Str {
    match a
    case TokenVerify => Ascii("token-verify")
    case NonceConsume => Ascii("nonce")
    case EnvelopeValidate => Ascii("envelope")
    case AdapterForward => Ascii("adapter")
  }

  /** `'0'.repeat(64)`. */
  function ZeroManifest(): Str { seq(64, _ => '0' as int) }

  // ---- records ----

  function Spread(ms: seq<Member<Js>>, more: seq<Member<Js>>): seq<Member<Js>>
    decreases |more|
  {
    if more == [] then ms else Spread(Put(ms, more[0].key, more[0].value), more[1..])
  }

  /** A member that is there when its value is. */
  function IfAny(key: Str, v: Option<Js>): seq<Member<Js>> {
    if v.Some? then [Member(key, v.value)] else []
  }

  function TextsJs(xs: seq<Str>): Js { Arr(seq(|xs|, i requires 0 <= i < |xs| => Text(xs[i]))) }

  function OptionalText(v: Option<Str>): Option<Js> { if v.Some? then Some(Text(v.value)) else None }

  /** One policy predicate and its result. */
  function ResultMembers(r: Result): seq<Member<Js>> {
    [Member(Ascii("name"), Text(CheckText(r.check))), Member(Ascii("passed"), Bool(r.passed))]
    + (IfAny(Ascii("reason"), if r.reason.Some? then Some(Text(ReasonText(r.reason.value))) else None)
       + (IfAny(Ascii("code"), if r.code.Some? then Some(Text(CodeText(r.code.value))) else None)
          + IfAny(Ascii("ancestors"), if r.ancestors.Some? then Some(TextsJs(r.ancestors.value)) else None)))
  }

  function ResultsJs(rs: seq<Result>): Js {
    Arr(seq(|rs|, i requires 0 <= i < |rs| => Obj(ResultMembers(rs[i]))))
  }

  function ModesJs(ms: seq<FheMode>): Js { Arr(seq(|ms|, i requires 0 <= i < |ms| => Text(ModeText(ms[i])))) }

  function OriginsJs(os: seq<Origin>): Js { Arr(seq(|os|, i requires 0 <= i < |os| => Text(Name(os[i])))) }

  function LabelJs(l: Label): Js {
    Obj([Member(Ascii("classification"), Text(ClassificationText(l.classification))),
         Member(Ascii("origins"), OriginsJs(l.origins))])
  }

  function CountJs(n: nat): Js { if n <= MAX_SAFE then Num(n) else OtherNum([]) }

  function StageJs(stage: Str): seq<Member<Js>> { [Member(Ascii("stage"), Text(stage))] }

  function RefusedJs(reason: Option<Objection>, predicates: seq<Result>): seq<Member<Js>> {
    StageJs(Ascii("policy"))
    + (IfAny(Ascii("reason"), if reason.Some? then Some(Text(ReasonText(reason.value))) else None)
       + [Member(Ascii("predicates"), ResultsJs(predicates))])
  }

  function ForwardedJs(profile: Profile, modes: seq<FheMode>, bindingHash: Str,
                       predicates: seq<Result>): seq<Member<Js>> {
    [Member(Ascii("profile"), Text(ProfileText(profile))), Member(Ascii("allowedFheModes"), ModesJs(modes)),
     Member(Ascii("bindingHash"), Text(bindingHash)), Member(Ascii("predicates"), ResultsJs(predicates))]
  }

  /** The metadata a route gives its record. */
  function Describe(sv: Services, id: Str, detail: Detail): seq<Member<Js>> {
    match detail
    case Misshapen => StageJs(Ascii("shape")) + [Member(Ascii("validation"), sv.flaws(id))]
    case AtStage(stage) => StageJs(Ascii(stage))
    case NoSessionId =>
      StageJs(Ascii("context-register")) + [Member(Ascii("reason"), Text(Ascii("token carries no session id")))]
    case TimedOut(await) => StageJs(AwaitText(await)) + [Member(Ascii("budgetMs"), sv.budget(await))]
    case Unsealed(expired) =>
      StageJs(Ascii("envelope"))
      + [Member(Ascii("reason_class"), Text(Ascii(if expired then "expired" else "unauthenticated")))]
    case Drifted(declared, operation) =>
      [Member(Ascii("declaredIntent"), Text(declared)), Member(Ascii("operationClass"), Text(OperationText(operation)))]
    case Refused(reason, predicates) => RefusedJs(reason, predicates)
    case Blocked(message) => StageJs(Ascii("adapter")) + IfAny(Ascii("reason"), OptionalText(message))
    case Forwarded(profile, modes, bindingHash, predicates) => ForwardedJs(profile, modes, bindingHash, predicates)
    case RegisteredContext(manifest, count, held, tainted) =>
      StageJs(Ascii("context-register"))
      + [Member(Ascii("manifestHash"), Text(manifest)), Member(Ascii("elementCount"), CountJs(count)),
         Member(Ascii("sessionLabel"), LabelJs(held)), Member(Ascii("sessionTainted"), Bool(tainted))]
  }

  /** What marks the record of an operation the transport was called for. */
  function Stamp(sv: Services): seq<Member<Js>> {
    [Member(Ascii("transport"), Text(sv.transport))]
    + IfAny(Ascii("transport_version"), if sv.version == Some([]) then None else OptionalText(sv.version))
  }

  function MetadataOf(sv: Services, n: Note): seq<Member<Js>> {
    var described := Describe(sv, n.correlationId, n.detail);
    var stamped := if n.forwarded then Spread(described, Stamp(sv)) else described;
    if n.device != [] && !Hex64(n.device) then Put(stamped, Ascii("device_label"), Text(n.device)) else stamped
  }

  function OrEmpty(s: Option<Str>): Str { if s.Some? then s.value else [] }

  /** What the broker's writer hands the log. */
  function EntryOf(sv: Services, n: Note): (e: Entry)
    ensures |e.fields| == 10 && e.fields[1] == n.correlationId
  {
    Entry([EventText(n.event), n.correlationId, if Hex64(n.device) then n.device else [], n.sessionId,
           OrEmpty(n.payloadDigest), n.subjectId,
           if n.operation.Some? then OperationText(n.operation.value) else [], n.targetHash,
           n.classification, n.reason],
          None, Some(Obj(MetadataOf(sv, n))))
  }

  lemma {:induction false} PutGet(ms: seq<Member<Js>>, key: Str, v: Js, k: Str)
    ensures Get(Put(ms, key, v), k) == if k == key then Some(v) else Get(ms, k)
  {
    if ms != [] && ms[0].key != key {
      var rest := Put(ms[1..], key, v);
      assert ([ms[0]] + rest)[1..] == rest;
      PutGet(ms[1..], key, v, k);
    } else if ms != [] {
      assert ([Member(key, v)] + ms[1..])[1..] == ms[1..];
    }
  }

  lemma {:induction false} SpreadGet(ms: seq<Member<Js>>, more: seq<Member<Js>>, k: Str)
    requires DistinctKeys(more)
    ensures Get(Spread(ms, more), k) == if Get(more, k).Some? then Get(more, k) else Get(ms, k)
    decreases |more|
  {
    if more != [] {
      var rest := more[1..];
      assert forall i, j :: 0 <= i < j < |rest| ==> rest[i] == more[i + 1] && rest[j] == more[j + 1];
      SpreadGet(Put(ms, more[0].key, more[0].value), rest, k);
      PutGet(ms, more[0].key, more[0].value, k);
      if k == more[0].key { Absent(rest, k); }
    }
  }

  lemma {:induction false} Absent(ms: seq<Member<Js>>, k: Str)
    requires forall i :: 0 <= i < |ms| ==> ms[i].key != k
    ensures Get(ms, k) == None
  {
    if ms != [] { Absent(ms[1..], k); }
  }

  lemma {:induction false} GetConcat(a: seq<Member<Js>>, b: seq<Member<Js>>, k: Str)
    ensures Get(a + b, k) == if Get(a, k).Some? then Get(a, k) else Get(b, k)
  {
    if a == [] {
      assert a + b == b;
    } else if a[0].key != k {
      assert (a + b)[1..] == a[1..] + b;
      GetConcat(a[1..], b, k);
    }
  }

  /** A device is recorded once: as the fingerprint when it is one, else as a label, the fingerprint then empty. */
  lemma DeviceRecorded(sv: Services, n: Note)
    requires n.device != []
    ensures var e := EntryOf(sv, n);
            if Hex64(n.device) then e.fields[DEVICE_FINGERPRINT] == n.device
            else e.fields[DEVICE_FINGERPRINT] == []
                 && Get(e.metadata.value.members, Ascii("device_label")) == Some(Text(n.device))
  {
    var described := Describe(sv, n.correlationId, n.detail);
    var stamped := if n.forwarded then Spread(described, Stamp(sv)) else described;
    PutGet(stamped, Ascii("device_label"), Text(n.device), Ascii("device_label"));
  }

  /** A key that is neither the stamp's nor the label's shows what the route described. */
  lemma DescribedShows(sv: Services, n: Note, k: Str)
    requires k != Ascii("device_label") && |k| != 9 && |k| != 17
    ensures Get(EntryOf(sv, n).metadata.value.members, k) == Get(Describe(sv, n.correlationId, n.detail), k)
  {
    StampHas(sv, k);
    MetadataHas(sv, n, k);
  }

  lemma MetadataHas(sv: Services, n: Note, k: Str)
    requires k != Ascii("device_label")
    ensures Get(EntryOf(sv, n).metadata.value.members, k)
         == if n.forwarded && Get(Stamp(sv), k).Some? then Get(Stamp(sv), k)
            else Get(Describe(sv, n.correlationId, n.detail), k)
  {
    var ms := Describe(sv, n.correlationId, n.detail);
    StampHas(sv, k);
    SpreadGet(ms, Stamp(sv), k);
    PutGet(ms, Ascii("device_label"), Text(n.device), k);
    PutGet(Spread(ms, Stamp(sv)), Ascii("device_label"), Text(n.device), k);
  }

  lemma StampHas(sv: Services, k: Str)
    ensures DistinctKeys(Stamp(sv))
    ensures Get(Stamp(sv), k)
         == if k == Ascii("transport") then Some(Text(sv.transport))
            else if k == Ascii("transport_version") && sv.version.Some? && sv.version != Some([])
            then Some(Text(sv.version.value)) else None
    ensures |k| != 9 && |k| != 17 ==> Get(Stamp(sv), k) == None
  {
    GetConcat([Member(Ascii("transport"), Text(sv.transport))], Stamp(sv)[1..], k);
    GetOne(Ascii("transport"), Text(sv.transport), k);
    if sv.version.Some? && sv.version != Some([]) { GetOne(Ascii("transport_version"), Text(sv.version.value), k); }
  }

  lemma GetOne(key: Str, v: Js, k: Str)
    ensures Get([Member(key, v)], k) == if k == key then Some(v) else None
  {
    assert [Member(key, v)][1..] == [];
  }

  lemma StageHas(stage: Str, more: seq<Member<Js>>, k: Str)
    ensures Get(StageJs(stage) + more, k) == if k == Ascii("stage") then Some(Text(stage)) else Get(more, k)
  {
    GetConcat(StageJs(stage), more, k);
    GetOne(Ascii("stage"), Text(stage), k);
  }

  lemma AnyHas(key: Str, v: Option<Js>, more: seq<Member<Js>>, k: Str)
    ensures Get(IfAny(key, v) + more, k) == if k == key && v.Some? then v else Get(more, k)
  {
    GetConcat(IfAny(key, v), more, k);
    if v.Some? { GetOne(key, v.value, k); }
  }

  /** None of these is a key of the stamp. */
  predicate Unstamped(ms: seq<Member<Js>>) {
    forall i :: 0 <= i < |ms| ==> |ms[i].key| != 9 && |ms[i].key| != 17
  }

  lemma UnstampedConcat(a: seq<Member<Js>>, b: seq<Member<Js>>)
    requires Unstamped(a) && Unstamped(b)
    ensures Unstamped(a + b)
  {
  }

  lemma UnstampedOne(key: Str, v: Js)
    requires |key| != 9 && |key| != 17
    ensures Unstamped([Member(key, v)]) && Unstamped(IfAny(key, Some(v)))
  {
  }

  lemma StageUnstamped(stage: Str, more: seq<Member<Js>>)
    requires Unstamped(more)
    ensures Unstamped(StageJs(stage)) && Unstamped(StageJs(stage) + more)
  {
    UnstampedOne(Ascii("stage"), Text(stage));
    UnstampedConcat(StageJs(stage), more);
  }

  lemma RefusedUnstamped(reason: Option<Objection>, rs: seq<Result>)
    ensures Unstamped(RefusedJs(reason, rs))
  {
    var said := if reason.Some? then Some(Text(ReasonText(reason.value))) else None;
    UnstampedOne(Ascii("predicates"), ResultsJs(rs));
    if said.Some? { UnstampedOne(Ascii("reason"), said.value); }
    UnstampedConcat(IfAny(Ascii("reason"), said), [Member(Ascii("predicates"), ResultsJs(rs))]);
    StageUnstamped(Ascii("policy"), IfAny(Ascii("reason"), said) + [Member(Ascii("predicates"), ResultsJs(rs))]);
  }

  lemma ForwardedUnstamped(profile: Profile, modes: seq<FheMode>, bindingHash: Str, rs: seq<Result>)
    ensures Unstamped(ForwardedJs(profile, modes, bindingHash, rs))
  {
  }

  lemma RegisteredUnstamped(manifest: Str, count: nat, held: Label, tainted: bool)
    ensures Unstamped(
              [Member(Ascii("manifestHash"), Text(manifest)), Member(Ascii("elementCount"), CountJs(count)),
               Member(Ascii("sessionLabel"), LabelJs(held)), Member(Ascii("sessionTainted"), Bool(tainted))])
  {
  }

  /** No route's own metadata uses a key of the stamp. */
  lemma DescribesNoStamp(sv: Services, id: Str, detail: Detail, k: Str)
    requires |k| == 9 || |k| == 17
    ensures Get(Describe(sv, id, detail), k) == None
  {
    DescribesUnstamped(sv, id, detail);
    Absent(Describe(sv, id, detail), k);
  }

  lemma DescribesUnstamped(sv: Services, id: Str, detail: Detail)
    ensures Unstamped(Describe(sv, id, detail))
  {
    match detail {
      case Misshapen =>
        UnstampedOne(Ascii("validation"), sv.flaws(id));
        StageUnstamped(Ascii("shape"), [Member(Ascii("validation"), sv.flaws(id))]);
      case AtStage(stage) => StageUnstamped(Ascii(stage), []);
      case NoSessionId =>
        var said := Text(Ascii("token carries no session id"));
        UnstampedOne(Ascii("reason"), said);
        StageUnstamped(Ascii("context-register"), [Member(Ascii("reason"), said)]);
      case TimedOut(await) =>
        UnstampedOne(Ascii("budgetMs"), sv.budget(await));
        StageUnstamped(AwaitText(await), [Member(Ascii("budgetMs"), sv.budget(await))]);
      case Unsealed(expired) =>
        var why := Text(Ascii(if expired then "expired" else "unauthenticated"));
        UnstampedOne(Ascii("reason_class"), why);
        StageUnstamped(Ascii("envelope"), [Member(Ascii("reason_class"), why)]);
      case Drifted(declared, operation) =>
      case Refused(reason, predicates) => RefusedUnstamped(reason, predicates);
      case Blocked(message) =>
        if message.Some? { UnstampedOne(Ascii("reason"), Text(message.value)); }
        StageUnstamped(Ascii("adapter"), IfAny(Ascii("reason"), OptionalText(message)));
      case Forwarded(profile, modes, bindingHash, predicates) =>
        ForwardedUnstamped(profile, modes, bindingHash, predicates);
      case RegisteredContext(manifest, count, held, tainted) =>
        RegisteredUnstamped(manifest, count, held, tainted);
        StageUnstamped(Ascii("context-register"), Describe(sv, id, detail)[1..]);
    }
  }

  /** The transport's name, and its version where it reports one, are on the records of forwarded operations
      and on no other. */
  lemma StampedExactly(sv: Services, n: Note)
    ensures var ms := EntryOf(sv, n).metadata.value.members;
            && Get(ms, Ascii("transport")) == (if n.forwarded then Some(Text(sv.transport)) else None)
            && Get(ms, Ascii("transport_version"))
               == if n.forwarded && sv.version.Some? && sv.version != Some([]) then Some(Text(sv.version.value))
                 else None
  {
    var named, versioned := Ascii("transport"), Ascii("transport_version");
    DescribesNoStamp(sv, n.correlationId, n.detail, named);
    DescribesNoStamp(sv, n.correlationId, n.detail, versioned);
    StampHas(sv, named);
    StampHas(sv, versioned);
    MetadataHas(sv, n, named);
    MetadataHas(sv, n, versioned);
  }

  /** A record's list of predicates holds, of each one in order: its name, whether it passed, the code if it
      failed, and the ancestors if it names any. */
  predicate Lists(metadata: Option<Js>, rs: seq<Result>) {
    && metadata.Some? && metadata.value.Obj?
    && match Get(metadata.value.members, Ascii("predicates"))
       case Some(Arr(items)) => |items| == |rs| && forall i :: 0 <= i < |rs| ==> Shows(items[i], rs[i])
       case _ => false
  }

  predicate Shows(item: Js, r: Result) {
    && item.Obj?
    && Get(item.members, Ascii("name")) == Some(Text(CheckText(r.check)))
    && Get(item.members, Ascii("passed")) == Some(Bool(r.passed))
    && Get(item.members, Ascii("code")) == OptionalText(if r.code.Some? then Some(CodeText(r.code.value)) else None)
    && Get(item.members, Ascii("reason"))
       == OptionalText(if r.reason.Some? then Some(ReasonText(r.reason.value)) else None)
    && Get(item.members, Ascii("ancestors")) == if r.ancestors.Some? then Some(TextsJs(r.ancestors.value)) else None
  }

  /** A record's list names the five predicates in order, each passed and none with a code. */
  predicate ListsFivePassed(metadata: Option<Js>) {
    && metadata.Some? && metadata.value.Obj?
    && match Get(metadata.value.members, Ascii("predicates"))
       case Some(Arr(items)) => |items| == 5 && forall i :: 0 <= i < 5 ==> ShowsPassed(items[i], CheckAt(i))
       case _ => false
  }

  predicate ShowsPassed(item: Js, check: Check) {
    && item.Obj?
    && Get(item.members, Ascii("name")) == Some(Text(CheckText(check)))
    && Get(item.members, Ascii("passed")) == Some(Bool(true))
    && Get(item.members, Ascii("code")) == None
  }

  lemma AllPassedShown(metadata: Option<Js>, rs: seq<Result>)
    requires Lists(metadata, rs) && FullList(rs) && forall r | r in rs :: r.passed
    ensures ListsFivePassed(metadata)
  {
    var items := Get(metadata.value.members, Ascii("predicates")).value.items;
    forall i | 0 <= i < 5 ensures ShowsPassed(items[i], CheckAt(i)) {
      assert Shows(items[i], rs[i]);
    }
  }

  lemma ResultShows(r: Result)
    ensures Shows(Obj(ResultMembers(r)), r)
  {
    ResultHas(r, Ascii("name"));
    ResultHas(r, Ascii("passed"));
    ResultHas(r, Ascii("reason"));
    ResultHas(r, Ascii("code"));
    ResultHas(r, Ascii("ancestors"));
    assert Ascii("name")[0] != Ascii("code")[0] && Ascii("passed")[0] != Ascii("reason")[0];
  }

  lemma ResultHas(r: Result, k: Str)
    ensures Get(ResultMembers(r), k)
         == if k == Ascii("name") then Some(Text(CheckText(r.check)))
            else if k == Ascii("passed") then Some(Bool(r.passed))
            else if k == Ascii("reason") && r.reason.Some? then Some(Text(ReasonText(r.reason.value)))
            else if k == Ascii("code") && r.code.Some? then Some(Text(CodeText(r.code.value)))
            else if k == Ascii("ancestors") && r.ancestors.Some? then Some(TextsJs(r.ancestors.value)) else None
  {
    var name, passed := Member(Ascii("name"), Text(CheckText(r.check))), Member(Ascii("passed"), Bool(r.passed));
    var reason := if r.reason.Some? then Some(Text(ReasonText(r.reason.value))) else None;
    var code := if r.code.Some? then Some(Text(CodeText(r.code.value))) else None;
    var ancestors := if r.ancestors.Some? then Some(TextsJs(r.ancestors.value)) else None;
    var last := IfAny(Ascii("ancestors"), ancestors);
    GetConcat([name, passed], IfAny(Ascii("reason"), reason) + (IfAny(Ascii("code"), code) + last), k);
    assert [name, passed] == [name] + [passed];
    GetConcat([name], [passed], k);
    GetOne(name.key, name.value, k);
    GetOne(passed.key, passed.value, k);
    AnyHas(Ascii("reason"), reason, IfAny(Ascii("code"), code) + last, k);
    AnyHas(Ascii("code"), code, last, k);
    assert last + [] == last;
    AnyHas(Ascii("ancestors"), ancestors, [], k);
  }

  lemma RefusedHas(reason: Option<Objection>, rs: seq<Result>)
    ensures Get(RefusedJs(reason, rs), Ascii("predicates")) == Some(ResultsJs(rs))
  {
    var k, said := Ascii("predicates"), if reason.Some? then Some(Text(ReasonText(reason.value))) else None;
    StageHas(Ascii("policy"), IfAny(Ascii("reason"), said) + [Member(k, ResultsJs(rs))], k);
    AnyHas(Ascii("reason"), said, [Member(k, ResultsJs(rs))], k);
    GetOne(k, ResultsJs(rs), k);
  }

  lemma ForwardedHas(profile: Profile, modes: seq<FheMode>, bindingHash: Str, rs: seq<Result>)
    ensures var ms := ForwardedJs(profile, modes, bindingHash, rs);
            && Get(ms, Ascii("profile")) == Some(Text(ProfileText(profile)))
            && Get(ms, Ascii("allowedFheModes")) == Some(ModesJs(modes))
            && Get(ms, Ascii("bindingHash")) == Some(Text(bindingHash))
            && Get(ms, Ascii("predicates")) == Some(ResultsJs(rs))
  {
    var ms := ForwardedJs(profile, modes, bindingHash, rs);
    assert DistinctKeys(ms);
    GetAt(ms, 0);
    GetAt(ms, 1);
    GetAt(ms, 2);
    GetAt(ms, 3);
  }

  /** The record of a denial by policy, and that of a forwarded operation, list every predicate. */
  lemma PredicatesListed(sv: Services, n: Note)
    requires n.detail.Refused? || n.detail.Forwarded?
    ensures Lists(EntryOf(sv, n).metadata, n.detail.predicates)
  {
    var rs := n.detail.predicates;
    DescribedShows(sv, n, Ascii("predicates"));
    if n.detail.Refused? { RefusedHas(n.detail.reason, rs); }
    else { ForwardedHas(n.detail.profile, n.detail.modes, n.detail.bindingHash, rs); }
    forall i | 0 <= i < |rs| ensures Shows(ResultsJs(rs).items[i], rs[i]) { ResultShows(rs[i]); }
  }

  /** A denial by policy says why: its record lists every predicate, and its reason code is the first failure's. */
  predicate DenialExplains(n: Note) {
    n.detail.Refused? ==>
      exists code: Code :: Explains(n.detail.predicates, Some(code)) && n.reason == CodeText(code)
  }

  /** And that of a forwarded operation the profile, the modes and the hash it was forwarded under. */
  lemma ForwardShown(sv: Services, n: Note)
    requires n.detail.Forwarded?
    ensures var ms := EntryOf(sv, n).metadata.value.members;
            && Get(ms, Ascii("profile")) == Some(Text(ProfileText(n.detail.profile)))
            && Get(ms, Ascii("allowedFheModes")) == Some(ModesJs(n.detail.modes))
            && Get(ms, Ascii("bindingHash")) == Some(Text(n.detail.bindingHash))
  {
    ForwardedHas(n.detail.profile, n.detail.modes, n.detail.bindingHash, n.detail.predicates);
    DescribedShows(sv, n, Ascii("profile"));
    DescribedShows(sv, n, Ascii("allowedFheModes"));
    DescribedShows(sv, n, Ascii("bindingHash"));
  }

  function Bare(event: EventKind, id: Str, reason: Code, detail: Detail): Note {
    Note(event, id, [], [], [], None, None, [], [], CodeText(reason), detail, false)
  }

  function Attributed(event: EventKind, id: Str, t: TokenState, reason: Str, detail: Detail): Note {
    Note(event, id, t.sessionId, t.subjectId, t.deviceFingerprint, None, None, [], [], reason, detail, false)
  }

  // ---- the stretches between awaits ----

  datatype Stage =
    | AwaitToken
    | AwaitNonce(token: TokenState)
    | AwaitEnvelope(token: TokenState)
    | AwaitAdapter(token: TokenState, envelope: Envelope, decision: Decision)
    | Answered(code: nat, note: Note, at: nat)
    | Unwritten(note: Note, tried: Record, why: Cause, renamed: Option<nat>)
    | Died(why: Cause)

  /** What a handler throws, to which the framework answers 500: what a service it awaits threw, the
      encoding error of the envelope's digest, the schema's or the encoder's error for its record, or the
      log's, which refused or failed to make the record durable. */
  datatype Cause = ServiceThrew | DigestThrew | RecordRejected | LogUnavailable

  /** A stretch answers after writing its note, goes on to another await, or throws. */
  datatype Turn = Answer(code: nat, note: Note) | Go(next: Stage) | Throw(why: Cause)

  function ShapeTurn(id: Str, body: Option<Body>): Turn {
    if body.None? then Answer(400, Bare(DenyEvent, id, PolicyViolation, Misshapen)) else Go(AwaitToken)
  }

  function TokenTurn(id: Str, v: Verification): Turn {
    match v
    case Invalid(code) => Answer(401, Bare(DenyEvent, id, code, AtStage("token-verify")))
    case ValidToken(t) =>
      if t.sessionId == [] || t.role == [] then
        Answer(401, Bare(DenyEvent, id, SessionExpired, AtStage("token-verify")))
      else Go(AwaitNonce(t))
  }

  function NonceTurn(id: Str, t: TokenState, firstUse: bool): Turn {
    if !firstUse then Answer(403, Attributed(ReplayFail, id, t, CodeText(NonceReplay), AtStage("nonce")))
    else Go(AwaitEnvelope(t))
  }

  /** `validateEnvelope` with the target and the operation class the request names. */
  function CheckEnvelope(sv: Services, body: Body, now: int): EnvelopeCheck {
    match sv.open(body.sealed)
    case OpensExpired => Bad(SessionExpired)
    case OpenFails => Bad(ContinuityFailed)
    case Opens(e) =>
      if e.expiresAt < now then Bad(SessionExpired)
      else if body.targetId != [] && e.targetHash != Sha(sv, body.targetId) then Bad(TargetMismatch)
      else if e.roleScopeHash != Sha(sv, OperationText(body.operation)) then Bad(ScopeDenied)
      else Good(e)
  }

  function RejectedNote(sv: Services, id: Str, body: Body, t: TokenState, code: Code): Note {
    var unauthentic := code == SessionExpired || code == ContinuityFailed;
    Attributed(if unauthentic then EnvelopeRejected
               else if code == TargetMismatch then TargetMismatchEvent else ContinuityFail,
               id, t, CodeText(code),
               if unauthentic then Unsealed(code == SessionExpired) else AtStage("envelope"))
      .(payloadDigest := sv.readable(body.sealed), operation := Some(body.operation))
  }

  /** `OPERATION_TO_INTENT[operation].includes(intent)`. */
  predicate Permitted(op: Operation, intent: Str) {
    IntentNamed(intent).Some? && IntentNamed(intent).value in PermittedIntents(op)
  }

  function PolicyInput(body: Body, t: TokenState, e: Envelope, labels: Store): Input {
    Input(t.role, body.operation, e.classification, e.intent, Some(GetLabel(labels, t.sessionId)),
          Some(GetAncestors(labels, t.sessionId)), None)
  }

  function DeniedNote(id: Str, body: Body, t: TokenState, e: Envelope, d: Decision): Note {
    Attributed(if d.denyReasonCode == Some(ScopeDenied) then ScopeFail else DenyEvent, id, t,
               if d.denyReasonCode.Some? then CodeText(d.denyReasonCode.value) else [],
               Refused(d.denyReason, d.predicates))
      .(operation := Some(body.operation), classification := e.classification)
  }

  /** Intent, manifest, the policy's decision, dual control; the first that refuses ends the request. */
  function LayersTurn(manifests: set<Str>, id: Str, body: Body, t: TokenState, e: Envelope, d: Decision): Turn {
    if !Permitted(body.operation, e.intent) then
      Answer(403, Attributed(IntentDriftEvent, id, t, CodeText(IntentDrift), Drifted(e.intent, body.operation))
        .(operation := Some(body.operation)))
    else if e.contextManifestHash != ZeroManifest() && e.contextManifestHash !in manifests then
      Answer(403, Attributed(DenyEvent, id, t, CodeText(ManifestInvalid), AtStage("manifest")))
    else if !d.allowed then Answer(403, DeniedNote(id, body, t, e, d))
    else if d.requiresDualControl && !body.cosigned then
      Answer(202, Attributed(DualControlRequested, id, t, CodeText(DualControlRequired), AtStage("dual-control"))
        .(operation := Some(body.operation)))
    else Go(AwaitAdapter(t, e, d))
  }

  /** From the envelope's arrival to the transport call, without an await, so over the session's label as it
      is now. */
  function EnvelopeTurn(sv: Services, bundle: Option<Bundle>, manifests: set<Str>, labels: Store,
                        id: Str, body: Body, t: TokenState, check: EnvelopeCheck): Turn {
    match check
    case Bad(code) => Answer(403, RejectedNote(sv, id, body, t, code))
    case Good(e) =>
      LayersTurn(manifests, id, body, t, e, Judge(RoleNamed(bundle, t.role), PolicyInput(body, t, e, labels)))
  }

  /** The adapter's own refusal, which calls no transport. */
  function AdapterRefusal(op: Operation): AdapterAnswer {
    var refusal :=
      if DefaultDeny(op) then " requires strict or scif profile." else " not permitted at standard profile.";
    AdapterAnswer(false, false, Some(AdapterError(CodeText(OperationBlocked), OperationText(op) + Ascii(refusal))))
  }

  function ToolBlockedNote(id: Str, body: Body, t: TokenState, reason: Str, detail: Detail, forwarded: bool): Note {
    Attributed(ToolBlock, id, t, reason, detail).(operation := Some(body.operation), forwarded := forwarded)
  }

  function InvokeNote(sv: Services, id: Str, body: Body, t: TokenState, e: Envelope, d: Decision, digest: Str): Note {
    var bindingHash := Sha(sv, id + [COLON] + body.targetId + [COLON] + OperationText(body.operation));
    Attributed(InvokeEvent, id, t, [], Forwarded(d.profile, d.allowedFheModes, bindingHash, d.predicates))
      .(payloadDigest := Some(digest), operation := Some(body.operation), targetHash := e.targetHash,
        classification := e.classification, forwarded := true)
  }

  function BlockedNote(id: Str, body: Body, t: TokenState, a: AdapterAnswer): Note {
    ToolBlockedNote(id, body, t, if a.error.Some? then a.error.value.code else CodeText(ForwardFailed),
                    Blocked(if a.error.Some? then Some(a.error.value.message) else None), a.forwarded)
  }

  /** The envelope's digest is taken on the way to the last record, after the transport has answered, and
      can throw. */
  function AdapterTurn(sv: Services, id: Str, body: Body, t: TokenState, e: Envelope, d: Decision,
                       a: AdapterAnswer): Turn {
    if !a.ok then Answer(403, BlockedNote(id, body, t, a))
    else match DigestText(sv, e.content)
         case None => Throw(DigestThrew)
         case Some(digest) => Answer(200, InvokeNote(sv, id, body, t, e, d, digest))
  }

  /** A deadline that expires answers 403, and its record counts as a forwarded operation's. */
  function DeadlineTurn(id: Str, body: Body, stage: Stage): Turn {
    match stage
    case AwaitToken =>
      Answer(403, Bare(DenyEvent, id, UpstreamTimeout, TimedOut(TokenVerify)).(forwarded := true))
    case AwaitNonce(t) =>
      Answer(403, Attributed(DenyEvent, id, t, CodeText(UpstreamTimeout), TimedOut(NonceConsume)).(forwarded := true))
    case AwaitEnvelope(t) =>
      Answer(403, Attributed(ContinuityFail, id, t, CodeText(UpstreamTimeout), TimedOut(EnvelopeValidate))
        .(operation := Some(body.operation), forwarded := true))
    case AwaitAdapter(t, _, _) =>
      Answer(403, ToolBlockedNote(id, body, t, CodeText(UpstreamTimeout), TimedOut(AdapterForward), true))
    case _ => Throw(ServiceThrew)
  }

  // ---- the record, then the answer ----

  datatype Reply = Replied(code: nat) | Continues(next: Stage) | Raised(why: Cause)

  function WriteError(written: Log.Answer): Cause { if written.Rejected? then RecordRejected else LogUnavailable }

  /** A request is answered only once its record is durable; otherwise the append's error ends it. */
  function ReplyOf(turn: Turn, written: Log.Answer): Reply {
    match turn
    case Answer(code, _) => if written.Appended? then Replied(code) else Raised(WriteError(written))
    case Go(next) => Continues(next)
    case Throw(why) => Raised(why)
  }

  /** The directory, the log and the reply after a stretch. */
  function Concluded(sv: Services, c: Config, d: Disk, m: Mem, turn: Turn, now: nat, fault: Fault): (Disk, Mem, Reply) {
    if turn.Answer? then
      var e := EntryOf(sv, turn.note);
      (AppendDisk(c, d, m, e, now, fault), AppendMem(c, d, m, e, now, fault),
       ReplyOf(turn, AppendAnswer(c, d, m, e, now, fault)))
    else (d, m, ReplyOf(turn, Unavailable))
  }

  /** A stretch without an answer leaves the log alone. One with an answer replies, with that status, exactly when its
      append returned, and so with one record more than before; else it raises what the append did. */
  lemma ConcludedExactly(sv: Services, c: Config, d: Disk, m: Mem, turn: Turn, now: nat, fault: Fault)
    ensures var (d', m', reply) := Concluded(sv, c, d, m, turn, now, fault);
            match turn
            case Go(next) => d' == d && m' == m && reply == Continues(next)
            case Throw(why) => d' == d && m' == m && reply == Raised(why)
            case Answer(code, n) =>
              var written := AppendAnswer(c, d, m, EntryOf(sv, n), now, fault);
              && (if written.Appended? then reply == Replied(code) && m'.head.seqNo == m.head.seqNo + 1
                  else reply.Raised? && m'.head == m.head)
              && (reply == Raised(RecordRejected) <==> written.Rejected?)
              && (written.Rejected? ==> d' == d && m' == m)
  {
  }

  class InvokeRoute {
    const sv: Services
    const log: ProvidenceLog
    const labels: SessionLabelStore
    const policy: PolicyEngine
    var manifests: set<Str>

    constructor (sv: Services, log: ProvidenceLog, labels: SessionLabelStore, policy: PolicyEngine)
      ensures this.sv == sv && this.log == log && this.labels == labels && this.policy == policy && manifests == {}
    {
      this.sv, this.log, this.labels, this.policy, manifests := sv, log, labels, policy, {};
    }

    /** `BrokerProvidence.write`: a device id that is no fingerprint becomes a label, and the transport
        stamp goes on forwarded operations alone. */
    method Write(n: Note, now: nat, fault: Fault) returns (answer: Log.Answer)
      requires log.Built()
      modifies log, log.dir
      ensures log.dir.Contents()
              == AppendDisk(log.c, old(log.dir.Contents()), old(log.Fields()), EntryOf(sv, n), now, fault)
      ensures log.Fields() == AppendMem(log.c, old(log.dir.Contents()), old(log.Fields()), EntryOf(sv, n), now, fault)
      ensures answer == AppendAnswer(log.c, old(log.dir.Contents()), old(log.Fields()), EntryOf(sv, n), now, fault)
    {
      var fingerprint: Str := [];
      var meta := Describe(sv, n.correlationId, n.detail);
      if n.forwarded {
        meta := Spread(meta, Stamp(sv));
      }
      if n.device != [] {
        if Hex64(n.device) {
          fingerprint := n.device;
        } else {
          meta := Put(meta, Ascii("device_label"), Text(n.device));
        }
      }
      var e := Entry([EventText(n.event), n.correlationId, fingerprint, n.sessionId, OrEmpty(n.payloadDigest),
                      n.subjectId,
                      if n.operation.Some? then OperationText(n.operation.value) else [], n.targetHash,
                      n.classification, n.reason],
                     None, Some(Obj(meta)));
      assert e == EntryOf(sv, n);
      answer := log.Append(e, now, fault);
    }

    /** The layers after the envelope, in order; the first that refuses ends the request. */
    method Decide(id: Str, body: Body, t: TokenState, check: EnvelopeCheck) returns (turn: Turn)
      ensures turn == EnvelopeTurn(sv, policy.bundle, manifests, labels.labels, id, body, t, check)
    {
      if check.Bad? { return Answer(403, RejectedNote(sv, id, body, t, check.code)); }
      var envelope := check.envelope;
      var intent := IntentNamed(envelope.intent);
      if intent.None? || intent.value !in PermittedIntents(body.operation) {
        var drifted :=
          Attributed(IntentDriftEvent, id, t, CodeText(IntentDrift), Drifted(envelope.intent, body.operation));
        return Answer(403, drifted.(operation := Some(body.operation)));
      }
      if envelope.contextManifestHash != ZeroManifest() && envelope.contextManifestHash !in manifests {
        return Answer(403, Attributed(DenyEvent, id, t, CodeText(ManifestInvalid), AtStage("manifest")));
      }
      var held := labels.Get(t.sessionId);
      var ancestors := labels.Ancestors(t.sessionId);
      var decision := policy.Evaluate(
        Input(t.role, body.operation, envelope.classification, envelope.intent, Some(held), Some(ancestors), None));
      if !decision.allowed { return Answer(403, DeniedNote(id, body, t, envelope, decision)); }
      if decision.requiresDualControl && !body.cosigned {
        var requested :=
          Attributed(DualControlRequested, id, t, CodeText(DualControlRequired), AtStage("dual-control"));
        return Answer(202, requested.(operation := Some(body.operation)));
      }
      turn := Go(AwaitAdapter(t, envelope, decision));
    }

    /** From the envelope's arrival to the transport call; `call` is the transport method called, if any. */
    method OnEnvelope(id: Str, body: Body, t: TokenState, check: EnvelopeCheck, now: nat, fault: Fault)
      returns (reply: Reply, call: Option<Transport>)
      requires log.Built()
      modifies log, log.dir
      ensures var turn := EnvelopeTurn(sv, policy.bundle, manifests, old(labels.labels), id, body, t, check);
              var (d, m, r) := Concluded(sv, log.c, old(log.dir.Contents()), old(log.Fields()), turn, now, fault);
              && log.dir.Contents() == d && log.Fields() == m && reply == r
              && (call.Some? <==> turn.Go? && Route(body.operation, turn.next.decision.profile).Some?)
              && (call.Some? ==> call == Route(body.operation, turn.next.decision.profile))
    {
      var turn := Decide(id, body, t, check);
      reply := Conclude(turn, now, fault);
      call := if turn.Go? then Route(body.operation, turn.next.decision.profile) else None;
    }

    method OnToken(id: Str, v: Verification, now: nat, fault: Fault) returns (reply: Reply)
      requires log.Built()
      modifies log, log.dir
      ensures var turn := TokenTurn(id, v);
              var (d, m, r) := Concluded(sv, log.c, old(log.dir.Contents()), old(log.Fields()), turn, now, fault);
              log.dir.Contents() == d && log.Fields() == m && reply == r
    {
      if v.Invalid? {
        reply := Conclude(Answer(401, Bare(DenyEvent, id, v.code, AtStage("token-verify"))), now, fault);
      } else if v.token.sessionId == [] || v.token.role == [] {
        reply := Conclude(Answer(401, Bare(DenyEvent, id, SessionExpired, AtStage("token-verify"))), now, fault);
      } else {
        reply := Continues(AwaitNonce(v.token));
      }
    }

    method OnNonce(id: Str, t: TokenState, firstUse: bool, now: nat, fault: Fault) returns (reply: Reply)
      requires log.Built()
      modifies log, log.dir
      ensures var turn := NonceTurn(id, t, firstUse);
              var (d, m, r) := Concluded(sv, log.c, old(log.dir.Contents()), old(log.Fields()), turn, now, fault);
              log.dir.Contents() == d && log.Fields() == m && reply == r
    {
      if !firstUse {
        var replayed := Attributed(ReplayFail, id, t, CodeText(NonceReplay), AtStage("nonce"));
        reply := Conclude(Answer(403, replayed), now, fault);
      } else {
        reply := Continues(AwaitEnvelope(t));
      }
    }

    /** From the adapter's answer to the response. */
    method OnAdapter(id: Str, body: Body, t: TokenState, e: Envelope, decision: Decision, a: AdapterAnswer,
                     now: nat, fault: Fault)
      returns (reply: Reply)
      requires log.Built()
      modifies log, log.dir
      ensures var turn := AdapterTurn(sv, id, body, t, e, decision, a);
              var (d, m, r) := Concluded(sv, log.c, old(log.dir.Contents()), old(log.Fields()), turn, now, fault);
              log.dir.Contents() == d && log.Fields() == m && reply == r
    {
      if !a.ok {
        var reason, message := CodeText(ForwardFailed), None;
        if a.error.Some? { reason, message := a.error.value.code, Some(a.error.value.message); }
        reply := Conclude(Answer(403, ToolBlockedNote(id, body, t, reason, Blocked(message), a.forwarded)), now, fault);
        return;
      }
      var digest := DigestText(sv, e.content);
      if digest.None? { return Raised(DigestThrew); }
      reply := Conclude(Answer(200, InvokeNote(sv, id, body, t, e, decision, digest.value)), now, fault);
    }

    /** The record, then the answer. */
    method Conclude(turn: Turn, now: nat, fault: Fault) returns (reply: Reply)
      requires log.Built()
      modifies log, log.dir
      ensures var (d, m, r) := Concluded(sv, log.c, old(log.dir.Contents()), old(log.Fields()), turn, now, fault);
              log.dir.Contents() == d && log.Fields() == m && reply == r
    {
      match turn {
        case Throw(why) => reply := Raised(why);
        case Go(next) => reply := Continues(next);
        case Answer(code, note) =>
          var written := Write(note, now, fault);
          reply := if written.Appended? then Replied(code) else Raised(WriteError(written));
      }
    }
  }
}
