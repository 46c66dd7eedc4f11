/** The reference bindings: admission, token verification, derivation, revocation and nonces.
    Tokens and session ids are random in the source; a run here never draws one twice. */
module Bindings {
  import opened Common
  import opened Policy

  datatype TokenState = TokenState(
    sessionId: Str, subjectId: Str, deviceFingerprint: Str, role: Str, operations: seq<Operation>, expiresAt: int)

  datatype State = State(
    revokedSubjects: set<Str>, revokedSessions: set<Str>, revokedDevices: set<Str>,
    seenNonces: map<Str, set<Str>>, activeTokens: map<Str, TokenState>)

  datatype Admission = Admission(attestationPackage: Str, deviceFingerprint: Str, role: Str, operations: seq<Operation>)

  datatype Verification = Invalid(code: Code) | ValidToken(token: TokenState)

  datatype Derivation = ParentNotFound | ParentExpired | NotInScope | Child(token: TokenState)

  datatype Kind = OfSubject | OfSession | OfDevice

  const TTL_MS: int := 900_000

  const EMPTY: State := State({}, {}, {}, map[], map[])

  // ---- the specification ----

  predicate FloorMet(package: Str) {
    |package| >= 8 && !(Ascii("browser-pivot-") <= package)
  }

  predicate Admits(b: State, subject: Str, a: Admission) {
    FloorMet(a.attestationPackage) && subject !in b.revokedSubjects && a.deviceFingerprint !in b.revokedDevices
  }

  function Admitted(subject: Str, a: Admission, session: Str, now: int): TokenState {
    TokenState(session, subject, a.deviceFingerprint, a.role, a.operations, now + TTL_MS)
  }

  function Attested(b: State, t: TokenState, token: Str): State {
    b.(activeTokens := b.activeTokens[token := t], seenNonces := b.seenNonces[t.sessionId := {}])
  }

  function Verify(b: State, token: Str, now: int): Verification {
    if token !in b.activeTokens then Invalid(SessionRevoked)
    else
      var t := b.activeTokens[token];
      if t.expiresAt < now then Invalid(SessionExpired)
      else if t.sessionId in b.revokedSessions then Invalid(SessionRevoked)
      else ValidToken(t)
  }

  predicate Within(ops: seq<Operation>, scope: seq<Operation>) { forall op | op in ops :: op in scope }

  function Derive(b: State, parent: Str, ops: seq<Operation>, ttlSeconds: int, now: int): Derivation {
    if parent !in b.activeTokens then ParentNotFound
    else
      var p := b.activeTokens[parent];
      var expiresAt := now + Min(ttlSeconds * 1000, p.expiresAt - now);
      if expiresAt <= now then ParentExpired
      else if !Within(ops, p.operations) then NotInScope
      else Child(p.(operations := ops, expiresAt := expiresAt))
  }

  predicate Hits(kind: Kind, id: Str, t: TokenState) {
    match kind
    case OfSubject => t.subjectId == id
    case OfSession => t.sessionId == id
    case OfDevice => t.deviceFingerprint == id
  }

  function Surviving(tokens: map<Str, TokenState>, kind: Kind, id: Str): map<Str, TokenState> {
    map t | t in tokens && !Hits(kind, id, tokens[t]) :: tokens[t]
  }

  function Revoked(b: State, kind: Kind, id: Str): State {
    b.(revokedSubjects := if kind.OfSubject? then b.revokedSubjects + {id} else b.revokedSubjects,
       revokedSessions := if kind.OfSession? then b.revokedSessions + {id} else b.revokedSessions,
       revokedDevices := if kind.OfDevice? then b.revokedDevices + {id} else b.revokedDevices,
       activeTokens := Surviving(b.activeTokens, kind, id))
  }

  function Seen(b: State, session: Str): set<Str> {
    if session in b.seenNonces then b.seenNonces[session] else {}
  }

  predicate FirstUse(b: State, session: Str, nonce: Str) { nonce !in Seen(b, session) }

  function Consumed(b: State, session: Str, nonce: Str): State {
    b.(seenNonces := b.seenNonces[session := Seen(b, session) + {nonce}])
  }

  // ---- the class ----

  class MockBindings {
    var revokedSubjects: set<Str>
    var revokedSessions: set<Str>
    var revokedDevices: set<Str>
    var seenNonces: map<Str, set<Str>>
    var activeTokens: map<Str, TokenState>
    const subjectOf: Str -> Str

    function Fields(): State
      reads this
    {
      State(revokedSubjects, revokedSessions, revokedDevices, seenNonces, activeTokens)
    }

    constructor (subjectOf: Str -> Str)
      ensures Fields() == EMPTY && this.subjectOf == subjectOf
    {
      this.subjectOf := subjectOf;
      revokedSubjects, revokedSessions, revokedDevices, seenNonces, activeTokens := {}, {}, {}, map[], map[];
    }

    /** `attest`, with the session id and token it drew; None is a thrown error. */
    method Attest(a: Admission, session: Str, token: Str, now: int) returns (admitted: Option<TokenState>)
      modifies this
      ensures admitted.Some? <==> Admits(old(Fields()), subjectOf(a.attestationPackage), a)
      ensures admitted.Some? ==> admitted.value == Admitted(subjectOf(a.attestationPackage), a, session, now)
      ensures Fields() == if admitted.Some? then Attested(old(Fields()), admitted.value, token) else old(Fields())
    {
      var subject := subjectOf(a.attestationPackage);
      if |a.attestationPackage| < 8 || Ascii("browser-pivot-") <= a.attestationPackage { return None; }
      if subject in revokedSubjects || a.deviceFingerprint in revokedDevices { return None; }
      var t := TokenState(session, subject, a.deviceFingerprint, a.role, a.operations, now + TTL_MS);
      activeTokens := activeTokens[token := t];
      seenNonces := seenNonces[session := {}];
      admitted := Some(t);
    }

    method VerifyToken(token: Str, now: int) returns (v: Verification)
      ensures v == Verify(Fields(), token, now)
    {
      if token !in activeTokens { return Invalid(SessionRevoked); }
      var entry := activeTokens[token];
      if entry.expiresAt < now { return Invalid(SessionExpired); }
      if entry.sessionId in revokedSessions { return Invalid(SessionRevoked); }
      v := ValidToken(entry);
    }

    method DeriveScopedCapability(parent: Str, ops: seq<Operation>, ttlSeconds: int, child: Str, now: int)
      returns (d: Derivation)
      modifies this`activeTokens
      ensures d == Derive(old(Fields()), parent, ops, ttlSeconds, now)
      ensures activeTokens == if d.Child? then old(activeTokens)[child := d.token] else old(activeTokens)
    {
      if parent !in activeTokens { return ParentNotFound; }
      var p := activeTokens[parent];
      var expiresAt := now + Min(ttlSeconds * 1000, p.expiresAt - now);
      if expiresAt <= now { return ParentExpired; }
      var i := 0;
      while i < |ops|
        invariant i <= |ops| && forall j :: 0 <= j < i ==> ops[j] in p.operations
      {
        if ops[i] !in p.operations { return NotInScope; }
        i := i + 1;
      }
      var t := p.(operations := ops, expiresAt := expiresAt);
      activeTokens := activeTokens[child := t];
      d := Child(t);
    }

    /** `revokeSubject`: the id is remembered and every token it covers is dropped. */
    method Revoke(kind: Kind, id: Str)
      modifies this
      ensures Fields() == Revoked(old(Fields()), kind, id)
    {
      match kind {
        case OfSubject => revokedSubjects := revokedSubjects + {id};
        case OfSession => revokedSessions := revokedSessions + {id};
        case OfDevice => revokedDevices := revokedDevices + {id};
      }
      DropTokens(kind, id);
    }

    method DropTokens(kind: Kind, id: Str)
      modifies this`activeTokens
      ensures activeTokens == Surviving(old(activeTokens), kind, id)
    {
      ghost var was := activeTokens;
      var left := activeTokens.Keys;
      while left != {}
        invariant left <= was.Keys
        invariant activeTokens == map t | t in was && (t in left || !Hits(kind, id, was[t])) :: was[t]
      {
        var tok :| tok in left;
        if Hits(kind, id, activeTokens[tok]) { activeTokens := activeTokens - {tok}; }
        left := left - {tok};
      }
    }

    method ConsumeNonce(nonce: Str, session: Str) returns (firstUse: bool)
      modifies this`seenNonces
      ensures firstUse == FirstUse(old(Fields()), session, nonce)
      ensures seenNonces == Consumed(old(Fields()), session, nonce).seenNonces
    {
      if session !in seenNonces { seenNonces := seenNonces[session := {}]; }
      var seen := seenNonces[session];
      if nonce in seen {
        assert seen + {nonce} == seen;
        return false;
      }
      seenNonces := seenNonces[session := seen + {nonce}];
      firstUse := true;
    }
  }

  // ---- runs ----

  /** `issued` is every token ever handed out, `parents` what each derived one came from. */
  datatype World = World(b: State, issued: map<Str, TokenState>, parents: map<Str, Str>, firstUses: seq<(Str, Str)>)

  datatype Step =
    | Attest(subject: Str, a: Admission, session: Str, token: Str, now: int)
    | DeriveFrom(parent: Str, ops: seq<Operation>, ttlSeconds: int, token: Str, now: int)
    | Revoke(kind: Kind, id: Str)
    | Consume(nonce: Str, session: Str)

  function Start(): World { World(EMPTY, map[], map[], []) }

  /** Drawn identifiers are new. */
  predicate Enabled(w: World, s: Step) {
    match s
    case Attest(_, _, session, token, _) => token !in w.issued && session !in w.b.seenNonces
    case DeriveFrom(_, _, _, token, _) => token !in w.issued
    case _ => true
  }

  function Next(w: World, s: Step): World {
    match s
    case Attest(subject, a, session, token, now) =>
      if !Admits(w.b, subject, a) then w
      else
        var t := Admitted(subject, a, session, now);
        w.(b := Attested(w.b, t, token), issued := w.issued[token := t])
    case DeriveFrom(parent, ops, ttl, token, now) =>
      var d := Derive(w.b, parent, ops, ttl, now);
      if !d.Child? then w
      else w.(b := w.b.(activeTokens := w.b.activeTokens[token := d.token]),
              issued := w.issued[token := d.token], parents := w.parents[token := parent])
    case Revoke(kind, id) => w.(b := Revoked(w.b, kind, id))
    case Consume(nonce, session) =>
      w.(b := Consumed(w.b, session, nonce),
         firstUses := if FirstUse(w.b, session, nonce) then w.firstUses + [(session, nonce)] else w.firstUses)
  }

  predicate Reaches(w: World, steps: seq<Step>, w': World)
    decreases |steps|
  {
    if steps == [] then w' == w else Enabled(w, steps[0]) && Reaches(Next(w, steps[0]), steps[1..], w')
  }

  // ---- the invariant ----

  predicate Narrower(child: TokenState, parent: TokenState) {
    && Within(child.operations, parent.operations) && child.expiresAt <= parent.expiresAt
    && child.sessionId == parent.sessionId && child.subjectId == parent.subjectId
    && child.deviceFingerprint == parent.deviceFingerprint && child.role == parent.role
  }

  predicate Barred(b: State, t: TokenState) {
    t.subjectId in b.revokedSubjects || t.sessionId in b.revokedSessions || t.deviceFingerprint in b.revokedDevices
  }

  /** Active tokens are issued ones, and exactly those no revocation covers, sessions aside. */
  predicate TokensSound(w: World) {
    && (forall t | t in w.b.activeTokens :: t in w.issued && w.issued[t] == w.b.activeTokens[t])
    && (forall t | t in w.issued :: t !in w.b.activeTokens ==> Barred(w.b, w.issued[t]))
    && (forall t | t in w.b.activeTokens ::
         w.issued[t].subjectId !in w.b.revokedSubjects && w.issued[t].deviceFingerprint !in w.b.revokedDevices)
  }

  predicate ParentsSound(w: World) {
    forall t | t in w.parents ::
      t in w.issued && w.parents[t] in w.issued && Narrower(w.issued[t], w.issued[w.parents[t]])
  }

  predicate NoncesSound(w: World) {
    && (forall i :: 0 <= i < |w.firstUses| ==>
         w.firstUses[i].0 in w.b.seenNonces && w.firstUses[i].1 in w.b.seenNonces[w.firstUses[i].0])
    && (forall i, j :: 0 <= i < j < |w.firstUses| ==> w.firstUses[i] != w.firstUses[j])
    && (forall s, n | s in w.b.seenNonces && n in w.b.seenNonces[s] :: (s, n) in w.firstUses)
  }

  /** Every session a token was ever issued for has its nonces tracked. */
  predicate SessionsTracked(w: World) {
    forall t | t in w.issued :: w.issued[t].sessionId in w.b.seenNonces
  }

  predicate Inv(w: World) { TokensSound(w) && ParentsSound(w) && SessionsTracked(w) && NoncesSound(w) }

  lemma DeriveNarrows(b: State, parent: Str, ops: seq<Operation>, ttlSeconds: int, now: int)
    ensures var d := Derive(b, parent, ops, ttlSeconds, now);
            && (d.Child? <==>
                 && parent in b.activeTokens && ttlSeconds > 0 && b.activeTokens[parent].expiresAt > now
                 && Within(ops, b.activeTokens[parent].operations))
            && (d.Child? ==>
                 && Narrower(d.token, b.activeTokens[parent]) && d.token.operations == ops
                 && d.token.expiresAt <= b.activeTokens[parent].expiresAt
                 && d.token.expiresAt <= now + ttlSeconds * 1000
                 && (d.token.expiresAt == b.activeTokens[parent].expiresAt
                     || d.token.expiresAt == now + ttlSeconds * 1000))
  {
  }

  lemma AttestKeeps(w: World, subject: Str, a: Admission, session: Str, token: Str, now: int)
    requires Inv(w) && Enabled(w, Attest(subject, a, session, token, now))
    ensures Inv(Next(w, Attest(subject, a, session, token, now)))
  {
    var w' := Next(w, Attest(subject, a, session, token, now));
    assert TokensSound(w');
    assert ParentsSound(w');
  }

  lemma DeriveKeeps(w: World, parent: Str, ops: seq<Operation>, ttl: int, token: Str, now: int)
    requires Inv(w) && token !in w.issued
    ensures Inv(Next(w, DeriveFrom(parent, ops, ttl, token, now)))
  {
    var w' := Next(w, DeriveFrom(parent, ops, ttl, token, now));
    DeriveNarrows(w.b, parent, ops, ttl, now);
    assert TokensSound(w');
    assert ParentsSound(w');
  }

  lemma RevokeKeeps(w: World, kind: Kind, id: Str)
    requires Inv(w)
    ensures Inv(Next(w, Revoke(kind, id)))
  {
    var w' := Next(w, Revoke(kind, id));
    forall t | t in w.issued && t !in w'.b.activeTokens ensures Barred(w'.b, w.issued[t]) {
      if t in w.b.activeTokens { assert Hits(kind, id, w.issued[t]); }
    }
    assert TokensSound(w');
  }

  /** Revocations are only ever added. */
  predicate StillRevoked(b: State, b': State) {
    && b.revokedSubjects <= b'.revokedSubjects && b.revokedSessions <= b'.revokedSessions
    && b.revokedDevices <= b'.revokedDevices
  }

  lemma StepKeeps(w: World, s: Step)
    requires Inv(w) && Enabled(w, s)
    ensures Inv(Next(w, s)) && StillRevoked(w.b, Next(w, s).b)
  {
    match s {
      case Attest(subject, a, session, token, now) => AttestKeeps(w, subject, a, session, token, now);
      case DeriveFrom(parent, ops, ttl, token, now) => DeriveKeeps(w, parent, ops, ttl, token, now);
      case Revoke(kind, id) => RevokeKeeps(w, kind, id);
      case Consume(nonce, session) =>
    }
  }

  lemma {:induction false} RunKeeps(w: World, steps: seq<Step>, w': World)
    requires Inv(w) && Reaches(w, steps, w')
    ensures Inv(w') && StillRevoked(w.b, w'.b)
    decreases |steps|
  {
    if steps != [] {
      StepKeeps(w, steps[0]);
      RunKeeps(Next(w, steps[0]), steps[1..], w');
    }
  }

  // ---- the theorems ----

  /** A token verifies exactly when it was issued, has not expired and no revocation covers it. */
  lemma VerifiesExactly(steps: seq<Step>, w: World, token: Str, now: int)
    requires Reaches(Start(), steps, w)
    ensures Verify(w.b, token, now).ValidToken?
            <==> token in w.issued && now <= w.issued[token].expiresAt && !Barred(w.b, w.issued[token])
    ensures Verify(w.b, token, now).ValidToken? ==> Verify(w.b, token, now).token == w.issued[token]
  {
    RunKeeps(Start(), steps, w);
  }

  /** Which error a derivation ends in: no such parent, no life left or asked for, or an operation beyond it. */
  lemma DeriveRefuses(b: State, parent: Str, ops: seq<Operation>, ttlSeconds: int, now: int)
    ensures var d := Derive(b, parent, ops, ttlSeconds, now);
            if parent !in b.activeTokens then d == ParentNotFound
            else if ttlSeconds <= 0 || b.activeTokens[parent].expiresAt <= now then d == ParentExpired
            else (d == NotInScope <==> exists op :: op in ops && op !in b.activeTokens[parent].operations)
  {
  }

  /** An admission issues its token exactly when the package is of 8 units or more and none of a pivoting browser,
      and neither subject nor device is revoked. */
  lemma AdmissionExactly(w: World, subject: Str, a: Admission, session: Str, token: Str, now: int)
    requires Enabled(w, Attest(subject, a, session, token, now))
    ensures token in Next(w, Attest(subject, a, session, token, now)).issued
       <==> && |a.attestationPackage| >= 8
            && !(|a.attestationPackage| >= 14 && a.attestationPackage[..14] == Ascii("browser-pivot-"))
            && subject !in w.b.revokedSubjects && a.deviceFingerprint !in w.b.revokedDevices
  {
  }

  /** The token then verifies for fifteen minutes and no longer, for this subject, session, device and role. */
  lemma AdmittedLives(w: World, subject: Str, a: Admission, session: Str, token: Str, now: int, t: int)
    requires Enabled(w, Attest(subject, a, session, token, now)) && Admits(w.b, subject, a)
    requires session !in w.b.revokedSessions
    ensures var v := Verify(Next(w, Attest(subject, a, session, token, now)).b, token, t);
            if t <= now + 15 * 60 * 1000
            then v.ValidToken? && v.token.subjectId == subject && v.token.sessionId == session
                 && v.token.deviceFingerprint == a.deviceFingerprint && v.token.role == a.role
                 && v.token.operations == a.operations
            else v == Invalid(SessionExpired)
  {
  }

  /** What a refused token is told: that it expired exactly when it is active and past its time. */
  lemma RefusalSays(b: State, token: Str, now: int)
    requires Verify(b, token, now).Invalid?
    ensures Verify(b, token, now).code
         == if token in b.activeTokens && b.activeTokens[token].expiresAt < now then SessionExpired else SessionRevoked
  {
  }

  /** A nonce is a first use exactly when it has been none in its session before. */
  lemma FirstUseExactly(steps: seq<Step>, w: World, session: Str, nonce: Str)
    requires Reaches(Start(), steps, w)
    ensures FirstUse(w.b, session, nonce) <==> (session, nonce) !in w.firstUses
  {
    RunKeeps(Start(), steps, w);
  }

  /** No revocation covers a token when it verifies. */
  lemma VerifiedIsFree(w: World, token: Str, now: int)
    requires Inv(w) && Verify(w.b, token, now).ValidToken?
    ensures !Barred(w.b, Verify(w.b, token, now).token)
  {
  }

  /** After a subject, session or device is revoked, no token of it, derived before or admitted after,
      ever verifies again. */
  lemma RevocationIsPermanent(before: seq<Step>, w: World, kind: Kind, id: Str, later: seq<Step>, w': World,
                              token: Str, now: int)
    requires Reaches(Start(), before, w) && Reaches(Next(w, Revoke(kind, id)), later, w')
    ensures Verify(w'.b, token, now).ValidToken? ==> !Hits(kind, id, Verify(w'.b, token, now).token)
  {
    RunKeeps(Start(), before, w);
    StepKeeps(w, Revoke(kind, id));
    RunKeeps(Next(w, Revoke(kind, id)), later, w');
  }

  /** Each token on the path was derived from the next one. */
  predicate Lineage(w: World, path: seq<Str>) {
    forall i :: 0 <= i < |path| - 1 ==> path[i] in w.parents && w.parents[path[i]] == path[i + 1]
  }

  /** Derivation narrows along any number of steps: operations and expiry lie within every ancestor's,
      and session, subject, device and role are the same. */
  lemma {:induction false} DescendantsNarrow(steps: seq<Step>, w: World, path: seq<Str>)
    requires Reaches(Start(), steps, w) && |path| >= 1 && Lineage(w, path) && path[0] in w.issued
    ensures path[|path| - 1] in w.issued && Narrower(w.issued[path[0]], w.issued[path[|path| - 1]])
    decreases |path|
  {
    RunKeeps(Start(), steps, w);
    if |path| > 1 {
      var rest := path[1..];
      assert Lineage(w, rest) by {
        forall i | 0 <= i < |rest| - 1 ensures rest[i] in w.parents && w.parents[rest[i]] == rest[i + 1] {
          assert rest[i] == path[i + 1];
        }
      }
      assert path[0] in w.parents;
      DescendantsNarrow(steps, w, rest);
      NarrowerTransitive(w.issued[path[0]], w.issued[path[1]], w.issued[path[|path| - 1]]);
    }
  }

  lemma NarrowerTransitive(a: TokenState, b: TokenState, c: TokenState)
    requires Narrower(a, b) && Narrower(b, c)
    ensures Narrower(a, c)
  {
  }

  /** No nonce is a first use twice in one session. */
  lemma FirstUsesDiffer(steps: seq<Step>, w: World)
    requires Reaches(Start(), steps, w)
    ensures forall i, j :: 0 <= i < j < |w.firstUses| ==> w.firstUses[i] != w.firstUses[j]
  {
    RunKeeps(Start(), steps, w);
  }
}
