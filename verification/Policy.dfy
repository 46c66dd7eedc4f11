/** The policy engine: five predicates, every one evaluated and recorded whatever the others say, and
    the adapter's gate on the profile the decision grants. */
module Policy {
  import opened Common
  import opened Lineage

  datatype Operation =
    | OperatorRead | OperatorWrite | ToolInvoke | NodeInvoke | FileRead | FileWrite
    | ExportData | ExecRun | AdminControl

  datatype Intent = Read | Write | Analyze | Export | Execute | Escalate

  datatype Profile = Relaxed | Standard | Strict | Scif

  datatype FheMode = ModeA | ModeB | ModeC

  datatype Code =
    | RoleInvalid | ScopeDenied | IntentDrift | ClassificationViolation | PolicyViolation | UpstreamTimeout
    | SessionExpired | SessionRevoked | NonceReplay | TargetMismatch | ContinuityFailed | ManifestInvalid
    | DualControlRequired | OperationBlocked | ForwardFailed

  datatype Role = Role(allowedOperations: seq<Operation>, defaultProfile: Profile, requiresDualControl: seq<Operation>)

  type Bundle = map<Str, Role>

  /** Classification and intent come out of an opened envelope, so they may be any text. */
  datatype Input = Input(
    role: Str, operation: Operation, classification: Str, intent: Str,
    sessionLabel: Option<Label>, sessionAncestors: Option<seq<Str>>, requestedProfile: Option<Profile>)

  datatype Check = RoleCheck | ScopeCheck | IntentCheck | TaintCheck | ClassificationCheck

  /** What a failed predicate says; `ReasonText` is its wording. */
  datatype Objection =
    | RoleUndefined(role: Str)
    | RoleUnresolved
    | RoleCannot(role: Str, operation: Operation)
    | IntentNotPermitted(intent: Str, operation: Operation)
    | IntentTainted(intent: Str, origins: seq<Origin>)
    | NoMode(classification: Str)

  datatype Result = Result(
    check: Check, passed: bool, reason: Option<Objection>, code: Option<Code>, ancestors: Option<seq<Str>>)

  datatype Decision = Decision(
    allowed: bool, profile: Profile, requiresDualControl: bool, requiresEndpointAttestation: bool,
    allowedFheModes: seq<FheMode>, denyReasonCode: Option<Code>, denyReason: Option<Objection>, predicates: seq<Result>)

  // ---- names ----

  function OperationText(op: Operation): Str {
    match op
    case OperatorRead => Ascii("operator.read")
    case OperatorWrite => Ascii("operator.write")
    case ToolInvoke => Ascii("tool.invoke")
    case NodeInvoke => Ascii("node.invoke")
    case FileRead => Ascii("file.read")
    case FileWrite => Ascii("file.write")
    case ExportData => Ascii("export.data")
    case ExecRun => Ascii("exec.run")
    case AdminControl => Ascii("admin.control")
  }

  function ClassificationText(c: Classification): Str {
    match c
    case Public => Ascii("public")
    case Sensitive => Ascii("sensitive")
    case Regulated => Ascii("regulated")
    case ClassifiedAdjacent => Ascii("classified-adjacent")
  }

  function IntentText(i: Intent): Str {
    match i
    case Read => Ascii("read")
    case Write => Ascii("write")
    case Analyze => Ascii("analyze")
    case Export => Ascii("export")
    case Execute => Ascii("execute")
    case Escalate => Ascii("escalate")
  }

  const INTENTS: seq<Intent> := [Read, Write, Analyze, Export, Execute, Escalate]

  const CLASSIFICATIONS: seq<Classification> := [Public, Sensitive, Regulated, ClassifiedAdjacent]

  /** The first of these that a text names. */
  function FirstNamed<T>(xs: seq<T>, text: T -> Str, s: Str): (r: Option<T>)
    ensures r.Some? ==> text(r.value) == s
    ensures r.None? ==> forall x | x in xs :: text(x) != s
  {
    if xs == [] then None else if text(xs[0]) == s then Some(xs[0]) else FirstNamed(xs[1..], text, s)
  }

  function IntentNamed(s: Str): (r: Option<Intent>)
    ensures r.Some? ==> IntentText(r.value) == s
    ensures r.None? ==> forall i | i in INTENTS :: IntentText(i) != s
  {
    FirstNamed(INTENTS, IntentText, s)
  }

  function ClassificationNamed(s: Str): (r: Option<Classification>)
    ensures r.Some? ==> ClassificationText(r.value) == s
    ensures r.None? ==> forall c | c in CLASSIFICATIONS :: ClassificationText(c) != s
  {
    FirstNamed(CLASSIFICATIONS, ClassificationText, s)
  }

  function CheckText(check: Check): Str {
    match check
    case RoleCheck => Ascii("role")
    case ScopeCheck => Ascii("scope")
    case IntentCheck => Ascii("intent")
    case TaintCheck => Ascii("taint")
    case ClassificationCheck => Ascii("classification")
  }

  function CodeText(c: Code): Str {
    match c
    case RoleInvalid => Ascii("ERR_ROLE_INVALID")
    case ScopeDenied => Ascii("ERR_SCOPE_DENIED")
    case IntentDrift => Ascii("ERR_INTENT_DRIFT")
    case ClassificationViolation => Ascii("ERR_CLASSIFICATION_VIOLATION")
    case PolicyViolation => Ascii("ERR_POLICY_VIOLATION")
    case UpstreamTimeout => Ascii("ERR_UPSTREAM_TIMEOUT")
    case SessionExpired => Ascii("ERR_SESSION_EXPIRED")
    case SessionRevoked => Ascii("ERR_SESSION_REVOKED")
    case NonceReplay => Ascii("ERR_NONCE_REPLAY")
    case TargetMismatch => Ascii("ERR_TARGET_MISMATCH")
    case ContinuityFailed => Ascii("ERR_CONTINUITY_FAILED")
    case ManifestInvalid => Ascii("ERR_CONTEXT_MANIFEST_INVALID")
    case DualControlRequired => Ascii("ERR_DUAL_CONTROL_REQUIRED")
    case OperationBlocked => Ascii("ERR_OPERATION_BLOCKED")
    case ForwardFailed => Ascii("ERR_OPENCLAW_FORWARD_FAILED")
  }

  /** `origins.join(', ')`. */
  function OriginsText(os: seq<Origin>): Str {
    if os == [] then []
    else if |os| == 1 then Name(os[0])
    else OriginsText(os[..|os| - 1]) + Ascii(", ") + Name(os[|os| - 1])
  }

  function ReasonText(r: Objection): Str {
    match r
    case RoleUndefined(role) => Ascii("Role \"") + role + Ascii("\" not defined.")
    case RoleUnresolved => Ascii("Not evaluated: role did not resolve.")
    case RoleCannot(role, op) => Ascii("Role \"") + role + Ascii("\" cannot perform ") + OperationText(op) + Ascii(".")
    case IntentNotPermitted(intent, op) =>
      Ascii("Intent ") + intent + Ascii(" not permitted for ") + OperationText(op) + Ascii(".")
    case IntentTainted(intent, os) =>
      Ascii("Intent ") + intent + Ascii(" is not permitted in a session carrying untrusted context (origins: ")
      + OriginsText(os) + Ascii(").")
    case NoMode(classification) => Ascii("Classification ") + classification + Ascii(" has no valid FHE mode.")
  }

  // ---- tables ----

  function PermittedIntents(op: Operation): seq<Intent> {
    match op
    case OperatorRead | FileRead => [Read, Analyze]
    case OperatorWrite | FileWrite => [Write]
    case ToolInvoke => [Read, Analyze, Write]
    case NodeInvoke => [Read, Analyze, Write, Execute]
    case ExportData => [Export]
    case ExecRun => [Execute]
    case AdminControl => [Escalate]
  }

  function ModesFor(c: Classification): seq<FheMode> {
    if c.ClassifiedAdjacent? then [ModeA] else [ModeA, ModeB, ModeC]
  }

  function DefaultRole(name: Str): Option<Role> {
    if name == Ascii("viewer") then Some(Role([OperatorRead], Standard, []))
    else if name == Ascii("analyst") then Some(Role([OperatorRead, ToolInvoke], Standard, []))
    else if name == Ascii("operator") then
      Some(Role([OperatorRead, OperatorWrite, ToolInvoke, FileRead, FileWrite], Standard, []))
    else if name == Ascii("orchestrator") then
      Some(Role([OperatorRead, OperatorWrite, ToolInvoke, NodeInvoke, FileRead, FileWrite], Strict, []))
    else if name == Ascii("admin") then Some(Role([AdminControl, ExecRun], Strict, [AdminControl, ExecRun]))
    else if name == Ascii("egress_agent") then Some(Role([OperatorRead, FileRead, ExportData], Strict, []))
    else if name == Ascii("node_admin") then Some(Role([NodeInvoke], Strict, [NodeInvoke]))
    else None
  }

  function RoleNamed(bundle: Option<Bundle>, name: Str): Option<Role> {
    match bundle
    case None => DefaultRole(name)
    case Some(b) => if name in b then Some(b[name]) else None
  }

  // ---- what a decision should be, predicate by predicate ----

  predicate RoleHolds(role: Option<Role>, i: Input) { role.Some? }

  predicate ScopeHolds(role: Option<Role>, i: Input) {
    RoleHolds(role, i) && i.operation in role.value.allowedOperations
  }

  predicate IntentHolds(i: Input) {
    IntentNamed(i.intent).Some? && IntentNamed(i.intent).value in PermittedIntents(i.operation)
  }

  predicate Outward(i: Option<Intent>) { i == Some(Export) || i == Some(Escalate) }

  predicate SessionTainted(i: Input) { i.sessionLabel.Some? && Tainted(i.sessionLabel.value) }

  predicate TaintHolds(i: Input) { !(SessionTainted(i) && Outward(IntentNamed(i.intent))) }

  predicate ClassificationHolds(i: Input) { ClassificationNamed(i.classification).Some? }

  predicate Holds(role: Option<Role>, i: Input, check: Check) {
    match check
    case RoleCheck => RoleHolds(role, i)
    case ScopeCheck => ScopeHolds(role, i)
    case IntentCheck => IntentHolds(i)
    case TaintCheck => TaintHolds(i)
    case ClassificationCheck => ClassificationHolds(i)
  }

  function CodeOf(check: Check): Code {
    match check
    case RoleCheck => RoleInvalid
    case ScopeCheck | TaintCheck => ScopeDenied
    case IntentCheck => IntentDrift
    case ClassificationCheck => ClassificationViolation
  }

  function ReasonFor(role: Option<Role>, i: Input, check: Check): Objection {
    match check
    case RoleCheck => RoleUndefined(i.role)
    case ScopeCheck => if role.None? then RoleUnresolved else RoleCannot(i.role, i.operation)
    case IntentCheck => IntentNotPermitted(i.intent, i.operation)
    case TaintCheck => IntentTainted(i.intent, if i.sessionLabel.Some? then i.sessionLabel.value.origins else [])
    case ClassificationCheck => NoMode(i.classification)
  }

  /** A taint result carries the ancestors whenever the session is tainted, passed or not. */
  function AncestorsFor(i: Input, check: Check): Option<seq<Str>> {
    if check.TaintCheck? && SessionTainted(i)
    then Some(if i.sessionAncestors.Some? then i.sessionAncestors.value else [])
    else None
  }

  function ResultOf(role: Option<Role>, i: Input, check: Check): Result {
    var ok := Holds(role, i, check);
    Result(check, ok, if ok then None else Some(ReasonFor(role, i, check)), if ok then None else Some(CodeOf(check)),
           AncestorsFor(i, check))
  }

  /** Every predicate and its result, in evaluation order. */
  function Results(role: Option<Role>, i: Input): seq<Result> {
    [ResultOf(role, i, RoleCheck), ResultOf(role, i, ScopeCheck), ResultOf(role, i, IntentCheck),
     ResultOf(role, i, TaintCheck), ResultOf(role, i, ClassificationCheck)]
  }

  /** The predicate evaluated at this place. */
  function CheckAt(k: nat): Check {
    if k == 0 then RoleCheck else if k == 1 then ScopeCheck else if k == 2 then IntentCheck
    else if k == 3 then TaintCheck else ClassificationCheck
  }

  /** All five predicates, in evaluation order, each failed one with a code. */
  predicate FullList(rs: seq<Result>) {
    |rs| == 5 && forall k :: 0 <= k < 5 ==> rs[k].check == CheckAt(k) && (rs[k].code.Some? <==> !rs[k].passed)
  }

  function FirstFailure(rs: seq<Result>): Option<Result> {
    if rs == [] then None else if !rs[0].passed then Some(rs[0]) else FirstFailure(rs[1..])
  }

  function Judge(role: Option<Role>, i: Input): Decision {
    var rs := Results(role, i);
    match FirstFailure(rs)
    case Some(f) => Decision(false, Strict, false, false, [], f.code, f.reason, rs)
    case None =>
      match (role, ClassificationNamed(i.classification))
      case (Some(r), Some(c)) =>
        Decision(true, if i.requestedProfile.Some? then i.requestedProfile.value else r.defaultProfile,
                 i.operation in r.requiresDualControl, c.Regulated? || c.ClassifiedAdjacent?, ModesFor(c),
                 None, None, rs)
      case _ => Decision(false, Strict, false, false, [], None, None, rs)
  }

  // ---- the class ----

  class PolicyEngine {
    var bundle: Option<Bundle>

    constructor ()
      ensures bundle == None
    {
      bundle := None;
    }

    method LoadBundle(b: Bundle)
      modifies this
      ensures bundle == Some(b)
    {
      bundle := Some(b);
    }

    method ResolveRole(name: Str) returns (role: Option<Role>)
      ensures role == RoleNamed(bundle, name)
    {
      if bundle.Some? {
        if name !in bundle.value { return None; }
        return Some(bundle.value[name]);
      }
      role := DefaultRole(name);
    }

    method Evaluate(input: Input) returns (d: Decision)
      ensures d == Judge(RoleNamed(bundle, input.role), input)
    {
      var role := ResolveRole(input.role);
      d := EvaluateAs(role, input);
    }
  }

  /** `evaluate` once the role is resolved: no failure stops the later predicates. */
  method CheckAll(role: Option<Role>, input: Input) returns (predicates: seq<Result>)
    ensures predicates == Results(role, input)
  {
    var byRole := CheckRole(role, input);
    var independent := CheckInput(role, input);
    predicates := byRole + independent;
  }

  /** The predicates that need the role. */
  method CheckRole(role: Option<Role>, input: Input) returns (predicates: seq<Result>)
    ensures predicates == [ResultOf(role, input, RoleCheck), ResultOf(role, input, ScopeCheck)]
  {
    predicates := [if role.Some? then Result(RoleCheck, true, None, None, None)
                   else Result(RoleCheck, false, Some(RoleUndefined(input.role)), Some(RoleInvalid), None)];
    if role.None? {
      predicates := predicates + [Result(ScopeCheck, false, Some(RoleUnresolved), Some(ScopeDenied), None)];
    } else if input.operation !in role.value.allowedOperations {
      var cannot := RoleCannot(input.role, input.operation);
      predicates := predicates + [Result(ScopeCheck, false, Some(cannot), Some(ScopeDenied), None)];
    } else {
      predicates := predicates + [Result(ScopeCheck, true, None, None, None)];
    }
  }

  /** The predicates that do not need the role. */
  method CheckInput(ghost role: Option<Role>, input: Input) returns (predicates: seq<Result>)
    ensures predicates == [ResultOf(role, input, IntentCheck), ResultOf(role, input, TaintCheck),
                           ResultOf(role, input, ClassificationCheck)]
  {
    predicates := [];
    var intent := IntentNamed(input.intent);
    if intent.None? || intent.value !in PermittedIntents(input.operation) {
      var drift := IntentNotPermitted(input.intent, input.operation);
      predicates := predicates + [Result(IntentCheck, false, Some(drift), Some(IntentDrift), None)];
    } else {
      predicates := predicates + [Result(IntentCheck, true, None, None, None)];
    }
    var taint := CheckTaint(role, input);
    predicates := predicates + [taint];
    if ClassificationNamed(input.classification).None? {
      var noMode := NoMode(input.classification);
      var failed := Result(ClassificationCheck, false, Some(noMode), Some(ClassificationViolation), None);
      predicates := predicates + [failed];
    } else {
      predicates := predicates + [Result(ClassificationCheck, true, None, None, None)];
    }
  }

  method CheckTaint(ghost role: Option<Role>, input: Input) returns (r: Result)
    ensures r == ResultOf(role, input, TaintCheck)
  {
    var tainted := SessionTainted(input);
    var outward := input.intent == Ascii("export") || input.intent == Ascii("escalate");
    var ancestors := if input.sessionAncestors.Some? then input.sessionAncestors.value else [];
    OutwardTexts(input.intent);
    if tainted && outward {
      var carries := IntentTainted(input.intent, input.sessionLabel.value.origins);
      return Result(TaintCheck, false, Some(carries), Some(ScopeDenied), Some(ancestors));
    }
    r := Result(TaintCheck, true, None, None, if tainted then Some(ancestors) else None);
  }

  lemma OutwardTexts(s: Str)
    ensures Outward(IntentNamed(s)) <==> s == Ascii("export") || s == Ascii("escalate")
  {
    TextsDiffer();
    assert INTENTS[3] == Export && INTENTS[5] == Escalate;
    assert IntentText(Export) == Ascii("export") && IntentText(Escalate) == Ascii("escalate");
  }

  lemma TextsDiffer()
    ensures forall i: Intent :: (IntentText(i) == Ascii("export") ==> i == Export)
    ensures forall i: Intent :: (IntentText(i) == Ascii("escalate") ==> i == Escalate)
  {
    assert Ascii("export")[0] == 'e' as int && Ascii("export")[1] == 'x' as int;
    assert Ascii("escalate")[0] == 'e' as int;
  }

  method EvaluateAs(role: Option<Role>, input: Input) returns (d: Decision)
    ensures d == Judge(role, input)
  {
    var predicates := CheckAll(role, input);
    AllOrFirst(role, input);
    var firstFailure := FirstFailure(predicates);
    if firstFailure.Some? {
      var f := firstFailure.value;
      return Decision(false, Strict, false, false, [], f.code, f.reason, predicates);
    }
    assert Holds(role, input, RoleCheck) && Holds(role, input, ClassificationCheck);
    var profile := if input.requestedProfile.Some? then input.requestedProfile.value else role.value.defaultProfile;
    var c := ClassificationNamed(input.classification).value;
    return Decision(true, profile, input.operation in role.value.requiresDualControl,
                    c.Regulated? || c.ClassifiedAdjacent?, ModesFor(c), None, None, predicates);
  }

  // ---- what a decision means ----

  lemma {:induction false} FirstFailureIs(rs: seq<Result>)
    ensures FirstFailure(rs).None? <==> forall r | r in rs :: r.passed
    ensures FirstFailure(rs).Some? ==>
              exists k :: 0 <= k < |rs| && rs[k] == FirstFailure(rs).value && !rs[k].passed
                          && forall j :: 0 <= j < k ==> rs[j].passed
  {
    if rs != [] && rs[0].passed {
      FirstFailureIs(rs[1..]);
      assert forall r :: r in rs <==> r == rs[0] || r in rs[1..];
      if FirstFailure(rs).Some? {
        var k :| 0 <= k < |rs| - 1 && rs[1..][k] == FirstFailure(rs[1..]).value && !rs[1..][k].passed
                 && forall j :: 0 <= j < k ==> rs[1..][j].passed;
        assert forall j :: 0 < j < k + 1 ==> rs[j] == rs[1..][j - 1];
        assert rs[k + 1] == FirstFailure(rs).value;
      }
    }
  }

  lemma AllOrFirst(role: Option<Role>, i: Input)
    ensures FirstFailure(Results(role, i)).None?
            <==> forall check: Check :: Holds(role, i, check)
  {
    var rs := Results(role, i);
    FirstFailureIs(rs);
    if FirstFailure(rs).None? {
      forall check: Check ensures Holds(role, i, check) { assert ResultOf(role, i, check) in rs; }
    }
  }

  /** Allowed exactly when the role resolves and covers the operation, the intent is one the operation
      permits, a tainted session is not reaching outward, and the classification is one of the four. */
  lemma AllowedExactly(role: Option<Role>, i: Input)
    ensures Judge(role, i).allowed
            <==> ScopeHolds(role, i) && IntentHolds(i) && TaintHolds(i) && ClassificationHolds(i)
    ensures |Judge(role, i).predicates| == 5
    ensures Judge(role, i).allowed <==> forall r | r in Judge(role, i).predicates :: r.passed
    ensures Judge(role, i).allowed <==> Judge(role, i).denyReasonCode.None?
  {
    AllOrFirst(role, i);
    FirstFailureIs(Results(role, i));
    if ScopeHolds(role, i) && IntentHolds(i) && TaintHolds(i) && ClassificationHolds(i) {
      assert forall check: Check :: Holds(role, i, check);
    }
  }

  lemma JudgeListsAll(role: Option<Role>, i: Input)
    ensures FullList(Judge(role, i).predicates)
  {
  }

  /** A list explains a code: it is that of its first failure. */
  predicate Explains(rs: seq<Result>, code: Option<Code>) {
    && FullList(rs)
    && exists k :: 0 <= k < 5 && !rs[k].passed && rs[k].code == code && forall j :: 0 <= j < k ==> rs[j].passed
  }

  lemma DenialExplained(role: Option<Role>, i: Input)
    requires !Judge(role, i).allowed
    ensures Judge(role, i).denyReasonCode.Some? && Explains(Judge(role, i).predicates, Judge(role, i).denyReasonCode)
  {
    var rs := Results(role, i);
    AllOrFirst(role, i);
    FirstFailureIs(rs);
    JudgeListsAll(role, i);
  }

  /** The first predicate that fails, in evaluation order. */
  function FirstFailing(role: Option<Role>, i: Input): Check {
    if !RoleHolds(role, i) then RoleCheck
    else if !ScopeHolds(role, i) then ScopeCheck
    else if !IntentHolds(i) then IntentCheck
    else if !TaintHolds(i) then TaintCheck
    else ClassificationCheck
  }

  /** The code and the reason a denial reports are those of the first failure. */
  lemma DenialNamesFirst(role: Option<Role>, i: Input)
    requires !Judge(role, i).allowed
    ensures !Holds(role, i, FirstFailing(role, i))
    ensures Judge(role, i).denyReasonCode == Some(CodeOf(FirstFailing(role, i)))
    ensures Judge(role, i).denyReason == Some(ReasonFor(role, i, FirstFailing(role, i)))
    ensures Judge(role, i).profile == Strict && Judge(role, i).allowedFheModes == []
    ensures !Judge(role, i).requiresDualControl && !Judge(role, i).requiresEndpointAttestation
  {
    var rs := Results(role, i);
    AllOrFirst(role, i);
    FirstFailureIs(rs);
    var k :| 0 <= k < |rs| && rs[k] == FirstFailure(rs).value && !rs[k].passed
             && forall j :: 0 <= j < k ==> rs[j].passed;
    assert !RoleHolds(role, i) ==> !rs[0].passed;
    assert !ScopeHolds(role, i) ==> !rs[1].passed;
    assert !IntentHolds(i) ==> !rs[2].passed;
    assert !TaintHolds(i) ==> !rs[3].passed;
  }

  /** Whatever else fails, the taint result is there, right, and lists what the session had read. */
  lemma TaintAlwaysRecorded(role: Option<Role>, i: Input)
    ensures exists r :: r in Judge(role, i).predicates && r.check == TaintCheck
    ensures forall r | r in Judge(role, i).predicates && r.check == TaintCheck ::
              && (r.passed <==> !(SessionTainted(i) && Outward(IntentNamed(i.intent))))
              && (r.ancestors.Some? <==> SessionTainted(i))
              && (r.ancestors.Some? && i.sessionAncestors.Some? ==> r.ancestors == i.sessionAncestors)
  {
    var rs := Results(role, i);
    assert Judge(role, i).predicates == rs;
    assert rs[3].check == TaintCheck;
    forall r | r in rs && r.check == TaintCheck ensures r == ResultOf(role, i, TaintCheck) {
      OneTaintResult(role, i, r);
    }
  }

  lemma OneTaintResult(role: Option<Role>, i: Input, r: Result)
    requires r in Results(role, i)
    ensures r == ResultOf(role, i, r.check)
  {
  }

  /** What each failed result says: of the role, or that there was none; of the intent and the operation; of the intent
      and the origins the session carries; of the classification. A passed one says nothing. */
  lemma FailuresSay(role: Option<Role>, i: Input, k: nat)
    requires k < 5
    ensures var r := Judge(role, i).predicates[k];
            if r.passed then r.reason.None?
            else r.reason == Some(
              match k
              case 0 => RoleUndefined(i.role)
              case 1 => if role.None? then RoleUnresolved else RoleCannot(i.role, i.operation)
              case 2 => IntentNotPermitted(i.intent, i.operation)
              case 3 => IntentTainted(i.intent, if i.sessionLabel.Some? then i.sessionLabel.value.origins else [])
              case _ => NoMode(i.classification))
  {
  }

  /** Only exports and admin control carry an outward intent. */
  lemma OutwardOperations(op: Operation, i: Intent)
    ensures i in PermittedIntents(op) && Outward(Some(i))
            <==> (op == ExportData && i == Export) || (op == AdminControl && i == Escalate)
  {
    if op == ExportData { assert PermittedIntents(op)[0] == Export; }
    if op == AdminControl { assert PermittedIntents(op)[0] == Escalate; }
  }

  /** The table of intents read the other way: the operations each intent is permitted for. */
  lemma IntentServes(i: Intent, op: Operation)
    ensures i in PermittedIntents(op) <==>
              match i
              case Read | Analyze => op == OperatorRead || op == FileRead || op == ToolInvoke || op == NodeInvoke
              case Write => op == OperatorWrite || op == FileWrite || op == ToolInvoke || op == NodeInvoke
              case Export => op == ExportData
              case Execute => op == ExecRun || op == NodeInvoke
              case Escalate => op == AdminControl
  {
    var ops := PermittedIntents(op);
    if |ops| >= 1 { assert ops[0] in ops; }
    if |ops| >= 2 { assert ops[1] in ops; }
    if |ops| >= 3 { assert ops[2] in ops; }
    if |ops| >= 4 { assert ops[3] in ops; }
  }

  predicate Covers(name: Str, op: Operation) {
    DefaultRole(name).Some? && op in DefaultRole(name).value.allowedOperations
  }

  /** The default matrix read the other way: the roles that cover each operation. */
  lemma DefaultCovers(name: Str, op: Operation)
    ensures Covers(name, op) <==>
              match op
              case OperatorRead =>
                || name == Ascii("viewer") || name == Ascii("analyst") || name == Ascii("operator")
                || name == Ascii("orchestrator") || name == Ascii("egress_agent")
              case OperatorWrite | FileWrite => name == Ascii("operator") || name == Ascii("orchestrator")
              case ToolInvoke => name == Ascii("analyst") || name == Ascii("operator") || name == Ascii("orchestrator")
              case NodeInvoke => name == Ascii("orchestrator") || name == Ascii("node_admin")
              case FileRead =>
                name == Ascii("operator") || name == Ascii("orchestrator") || name == Ascii("egress_agent")
              case ExportData => name == Ascii("egress_agent")
              case ExecRun | AdminControl => name == Ascii("admin")
  {
    RoleNamesDiffer();
  }

  lemma RoleNamesDiffer()
    ensures Ascii("viewer") != Ascii("analyst") && Ascii("viewer") != Ascii("operator")
    ensures Ascii("viewer") != Ascii("orchestrator") && Ascii("viewer") != Ascii("egress_agent")
    ensures Ascii("analyst") != Ascii("operator") && Ascii("analyst") != Ascii("orchestrator")
    ensures Ascii("operator") != Ascii("orchestrator") && Ascii("egress_agent") != Ascii("orchestrator")
    ensures Ascii("admin") != Ascii("viewer") && Ascii("node_admin") != Ascii("orchestrator")
  {
    assert Ascii("egress_agent")[0] != Ascii("orchestrator")[0];
  }

  /** And what else it gives: the strict profile to those who reach nodes, the outside or control, the standard one
      to the rest; and dual control over what admins and node admins do, and nothing else. */
  lemma DefaultGrants(name: Str)
    requires DefaultRole(name).Some?
    ensures DefaultRole(name).value.defaultProfile == Strict
       <==> Covers(name, NodeInvoke) || Covers(name, ExportData) || Covers(name, AdminControl)
    ensures DefaultRole(name).value.defaultProfile == Strict || DefaultRole(name).value.defaultProfile == Standard
    ensures forall op :: op in DefaultRole(name).value.requiresDualControl
              <==> Covers(name, op) && (name == Ascii("admin") || name == Ascii("node_admin"))
  {
    RoleNamesDiffer();
  }

  /** What an allowed decision grants: the profile asked for or else the role's, dual control and attestation where
      they are called for, and every mode but for what is next to classified, which gets the first alone. */
  lemma AllowedGrants(role: Option<Role>, i: Input)
    requires Judge(role, i).allowed
    ensures var d, level := Judge(role, i), ClassificationNamed(i.classification);
            && role.Some? && level.Some?
            && (i.requestedProfile.Some? ==> d.profile == i.requestedProfile.value)
            && (i.requestedProfile.None? ==> d.profile == role.value.defaultProfile)
            && (d.requiresDualControl <==> i.operation in role.value.requiresDualControl)
            && (d.requiresEndpointAttestation <==> level == Some(Regulated) || level == Some(ClassifiedAdjacent))
            && ModeA in d.allowedFheModes
            && (ModeB in d.allowedFheModes <==> level != Some(ClassifiedAdjacent))
            && (ModeC in d.allowedFheModes <==> level != Some(ClassifiedAdjacent))
  {
    AllowedExactly(role, i);
  }

  // ---- the adapter ----

  datatype Transport = ReadResource | WriteResource | InvokeTool | InvokeNode | ExecuteRestricted

  /** `route`: None is the adapter's own refusal, which calls no transport. */
  function Route(op: Operation, profile: Profile): Option<Transport> {
    if (op.ExecRun? || op.AdminControl?) && profile != Strict && profile != Scif then None
    else if (op.NodeInvoke? || op.ExportData?) && profile == Standard then None
    else match op
         case OperatorRead | FileRead | ExportData => Some(ReadResource)
         case OperatorWrite | FileWrite => Some(WriteResource)
         case ToolInvoke => Some(InvokeTool)
         case NodeInvoke => Some(InvokeNode)
         case ExecRun | AdminControl => Some(ExecuteRestricted)
  }

  /** Which method of the transport serves an operation: writes are served by the write and nothing else is, code
      and control by the restricted one, tools and nodes by their own, and the rest, exports too, are reads. */
  lemma RouteServes(op: Operation, profile: Profile, served: Transport)
    requires Route(op, profile) == Some(served)
    ensures served == WriteResource <==> op == OperatorWrite || op == FileWrite
    ensures served == ExecuteRestricted <==> op == ExecRun || op == AdminControl
    ensures served == InvokeTool <==> op == ToolInvoke
    ensures served == InvokeNode <==> op == NodeInvoke
    ensures served == ReadResource <==> op == OperatorRead || op == FileRead || op == ExportData
  {
  }

  predicate StrictOnly(op: Operation) { op.NodeInvoke? || op.ExportData? }

  predicate DefaultDeny(op: Operation) { op.ExecRun? || op.AdminControl? }

  /** The gate as it is documented: restricted operations flow under strict or scif only. */
  predicate DocumentedGate(op: Operation, profile: Profile) {
    StrictOnly(op) || DefaultDeny(op) ==> profile == Strict || profile == Scif
  }

  /** The code meets the documented gate except for a strict-only operation under the relaxed profile,
      which it forwards. */
  lemma GateExactly(op: Operation, profile: Profile)
    ensures (Route(op, profile).Some? <==> DocumentedGate(op, profile)) <==> !(StrictOnly(op) && profile == Relaxed)
    ensures StrictOnly(op) ==> Route(op, Relaxed).Some?
  {
  }

  /** Under the default matrix the gate never refuses what the policy allowed. */
  lemma DefaultRolesPassGate(i: Input)
    requires Judge(RoleNamed(None, i.role), i).allowed && i.requestedProfile.None?
    ensures Route(i.operation, Judge(RoleNamed(None, i.role), i).profile).Some?
    ensures DocumentedGate(i.operation, Judge(RoleNamed(None, i.role), i).profile)
  {
    AllowedExactly(RoleNamed(None, i.role), i);
  }

  /** Under the default matrix only an egress agent exports and only an admin escalates, under dual control. */
  lemma DefaultOutwardRoles(i: Input)
    requires Judge(RoleNamed(None, i.role), i).allowed && Outward(IntentNamed(i.intent))
    ensures !SessionTainted(i)
    ensures (i.operation == ExportData && i.role == Ascii("egress_agent"))
            || (i.operation == AdminControl && i.role == Ascii("admin")
                && Judge(RoleNamed(None, i.role), i).requiresDualControl)
  {
    AllowedExactly(RoleNamed(None, i.role), i);
    OutwardOperations(i.operation, IntentNamed(i.intent).value);
  }
}
