/** `/v1/context/register` after its one await: the manifest, then the session's label, then the record. */
module Context {
  import opened Common
  import opened Log
  import opened Lineage
  import opened Labels
  import opened Policy
  import opened Bindings
  import opened Invoke

  function RefusedRegNote(id: Str, t: TokenState): Note {
    Attributed(DenyEvent, id, t, CodeText(PolicyViolation), NoSessionId)
  }

  function RegNote(id: Str, manifest: Str, count: nat, t: TokenState, held: Label): Note {
    Attributed(InvokeEvent, id, t, [], RegisteredContext(manifest, count, held, Tainted(held)))
  }

  /** What a registration with a valid token records and answers. */
  function RegTurn(id: Str, t: TokenState, elements: seq<Element>, manifest: Str, held: Label): Turn {
    if t.sessionId == [] then Invoke.Answer(403, RefusedRegNote(id, t))
    else Invoke.Answer(200, RegNote(id, manifest, |elements|, t, held))
  }

  /** A valid token with a session id: its context can be labelled. */
  predicate Labelled(v: Verification) { v.ValidToken? && v.token.sessionId != [] }

  class ContextRoute {
    const services: InvokeRoute

    constructor (services: InvokeRoute)
      ensures this.services == services
    {
      this.services := services;
    }

    /** From the token's verification to the answer. The label is raised before the record is written, and
        stays raised when the append throws. */
    method OnToken(id: Str, v: Verification, elements: seq<Element>, manifest: Str, now: nat, fault: Fault)
      returns (reply: Reply)
      requires services.log.Built()
      modifies services`manifests, services.labels, services.log, services.log.dir
      ensures services.manifests == old(services.manifests) + if Labelled(v) then {manifest} else {}
      ensures services.labels.labels
              == if Labelled(v)
                 then ElementsJoined(old(services.labels.labels), v.token.sessionId, elements, Some(id), now)
                 else old(services.labels.labels)
      ensures v.Invalid? ==>
                && reply == Replied(401) && services.log.Fields() == old(services.log.Fields())
                && services.log.dir.Contents() == old(services.log.dir.Contents())
      ensures v.ValidToken? ==>
                var held := GetLabel(services.labels.labels, v.token.sessionId);
                var (d, m, r) := Concluded(services.sv, services.log.c, old(services.log.dir.Contents()),
                                           old(services.log.Fields()),
                                           RegTurn(id, v.token, elements, manifest, held), now, fault);
                services.log.dir.Contents() == d && services.log.Fields() == m && reply == r
      ensures reply.Replied? ==>
                reply.code == if v.Invalid? then 401 else if v.token.sessionId == [] then 403 else 200
    {
      if v.Invalid? { return Replied(401); }
      if v.token.sessionId == [] {
        reply := services.Conclude(Invoke.Answer(403, RefusedRegNote(id, v.token)), now, fault);
      } else {
        reply := Register(id, v.token, elements, manifest, now, fault);
      }
    }

    /** The manifest, the label, the record, in this order. */
    method Register(id: Str, t: TokenState, elements: seq<Element>, manifest: Str, now: nat, fault: Fault)
      returns (reply: Reply)
      requires services.log.Built()
      modifies services`manifests, services.labels, services.log, services.log.dir
      ensures services.manifests == old(services.manifests) + {manifest}
      ensures services.labels.labels
              == ElementsJoined(old(services.labels.labels), t.sessionId, elements, Some(id), now)
      ensures var held := GetLabel(services.labels.labels, t.sessionId);
              var turn := Invoke.Answer(200, RegNote(id, manifest, |elements|, t, held));
              var (d, m, r) := Concluded(services.sv, services.log.c, old(services.log.dir.Contents()),
                                         old(services.log.Fields()), turn, now, fault);
              services.log.dir.Contents() == d && services.log.Fields() == m && reply == r
    {
      services.manifests := services.manifests + {manifest};
      var held := services.labels.JoinElements(t.sessionId, elements, Some(id), now);
      reply := services.Conclude(Invoke.Answer(200, RegNote(id, manifest, |elements|, t, held)), now, fault);
    }
  }
}
