// Phases, server states and status conditions (common/conditions.go, images/controller/internal/controllers/utils.go).
module Lifecycle {
  import opened Options

  datatype Phase = Unset | Pending | Ready | Completed | Expired | Failed | Terminating {
    predicate IsTerminal() {
      Completed? || Expired? || Failed?
    }
  }

  // The raw progress signal of the server pod. NoState is the empty string before the first report.
  datatype ServerState = NoState | ServerReady | IdleExpired | Finished {
    function Rank(): nat {
      match this
      case NoState => 0
      case ServerReady => 1
      case IdleExpired => 2
      case Finished => 3
    }
  }

  /** The guard every pod-side serverState write passes (k8s.go shouldSetServerState). */
  predicate ShouldSetServerState(current: ServerState, next: ServerState) {
    if current == next then false
    else match next
      case ServerReady => current == NoState
      case Finished => true
      case IdleExpired => current == NoState || current == ServerReady
      case NoState => false
  }

  /** The guard admits exactly the moves that climb NoState < ServerReady < IdleExpired < Finished. */
  lemma GuardIsClimb(current: ServerState, next: ServerState)
    ensures ShouldSetServerState(current, next) <==> current.Rank() < next.Rank()
  {
    match next
    case NoState => assert next.Rank() == 0;
    case ServerReady =>
    case IdleExpired =>
    case Finished =>
  }

  datatype ConditionStatus = True | False | Unknown

  // Reasons are compared, never ordered, so their API spelling does not matter here.
  datatype Reason =
    | RPending | RPVCCreated | RServerReady | RInProgress | RExpired | RDeleted
    | RUploadFinished | RCompleted | RFailed
    | RPublishFailed | RValidationFailed | RTargetNotFound | RTargetNotReady | RTargetFailed
    | RPVConflict | RDeploymentFailed | RCleanupFailed
    | RTargetsPending | RNotFound | RRBACDenied | RInternalError | RInvalidMode

  datatype Verdict = Verdict(status: ConditionStatus, reason: Reason)

  datatype ConditionType = CReady | CUploadFinished | CCompleted | CLegacy(name: string)

  datatype Condition = Condition(ctype: ConditionType, verdict: Verdict)

  /** Index of the first condition of a type, or |cs| when there is none. */
  function IndexOf(cs: seq<Condition>, t: ConditionType): (i: nat)
    ensures i <= |cs|
    ensures i < |cs| ==> cs[i].ctype == t
    ensures forall j | 0 <= j < i :: cs[j].ctype != t
  {
    if cs == [] then 0
    else if cs[0].ctype == t then 0
    else 1 + IndexOf(cs[1..], t)
  }

  /** meta.FindStatusCondition */
  function Find(cs: seq<Condition>, t: ConditionType): Option<Verdict> {
    var i := IndexOf(cs, t);
    if i < |cs| then Some(cs[i].verdict) else None
  }

  /** meta.SetStatusCondition: update the first of that type in place, append when there is none. */
  function SetCondition(cs: seq<Condition>, c: Condition): seq<Condition> {
    var i := IndexOf(cs, c.ctype);
    if i < |cs| then cs[i := c] else cs + [c]
  }

  lemma IndexIsFirst(cs: seq<Condition>, t: ConditionType, i: nat)
    requires i <= |cs|
    requires forall j | 0 <= j < i :: cs[j].ctype != t
    requires i < |cs| ==> cs[i].ctype == t
    ensures IndexOf(cs, t) == i
  {}

  /** A set is seen by every later look-up of that type and by no other. */
  lemma FindAfterSet(cs: seq<Condition>, c: Condition, t: ConditionType)
    ensures Find(SetCondition(cs, c), t) == if t == c.ctype then Some(c.verdict) else Find(cs, t)
  {
    var after := SetCondition(cs, c);
    if t == c.ctype {
      IndexIsFirst(after, t, IndexOf(cs, t));
    } else {
      var i := IndexOf(cs, t);
      IndexIsFirst(after, t, if i < |cs| then i else |after|);
    }
  }

  /** The conditions whose type is in `allowed`, in order. */
  function Kept(cs: seq<Condition>, allowed: set<ConditionType>): (r: seq<Condition>)
    ensures |r| <= |cs|
    ensures |r| == |cs| ==> r == cs
    ensures |r| == |cs| <==> forall i | 0 <= i < |cs| :: cs[i].ctype in allowed
    ensures forall i | 0 <= i < |r| :: r[i].ctype in allowed
  {
    if cs == [] then []
    else if cs[0].ctype in allowed then [cs[0]] + Kept(cs[1..], allowed)
    else Kept(cs[1..], allowed)
  }

  lemma {:induction false} KeptAppend(a: seq<Condition>, b: seq<Condition>, allowed: set<ConditionType>)
    ensures Kept(a + b, allowed) == Kept(a, allowed) + Kept(b, allowed)
  {
    if a == [] {
      assert a + b == b;
    } else {
      assert (a + b)[1..] == a[1..] + b;
      KeptAppend(a[1..], b, allowed);
    }
  }

  lemma FindPrepend(c: Condition, cs: seq<Condition>, t: ConditionType)
    ensures Find([c] + cs, t) == if c.ctype == t then Some(c.verdict) else Find(cs, t)
  {
    assert ([c] + cs)[1..] == cs;
  }

  /** Stripping keeps every allowed verdict and leaves nothing else to be found. */
  lemma {:induction false} FindAfterStrip(cs: seq<Condition>, allowed: set<ConditionType>, t: ConditionType)
    ensures Find(Kept(cs, allowed), t) == if t in allowed then Find(cs, t) else None
  {
    if cs != [] {
      FindAfterStrip(cs[1..], allowed, t);
      FindPrepend(cs[0], cs[1..], t);
      FindPrepend(cs[0], Kept(cs[1..], allowed), t);
      assert cs == [cs[0]] + cs[1..];
    }
  }

  // The part of a status object that the shared helpers edit in place.
  class StatusRecord {
    var conditions: seq<Condition>
    var completionTimestamp: Option<int>

    constructor (conditions: seq<Condition>, completionTimestamp: Option<int>)
      ensures this.conditions == conditions && this.completionTimestamp == completionTimestamp
    {
      this.conditions := conditions;
      this.completionTimestamp := completionTimestamp;
    }

    /** Removes every condition whose type is not allowed and reports whether any was removed. */
    method StripConditionsNotIn(allowed: set<ConditionType>) returns (changed: bool)
      modifies this`conditions
      ensures conditions == Kept(old(conditions), allowed)
      ensures changed <==> conditions != old(conditions)
    {
      changed := false;
      var cs := conditions;
      var kept: seq<Condition> := [];
      for i := 0 to |cs|
        invariant conditions == cs
        invariant kept == Kept(cs[..i], allowed)
        invariant |kept| <= i
        invariant changed <==> |kept| < i
      {
        assert cs[..i + 1] == cs[..i] + [cs[i]];
        KeptAppend(cs[..i], [cs[i]], allowed);
        if cs[i].ctype in allowed {
          kept := kept + [cs[i]];
        } else {
          changed := true;
        }
      }
      assert cs[..|cs|] == cs;
      if changed {
        conditions := kept;
      }
    }

    /** Stamps the first terminal phase and never moves an existing stamp. */
    method SetCompletionTimestampOnce(phase: Phase, now: int) returns (stamped: bool)
      modifies this`completionTimestamp
      ensures stamped <==> phase.IsTerminal() && old(completionTimestamp).None?
      ensures completionTimestamp == if stamped then Some(now) else old(completionTimestamp)
    {
      if phase.IsTerminal() && completionTimestamp.None? {
        completionTimestamp := Some(now);
        return true;
      }
      return false;
    }

    /** setSingleCondition: drop every condition of the type, then set it once. */
    method SetSingleCondition(c: Condition)
      modifies this`conditions
      ensures Find(conditions, c.ctype) == Some(c.verdict)
      ensures forall t :: t != c.ctype ==> Find(conditions, t) == Find(old(conditions), t)
      ensures forall i, j | 0 <= i < |conditions| && 0 <= j < |conditions| &&
                conditions[i].ctype == c.ctype && conditions[j].ctype == c.ctype :: i == j
    {
      var others := set i | 0 <= i < |conditions| && conditions[i].ctype != c.ctype :: conditions[i].ctype;
      ghost var was := conditions;
      var _ := StripConditionsNotIn(others);
      ghost var stripped := conditions;
      forall t ensures Find(stripped, t) == if t == c.ctype then None else Find(was, t) {
        FindAfterStrip(was, others, t);
        if t !in others {
          assert t == c.ctype || Find(was, t) == None;
        }
      }
      conditions := SetCondition(conditions, c);
      assert conditions == stripped + [c];
      forall t ensures Find(conditions, t) == if t == c.ctype then Some(c.verdict) else Find(was, t) {
        FindAfterSet(stripped, c, t);
      }
    }
  }
}
