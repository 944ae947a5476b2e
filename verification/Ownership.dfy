/**
 Fenced ownership of entities: a claim hands out a token, a revision or release must present
 the token in force, and a claim by somebody else puts a new token in force.
 */
module Ownership {
  import opened Collections
  import opened Bytes

  type SessionId = nat
  type EntityId = string
  type Token = seq<Byte>

  datatype ClaimMode = Snapshot | Explicit

  datatype ClaimRequest = ClaimRequest(
    entity: EntityId, owner: SessionId, registration: seq<Byte>, presented: Token,
    revision: nat, newToken: Token, mode: ClaimMode)

  datatype State = State(entity: EntityId, owner: SessionId, registration: seq<Byte>, token: Token, revision: nat)

  datatype ClaimOutcome =
    | Resumed(token: Token, advanced: bool)
    | Acquired(token: Token, previous: Option<State>)

  datatype RevisionOutcome = Unchanged | Advanced

  datatype OwnershipError =
    | InvalidClaim | SnapshotConflict | GlobalLimit | OwnerLimit | FencingTokenCollision
    | NotFound | OwnershipLost | StaleRevision

  type Entries = map<EntityId, State>

  datatype Limits = Limits(entities: nat, perOwner: nat)

  function Owned(entries: Entries, owner: SessionId): set<EntityId> {
    set e | e in entries && entries[e].owner == owner
  }

  function Tokens(entries: Entries): set<Token> {
    set e | e in entries :: entries[e].token
  }

  predicate Resumable(current: State, request: ClaimRequest) {
    && current.owner == request.owner
    && current.registration == request.registration
    && (request.mode == Explicit || current.token == request.presented)
  }

  // ---------------------------------------------------------------- the calls

  function ClaimIn(
    limits: Limits, entries: Entries, request: ClaimRequest): (Entries, Result<ClaimOutcome, OwnershipError>)
  {
    var e := request.entity;
    if e == "" || request.registration == [] then (entries, Err(InvalidClaim))
    else if e in entries && Resumable(entries[e], request) then
      var advanced := request.revision > entries[e].revision;
      (if advanced then entries[e := entries[e].(revision := request.revision)] else entries,
       Ok(Resumed(entries[e].token, advanced)))
    else if e in entries && request.mode == Snapshot then (entries, Err(SnapshotConflict))
    else if e !in entries && |entries| >= limits.entities then (entries, Err(GlobalLimit))
    else if (e !in entries || entries[e].owner != request.owner)
      && |Owned(entries, request.owner)| >= limits.perOwner then
      (entries, Err(OwnerLimit))
    else if request.newToken == [] then (entries, Err(InvalidClaim))
    else if request.newToken in Tokens(entries) then (entries, Err(FencingTokenCollision))
    else
      (entries[e := State(e, request.owner, request.registration, request.newToken, request.revision)],
       Ok(Acquired(request.newToken, if e in entries then Some(entries[e]) else None)))
  }

  function ReviseIn(entries: Entries, e: EntityId, owner: SessionId, token: Token, revision: nat, same: bool)
    : (Entries, Result<RevisionOutcome, OwnershipError>)
  {
    if e !in entries then (entries, Err(NotFound))
    else if entries[e].owner != owner || entries[e].token != token then (entries, Err(OwnershipLost))
    else if revision < entries[e].revision || (revision == entries[e].revision && !same)
      then (entries, Err(StaleRevision))
    else if revision == entries[e].revision then (entries, Ok(Unchanged))
    else (entries[e := entries[e].(revision := revision)], Ok(Advanced))
  }

  function ReleaseIn(entries: Entries, e: EntityId, owner: SessionId, registration: seq<Byte>, token: Token)
    : (Entries, Result<State, OwnershipError>)
  {
    if e !in entries then (entries, Err(OwnershipLost))
    else if entries[e].owner != owner || entries[e].registration != registration || entries[e].token != token then
      (entries, Err(OwnershipLost))
    else (entries - {e}, Ok(entries[e]))
  }

  // ---------------------------------------------------------------- the object

  class OwnershipRegistry {
    const limits: Limits
    var entries: Entries

    constructor (entities: nat, perOwner: nat)
      ensures limits == Limits(entities, perOwner) && entries == map[]
    {
      limits, entries := Limits(entities, perOwner), map[];
    }

    method Claim(request: ClaimRequest) returns (r: Result<ClaimOutcome, OwnershipError>)
      modifies this
      ensures (entries, r) == ClaimIn(limits, old(entries), request)
    {
      var e := request.entity;
      if e == "" || request.registration == [] {
        return Err(InvalidClaim);
      }
      if e in entries {
        var current := entries[e];
        if Resumable(current, request) {
          var advanced := request.revision > current.revision;
          if advanced {
            entries := entries[e := current.(revision := request.revision)];
          }
          return Ok(Resumed(current.token, advanced));
        }
        if request.mode == Snapshot {
          return Err(SnapshotConflict);
        }
      }
      var previous := if e in entries then Some(entries[e]) else None;
      if previous.None? && |entries| >= limits.entities {
        return Err(GlobalLimit);
      }
      var already := |Owned(entries, request.owner)|;
      if (previous.None? || previous.value.owner != request.owner) && already >= limits.perOwner {
        return Err(OwnerLimit);
      }
      if request.newToken == [] {
        return Err(InvalidClaim);
      }
      if request.newToken in Tokens(entries) {
        return Err(FencingTokenCollision);
      }
      entries := entries[e := State(e, request.owner, request.registration, request.newToken, request.revision)];
      r := Ok(Acquired(request.newToken, previous));
    }

    method AcceptRevision(e: EntityId, owner: SessionId, token: Token, revision: nat, same: bool)
      returns (r: Result<RevisionOutcome, OwnershipError>)
      modifies this
      ensures (entries, r) == ReviseIn(old(entries), e, owner, token, revision, same)
    {
      if e !in entries {
        return Err(NotFound);
      }
      var current := entries[e];
      if current.owner != owner || current.token != token {
        return Err(OwnershipLost);
      }
      if revision < current.revision || (revision == current.revision && !same) {
        return Err(StaleRevision);
      }
      if revision == current.revision {
        return Ok(Unchanged);
      }
      entries := entries[e := current.(revision := revision)];
      r := Ok(Advanced);
    }

    method Release(e: EntityId, owner: SessionId, registration: seq<Byte>, token: Token)
      returns (r: Result<State, OwnershipError>)
      modifies this
      ensures (entries, r) == ReleaseIn(old(entries), e, owner, registration, token)
    {
      if e !in entries {
        return Err(OwnershipLost);
      }
      var current := entries[e];
      if current.owner != owner || current.registration != registration || current.token != token {
        return Err(OwnershipLost);
      }
      entries := entries - {e};
      r := Ok(current);
    }
  }

  // ---------------------------------------------------------------- runs

  datatype Call =
    | Claim(request: ClaimRequest)
    | Revise(entity: EntityId, owner: SessionId, token: Token, revision: nat, payloadUnchanged: bool)
    | Release(entity: EntityId, owner: SessionId, registration: seq<Byte>, token: Token)

  function After(limits: Limits, entries: Entries, call: Call): Entries {
    match call
    case Claim(request) => ClaimIn(limits, entries, request).0
    case Revise(e, owner, token, revision, same) => ReviseIn(entries, e, owner, token, revision, same).0
    case Release(e, owner, registration, token) => ReleaseIn(entries, e, owner, registration, token).0
  }

  /** The call is a revision or a release and it goes through. */
  predicate Authorised(entries: Entries, call: Call) {
    match call
    case Claim(_) => false
    case Revise(e, owner, token, revision, same) => ReviseIn(entries, e, owner, token, revision, same).1.Ok?
    case Release(e, owner, registration, token) => ReleaseIn(entries, e, owner, registration, token).1.Ok?
  }

  ghost predicate IsRun(limits: Limits, states: seq<Entries>, calls: seq<Call>) {
    && |states| == |calls| + 1
    && states[0] == map[]
    && forall i | 0 <= i < |calls| :: states[i + 1] == After(limits, states[i], calls[i])
  }

  /** The claim puts `token` in force: every guard it has to pass, on what the caller can see. */
  predicate Acquires(limits: Limits, entries: Entries, call: Call, token: Token) {
    && call.Claim?
    && var r := call.request;
       && r.newToken == token && token != [] && token !in Tokens(entries)
       && r.entity != "" && r.registration != []
       && (r.entity in entries ==> r.mode == Explicit && !Resumable(entries[r.entity], r))
       && (r.entity !in entries ==> |entries| < limits.entities)
       && (r.entity !in entries || entries[r.entity].owner != r.owner ==>
             |Owned(entries, r.owner)| < limits.perOwner)
  }

  /** No two claims of the run put the same token in force. */
  ghost predicate TokensNeverRepeat(limits: Limits, states: seq<Entries>, calls: seq<Call>)
    requires |states| == |calls| + 1
  {
    forall i, j, token | 0 <= i < j < |calls| && Acquires(limits, states[i], calls[i], token) ::
      !Acquires(limits, states[j], calls[j], token)
  }

  /** Some call from `j` on, before state `n`, puts the token in force. */
  ghost predicate Reacquired(limits: Limits, states: seq<Entries>, calls: seq<Call>, token: Token, j: nat, n: nat)
    requires |states| == |calls| + 1 && n < |states|
  {
    exists k | j <= k < n :: Acquires(limits, states[k], calls[k], token)
  }

  // ---------------------------------------------------------------- what every state keeps

  ghost predicate Fenced(entries: Entries) {
    forall a, b | a in entries && b in entries && entries[a].token == entries[b].token :: a == b
  }

  ghost predicate WithinLimits(limits: Limits, entries: Entries) {
    && |entries| <= limits.entities
    && forall owner: SessionId :: |Owned(entries, owner)| <= limits.perOwner
  }

  ghost predicate Invariant(limits: Limits, entries: Entries) {
    Fenced(entries) && WithinLimits(limits, entries)
  }

  lemma OwnedAfterWrite(entries: Entries, e: EntityId, s: State, owner: SessionId)
    ensures Owned(entries[e := s], owner) ==
            if s.owner == owner then Owned(entries, owner) + {e} else Owned(entries, owner) - {e}
  {
  }

  lemma OwnedStaysLimited(limits: Limits, entries: Entries, e: EntityId, s: State, owner: SessionId)
    requires |Owned(entries, owner)| <= limits.perOwner
    requires e !in entries || entries[e].owner != s.owner ==> |Owned(entries, s.owner)| < limits.perOwner
    ensures |Owned(entries[e := s], owner)| <= limits.perOwner
  {
    OwnedAfterWrite(entries, e, s, owner);
    if s.owner == owner && e in Owned(entries, owner) {
      assert Owned(entries, owner) + {e} == Owned(entries, owner);
    }
  }

  lemma KeptByAcquire(limits: Limits, entries: Entries, e: EntityId, s: State)
    requires Invariant(limits, entries) && s.token !in Tokens(entries)
    requires e !in entries ==> |entries| < limits.entities
    requires e !in entries || entries[e].owner != s.owner ==> |Owned(entries, s.owner)| < limits.perOwner
    ensures Invariant(limits, entries[e := s])
  {
    hide Owned;
    var after := entries[e := s];
    SizeAfterWrite(entries, e, s);
    forall owner: SessionId ensures |Owned(after, owner)| <= limits.perOwner {
      OwnedStaysLimited(limits, entries, e, s, owner);
    }
    forall x | x in entries ensures entries[x].token != s.token {
      assert entries[x].token in Tokens(entries);
    }
  }

  lemma KeptByClaim(limits: Limits, entries: Entries, request: ClaimRequest)
    requires Invariant(limits, entries)
    ensures Invariant(limits, ClaimIn(limits, entries, request).0)
  {
    hide Invariant, Owned, Tokens;
    var (after, r) := ClaimIn(limits, entries, request);
    var e := request.entity;
    if r.Ok? && r.value.Acquired? {
      KeptByAcquire(limits, entries, e,
        State(e, request.owner, request.registration, request.newToken, request.revision));
    } else if after != entries {
      KeptByRevise(limits, entries, e, request.revision);
    }
  }

  lemma SizeAfterWrite(entries: Entries, e: EntityId, s: State)
    ensures |entries[e := s]| == if e in entries then |entries| else |entries| + 1
  {
    assert entries[e := s].Keys == entries.Keys + {e};
    assert |entries.Keys| == |entries| && |entries[e := s].Keys| == |entries[e := s]|;
  }

  lemma KeptByRevise(limits: Limits, entries: Entries, e: EntityId, revision: nat)
    requires Invariant(limits, entries) && e in entries
    ensures Invariant(limits, entries[e := entries[e].(revision := revision)])
  {
    var after := entries[e := entries[e].(revision := revision)];
    SizeAfterWrite(entries, e, after[e]);
    forall owner: SessionId ensures |Owned(after, owner)| <= limits.perOwner {
      assert Owned(after, owner) == Owned(entries, owner);
    }
  }

  lemma KeptByRelease(limits: Limits, entries: Entries, e: EntityId)
    requires Invariant(limits, entries) && e in entries
    ensures Invariant(limits, entries - {e})
  {
    var after := entries - {e};
    assert after.Keys == entries.Keys - {e};
    assert |after.Keys| == |after| && |entries.Keys| == |entries|;
    forall owner: SessionId ensures |Owned(after, owner)| <= limits.perOwner {
      assert Owned(after, owner) == Owned(entries, owner) - {e};
    }
  }

  lemma Kept(limits: Limits, entries: Entries, call: Call)
    requires Invariant(limits, entries)
    ensures Invariant(limits, After(limits, entries, call))
  {
    hide Invariant;
    match call {
      case Claim(request) => KeptByClaim(limits, entries, request);
      case Revise(e, _, _, revision, _) => if e in entries { KeptByRevise(limits, entries, e, revision); }
      case Release(e, _, _, _) => if e in entries { KeptByRelease(limits, entries, e); }
    }
  }

  /** In every state of every run, live tokens are distinct and both limits hold. */
  lemma {:induction false} RunsStayFenced(limits: Limits, states: seq<Entries>, calls: seq<Call>, n: nat)
    requires IsRun(limits, states, calls) && n < |states|
    ensures Invariant(limits, states[n])
  {
    if n == 0 {
      assert forall owner: SessionId :: Owned(states[0], owner) == {};
    } else {
      RunsStayFenced(limits, states, calls, n - 1);
      Kept(limits, states[n - 1], calls[n - 1]);
    }
  }

  // ---------------------------------------------------------------- tokens die once

  lemma AcquiresExactly(limits: Limits, entries: Entries, call: Call, token: Token)
    ensures Acquires(limits, entries, call, token) <==>
            call.Claim? && ClaimIn(limits, entries, call.request).1.Ok?
            && ClaimIn(limits, entries, call.request).1.value.Acquired?
            && ClaimIn(limits, entries, call.request).1.value.token == token
    ensures Acquires(limits, entries, call, token) ==>
            var after := After(limits, entries, call);
            call.request.entity in after && after[call.request.entity].token == token
  {
  }

  /** What one call does to the token in force for an entity. */
  lemma TokenStep(limits: Limits, entries: Entries, call: Call, e: EntityId)
    requires e in After(limits, entries, call)
    ensures var after := After(limits, entries, call);
            || (e in entries && after[e].token == entries[e].token && after[e].revision >= entries[e].revision)
            || (call.Claim? && call.request.entity == e && Acquires(limits, entries, call, after[e].token))
  {
  }

  lemma TokensStep(limits: Limits, entries: Entries, call: Call, token: Token)
    requires token !in Tokens(entries)
    ensures token in Tokens(After(limits, entries, call)) <==> Acquires(limits, entries, call, token)
  {
    hide Acquires, After;
    var after := After(limits, entries, call);
    AcquiresExactly(limits, entries, call, token);
    if token in Tokens(after) {
      var e :| e in after && after[e].token == token;
      TokenStep(limits, entries, call, e);
      assert e in entries ==> entries[e].token in Tokens(entries);
    }
  }

  /**
   Exactly when a token that is not in force comes into force again: some state up to `n` has it
   if and only if some call up to then is a claim that passes every guard and brings it.
   */
  lemma {:induction false} TokenReturns(
    limits: Limits, states: seq<Entries>, calls: seq<Call>, token: Token, j: nat, n: nat)
    requires IsRun(limits, states, calls) && j <= n < |states|
    requires token !in Tokens(states[j])
    ensures (exists k | j <= k <= n :: token in Tokens(states[k])) <==> Reacquired(limits, states, calls, token, j, n)
  {
    hide Acquires, After, Tokens;
    if n > j {
      TokenReturns(limits, states, calls, token, j, n - 1);
      assert states[n - 1 + 1] == After(limits, states[n - 1], calls[n - 1]);
      if Reacquired(limits, states, calls, token, j, n - 1) {
        var k :| j <= k < n - 1 && Acquires(limits, states[k], calls[k], token);
        assert Reacquired(limits, states, calls, token, j, n);
      } else {
        assert forall k | j <= k <= n - 1 :: token !in Tokens(states[k]);
        TokensStep(limits, states[n - 1], calls[n - 1], token);
        assert Reacquired(limits, states, calls, token, j, n) <==> Acquires(limits, states[n - 1], calls[n - 1], token);
      }
    }
  }

  /** Every token in force was put in force by an earlier claim. */
  lemma {:induction false} LiveWasAcquired(limits: Limits, states: seq<Entries>, calls: seq<Call>, n: nat, token: Token)
    returns (i: nat)
    requires IsRun(limits, states, calls) && n < |states| && token in Tokens(states[n])
    ensures i < n && Acquires(limits, states[i], calls[i], token)
  {
    hide Acquires, After;
    assert Tokens(states[0]) == {};
    TokenReturns(limits, states, calls, token, 0, n);
    i :| i < n && Acquires(limits, states[i], calls[i], token);
  }

  /** A token that is gone and that no claim puts in force again stays gone. */
  lemma GoneForGood(limits: Limits, states: seq<Entries>, calls: seq<Call>, token: Token, j: nat, n: nat)
    requires IsRun(limits, states, calls) && j <= n < |states|
    requires token !in Tokens(states[j]) && !Reacquired(limits, states, calls, token, j, n)
    ensures token !in Tokens(states[n])
  {
    hide Reacquired, Tokens, IsRun;
    TokenReturns(limits, states, calls, token, j, n);
  }

  /** Where tokens never repeat, one that was in force and is gone is never put in force again. */
  lemma NeverReacquired(limits: Limits, states: seq<Entries>, calls: seq<Call>, token: Token, i: nat, j: nat, n: nat)
    requires IsRun(limits, states, calls) && TokensNeverRepeat(limits, states, calls)
    requires i <= j <= n < |states| && token in Tokens(states[i])
    ensures !Reacquired(limits, states, calls, token, j, n)
  {
    hide Acquires, After, Tokens;
    var first := LiveWasAcquired(limits, states, calls, i, token);
  }

  lemma AuthorisedMeansLive(entries: Entries, call: Call)
    requires Authorised(entries, call)
    ensures !call.Claim? && call.entity in entries && entries[call.entity].token == call.token
    ensures call.token in Tokens(entries)
  {
  }

  /** Exactly what a revision or a release must present, and what it then does. */
  lemma AuthorisedExactly(limits: Limits, entries: Entries, call: Call)
    requires !call.Claim?
    ensures Authorised(entries, call) <==>
      && call.entity in entries
      && var current := entries[call.entity];
         && current.owner == call.owner && current.token == call.token
         && (call.Release? ==> current.registration == call.registration)
         && (call.Revise? ==>
               current.revision < call.revision || (current.revision == call.revision && call.payloadUnchanged))
    ensures var after := After(limits, entries, call);
      if !Authorised(entries, call) then after == entries
      else
        && after - {call.entity} == entries - {call.entity}
        && (call.Release? ==> call.entity !in after)
        && (call.Revise? ==>
              call.entity in after && after[call.entity] == entries[call.entity].(revision := call.revision))
  {
    if Authorised(entries, call) && call.Revise? && entries[call.entity].revision == call.revision {
      assert entries[call.entity] == entries[call.entity].(revision := call.revision);
    }
  }

  /** Exactly when a claim finds its owner already in possession: the token stays, the revision never goes back. */
  lemma ResumedExactly(limits: Limits, entries: Entries, request: ClaimRequest)
    ensures var r := ClaimIn(limits, entries, request);
      var e := request.entity;
      && (r.1.Ok? && r.1.value.Resumed? <==>
            && e != "" && request.registration != [] && e in entries
            && entries[e].owner == request.owner && entries[e].registration == request.registration
            && (request.mode == Explicit || request.presented == entries[e].token))
      && (r.1.Ok? && r.1.value.Resumed? ==>
            && r.1.value.token == entries[e].token
            && r.0.Keys == entries.Keys && r.0 - {e} == entries - {e}
            && r.0[e] == entries[e].(revision :=
                 if request.revision > entries[e].revision then request.revision else entries[e].revision))
      && (r.1.Err? ==> r.0 == entries)
  {
  }

  /** Superseded or released, a token authorises no revision and no release until a claim puts it in force again. */
  lemma StaleTokenRefused(limits: Limits, states: seq<Entries>, calls: seq<Call>, token: Token, j: nat, n: nat)
    requires IsRun(limits, states, calls) && j <= n < |calls|
    requires token !in Tokens(states[j]) && !Reacquired(limits, states, calls, token, j, n)
    requires !calls[n].Claim? && calls[n].token == token
    ensures !Authorised(states[n], calls[n])
    ensures states[n + 1] == states[n]
  {
    hide Reacquired;
    GoneForGood(limits, states, calls, token, j, n);
    if Authorised(states[n], calls[n]) {
      AuthorisedMeansLive(states[n], calls[n]);
    }
  }

  /** Under one token, never put in force anew, an entity's revision never goes back. */
  lemma {:induction false} RevisionsNeverGoBack(
    limits: Limits, states: seq<Entries>, calls: seq<Call>, e: EntityId, i: nat, n: nat)
    requires IsRun(limits, states, calls)
    requires i <= n < |states| && e in states[i] && e in states[n]
    requires states[i][e].token == states[n][e].token
    requires !Reacquired(limits, states, calls, states[i][e].token, i, n)
    ensures states[i][e].revision <= states[n][e].revision
  {
    if i < n {
      hide Acquires, After;
      assert states[n - 1 + 1] == After(limits, states[n - 1], calls[n - 1]);
      TokenStep(limits, states[n - 1], calls[n - 1], e);
      RevisionsNeverGoBack(limits, states, calls, e, i, n - 1);
    }
  }

  /** The three together where tokens never repeat: a token once in force and then gone is fenced off for ever. */
  lemma FencedForEver(
    limits: Limits, states: seq<Entries>, calls: seq<Call>, token: Token, i: nat, j: nat, n: nat)
    requires IsRun(limits, states, calls) && TokensNeverRepeat(limits, states, calls)
    requires i <= j <= n < |calls| && token in Tokens(states[i]) && token !in Tokens(states[j])
    ensures token !in Tokens(states[n])
    ensures !calls[n].Claim? && calls[n].token == token ==> !Authorised(states[n], calls[n])
  {
    hide Reacquired, Tokens, TokensNeverRepeat, Authorised;
    NeverReacquired(limits, states, calls, token, i, j, n);
    GoneForGood(limits, states, calls, token, j, n);
    if !calls[n].Claim? && calls[n].token == token {
      StaleTokenRefused(limits, states, calls, token, j, n);
    }
  }

  /** A claim on an entity somebody else holds, or nobody, with room for one entity each. */
  lemma Takeover(entries: Entries, e: EntityId, owner: SessionId, token: Token)
    requires e != "" && token != []
    requires entries == map[] || (entries.Keys == {e} && entries[e].owner != owner && entries[e].token != token)
    ensures var claim := Call.Claim(ClaimRequest(e, owner, [1], [], 0, token, Explicit));
            After(Limits(1, 1), entries, claim) == map[e := State(e, owner, [1], token, 0)]
  {
    assert Owned(entries, owner) == {};
    assert token !in Tokens(entries);
    assert entries[e := State(e, owner, [1], token, 0)] == map[e := State(e, owner, [1], token, 0)];
  }

  /** A repeated token hands a lost entity back to whoever still holds the old copy. */
  lemma RepeatedTokenRevives(e: EntityId, a: SessionId, b: SessionId, token: Token, other: Token)
    requires e != "" && a != b && token != other && token != [] && other != []
    ensures var first := Call.Claim(ClaimRequest(e, a, [1], [], 0, token, Explicit));
            var second := Call.Claim(ClaimRequest(e, b, [1], [], 0, other, Explicit));
            var stale := Call.Revise(e, a, token, 5, false);
            var s1 := After(Limits(1, 1), map[], first);
            var s2 := After(Limits(1, 1), s1, second);
            var s3 := After(Limits(1, 1), s2, first);
            Authorised(s1, stale) && !Authorised(s2, stale) && Authorised(s3, stale)
  {
    hide After;
    Takeover(map[], e, a, token);
    Takeover(map[e := State(e, a, [1], token, 0)], e, b, other);
    Takeover(map[e := State(e, b, [1], other, 0)], e, a, token);
  }
}
