/** Whole histories of startup admission: calls made one after another, against any endpoint. Each
    call is what its method in `StartupAdmission` guarantees, for whatever the endpoint replied. */
module AdmissionChain {
  import opened Common
  import opened StartupAdmission
  import opened StartupReplies

  datatype Call =
    | EstablishCall(d: Descriptor, ok: bool, log: seq<Exchanged>)
    | SecurityCall(ok: bool, log: seq<Exchanged>)
    | ServingCall(ok: bool, log: seq<Exchanged>)
    | MintCall(claim: Option<nat>, process: Binding)
    | BeginCall(token: nat, process: Binding, ok: bool)
    | ReleaseCall(token: nat, ok: bool)

  ghost predicate Next(s: State, t: State, c: Call) {
    match c
    case EstablishCall(d, ok, log) => Establishes(s, t, log, d, ok)
    case SecurityCall(ok, log) => Advances(s, t, log, SecurityKind, ok)
    case ServingCall(ok, log) => Advances(s, t, log, ServingKind, ok)
    case MintCall(claim, process) => Mints(s, t, claim, process)
    case BeginCall(token, process, ok) => BeginsAttempt(s, t, token, process, ok)
    case ReleaseCall(token, ok) => ReleasesClaim(s, t, token, ok)
  }

  ghost predicate IsHistory(ss: seq<State>, cs: seq<Call>) {
    && |ss| == |cs| + 1 && ss[0] == Fresh()
    && forall i :: 0 <= i < |cs| ==> Next(ss[i], ss[i+1], cs[i])
  }

  lemma HistoryStep(ss: seq<State>, cs: seq<Call>, j: nat)
    requires IsHistory(ss, cs) && 0 < j < |ss|
    ensures Next(ss[j-1], ss[j], cs[j-1])
  {
    assert ss[j] == ss[(j - 1) + 1];
  }

  function Rank(p: Phase): nat {
    match p
    case Claimed => 0
    case SecurityAuthorized => 1
    case Serving => 2
  }

  predicate Inv(s: State) {
    && (s.verified.Some? <==> s.claimed.Some?)
    && (s.verified.Some? ==> s.attempted && s.absenceProved && s.verified.value.serial == Rank(s.verified.value.phase))
    && (!s.minted ==> s.records == map[])
    && (forall k :: k in s.records ==>
          && s.verified.Some? && s.records[k].context.phase.SecurityAuthorized? && s.records[k].context.serial == 1
          && s.verified.value.serial >= 1
          && (s.verified.value.serial == 1 ==> s.verified.value == s.records[k].context))
    && (forall k, l :: k in s.records && l in s.records ==> k == l)
  }

  lemma EstablishKeepsInv(s: State, t: State, log: seq<Exchanged>, d: Descriptor, ok: bool)
    requires Inv(s) && Establishes(s, t, log, d, ok)
    ensures Inv(t)
  {
  }

  lemma AdvanceKeepsInv(s: State, t: State, log: seq<Exchanged>, kind: Kind, ok: bool)
    requires Inv(s) && Advances(s, t, log, kind, ok)
    ensures Inv(t)
  {
  }

  lemma InvStep(s: State, t: State, c: Call)
    requires Inv(s) && Next(s, t, c)
    ensures Inv(t)
  {
    match c
    case EstablishCall(d, ok, log) => EstablishKeepsInv(s, t, log, d, ok);
    case SecurityCall(ok, log) => AdvanceKeepsInv(s, t, log, SecurityKind, ok);
    case ServingCall(ok, log) => AdvanceKeepsInv(s, t, log, ServingKind, ok);
    case _ =>
  }

  lemma {:induction false} InvAlong(ss: seq<State>, cs: seq<Call>, i: nat)
    requires IsHistory(ss, cs) && i < |ss|
    ensures Inv(ss[i])
    decreases i
  {
    if i > 0 {
      InvAlong(ss, cs, i - 1);
      InvStep(ss[i-1], ss[i], cs[i-1]);
    }
  }

  /** The last reply of a call echoes the challenge of the very request it answers. */
  ghost predicate OwnChallenge(x: Exchanged) {
    x.reply.Some? && x.reply.value.challenge == Str(x.request.challenge)
  }

  /** The three moves of the context, and what each rests on. */
  ghost predicate Moves(was: Option<Context>, now: Option<Context>, c: Call) {
    && now.Some?
    && if was.None? then
         && c.EstablishCall? && |c.log| >= 2 && now.value.phase.Claimed?
         && OwnChallenge(c.log[|c.log|-1]) && OwnChallenge(c.log[|c.log|-2])
         && c.log[|c.log|-2].reply.value.revision == Num(now.value.revision - 1)
       else
         && (c.SecurityCall? || c.ServingCall?) && c.log != []
         && Rank(now.value.phase) == Rank(was.value.phase) + 1
         && (c.SecurityCall? <==> was.value.phase.Claimed?)
         && OwnChallenge(c.log[|c.log|-1])
         && now.value.fixed == was.value.fixed && was.value.revision <= now.value.revision
  }

  /** What every reply that grants something has: the restart policy, safe numbers, in a cutover the two
      hashes, and no key the protocol does not know. */
  ghost predicate Proper(r: Reply) {
    && r.startupAdmissionPolicy == Word(AUTO_RESTART_POLICY) && r.others == {}
    && (r.mode == Word(CUTOVER) || r.mode == Word(STEADY))
    && (r.mode == Word(CUTOVER) ==> Hex64(r.initialTargetProcess) && Hex64(r.startIntent))
    && r.revision.Num? && -MAX_SAFE <= r.revision.n <= MAX_SAFE
    && r.generationEpoch.Num? && -MAX_SAFE <= r.generationEpoch.n <= MAX_SAFE
  }

  /** The claim takes up the offer that was answered right before it: it was asked for by the offer's
      identity, and agrees with it in all that a claim must not change. */
  ghost predicate Continues(x: Exchanged, offered: Exchanged) {
    && OwnChallenge(offered) && x.reply.Some? && x.request.ConsumeRequest?
    && Proper(offered.reply.value) && Proper(x.reply.value)
    && var offer, claim := offered.reply.value, x.reply.value;
    && x.request.offerId == offer.offerId && x.request.offerNonce == offer.offerNonce
    && offer.revision == Num(x.request.expectedRevision) && claim.revision == Num(x.request.expectedRevision + 1)
    && offer.generationEpoch == Num(x.request.epoch) == claim.generationEpoch
    && claim.mode == offer.mode && claim.authorityId == offer.authorityId
    && (claim.mode == Word(CUTOVER) ==>
          claim.initialTargetProcess == offer.initialTargetProcess && claim.startIntent == offer.startIntent)
  }

  lemma ObtainedEchoes(log: seq<Exchanged>, claim: Reply, d: Descriptor, caller: Binding)
    requires Obtained(log, claim, d, caller)
    ensures OwnChallenge(log[|log|-1]) && Continues(log[|log|-1], log[|log|-2])
  {
  }

  lemma EstablishMoves(s: State, t: State, c: Call)
    requires Inv(s) && c.EstablishCall? && Next(s, t, c) && t.verified != s.verified
    ensures Moves(s.verified, t.verified, c)
  {
    ObtainedEchoes(c.log, c.log[|c.log|-1].reply.value, c.d, t.claimed.value.caller);
  }

  /** Every change of the context is one of three moves, each resting on a reply that echoes its
      own request's challenge; the claim's revision is the offer's plus one, and a phase never
      lowers it. */
  lemma ContextMoves(s: State, t: State, c: Call)
    requires Inv(s) && Next(s, t, c) && t.verified != s.verified
    ensures Moves(s.verified, t.verified, c)
  {
    if c.EstablishCall? { EstablishMoves(s, t, c); }
  }

  predicate Advanced(was: Context, now: Context) {
    && now.fixed == was.fixed && was.revision <= now.revision && Rank(was.phase) <= Rank(now.phase)
    && (now.phase == was.phase ==> now == was)
  }

  lemma CallAdvances(s: State, t: State, c: Call)
    requires Inv(s) && Next(s, t, c) && s.verified.Some?
    ensures t.verified.Some? && Advanced(s.verified.value, t.verified.value)
  {
    if t.verified != s.verified { ContextMoves(s, t, c); }
  }

  /** From the claim on: the phase never moves back, the revision never falls, and every other
      field of the context stays what the claim made it. */
  lemma {:induction false} ContextOnlyAdvances(ss: seq<State>, cs: seq<Call>, i: nat, j: nat)
    requires IsHistory(ss, cs) && i <= j < |ss| && ss[i].verified.Some?
    ensures ss[j].verified.Some? && Advanced(ss[i].verified.value, ss[j].verified.value)
    decreases j - i
  {
    if i < j {
      ContextOnlyAdvances(ss, cs, i, j - 1);
      InvAlong(ss, cs, j - 1);
      CallAdvances(ss[j-1], ss[j], cs[j-1]);
    }
  }

  /** The exchanges end with a claim reply, and `f` holds its fields. */
  ghost predicate Claims(log: seq<Exchanged>, d: Descriptor, f: Fixed) {
    && |log| >= 2 && OwnChallenge(log[|log|-1]) && ReadFrom(f, log[|log|-1].reply.value, d)
    && Continues(log[|log|-1], log[|log|-2])
  }

  lemma ObtainedClaims(log: seq<Exchanged>, claim: Reply, d: Descriptor, caller: Binding)
    requires Obtained(log, claim, d, caller)
    ensures Claims(log, d, FixedOf(claim, d, caller))
  {
    ObtainedReads(log, claim, d, caller);
    ObtainedEchoes(log, claim, d, caller);
  }

  lemma EstablishReads(s: State, t: State, c: Call)
    requires c.EstablishCall? && Next(s, t, c) && s.verified.None? && t.verified.Some?
    ensures c.ok && Claims(c.log, c.d, t.verified.value.fixed)
  {
    ObtainedClaims(c.log, c.log[|c.log|-1].reply.value, c.d, t.claimed.value.caller);
  }

  lemma FixedKept(s: State, t: State, c: Call)
    requires Inv(s) && Next(s, t, c) && s.verified.Some?
    ensures t.verified.Some? && t.verified.value.fixed == s.verified.value.fixed
  {
    CallAdvances(s, t, c);
  }

  /** In every state with a context each field of it, but for revision and phase, is what the claim
      reply of one establishing call said. */
  lemma {:induction false} ContextIsTheClaims(ss: seq<State>, cs: seq<Call>, j: nat)
    requires IsHistory(ss, cs) && j < |ss| && ss[j].verified.Some?
    ensures exists i :: 0 <= i < j && cs[i].EstablishCall? && cs[i].ok
                        && Claims(cs[i].log, cs[i].d, ss[j].verified.value.fixed)
    decreases j
  {
    var k: nat := j - 1;
    InvAlong(ss, cs, k);
    HistoryStep(ss, cs, j);
    if ss[k].verified.Some? {
      ContextIsTheClaims(ss, cs, k);
      FixedKept(ss[k], ss[j], cs[k]);
    } else {
      EstablishReads(ss[k], ss[j], cs[k]);
      assert Claims(cs[k].log, cs[k].d, ss[j].verified.value.fixed);
    }
  }

  /** The context is what the claim reply and the descriptor it was checked against say. */
  ghost predicate FromClaim(s: State) {
    s.verified.Some? ==>
      && s.claimed.Some? && s.claimed.value.claim.generationEpoch.Num? && s.claimed.value.claim.mode.Word?
      && s.verified.value.fixed
         == FixedOf(s.claimed.value.claim, s.claimed.value.descriptor, s.claimed.value.caller)
  }

  lemma FromClaimStep(s: State, t: State, c: Call)
    requires Inv(s) && FromClaim(s) && Next(s, t, c)
    ensures FromClaim(t)
  {
  }

  lemma {:induction false} FromClaimAlong(ss: seq<State>, cs: seq<Call>, i: nat)
    requires IsHistory(ss, cs) && i < |ss|
    ensures FromClaim(ss[i])
    decreases i
  {
    if i > 0 {
      FromClaimAlong(ss, cs, i - 1);
      InvAlong(ss, cs, i - 1);
      HistoryStep(ss, cs, i);
      FromClaimStep(ss[i-1], ss[i], cs[i-1]);
    }
  }

  lemma GrantReads(x: Exchanged, c: ClaimedState, f: Fixed, kind: Kind, revision: int)
    requires GrantedBy(x, c, kind, revision) && c.claim.generationEpoch.Num? && c.claim.mode.Word?
    requires f == FixedOf(c.claim, c.descriptor, c.caller)
    ensures ReadFrom(f, x.reply.value, c.descriptor) && x.request.claimId == f.claimId && Proper(x.reply.value)
  {
  }

  /** Every reply that moves the phase on says what the context says, field by field: another claim's,
      another database's or another process's never does. */
  lemma PhaseRepliesAgree(ss: seq<State>, cs: seq<Call>, i: nat)
    requires IsHistory(ss, cs) && i < |cs| && (cs[i].SecurityCall? || cs[i].ServingCall?) && cs[i].ok
    ensures cs[i].log != [] && ss[i].verified.Some? && ss[i].claimed.Some? && ss[i+1].verified.Some?
    ensures var x := cs[i].log[|cs[i].log|-1];
            && OwnChallenge(x) && x.request.PhaseRequest? && x.request.claimId == ss[i].verified.value.fixed.claimId
            && ReadFrom(ss[i].verified.value.fixed, x.reply.value, ss[i].claimed.value.descriptor)
            && Proper(x.reply.value)
            && x.reply.value.revision == Num(ss[i+1].verified.value.revision)
            && (cs[i].ServingCall? ==> x.reply.value.decision == Word(SERVING))
  {
    FromClaimAlong(ss, cs, i);
    assert Next(ss[i], ss[i+1], cs[i]);
    var kind := if cs[i].SecurityCall? then SecurityKind else ServingKind;
    GrantReads(cs[i].log[|cs[i].log|-1], ss[i].claimed.value, ss[i].verified.value.fixed, kind,
               ss[i].verified.value.revision);
  }

  /** The record is still there with its context, and what was attempted or released stays so. */
  predicate RecordKept(s: State, t: State, claim: nat)
    requires claim in s.records
  {
    && claim in t.records && t.records[claim].context == s.records[claim].context
    && (s.records[claim].attempted ==> t.records[claim].attempted)
    && (s.records[claim].released ==> t.records[claim].released)
  }

  lemma RecordsPersist(s: State, t: State, c: Call, claim: nat)
    requires Inv(s) && Next(s, t, c) && claim in s.records
    ensures RecordKept(s, t, claim)
  {
  }

  lemma {:induction false} RecordsPersistAlong(ss: seq<State>, cs: seq<Call>, i: nat, j: nat, claim: nat)
    requires IsHistory(ss, cs) && i <= j < |ss| && claim in ss[i].records
    ensures RecordKept(ss[i], ss[j], claim)
    decreases j - i
  {
    if i < j {
      var k: nat := j - 1;
      RecordsPersistAlong(ss, cs, i, k, claim);
      InvAlong(ss, cs, k);
      HistoryStep(ss, cs, j);
      RecordsPersist(ss[k], ss[j], cs[k], claim);
    }
  }

  /** At most one recovery attempt is ever begun, whatever claims are presented. */
  lemma AttemptBegunAtMostOnce(ss: seq<State>, cs: seq<Call>, i: nat, j: nat)
    requires IsHistory(ss, cs) && i < |cs| && j < |cs|
    requires cs[i].BeginCall? && cs[i].ok && cs[j].BeginCall? && cs[j].ok
    ensures i == j
  {
    if i != j {
      var p, q := if i < j then i else j, if i < j then j else i;
      assert Next(ss[p], ss[p+1], cs[p]) && Next(ss[q], ss[q+1], cs[q]);
      RecordsPersistAlong(ss, cs, p + 1, q, cs[p].token);
      InvAlong(ss, cs, q);
    }
  }

  /** A claim that was released, or whose context has been replaced, is never current again. */
  lemma NeverCurrentAgain(ss: seq<State>, cs: seq<Call>, i: nat, j: nat, claim: nat, process: Binding, attempt: bool)
    requires IsHistory(ss, cs) && i <= j < |ss| && claim in ss[i].records
    requires ss[i].records[claim].released || ss[i].verified != Some(ss[i].records[claim].context)
    ensures !Current(ss[j], claim, process, attempt)
  {
    RecordsPersistAlong(ss, cs, i, j, claim);
    InvAlong(ss, cs, i);
    ContextOnlyAdvances(ss, cs, i, j);
    InvAlong(ss, cs, j);
  }

  /** Serving ends every recovery: once the context is serving, no claim is current. */
  lemma NothingCurrentWhileServing(ss: seq<State>, cs: seq<Call>, i: nat, j: nat, claim: nat, process: Binding)
    requires IsHistory(ss, cs) && i <= j < |ss| && ss[i].verified.Some? && ss[i].verified.value.phase.Serving?
    ensures !Current(ss[j], claim, process, false)
  {
    ContextOnlyAdvances(ss, cs, i, j);
  }

  // ---------------------------------------------------------------- when a claim is current

  predicate EndsClaim(c: Call, token: nat) { c == ReleaseCall(token, true) || (c.ServingCall? && c.ok) }

  /** Call `i` minted the claim for `process`, and no call before `j` released it or went on to serving. */
  ghost predicate HeldSince(cs: seq<Call>, j: nat, i: nat, token: nat, process: Binding)
    requires j <= |cs|
  {
    i < j && cs[i] == MintCall(Some(token), process) && forall k :: i < k < j ==> !EndsClaim(cs[k], token)
  }

  ghost predicate Held(cs: seq<Call>, j: nat, token: nat, process: Binding)
    requires j <= |cs|
  {
    exists i: nat :: HeldSince(cs, j, i, token, process)
  }

  ghost predicate Begun(cs: seq<Call>, j: nat, token: nat)
    requires j <= |cs|
  {
    exists k :: 0 <= k < j && cs[k].BeginCall? && cs[k].token == token && cs[k].ok
  }

  lemma HeldStep(cs: seq<Call>, j: nat, token: nat, process: Binding)
    requires j < |cs|
    ensures Held(cs, j + 1, token, process) <==>
              cs[j] == MintCall(Some(token), process) || (Held(cs, j, token, process) && !EndsClaim(cs[j], token))
  {
    var n: nat := j + 1;
    if i: nat :| HeldSince(cs, n, i, token, process) {
      if i < j { assert !EndsClaim(cs[j], token) && HeldSince(cs, j, i, token, process); }
    }
    if cs[j] == MintCall(Some(token), process) {
      assert HeldSince(cs, n, j, token, process);
    } else if i: nat :| HeldSince(cs, j, i, token, process) {
      if !EndsClaim(cs[j], token) { assert HeldSince(cs, n, i, token, process); }
    }
  }

  lemma CurrentStep(s: State, t: State, c: Call, token: nat, process: Binding)
    requires Inv(s) && Next(s, t, c)
    ensures Current(t, token, process, false) <==>
              c == MintCall(Some(token), process) || (Current(s, token, process, false) && !EndsClaim(c, token))
    ensures (token in t.records && t.records[token].attempted) <==>
              (token in s.records && s.records[token].attempted) || (c.BeginCall? && c.token == token && c.ok)
  {
  }

  /** A recovery claim is current exactly from its mint, for the process that minted it, until it is
      released or the context goes on to serving; as an attempt, once one was begun. */
  lemma {:induction false} CurrentExactly(ss: seq<State>, cs: seq<Call>, j: nat, token: nat, process: Binding)
    requires IsHistory(ss, cs) && j < |ss|
    ensures Current(ss[j], token, process, false) <==> Held(cs, j, token, process)
    ensures Current(ss[j], token, process, true) <==> Held(cs, j, token, process) && Begun(cs, j, token)
    ensures (token in ss[j].records && ss[j].records[token].attempted) <==> Begun(cs, j, token)
    decreases j
  {
    if j > 0 {
      var k: nat := j - 1;
      CurrentExactly(ss, cs, k, token, process);
      InvAlong(ss, cs, k);
      HistoryStep(ss, cs, j);
      CurrentStep(ss[k], ss[j], cs[k], token, process);
      HeldStep(cs, k, token, process);
    }
  }
}
