/** Models the startup admission of server/bootstrap-startup-context.js: a client that takes an
    offer, consumes it as a claim, is admitted to the security phase and is confirmed as serving,
    whatever the endpoint answers. */
module StartupAdmission {
  import opened Common
  import opened PollRounds
  import opened StartupReplies

  // ---------------------------------------------------------------- the client's state

  datatype Phase = Claimed | SecurityAuthorized | Serving

  /** The fields of a context that no phase changes. */
  datatype Fixed = Fixed(
    databaseRealpath: string, databaseDev: string, databaseIno: string, policyId: Literal,
    closureSha256: string, releaseIdentitySha256: string, databaseContractSha256: string,
    transactionId: Value, mode: Literal, serverBuildId: string, claimId: Value, epoch: int,
    nodeInstanceId: string, generationId: string, process: Binding)

  /** A frozen context object; `serial` is its identity (each transition makes a new object). */
  datatype Context = Context(serial: nat, fixed: Fixed, revision: int, phase: Phase)

  /** A recovery-claim record; `context` is the context object it was minted under. */
  datatype Record = Record(context: Context, process: Binding, attempted: bool, released: bool)

  datatype State = State(
    verified: Option<Context>, claimed: Option<ClaimedState>, attempted: bool, absenceProved: bool,
    minted: bool, records: map<nat, Record>)

  function Fresh(): State { State(None, None, false, false, false, map[]) }

  predicate ClaimMatchesOffer(claim: Reply, offer: Reply, d: Descriptor)
    requires IsSafeInteger(offer.revision)
  {
    && (claim.mode == Word(CUTOVER) ==>
          && StrictEq(claim.initialTargetProcess, offer.initialTargetProcess)
          && StrictEq(claim.startIntent, offer.startIntent))
    && StrictEq(claim.mode, offer.mode)
    && StrictEq(claim.authorityId, offer.authorityId)
    && claim.revision == Num(offer.revision.n + 1)
    && StrictEq(claim.generationEpoch, offer.generationEpoch)
    && claim.nodeInstanceId == Str(d.nodeInstanceId)
    && claim.generationId == Str(d.generationId)
    && claim.databaseDev == Str(d.databaseDev)
    && claim.databaseIno == Str(d.databaseIno)
    && claim.databaseContract == Str(d.databaseContractSha256)
  }

  function FixedOf(claim: Reply, d: Descriptor, caller: Binding): Fixed
    requires claim.generationEpoch.Num? && claim.mode.Word?
  {
    Fixed(d.databaseRealpath, d.databaseDev, d.databaseIno, EXISTING_STATE_POLICY,
          d.startupClosureSha256, d.releaseIdentitySha256, d.databaseContractSha256,
          claim.authorityId, claim.mode.l, d.serverBuildId, claim.claimId,
          claim.generationEpoch.n, d.nodeInstanceId, d.generationId, caller)
  }

  // ---------------------------------------------------------------- what each call may do

  /** An exchange whose reply is an offer echoing the request's own challenge. */
  ghost predicate OfferedBy(x: Exchanged, d: Descriptor, caller: Binding) {
    && x.request.OfferRequest? && x.reply.Some?
    && CheckResponse(x.reply.value, caller, x.request.challenge, d, OfferKind)
  }

  /** An exchange consuming `offer`, whose reply is a claim echoing the request's own challenge. */
  ghost predicate ConsumedBy(x: Exchanged, challenge: string, offer: Reply, d: Descriptor, caller: Binding)
    requires IsSafeInteger(offer.revision) && IsSafeInteger(offer.generationEpoch)
  {
    && x.request == ConsumeRequest(challenge, offer.offerId, offer.offerNonce,
                                   offer.revision.n, offer.generationEpoch.n)
    && x.reply.Some?
    && CheckResponse(x.reply.value, caller, challenge, d, ClaimKind)
    && ClaimMatchesOffer(x.reply.value, offer, d)
  }

  /** The last two exchanges of a successful establishment. */
  ghost predicate EstablishedBy(offered: Exchanged, consumed: Exchanged, d: Descriptor, caller: Binding) {
    && OfferedBy(offered, d, caller)
    && ConsumedBy(consumed, offered.request.challenge, offered.reply.value, d, caller)
  }

  function Adopted(s: State, d: Descriptor, caller: Binding, claim: Reply): State
    requires claim.generationEpoch.Num? && claim.revision.Num? && claim.mode.Word?
  {
    s.(absenceProved := true, claimed := Some(ClaimedState(d, claim, caller)),
       verified := Some(Context(0, FixedOf(claim, d, caller), claim.revision.n, Claimed)))
  }

  /** Every field of the context is the named field of the claim reply, or of the descriptor where the
      reply has none; its process is the one the reply echoes. */
  ghost predicate ReadFrom(f: Fixed, claim: Reply, d: Descriptor) {
    && f.databaseRealpath == d.databaseRealpath && f.serverBuildId == d.serverBuildId
    && claim.databaseDev == Str(f.databaseDev) && claim.databaseIno == Str(f.databaseIno)
    && claim.startupPolicyId == Word(f.policyId) && claim.startupClosure == Str(f.closureSha256)
    && claim.releaseIdentity == Str(f.releaseIdentitySha256)
    && claim.databaseContract == Str(f.databaseContractSha256)
    && claim.authorityId == f.transactionId && claim.mode == Word(f.mode) && claim.claimId == f.claimId
    && claim.generationEpoch == Num(f.epoch)
    && claim.nodeInstanceId == Str(f.nodeInstanceId) && claim.generationId == Str(f.generationId)
    && claim.uid == Num(f.process.uid) && claim.pid == Num(f.process.pid)
    && claim.startTicks == Str(f.process.startTicks) && claim.bootId == Str(f.process.bootId)
  }

  ghost predicate Establishes(s: State, t: State, log: seq<Exchanged>, d: Descriptor, ok: bool) {
    if s.attempted then !ok && t == s && log == []
    else if !ok then t == s.(attempted := true)
    else
      && |log| >= 2 && t.claimed.Some?
      && var caller := t.claimed.value.caller;
      && log[|log|-1].reply.Some? && var claim := log[|log|-1].reply.value;
      && Obtained(log, claim, d, caller)
      && t == Adopted(s.(attempted := true), d, caller, claim)
  }

  /** The exchanges end with an offer and the claim that consumed it. */
  ghost predicate Obtained(log: seq<Exchanged>, claim: Reply, d: Descriptor, caller: Binding) {
    && |log| >= 2 && EstablishedBy(log[|log|-2], log[|log|-1], d, caller) && log[|log|-1].reply == Some(claim)
  }

  lemma ClaimObtained(offers: seq<Exchanged>, x: Exchanged, challenge: string, offer: Reply, claim: Reply,
                      d: Descriptor, caller: Binding)
    requires TakenOffer(offers, challenge, offer, caller, d)
    requires ConsumedBy(x, challenge, offer, d, caller) && x.reply == Some(claim)
    ensures Obtained(offers + [x], claim, d, caller) && OneIdentity(offers)
    ensures claim.generationEpoch.Num? && claim.revision.Num? && claim.mode.Word?
  {
  }

  lemma ObtainedReads(log: seq<Exchanged>, claim: Reply, d: Descriptor, caller: Binding)
    requires Obtained(log, claim, d, caller)
    ensures ReadFrom(FixedOf(claim, d, caller), claim, d) && claim.revision.Num?
  {
  }

  ghost predicate Advances(s: State, t: State, log: seq<Exchanged>, kind: Kind, ok: bool) {
    if !ok then t == s
    else
      && s.verified.Some? && s.claimed.Some? && log != []
      && s.verified.value.phase == (if kind.SecurityKind? then Claimed else SecurityAuthorized)
      && var x := log[|log|-1];
      && GrantedBy(x, s.claimed.value, kind, s.verified.value.revision)
      && (kind.ServingKind? ==> x.reply.value.decision == Word(SERVING))
      && t == s.(verified := Some(s.verified.value.(
                   serial := s.verified.value.serial + 1, revision := x.reply.value.revision.n,
                   phase := if kind.SecurityKind? then SecurityAuthorized else Serving)))
  }

  /** The context is a claimed one, read from the reply of the last exchange. */
  ghost predicate ClaimedBy(c: Context, log: seq<Exchanged>, d: Descriptor) {
    && log != [] && log[|log|-1].reply.Some? && ReadFrom(c.fixed, log[|log|-1].reply.value, d)
    && log[|log|-1].reply.value.revision == Num(c.revision) && c.phase.Claimed?
  }

  lemma Established(s: State, attempting: State, t: State, log: seq<Exchanged>, d: Descriptor, caller: Binding,
                    claim: Reply)
    requires !s.attempted && attempting == s.(attempted := true) && Obtained(log, claim, d, caller)
    requires claim.generationEpoch.Num? && claim.revision.Num? && claim.mode.Word?
    requires t == Adopted(attempting, d, caller, claim)
    ensures Establishes(s, t, log, d, true)
  {
  }

  lemma EstablishedReads(s: State, t: State, log: seq<Exchanged>, d: Descriptor)
    requires !s.attempted && Establishes(s, t, log, d, true)
    ensures t.verified.Some? && ClaimedBy(t.verified.value, log, d)
  {
    var caller, claim := t.claimed.value.caller, log[|log|-1].reply.value;
    ObtainedReads(log, claim, d, caller);
    assert t.verified.value == Context(0, FixedOf(claim, d, caller), claim.revision.n, Claimed);
  }

  lemma ServingGranted(s: State, t: State, log: seq<Exchanged>)
    requires s.verified.Some? && s.verified.value.phase.SecurityAuthorized? && s.claimed.Some? && log != []
    requires GrantedBy(log[|log|-1], s.claimed.value, ServingKind, s.verified.value.revision)
    requires log[|log|-1].reply.value.decision == Word(SERVING)
    requires t == s.(verified := Some(s.verified.value.(serial := s.verified.value.serial + 1,
                       revision := log[|log|-1].reply.value.revision.n, phase := Serving)))
    ensures Advances(s, t, log, ServingKind, true)
  {
  }

  /** The last reply of rounds after which the loop asks again does not grant serving. */
  lemma StillWaiting(rounds: seq<Round>, c: ClaimedState, revision: int, start: nat)
    requires ServingRounds(rounds, c, revision, start) && rounds != []
    ensures var x := rounds[|rounds|-1].x;
            GrantedBy(x, c, ServingKind, revision) ==> x.reply.value.decision != Word(SERVING)
  {
  }

  lemma ServingDeadline(rounds: seq<Round>, c: ClaimedState, revision: int, start: nat)
    requires ServingRun(rounds, c, revision, start) && rounds != []
    ensures rounds[|rounds|-1].x.deadline == Some(start + 90_000)
  {
  }

  /** The last reply grants serving to this very process, before the deadline of its request. */
  ghost predicate ServingConfirmed(host: Host, log: seq<Exchanged>, c: Option<ClaimedState>, revision: int)
    reads host
  {
    && log != [] && c.Some? && GrantedBy(log[|log|-1], c.value, ServingKind, revision)
    && log[|log|-1].reply.value.decision == Word(SERVING) && host.process == c.value.caller
    && log[|log|-1].deadline.Some? && host.now < log[|log|-1].deadline.value
  }

  /** `currentRecoveryClaimRecord` finds a record. The compared fields are all fields of the one
      context object, so its identity decides them. */
  predicate Current(s: State, claim: nat, process: Binding, requireAttempt: bool) {
    && claim in s.records && !s.records[claim].released
    && (requireAttempt ==> s.records[claim].attempted)
    && s.verified == Some(s.records[claim].context)
    && s.verified.value.phase.SecurityAuthorized? && s.absenceProved
    && process == s.records[claim].process
  }

  ghost predicate Mints(s: State, t: State, claim: Option<nat>, process: Binding) {
    if s.minted || !s.absenceProved || s.verified.None? || !s.verified.value.phase.SecurityAuthorized?
       || process != s.verified.value.fixed.process
    then claim.None? && t == s
    else
      && claim.Some? && claim.value !in s.records
      && t == s.(minted := true,
                 records := s.records[claim.value := Record(s.verified.value, process, false, false)])
  }

  ghost predicate BeginsAttempt(s: State, t: State, claim: nat, process: Binding, ok: bool) {
    && (ok <==> Current(s, claim, process, false) && !s.records[claim].attempted)
    && t == if ok then s.(records := s.records[claim := s.records[claim].(attempted := true)]) else s
  }

  ghost predicate ReleasesClaim(s: State, t: State, claim: nat, ok: bool) {
    && (ok <==> claim in s.records && !s.records[claim].released)
    && t == if ok then s.(records := s.records[claim := s.records[claim].(released := true)]) else s
  }

  // ---------------------------------------------------------------- what is accepted

  /** A pending reply the offer loop accepts: well-formed, and an initial one repeats what an earlier one
      said and has not expired. */
  predicate PendingAccepted(r: Reply, b: Binding, challenge: string, d: Descriptor, initial: Option<Initial>,
                            bootMs: int)
  {
    && ValidPending(r, b, challenge, d)
    && (IsInitial(r) ==> (initial.Some? ==> initial == Some(InitialOf(r))) && bootMs < r.expiresAt.n)
  }

  /** An offer that is accepted after pending replies naming `identity`, the initial ones saying
      `initial`: of the named epoch and in time, steady after an operation's, and after an initial one a
      cutover of its transaction that expires no later. */
  predicate OfferAccepted(r: Reply, b: Binding, challenge: string, d: Descriptor, identity: Option<string>,
                          initial: Option<Initial>, inTime: bool)
  {
    && CheckResponse(r, b, challenge, d, OfferKind)
    && (identity.Some? ==> EpochAgrees(r, identity.value) && inTime && (initial.None? ==> r.mode == Word(STEADY)))
    && (initial.Some? ==>
          && r.mode == Word(CUTOVER) && TextOf(r.authorityId) == Some(initial.value.transactionId)
          && !Exceeds(r.expiresAt, initial.value.expiresAtBootMs))
  }

  /** Why the offer loop does not ask again after a pending reply: it is not accepted, it changes the
      identity, it is too late, or the process or the descriptor is another one. */
  ghost predicate GivesUp(host: Host, r: Reply, b: Binding, d: Descriptor, challenge: string, deadline: nat,
                          identity: Option<string>, initial: Option<Initial>)
    reads host
  {
    || !PendingAccepted(r, b, challenge, d, initial, host.bootMs)
    || (identity.Some? && IdentityOf(r) != identity)
    || deadline <= host.now || host.process != b || !host.unrotated
  }

  /** Why the offer loop ends without an answer: it is too late, nothing came back, or it gives up. */
  ghost predicate StopsOffering(host: Host, last: Option<Exchanged>, challenge: string, deadline: nat, p: Poll)
    reads host
  {
    || deadline <= host.now
    || (last.Some? && last.value.reply.None?)
    || (last.Some? && last.value.reply.Some?
        && GivesUp(host, last.value.reply.value, p.caller, p.d, challenge, deadline, p.identity, p.initial))
  }

  /** Why no offer is taken: the loop ends without one, or with one that is not accepted. */
  ghost predicate RefusesOffer(host: Host, last: Option<Exchanged>, challenge: string, deadline: nat, p: Poll)
    reads host
  {
    || StopsOffering(host, last, challenge, deadline, p)
    || (last.Some? && last.value.reply.Some?
        && !OfferAccepted(last.value.reply.value, p.caller, challenge, p.d, p.identity, p.initial, host.now < deadline))
  }

  lemma AcceptedIsTaken(log: seq<Exchanged>, challenge: string, offer: Reply, p: Poll)
    requires Polled(log, challenge, offer, p.identity)
    requires OfferAccepted(offer, p.caller, challenge, p.d, p.identity, p.initial, true)
    ensures TakenOffer(log, challenge, offer, p.caller, p.d)
  {
    TakenFromPending(log, challenge, offer, p.caller, p.d, p.identity);
  }

  function LastOf(log: seq<Exchanged>): Option<Exchanged> { if log == [] then None else Some(log[|log|-1]) }

  /** The exchanges brought a matching claim for this very process, the database is the claimed one, and
      the deadline has not passed: nothing is left to refuse. */
  ghost predicate Deserved(host: Host, log: seq<Exchanged>, d: Descriptor)
    reads host
  {
    && |log| >= 2 && log[|log|-1].reply.Some? && Obtained(log, log[|log|-1].reply.value, d, host.process)
    && host.database && log[|log|-1].deadline.Some? && host.now < log[|log|-1].deadline.value
  }

  lemma DeservedIsTaken(host: Host, offers: seq<Exchanged>, x: Exchanged, challenge: string, offer: Reply,
                        d: Descriptor, caller: Binding)
    requires TakenOffer(offers, challenge, offer, caller, d) && Deserved(host, offers + [x], d)
    ensures host.process == caller && ConsumedBy(x, challenge, offer, d, caller)
  {
    assert (offers + [x])[|offers|-1] == offers[|offers|-1];
  }

  // ---------------------------------------------------------------- the module

  datatype PhaseOutcome = Failed | Busy | Accepted(reply: Reply)

  class Admission {
    var verified: Option<Context>
    var claimed: Option<ClaimedState>
    var attempted: bool
    var absenceProved: bool
    var minted: bool
    var records: map<nat, Record>

    function Abs(): State
      reads this
    {
      State(verified, claimed, attempted, absenceProved, minted, records)
    }

    constructor ()
      ensures Abs() == Fresh()
    {
      verified, claimed, attempted, absenceProved, minted, records := None, None, false, false, false, map[];
    }

    /** What follows a pending reply `x`: its checks and the sleep. */
    method AfterPending(host: Host, caller: Binding, d: Descriptor, challenge: string, offer: Reply, deadline: nat,
                        identity: Option<string>, initial: Option<Initial>, ghost start: nat, ghost x: Exchanged)
      returns (again: bool, nearer: nat, named: Option<string>, fixed: Option<Initial>, ghost r: Round)
      requires x.request == OfferRequest(challenge) && x.reply == Some(offer)
      requires IsPending(offer) && x.sentAt <= host.now
      modifies host`now, host`bootMs, host`process, host`unrotated
      ensures nearer <= deadline && (!again ==> named == identity && fixed == initial)
      ensures !again ==> GivesUp(host, offer, caller, d, challenge, nearer, identity, initial)
      ensures again ==>
                && old(host.now) < host.now == r.wokeAt && r.x == x && r.deadline == nearer
                && Refines(Poll(start, caller, d, named, fixed), Poll(start, caller, d, identity, initial))
                && AsksAgain(r, Poll(start, caller, d, named, fixed), deadline)
    {
      again, nearer, named, fixed, r := false, deadline, identity, initial, Round(x, 0, 0, 0, 0);
      var valid, name, closer, said := CheckPending(host, d, caller, challenge, offer, deadline, initial);
      nearer := closer;
      if !valid || (identity.Some? && name != identity) { return; }
      var checkedAt := host.Clock();
      var current := host.ProcessBinding();
      var unrotated := host.DescriptorUnchanged();
      if checkedAt >= closer || current != caller || !unrotated { return; }
      var asleepAt: int := host.Clock();
      host.Delay(Max(1, Min(100, closer - asleepAt)));
      again, named, fixed := true, name, said;
      r := Round(x, checkedAt, asleepAt, host.now, closer);
    }

    /** One round of the offer loop; `done` are the rounds with it. */
    method PollOnce(host: Host, caller: Binding, d: Descriptor, challenge: string, deadline: nat,
                    identity: Option<string>, initial: Option<Initial>, ghost start: nat, ghost rounds: seq<Round>)
      returns (again: bool, reply: Option<Reply>, nearer: nat, named: Option<string>, fixed: Option<Initial>,
               ghost done: seq<Round>)
      requires OfferRounds(rounds, Poll(start, caller, d, identity, initial)) && AwakeAfter(start, rounds) <= host.now
      requires DeadlineAfter(start, rounds) == deadline
      modifies host
      ensures nearer <= deadline && GrownBy(old(host.log), host.log, rounds, done)
      ensures if again then
                && OfferRounds(done, Poll(start, caller, d, named, fixed)) && AwakeAfter(start, done) <= host.now
                && DeadlineAfter(start, done) == nearer && old(host.now) < host.now && old(host.now) < deadline
              else PollEnded(done, Poll(start, caller, d, named, fixed), nearer)
      ensures !again && reply.Some? && !IsPending(reply.value) ==>
                done != [] && done[|done|-1].x.request == OfferRequest(challenge) && done[|done|-1].x.reply == reply
      ensures !again && !(reply.Some? && !IsPending(reply.value)) ==>
                StopsOffering(host, if done == [] then None else Some(done[|done|-1].x), challenge, nearer,
                              Poll(start, caller, d, named, fixed))
    {
      again, nearer, named, fixed, done := false, deadline, identity, initial, rounds;
      ghost var x := Exchanged(OfferRequest(challenge), host.now, Some(deadline), None);
      ghost var p := Poll(start, caller, d, identity, initial);
      NothingAsked(rounds, p);
      reply := host.Exchange(OfferRequest(challenge), Some(deadline));
      if host.log != old(host.log) {
        x := x.(reply := reply);
        done := rounds + [Round(x, 0, 0, 0, 0)];
        LastAsked(rounds, p, Round(x, 0, 0, 0, 0));
      }
      if reply.None? || !IsPending(reply.value) { return; }
      ghost var r;
      again, nearer, named, fixed, r :=
        AfterPending(host, caller, d, challenge, reply.value, deadline, identity, initial, start, x);
      if again {
        AskedAgain(rounds, p, Poll(start, caller, d, named, fixed), r);
        done := rounds + [r];
      }
    }

    /** The offer loop: asks until the reply is no pending one. `initial`: an initial-arming reply was
        seen, which may have moved the deadline closer. However it ends, what was asked is a run of
        rounds, of at most 300 requests: all replies but the last are pending, valid for their own
        requests, and of one identity. */
    method PollOffers(host: Host, d: Descriptor, caller: Binding)
      returns (got: bool, challenge: string, offer: Reply, deadline: nat, identity: Option<string>,
               initial: Option<Initial>, ghost asked: seq<Exchanged>, ghost start: nat, ghost rounds: seq<Round>)
      modifies host
      ensures host.log == old(host.log) + asked && OffersTo(asked, deadline) && |asked| <= 300
      ensures asked == Exchanges(rounds) && OfferRun(rounds, Poll(start, caller, d, identity, initial))
      ensures asked != [] ==> AllPendingAs(asked[..|asked|-1], identity)
      ensures got ==> Polled(asked, challenge, offer, identity)
      ensures !got ==>
                StopsOffering(host, LastOf(asked), challenge, deadline, Poll(start, caller, d, identity, initial))
    {
      got, offer, identity, initial, rounds := false, EMPTY, None, None, [];
      challenge := host.RandomChallenge();
      var startedAt := host.Clock();
      start, deadline := startedAt, startedAt + 30_000;
      var again, reply := true, None;
      while again
        invariant host.log == old(host.log) + Exchanges(rounds) && start == startedAt && deadline <= startedAt + 30_000
        invariant if again then
                    && OfferRounds(rounds, Poll(start, caller, d, identity, initial))
                    && AwakeAfter(start, rounds) <= host.now && DeadlineAfter(start, rounds) == deadline
                  else PollEnded(rounds, Poll(start, caller, d, identity, initial), deadline)
        invariant !again && reply.Some? && !IsPending(reply.value) ==>
                    && rounds != [] && rounds[|rounds|-1].x.request == OfferRequest(challenge)
                    && rounds[|rounds|-1].x.reply == reply
        invariant !again && !(reply.Some? && !IsPending(reply.value)) ==>
                    StopsOffering(host, if rounds == [] then None else Some(rounds[|rounds|-1].x), challenge, deadline,
                                  Poll(start, caller, d, identity, initial))
        decreases again, Max(0, startedAt + 30_000 - host.now)
      {
        ghost var before := rounds;
        again, reply, deadline, identity, initial, rounds :=
          PollOnce(host, caller, d, challenge, deadline, identity, initial, start, before);
        if again { challenge := host.RandomChallenge(); }
      }
      asked := Exchanges(rounds);
      AtMost300Offers(rounds, Poll(start, caller, d, identity, initial));
      EarlierPending(rounds, Poll(start, caller, d, identity, initial));
      if reply.Some? && !IsPending(reply.value) {
        got, offer := true, reply.value;
        ExchangesAt(rounds, |rounds| - 1);
      } else if rounds != [] {
        ExchangesAt(rounds, |rounds| - 1);
      }
    }

    /** An offer is taken exactly when the loop ends with one that is accepted. */
    method TakeOffer(host: Host, d: Descriptor, caller: Binding)
      returns (got: bool, challenge: string, offer: Reply, deadline: nat, initial: Option<Initial>,
               ghost asked: seq<Exchanged>, ghost p: Poll)
      modifies host
      ensures host.log == old(host.log) + asked && OffersTo(asked, deadline) && |asked| <= 300
      ensures OnlyOffers(asked)
      ensures got ==> TakenOffer(asked, challenge, offer, caller, d)
      ensures !got ==> RefusesOffer(host, LastOf(asked), challenge, deadline, p)
      ensures p.caller == caller && p.d == d && p.initial == initial
    {
      var identity;
      ghost var start, rounds;
      got, challenge, offer, deadline, identity, initial, asked, start, rounds := PollOffers(host, d, caller);
      p := Poll(start, caller, d, identity, initial);
      RunsAskOffers(rounds, p);
      if got {
        got := AcceptOffer(host, d, caller, challenge, offer, deadline, identity, initial);
        if got { AcceptedIsTaken(asked, challenge, offer, p); }
      }
    }

    /** The checks on one pending reply; an initial one may bring the deadline closer, and must repeat
        what an earlier one said. */
    method CheckPending(host: Host, d: Descriptor, caller: Binding, challenge: string, offer: Reply,
                        deadline: nat, initial: Option<Initial>)
      returns (valid: bool, named: Option<string>, nearer: nat, fixed: Option<Initial>)
      requires IsPending(offer)
      modifies host`now, host`bootMs
      ensures old(host.now) <= host.now && nearer <= deadline
      ensures valid <==> PendingAccepted(offer, caller, challenge, d, initial, host.bootMs)
      ensures valid ==> named.Some? && named == IdentityOf(offer)
      ensures valid && IsInitial(offer) ==> fixed == Some(InitialOf(offer))
      ensures valid && initial.Some? ==> fixed == initial && nearer == deadline
      ensures valid && !IsInitial(offer) ==> fixed == initial && nearer == deadline
    {
      valid, named, nearer, fixed := false, None, deadline, initial;
      if IsInitial(offer) {
        if !ValidInitialPending(offer, caller, challenge, d) { return; }
        fixed := Some(InitialOf(offer));
        if initial.Some? && initial != fixed { return; }
        var bootMs := host.BootUptime();
        var remaining := Min(offer.remaining.n, offer.expiresAt.n - bootMs);
        if remaining <= 0 { return; }
        if initial.None? {
          var now := host.Clock();
          nearer := Min(deadline, now + remaining);
        }
      } else if !ValidSteadyPending(offer, caller, challenge, d) {
        return;
      }
      valid, named := true, IdentityOf(offer);
    }

    /** The checks on the reply that ended the offer loop. */
    method AcceptOffer(host: Host, d: Descriptor, caller: Binding, challenge: string, offer: Reply,
                       deadline: nat, identity: Option<string>, initial: Option<Initial>) returns (ok: bool)
      modifies host`now
      ensures old(host.now) <= host.now
      ensures ok <==> OfferAccepted(offer, caller, challenge, d, identity, initial, host.now < deadline)
    {
      if !CheckResponse(offer, caller, challenge, d, OfferKind) { return false; }
      var now := host.Clock();
      if identity.Some? {
        if !EpochAgrees(offer, identity.value) || now >= deadline { return false; }
        if initial.None? && offer.mode != Word(STEADY) { return false; }
      }
      if initial.Some? && (offer.mode != Word(CUTOVER)
          || TextOf(offer.authorityId) != Some(initial.value.transactionId)
          || Exceeds(offer.expiresAt, initial.value.expiresAtBootMs)) {
        return false;
      }
      return true;
    }

    /** One-shot: a second call fails. On success the context rests on the last two exchanges. */
    method EstablishStartupAdmission(host: Host, d: Descriptor) returns (ok: bool, ghost log: seq<Exchanged>)
      modifies this, host
      ensures host.log == old(host.log) + log && |log| <= 301 && DeadlinesNeverGrow(log)
      ensures Establishes(old(Abs()), Abs(), log, d, ok)
      ensures ok ==> OneIdentity(log[..|log|-1])
      ensures ok ==> verified.Some? && ClaimedBy(verified.value, log, d)
      ensures !old(attempted) && Deserved(host, log, d) ==> ok
    {
      if attempted { return false, []; }
      attempted := true;
      var caller := host.ProcessBinding();
      var claim;
      ok, claim, log := OfferAndClaim(host, d, caller);
      if !ok { return; }
      ghost var attempting := Abs();
      Adopt(d, caller, claim);
      Established(old(Abs()), attempting, Abs(), log, d, caller, claim);
      EstablishedReads(old(Abs()), Abs(), log, d);
    }

    /** Issues the context of a verified claim. */
    method Adopt(d: Descriptor, caller: Binding, claim: Reply)
      requires claim.generationEpoch.Num? && claim.revision.Num? && claim.mode.Word?
      modifies this
      ensures Abs() == Adopted(old(Abs()), d, caller, claim)
    {
      claimed := Some(ClaimedState(d, claim, caller));
      verified := Some(Context(0, FixedOf(claim, d, caller), claim.revision.n, Claimed));
      absenceProved := true;
    }

    /** Takes an offer and consumes it. */
    method OfferAndClaim(host: Host, d: Descriptor, caller: Binding)
      returns (ok: bool, claim: Reply, ghost log: seq<Exchanged>)
      modifies host
      ensures host.log == old(host.log) + log && |log| <= 301 && DeadlinesNeverGrow(log)
      ensures ok ==> Obtained(log, claim, d, caller) && OneIdentity(log[..|log|-1])
      ensures ok ==> claim.generationEpoch.Num? && claim.revision.Num? && claim.mode.Word?
      ensures Deserved(host, log, d) ==> ok
    {
      claim := EMPTY;
      var got, challenge, offer, deadline, initial;
      ghost var p;
      got, challenge, offer, deadline, initial, log, p := TakeOffer(host, d, caller);
      if !got { return false, claim, log; }
      ghost var offers := log;
      var unrotated := host.DescriptorUnchanged();
      if !unrotated { return false, claim, log; }
      ghost var last;
      ok, claim, last := Consume(host, d, caller, challenge, offer, deadline, initial.Some?);
      log := offers + last;
      var database := host.DatabaseMatches();
      if last == [] {
        assert log == offers;
      } else {
        assert log == offers + [last[0]] && log[..|log|-1] == offers;
        LogGrows(offers, deadline, deadline, last[0]);
        if ok { ClaimObtained(offers, last[0], challenge, offer, claim, d, caller); }
        if Deserved(host, log, d) { DeservedIsTaken(host, offers, last[0], challenge, offer, d, caller); }
      }
      ok := ok && database;
    }

    /** Consumes the offer; the reply must be the claim that matches it. */
    method Consume(host: Host, d: Descriptor, caller: Binding, challenge: string, offer: Reply, deadline: nat,
                   initial: bool) returns (ok: bool, claim: Reply, ghost log: seq<Exchanged>)
      requires IsSafeInteger(offer.revision) && IsSafeInteger(offer.generationEpoch)
      modifies host
      ensures host.log == old(host.log) + log && |log| <= 1
      ensures log != [] <==> old(host.now) < deadline
      ensures log != [] ==> log[0].deadline == Some(deadline)
      ensures ok <==>
                && log != [] && ConsumedBy(log[0], challenge, offer, d, caller)
                && (initial ==> host.now < deadline) && host.process == caller
      ensures ok ==> log[0].reply == Some(claim)
    {
      ok, claim, log := false, EMPTY, [];
      ghost var open := host.now < deadline;
      var reply := host.Exchange(ConsumeRequest(challenge, offer.offerId, offer.offerNonce,
          offer.revision.n, offer.generationEpoch.n), Some(deadline));
      if open { log := [host.log[|host.log|-1]]; }
      if reply.None? { return; }
      claim := reply.value;
      if !CheckResponse(claim, caller, challenge, d, ClaimKind) { return; }
      var now := host.Clock();
      if initial && now >= deadline { return; }
      if !ClaimMatchesOffer(claim, offer, d) { return; }
      var current := host.ProcessBinding();
      ok := current == caller;
    }

    /** Why a phase request is not sent: no claim, another process, a rotated descriptor, or too late. */
    ghost predicate NotAsked(host: Host, deadline: Option<nat>, at: nat)
      reads this, host
    {
      || claimed.None? || verified.None? || host.process != claimed.value.caller || !host.unrotated
      || !IsSafeInteger(claimed.value.claim.generationEpoch)
      || (deadline.Some? && deadline.value <= at)
    }

    /** `asked` is the exchange, if the request went out. */
    method ExchangeStartupPhase(host: Host, kind: Kind, deadline: Option<nat>)
      returns (r: PhaseOutcome, ghost asked: Option<Exchanged>)
      requires kind.SecurityKind? || kind.ServingKind?
      modifies host
      ensures old(host.now) <= host.now
      ensures host.log == old(host.log) + (if asked.Some? then [asked.value] else [])
      ensures asked.None? ==> r.Failed? && NotAsked(host, deadline, old(host.now))
      ensures asked.Some? ==>
                verified.Some? && claimed.Some? && PhaseSent(asked.value, kind, deadline, old(host.now))
      ensures r.Busy? <==>
                && kind.ServingKind? && asked.Some? && BusyBy(asked.value, claimed.value)
                && host.process == claimed.value.caller
      ensures r.Accepted? <==>
                && asked.Some? && GrantedBy(asked.value, claimed.value, kind, verified.value.revision)
                && host.process == claimed.value.caller
      ensures r.Accepted? ==> asked.value.reply == Some(r.reply)
    {
      if claimed.None? || verified.None? { return Failed, None; }
      var c := claimed.value;
      var before := host.ProcessBinding();
      var unrotated := host.DescriptorUnchanged();
      if before != c.caller || !unrotated || !IsSafeInteger(c.claim.generationEpoch) { return Failed, None; }
      var challenge := host.RandomChallenge();
      ghost var at := host.now;
      var reply := host.Exchange(
        PhaseRequest(kind, challenge, c.claim.claimId, c.claim.generationEpoch.n), deadline);
      asked := if deadline.Some? && deadline.value <= at then None
               else Some(Exchanged(PhaseRequest(kind, challenge, c.claim.claimId, c.claim.generationEpoch.n), at,
                                   deadline, reply));
      if reply.None? { return Failed, asked; }
      var after := host.ProcessBinding();
      if kind.ServingKind? && reply.value.schema == Word(BUSY_SCHEMA) {
        if reply.value != BusyReply(c, challenge) || after != c.caller { return Failed, asked; }
        return Busy, asked;
      }
      if !CheckResponse(reply.value, c.caller, challenge, c.descriptor, kind)
         || !PhaseReplyBinds(reply.value, c.claim, c.descriptor, verified.value.revision) || after != c.caller {
        return Failed, asked;
      }
      return Accepted(reply.value), asked;
    }

    /** Admitted exactly when the one reply grants the phase to this very process. */
    method AdmitSecurityStartup(host: Host) returns (ok: bool, ghost log: seq<Exchanged>)
      modifies this, host
      ensures host.log == old(host.log) + log && |log| <= 1
      ensures Advances(old(Abs()), Abs(), log, SecurityKind, ok)
      ensures ok <==>
                && old(verified).Some? && old(verified).value.phase.Claimed? && log != [] && claimed.Some?
                && GrantedBy(log[0], claimed.value, SecurityKind, old(verified).value.revision)
                && host.process == claimed.value.caller
      ensures log == [] && old(verified).Some? && old(verified).value.phase.Claimed? ==> NotAsked(host, None, 0)
    {
      if verified.None? || !verified.value.phase.Claimed? { return false, []; }
      var r;
      ghost var asked;
      r, asked := ExchangeStartupPhase(host, SecurityKind, None);
      log := if asked.Some? then [asked.value] else [];
      if !r.Accepted? { return false, log; }
      verified := Some(verified.value.(serial := verified.value.serial + 1,
        revision := r.reply.revision.n, phase := SecurityAuthorized));
      return true, log;
    }

    /** What the serving loop has asked so far, about to ask again (`more`) or having ended. */
    ghost predicate Confirming(rounds: seq<Round>, start: nat, more: bool)
      reads this
    {
      rounds != [] ==>
        && verified.Some? && claimed.Some?
        && if more then ServingRounds(rounds, claimed.value, verified.value.revision, start)
           else ServingRun(rounds, claimed.value, verified.value.revision, start)
    }

    /** The reply grants serving to this very process, in time. */
    ghost predicate ServingGrantedBy(host: Host, x: Exchanged, deadline: nat)
      reads this, host
    {
      && claimed.Some? && verified.Some? && GrantedBy(x, claimed.value, ServingKind, verified.value.revision)
      && x.reply.value.decision == Word(SERVING) && host.process == claimed.value.caller && host.now < deadline
    }

    /** Why the loop does not ask again: it is too late, another process, or no reply it waits on. */
    ghost predicate StopsAsking(host: Host, asked: Option<Exchanged>, deadline: nat)
      reads this, host
    {
      || deadline <= host.now
      || (asked.None? && NotAsked(host, None, 0))
      || (asked.Some? && (claimed.None? || verified.None? || host.process != claimed.value.caller
                          || !NotYetIn(asked.value, claimed.value, verified.value.revision)))
    }

    /** One round of the serving loop: the request and, unless serving is granted, the sleep. */
    method ServeOnce(host: Host, wait: nat, deadline: nat)
      returns (again: bool, granted: Option<Reply>, ghost asked: Option<Exchanged>, ghost r: Round)
      requires 0 < wait && host.now < deadline
      modifies host
      ensures old(host.now) <= host.now
      ensures host.log == old(host.log) + (if asked.Some? then [asked.value] else [])
      ensures asked.Some? ==>
                verified.Some? && claimed.Some? && r.x == asked.value && Confirms(r, old(host.now), deadline)
      ensures granted.Some? <==> asked.Some? && ServingGrantedBy(host, asked.value, deadline)
      ensures granted.Some? ==> asked.value.reply == granted
      ensures if again then
                && asked.Some? && granted.None? && old(host.now) < host.now == r.wokeAt
                && ConfirmsAgain(r, claimed.value, verified.value.revision, wait, deadline)
              else granted.Some? || StopsAsking(host, asked, deadline)
    {
      again, granted := false, None;
      var outcome;
      outcome, asked := ExchangeStartupPhase(host, ServingKind, Some(deadline));
      r := Round(if asked.Some? then asked.value else Exchanged(OfferRequest(""), 0, None, None), 0, 0, 0, deadline);
      if outcome.Failed? { return; }
      var answeredAt := host.Clock();
      if answeredAt >= deadline { return; }
      if outcome.Accepted? && outcome.reply.decision == Word(SERVING) {
        granted := Some(outcome.reply);
        return;
      }
      var asleepAt: int := host.Clock();
      if deadline - asleepAt <= 0 { return; }
      host.Delay(Min(wait, deadline - asleepAt));
      again := true;
      r := Round(asked.value, answeredAt, asleepAt, host.now, deadline);
    }

    /** The loop ends with serving granted by the last reply, exactly when that reply grants it, or for a
        reason to stop. */
    ghost predicate PollOutcome(host: Host, granted: Option<Reply>, rounds: seq<Round>, deadline: nat)
      reads this, host
    {
      && (granted.Some? <==> rounds != [] && ServingGrantedBy(host, rounds[|rounds|-1].x, deadline))
      && (granted.Some? ==> rounds[|rounds|-1].x.reply == granted)
      && (granted.None? ==>
            || StopsAsking(host, None, deadline)
            || (rounds != [] && StopsAsking(host, Some(rounds[|rounds|-1].x), deadline)))
    }

    /** The same round as part of the run of rounds; `done` are the rounds with it. */
    method ServeRound(host: Host, wait: nat, deadline: nat, ghost start: nat, ghost rounds: seq<Round>)
      returns (again: bool, granted: Option<Reply>, ghost done: seq<Round>)
      requires Confirming(rounds, start, true) && 0 < wait == Wait(|rounds|)
      requires AwakeAfter(start, rounds) <= host.now < deadline == start + 90_000
      modifies host
      ensures GrownBy(old(host.log), host.log, rounds, done) && Confirming(done, start, again)
      ensures again ==>
                && |done| == |rounds| + 1 && granted.None?
                && old(host.now) < host.now && AwakeAfter(start, done) <= host.now
      ensures !again ==> PollOutcome(host, granted, done, deadline)
    {
      ghost var asked, r;
      again, granted, asked, r := ServeOnce(host, wait, deadline);
      done := rounds;
      if asked.Some? {
        ServingRoundAdded(rounds, r, claimed.value, verified.value.revision, start);
        done := rounds + [r];
      } else if rounds != [] {
        StillWaiting(rounds, claimed.value, verified.value.revision, start);
      }
    }

    /** Polls until serving is granted, or for a reason to stop. However it ends, what was asked is a run
        of rounds, of at most 93 requests before the 90 second deadline: all replies but the last are the
        bound busy reply or a bound pending one. */
    method PollServing(host: Host)
      returns (granted: Option<Reply>, ghost log: seq<Exchanged>, ghost start: nat, ghost rounds: seq<Round>)
      modifies host
      ensures host.log == old(host.log) + log && log == Exchanges(rounds) && |log| <= 93
      ensures Confirming(rounds, start, false)
      ensures PollOutcome(host, granted, rounds, start + 90_000)
    {
      granted, rounds := None, [];
      var startedAt := host.Clock();
      start := startedAt;
      var deadline: nat := startedAt + 90_000;
      var wait: nat := 100;
      var again := true;
      var t := host.Clock();
      while again && t < deadline
        invariant host.log == old(host.log) + Exchanges(rounds) && start == startedAt
        invariant Confirming(rounds, start, again)
        invariant again ==> 100 <= wait == Wait(|rounds|) && granted.None? && AwakeAfter(start, rounds) <= host.now == t
        invariant !again ==> PollOutcome(host, granted, rounds, deadline)
        decreases again, startedAt + 90_000 - t
      {
        NextWait(|rounds|);
        ghost var before := rounds;
        again, granted, rounds := ServeRound(host, wait, deadline, start, before);
        if again {
          wait := Min(wait * 2, 1_000);
          t := host.Clock();
        }
      }
      log := Exchanges(rounds);
      if rounds != [] { AtMost93Servings(rounds, claimed.value, verified.value.revision, start); }
    }

    /** The same loop, seen from the log of exchanges. */
    method AwaitServing(host: Host) returns (granted: Option<Reply>, ghost log: seq<Exchanged>)
      requires verified.Some?
      modifies host
      ensures host.log == old(host.log) + log && |log| <= 93
      ensures granted.Some? <==> ServingConfirmed(host, log, claimed, verified.value.revision)
      ensures granted.Some? ==> log[|log|-1].reply == granted
    {
      ghost var start, rounds;
      granted, log, start, rounds := PollServing(host);
      if rounds != [] {
        ExchangesAt(rounds, |rounds| - 1);
        ServingDeadline(rounds, claimed.value, verified.value.revision, start);
      }
    }

    /** Serving is confirmed exactly when the last reply grants it to this very process in time. */
    method ConfirmStartupServing(host: Host) returns (ok: bool, ghost log: seq<Exchanged>)
      modifies this, host
      ensures host.log == old(host.log) + log && |log| <= 93
      ensures Advances(old(Abs()), Abs(), log, ServingKind, ok)
      ensures ok <==>
                && old(verified).Some? && old(verified).value.phase.SecurityAuthorized?
                && ServingConfirmed(host, log, claimed, old(verified).value.revision)
    {
      if verified.None? || !verified.value.phase.SecurityAuthorized? { return false, []; }
      var granted;
      granted, log := AwaitServing(host);
      if granted.None? { return false, log; }
      verified := Some(verified.value.(serial := verified.value.serial + 1,
        revision := granted.value.revision.n, phase := Serving));
      ServingGranted(old(Abs()), Abs(), log);
      return true, log;
    }

    /** `token` is the identity of the new claim object. */
    method MintRecoveryClaim(host: Host, token: nat) returns (claim: Option<nat>)
      requires token !in records
      modifies this, host`process
      ensures Mints(old(Abs()), Abs(), claim, host.process)
    {
      var current := host.ProcessBinding();
      if minted || !absenceProved || verified.None? || !verified.value.phase.SecurityAuthorized? {
        return None;
      }
      if current != verified.value.fixed.process { return None; }
      records := records[token := Record(verified.value, current, false, false)];
      minted := true;
      return Some(token);
    }

    method BeginRecoveryAttempt(host: Host, claim: nat) returns (ok: bool)
      modifies this, host`process
      ensures BeginsAttempt(old(Abs()), Abs(), claim, host.process, ok)
    {
      var current := host.ProcessBinding();
      if !Current(Abs(), claim, current, false) || records[claim].attempted { return false; }
      records := records[claim := records[claim].(attempted := true)];
      return true;
    }

    method ReleaseRecoveryClaim(claim: nat) returns (ok: bool)
      modifies this
      ensures ReleasesClaim(old(Abs()), Abs(), claim, ok)
    {
      if claim !in records || records[claim].released { return false; }
      records := records[claim := records[claim].(released := true)];
      return true;
    }
  }
}
