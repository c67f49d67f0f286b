/** What the untrusted endpoint of server/bootstrap-startup-context.js may answer, and the checks on
    it. `Host.Exchange` answers with any record at all, or fails. Times are whole milliseconds of the
    monotonic clock. */
module StartupReplies {
  import opened Common
  import opened PendingIdentity

  // ---------------------------------------------------------------- replies

  /** The fixed texts of the protocol; every other text is a `Str`. */
  datatype Literal =
    | OFFER_SCHEMA | CLAIM_SCHEMA | SECURITY_SCHEMA | SERVING_SCHEMA | PENDING_SCHEMA | BUSY_SCHEMA
    | OFFERED | CLAIMED | SECURITY_AUTHORIZED | SERVING | PENDING | BUSY
    | CUTOVER | STEADY | EXISTING_STATE_POLICY | AUTO_RESTART_POLICY
    | PROCESS_NOT_ARMED | STATE_LOCK_CONTENDED

  function LiteralText(l: Literal): string {
    match l
    case OFFER_SCHEMA => "nassaj-bootstrap-admission-offer/v1"
    case CLAIM_SCHEMA => "nassaj-bootstrap-admission-claim/v1"
    case SECURITY_SCHEMA => "nassaj-startup-security-admission-response/v1"
    case SERVING_SCHEMA => "nassaj-startup-serving-confirmation-response/v1"
    case PENDING_SCHEMA => "nassaj-bootstrap-admission-pending/v1"
    case BUSY_SCHEMA => "nassaj-startup-serving-busy/v1"
    case OFFERED => "offered"
    case CLAIMED => "claimed"
    case SECURITY_AUTHORIZED => "security_startup_authorized"
    case SERVING => "serving"
    case PENDING => "pending"
    case BUSY => "busy"
    case CUTOVER => "cutover"
    case STEADY => "steady"
    case EXISTING_STATE_POLICY => "existing-security-state/v1"
    case AUTO_RESTART_POLICY => "same-generation-auto-restart/v1"
    case PROCESS_NOT_ARMED => "initial_process_not_armed"
    case STATE_LOCK_CONTENDED => "state_lock_contended"
  }

  /** A JavaScript value found in a reply. `Num` is an integer, `Fraction` any other number with its
      printed text, `Obj` an array or object with what `String` makes of it. An `Obj` is never
      strictly equal to anything read elsewhere. */
  datatype Value =
    | Undefined | Word(l: Literal) | Str(s: string) | Num(n: int) | Fraction(text: string)
    | Flag(b: bool) | Nil | Obj(text: string)

  predicate StrictEq(a: Value, b: Value) { a == b && !a.Obj? }

  /** The text of a string value. */
  function TextOf(v: Value): Option<string> {
    match v
    case Word(l) => Some(LiteralText(l))
    case Str(s) => Some(s)
    case _ => None
  }

  /** What a regular expression sees of a value that is no string: its `String`. Other values print
      as too short a text, or with a sign or a point, for the patterns used here. */
  function Coerced(v: Value): Option<string> {
    match v
    case Num(n) => if n >= 0 then Some(Decimal(n)) else None
    case Fraction(text) => Some(text)
    case Obj(text) => Some(text)
    case _ => TextOf(v)
  }

  /** A parsed reply object, field by field; `Undefined` is a missing key, and `others` holds the
      keys the protocol does not know. A reply that is no object has no fields. */
  datatype Reply = Reply(
    schema: Value, decision: Value, reason: Value, mode: Value, authorityId: Value, transactionId:
    Value, operationId: Value, revision: Value, generationEpoch: Value, challenge: Value, uid:
    Value, pid: Value, startTicks: Value, bootId: Value, nodeInstanceId: Value, generationId: Value,
    releaseIdentity: Value, startupClosure: Value, databaseContract: Value, databaseDev: Value,
    databaseIno: Value, startupPolicyId: Value, startupAdmissionPolicy: Value, initialTargetProcess:
    Value, startIntent: Value, offerId: Value, offerNonce: Value, claimId: Value, issuedAt: Value,
    expiresAt: Value, retryAfter: Value, remaining: Value, others: set<string>)

  const EMPTY := Reply(
    Undefined, Undefined, Undefined, Undefined, Undefined, Undefined, Undefined, Undefined,
    Undefined, Undefined, Undefined, Undefined, Undefined, Undefined, Undefined, Undefined,
    Undefined, Undefined, Undefined, Undefined, Undefined, Undefined, Undefined, Undefined,
    Undefined, Undefined, Undefined, Undefined, Undefined, Undefined, Undefined, Undefined, {})

  predicate Has(v: Value) { !v.Undefined? }

  predicate HexDigit(c: char) { '0' <= c <= '9' || 'a' <= c <= 'f' }

  predicate IsHex64(s: string) { |s| == 64 && forall i :: 0 <= i < 64 ==> HexDigit(s[i]) }

  predicate Hex64(v: Value) { Coerced(v).Some? && IsHex64(Coerced(v).value) }

  const MAX_SAFE := 0x1F_FFFF_FFFF_FFFF

  predicate IsSafeInteger(v: Value) { v.Num? && -MAX_SAFE <= v.n <= MAX_SAFE }

  // ---------------------------------------------------------------- what the client compares with

  datatype Binding = Binding(uid: int, pid: int, startTicks: string, bootId: string)

  /** The pinned descriptor, reduced to what replies are compared with. */
  datatype Descriptor = Descriptor(
    nodeInstanceId: string, generationId: string, releaseIdentitySha256: string,
    startupClosureSha256: string, databaseContractSha256: string, databaseRealpath: string,
    databaseDev: string, databaseIno: string, serverBuildId: string)

  /** The reply repeats the request's binding and challenge, and the release it was sent for. */
  predicate Echoes(r: Reply, b: Binding, challenge: string, d: Descriptor) {
    && r.uid == Num(b.uid) && r.pid == Num(b.pid)
    && r.startTicks == Str(b.startTicks) && r.bootId == Str(b.bootId)
    && r.challenge == Str(challenge)
    && r.releaseIdentity == Str(d.releaseIdentitySha256)
    && r.startupClosure == Str(d.startupClosureSha256)
  }

  datatype Kind = OfferKind | ClaimKind | SecurityKind | ServingKind

  /** The reply has exactly the keys of its kind. */
  predicate HasResponseKeys(r: Reply, kind: Kind) {
    var cutover := r.mode == Word(CUTOVER);
    && Has(r.schema) && Has(r.decision) && Has(r.mode) && Has(r.authorityId) && Has(r.revision)
    && Has(r.generationEpoch) && Has(r.challenge) && Has(r.uid) && Has(r.pid) && Has(r.startTicks)
    && Has(r.bootId) && Has(r.nodeInstanceId) && Has(r.generationId) && Has(r.releaseIdentity)
    && Has(r.startupClosure) && Has(r.databaseContract) && Has(r.databaseDev) && Has(r.databaseIno)
    && Has(r.startupPolicyId) && Has(r.startupAdmissionPolicy)
    && Has(r.initialTargetProcess) == cutover && Has(r.startIntent) == cutover
    && Has(r.offerId) == Has(r.offerNonce) == Has(r.expiresAt) == kind.OfferKind?
    && Has(r.claimId) == !kind.OfferKind?
    && !Has(r.reason) && !Has(r.transactionId) && !Has(r.operationId) && !Has(r.issuedAt)
    && !Has(r.retryAfter) && !Has(r.remaining) && r.others == {}
  }

  /** The reply has exactly the keys of a pending one, initial or of an operation. */
  predicate HasPendingKeys(r: Reply, initial: bool) {
    && Has(r.schema) && Has(r.decision) && Has(r.generationEpoch) && Has(r.challenge) && Has(r.uid)
    && Has(r.pid) && Has(r.startTicks) && Has(r.bootId) && Has(r.releaseIdentity) && Has(r.startupClosure)
    && Has(r.reason) == Has(r.authorityId) == Has(r.transactionId) == Has(r.issuedAt) == initial
    && Has(r.expiresAt) == Has(r.retryAfter) == Has(r.remaining) == initial
    && Has(r.operationId) == !initial
    && !Has(r.mode) && !Has(r.revision) && !Has(r.nodeInstanceId) && !Has(r.generationId)
    && !Has(r.databaseContract) && !Has(r.databaseDev) && !Has(r.databaseIno) && !Has(r.startupPolicyId)
    && !Has(r.startupAdmissionPolicy) && !Has(r.initialTargetProcess) && !Has(r.startIntent)
    && !Has(r.offerId) && !Has(r.offerNonce) && !Has(r.claimId) && r.others == {}
  }

  function SchemaOf(kind: Kind): Literal {
    match kind
    case OfferKind => OFFER_SCHEMA
    case ClaimKind => CLAIM_SCHEMA
    case SecurityKind => SECURITY_SCHEMA
    case ServingKind => SERVING_SCHEMA
  }

  predicate DecisionOf(kind: Kind, v: Value) {
    match kind
    case OfferKind => v == Word(OFFERED)
    case ClaimKind => v == Word(CLAIMED)
    case SecurityKind => v == Word(SECURITY_AUTHORIZED)
    case ServingKind => v == Word(SERVING) || v == Word(PENDING)
  }

  /** `checkResponse` does not throw. */
  predicate CheckResponse(r: Reply, b: Binding, challenge: string, d: Descriptor, kind: Kind) {
    && HasResponseKeys(r, kind)
    && r.schema == Word(SchemaOf(kind))
    && DecisionOf(kind, r.decision)
    && (r.mode == Word(CUTOVER) || r.mode == Word(STEADY))
    && (r.mode == Word(CUTOVER) ==> Hex64(r.initialTargetProcess) && Hex64(r.startIntent))
    && r.startupPolicyId == Word(EXISTING_STATE_POLICY)
    && r.startupAdmissionPolicy == Word(AUTO_RESTART_POLICY)
    && IsSafeInteger(r.revision) && IsSafeInteger(r.generationEpoch)
    && Echoes(r, b, challenge, d)
  }

  predicate IsPending(r: Reply) { r.schema == Word(PENDING_SCHEMA) }
  predicate IsInitial(r: Reply) { r.reason == Word(PROCESS_NOT_ARMED) }

  /** The part of an initial pending reply that later ones must repeat. */
  datatype Initial = Initial(transactionId: string, epoch: nat, issuedAtBootMs: int, expiresAtBootMs: int)

  predicate ValidInitialPending(r: Reply, b: Binding, challenge: string, d: Descriptor) {
    && HasPendingKeys(r, true)
    && r.decision == Word(PENDING) && IsPending(r) && IsInitial(r)
    && TextOf(r.transactionId).Some? && 1 <= |TextOf(r.transactionId).value| <= 128
    && StrictEq(r.authorityId, r.transactionId)
    && IsSafeInteger(r.generationEpoch) && r.generationEpoch.n >= 1
    && IsSafeInteger(r.issuedAt) && r.issuedAt.n >= 0
    && IsSafeInteger(r.expiresAt) && r.expiresAt.n - r.issuedAt.n == 30_000
    && r.retryAfter == Num(100)
    && IsSafeInteger(r.remaining) && 0 < r.remaining.n <= 30_000
    && Echoes(r, b, challenge, d)
  }

  function InitialOf(r: Reply): Initial
    requires TextOf(r.transactionId).Some? && r.generationEpoch.Num? && r.generationEpoch.n >= 0
    requires r.issuedAt.Num? && r.expiresAt.Num?
  {
    Initial(TextOf(r.transactionId).value, r.generationEpoch.n, r.issuedAt.n, r.expiresAt.n)
  }

  predicate ValidSteadyPending(r: Reply, b: Binding, challenge: string, d: Descriptor) {
    && HasPendingKeys(r, false)
    && r.decision == Word(PENDING) && IsPending(r) && !IsInitial(r)
    && Coerced(r.operationId).Some? && IsOperationId(Coerced(r.operationId).value)
    && IsSafeInteger(r.generationEpoch) && r.generationEpoch.n >= 1
    && Echoes(r, b, challenge, d)
  }

  /** A pending reply that is well-formed and echoes the request it answers. */
  predicate ValidPending(r: Reply, b: Binding, challenge: string, d: Descriptor) {
    if IsInitial(r) then ValidInitialPending(r, b, challenge, d) else ValidSteadyPending(r, b, challenge, d)
  }

  /** The identity text of a pending reply; None when it has none. */
  function IdentityOf(r: Reply): Option<string> {
    if !r.generationEpoch.Num? || r.generationEpoch.n < 0 then None
    else if IsInitial(r) then
      if TextOf(r.transactionId).Some?
      then Some(InitialIdentity(TextOf(r.transactionId).value, r.generationEpoch.n)) else None
    else if Coerced(r.operationId).Some?
    then Some(OperationIdentity(Coerced(r.operationId).value, r.generationEpoch.n)) else None
  }

  /** `value > n` for a reply value. */
  predicate Exceeds(v: Value, n: int) {
    (v.Num? && v.n > n) || (v.Str? && ReadNumber(v.s).Some? && ReadNumber(v.s).value > n)
  }

  // ---------------------------------------------------------------- the host

  datatype Request =
    | OfferRequest(challenge: string)
    | ConsumeRequest(challenge: string, offerId: Value, offerNonce: Value, expectedRevision: int, epoch: int)
    | PhaseRequest(kind: Kind, challenge: string, claimId: Value, epoch: int)

  datatype Exchanged = Exchanged(request: Request, sentAt: nat, deadline: Option<nat>, reply: Option<Reply>)

  /** The process's environment. Every answer is arbitrary, and the fields hold the latest one; the
      clock never runs backwards. */
  class Host {
    var now: nat
    var log: seq<Exchanged>
    var process: Binding
    var unrotated: bool
    var database: bool
    var bootMs: int

    constructor ()
      ensures log == []
    {
      log, now, bootMs := [], 0, 0;
      process, unrotated, database := Binding(0, 0, "", ""), false, false;
    }

    method Clock() returns (t: nat)
      modifies this`now
      ensures old(now) <= t == now
    {
      var passed: nat :| 0 <= passed;
      now := now + passed;
      t := now;
    }

    /** `exchange`: None when it throws. With a deadline already passed nothing is sent. */
    method Exchange(request: Request, deadline: Option<nat>) returns (reply: Option<Reply>)
      modifies this`now, this`log
      ensures old(now) <= now
      ensures if deadline.Some? && deadline.value <= old(now) then reply.None? && log == old(log)
              else log == old(log) + [Exchanged(request, old(now), deadline, reply)]
    {
      if deadline.Some? && deadline.value <= now { return None; }
      var answered: bool := *;
      var any: Reply := *;
      var passed: nat :| 0 <= passed;
      reply := if answered then Some(any) else None;
      log := log + [Exchanged(request, now, deadline, reply)];
      now := now + passed;
    }

    /** A sleep lasts at least what was asked. */
    method Delay(ms: nat)
      modifies this`now
      ensures old(now) + ms <= now
    {
      var over: nat :| 0 <= over;
      now := now + ms + over;
    }

    method RandomChallenge() returns (s: string) { s := *; }

    method ProcessBinding() returns (b: Binding)
      modifies this`process
      ensures b == process
    {
      process := *;
      b := process;
    }

    method BootUptime() returns (ms: int)
      modifies this`bootMs
      ensures ms == bootMs
    {
      bootMs := *;
      ms := bootMs;
    }

    method DescriptorUnchanged() returns (same: bool)
      modifies this`unrotated
      ensures same == unrotated
    {
      unrotated := *;
      same := unrotated;
    }

    method DatabaseMatches() returns (same: bool)
      modifies this`database
      ensures same == database
    {
      database := *;
      same := database;
    }
  }

  // ---------------------------------------------------------------- phase replies

  datatype ClaimedState = ClaimedState(descriptor: Descriptor, claim: Reply, caller: Binding)

  /** A phase reply bound to the claim, as `exchangeStartupPhase` checks it. */
  predicate PhaseReplyBinds(r: Reply, claim: Reply, d: Descriptor, revision: int) {
    && (claim.mode == Word(CUTOVER) ==>
          && StrictEq(r.initialTargetProcess, claim.initialTargetProcess)
          && StrictEq(r.startIntent, claim.startIntent))
    && StrictEq(r.claimId, claim.claimId)
    && StrictEq(r.authorityId, claim.authorityId)
    && StrictEq(r.mode, claim.mode)
    && StrictEq(r.generationEpoch, claim.generationEpoch)
    && r.revision.Num? && r.revision.n >= revision
    && r.nodeInstanceId == Str(d.nodeInstanceId)
    && r.generationId == Str(d.generationId)
    && r.databaseContract == Str(d.databaseContractSha256)
    && r.databaseDev == Str(d.databaseDev)
    && r.databaseIno == Str(d.databaseIno)
  }

  /** The one busy reply accepted for a serving request. */
  function BusyReply(c: ClaimedState, challenge: string): Reply {
    EMPTY.(schema := Word(BUSY_SCHEMA), decision := Word(BUSY), reason := Word(STATE_LOCK_CONTENDED),
           retryAfter := Num(100), pid := Num(c.caller.pid), startTicks := Str(c.caller.startTicks),
           bootId := Str(c.caller.bootId), challenge := Str(challenge), claimId := c.claim.claimId,
           generationEpoch := c.claim.generationEpoch, releaseIdentity := c.claim.releaseIdentity,
           startupClosure := c.claim.startupClosure, databaseContract := c.claim.databaseContract)
  }

  /** The exchange by which a phase was granted: its reply echoes that request's own challenge. */
  ghost predicate GrantedBy(x: Exchanged, c: ClaimedState, kind: Kind, revision: int) {
    && x.request.PhaseRequest? && x.request.kind == kind && x.reply.Some?
    && x.request.claimId == c.claim.claimId
    && CheckResponse(x.reply.value, c.caller, x.request.challenge, c.descriptor, kind)
    && PhaseReplyBinds(x.reply.value, c.claim, c.descriptor, revision)
  }

  /** A phase request that went out before its deadline, if it has one. */
  predicate PhaseSent(x: Exchanged, kind: Kind, deadline: Option<nat>, at: nat) {
    && x.request.PhaseRequest? && x.request.kind == kind && x.deadline == deadline && x.sentAt == at
    && (deadline.Some? ==> x.sentAt < deadline.value)
  }

  /** A serving request whose reply is the one busy reply bound to it. */
  ghost predicate BusyBy(x: Exchanged, c: ClaimedState) {
    x.request.PhaseRequest? && x.request.kind.ServingKind? && x.reply == Some(BusyReply(c, x.request.challenge))
  }

  // ---------------------------------------------------------------- logs of exchanges

  /** The offer's epoch is the number read back from the pending identity. */
  predicate EpochAgrees(offer: Reply, identity: string) {
    var read := ReadNumber(LastSegment(identity));
    read.Some? && offer.generationEpoch == Num(read.value)
  }

  lemma EpochOfIdentity(r: Reply)
    requires IdentityOf(r).Some?
    ensures r.generationEpoch.Num? && r.generationEpoch.n >= 0
    ensures ReadNumber(LastSegment(IdentityOf(r).value)) == Some(r.generationEpoch.n)
  {
    if IsInitial(r) {
      EpochReadsBack(TextOf(r.transactionId).value, r.generationEpoch.n);
    } else {
      EpochReadsBack(Coerced(r.operationId).value, r.generationEpoch.n);
    }
  }

  ghost predicate AllPendingAs(log: seq<Exchanged>, identity: Option<string>) {
    forall i :: 0 <= i < |log| ==>
      && log[i].reply.Some? && IsPending(log[i].reply.value)
      && identity.Some? && IdentityOf(log[i].reply.value) == identity
  }

  ghost predicate OneIdentity(log: seq<Exchanged>) {
    forall i, j :: 0 <= i < |log| && 0 <= j < |log| && log[i].reply.Some? && log[j].reply.Some?
      && IsPending(log[i].reply.value) && IsPending(log[j].reply.value)
      ==> IdentityOf(log[i].reply.value).Some? && IdentityOf(log[i].reply.value) == IdentityOf(log[j].reply.value)
  }

  ghost predicate DeadlinesNeverGrow(log: seq<Exchanged>) {
    forall i, j :: 0 <= i < j < |log| && log[i].deadline.Some? && log[j].deadline.Some? ==>
      log[j].deadline.value <= log[i].deadline.value
  }

  /** A stretch of exchanges under deadlines that never grow and end no earlier than `deadline`. */
  ghost predicate OffersTo(log: seq<Exchanged>, deadline: nat) {
    && DeadlinesNeverGrow(log)
    && forall i :: 0 <= i < |log| ==> log[i].deadline.Some? && deadline <= log[i].deadline.value
  }

  /** The last exchange brought `offer`, no pending reply; all before it named `identity`. */
  ghost predicate Polled(log: seq<Exchanged>, challenge: string, offer: Reply, identity: Option<string>) {
    && log != [] && log[|log|-1].request == OfferRequest(challenge) && log[|log|-1].reply == Some(offer)
    && !IsPending(offer) && AllPendingAs(log[..|log|-1], identity)
  }

  lemma EarlierNamesEpoch(log: seq<Exchanged>, challenge: string, offer: Reply, identity: Option<string>, i: nat)
    requires Polled(log, challenge, offer, identity) && (identity.Some? ==> EpochAgrees(offer, identity.value))
    requires i < |log| - 1
    ensures log[i].reply.Some? && IsPending(log[i].reply.value)
    ensures identity.Some? && IdentityOf(log[i].reply.value) == identity
    ensures log[i].reply.value.generationEpoch == offer.generationEpoch
  {
    assert log[..|log|-1][i] == log[i];
    PendingNamesEpoch(log[i].reply.value, offer);
  }

  lemma {:induction false} TakenFromPending(log: seq<Exchanged>, challenge: string, offer: Reply, caller: Binding,
                                            d: Descriptor, identity: Option<string>)
    requires Polled(log, challenge, offer, identity)
    requires CheckResponse(offer, caller, challenge, d, OfferKind)
    requires identity.Some? ==> EpochAgrees(offer, identity.value)
    ensures TakenOffer(log, challenge, offer, caller, d)
  {
    forall i: nat | i < |log| - 1
      ensures log[i].reply.Some? && IsPending(log[i].reply.value) && IdentityOf(log[i].reply.value) == identity
      ensures identity.Some? && log[i].reply.value.generationEpoch == offer.generationEpoch
    {
      EarlierNamesEpoch(log, challenge, offer, identity, i);
    }
  }

  lemma PendingNamesEpoch(r: Reply, offer: Reply)
    requires IdentityOf(r).Some? && EpochAgrees(offer, IdentityOf(r).value)
    ensures r.generationEpoch == offer.generationEpoch
  {
    EpochOfIdentity(r);
  }

  /** The last exchange is the offer, answering its own challenge; every earlier reply is pending,
      all name one identity, and the offer has the epoch that identity names. */
  ghost predicate TakenOffer(log: seq<Exchanged>, challenge: string, offer: Reply, caller: Binding, d: Descriptor) {
    && log != [] && log[|log|-1].request == OfferRequest(challenge) && log[|log|-1].reply == Some(offer)
    && CheckResponse(offer, caller, challenge, d, OfferKind)
    && OneIdentity(log)
    && forall i :: 0 <= i < |log| - 1 ==>
         && log[i].reply.Some? && IsPending(log[i].reply.value)
         && log[i].reply.value.generationEpoch == offer.generationEpoch
  }
}
