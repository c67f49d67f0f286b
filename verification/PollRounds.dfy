/** The two polling loops of server/bootstrap-startup-context.js as rounds: one request, the checks on
    its reply, and a sleep. Every run of a loop is a sequence of rounds, and the number of rounds is
    bounded; the bounds are attained. */
module PollRounds {
  import opened Common
  import opened PendingIdentity
  import opened StartupReplies

  /** One exchange and the clock readings after it: when its reply was checked, when the sleep began
      and when it ended. `deadline` is the one in force after the reply. */
  datatype Round = Round(x: Exchanged, checkedAt: nat, asleepAt: nat, wokeAt: nat, deadline: nat)

  /** What rounds leave in the log of exchanges. */
  ghost function Exchanges(rounds: seq<Round>): (log: seq<Exchanged>)
    ensures |log| == |rounds|
  {
    if rounds == [] then [] else Exchanges(rounds[..|rounds|-1]) + [rounds[|rounds|-1].x]
  }

  lemma ExchangesGrow(init: seq<Round>, r: Round)
    ensures Exchanges(init + [r]) == Exchanges(init) + [r.x]
  {
    assert (init + [r])[..|init|] == init;
  }

  /** One iteration adds at most one round, with the one exchange that went out. */
  ghost predicate GrownBy(was: seq<Exchanged>, now: seq<Exchanged>, rounds: seq<Round>, done: seq<Round>) {
    (done == rounds && now == was)
    || (done != [] && done[..|done|-1] == rounds && now == was + [done[|done|-1].x])
  }

  lemma {:induction false} ExchangesAt(rounds: seq<Round>, k: nat)
    requires k < |rounds|
    ensures Exchanges(rounds)[k] == rounds[k].x
    decreases |rounds|
  {
    if k < |rounds| - 1 { ExchangesAt(rounds[..|rounds|-1], k); }
  }

  // ---------------------------------------------------------------- the offer loop

  /** What one establishment polls with, and what its pending replies have named so far. */
  datatype Poll = Poll(start: nat, caller: Binding, d: Descriptor, identity: Option<string>, initial: Option<Initial>)

  /** When the next request may go out at the earliest. */
  function AwakeAfter(start: nat, rounds: seq<Round>): nat { if rounds == [] then start else rounds[|rounds|-1].wokeAt }

  /** The deadline the next request goes out under. */
  function DeadlineAfter(start: nat, rounds: seq<Round>): nat {
    if rounds == [] then start + 30_000 else rounds[|rounds|-1].deadline
  }

  ghost predicate Asks(r: Round, from: nat, deadline: nat) {
    r.x.request.OfferRequest? && r.x.deadline == Some(deadline) && from <= r.x.sentAt < deadline
  }

  /** The reply is pending, valid for its own request, and names the one identity. */
  ghost predicate PendingIn(x: Exchanged, p: Poll) {
    && x.request.OfferRequest? && x.reply.Some? && IsPending(x.reply.value)
    && ValidPending(x.reply.value, p.caller, x.request.challenge, p.d)
    && p.identity.Some? && IdentityOf(x.reply.value) == p.identity
    && (IsInitial(x.reply.value) ==> p.initial == Some(InitialOf(x.reply.value)))
  }

  /** Only an initial reply moves the deadline, and only closer; the sleep is 100 ms, cut short by the
      deadline. */
  predicate OfferPause(r: Round, deadline: nat, moves: bool) {
    && (if moves then r.deadline <= deadline else r.deadline == deadline)
    && r.x.sentAt <= r.checkedAt < r.deadline && r.checkedAt <= r.asleepAt
    && r.asleepAt + Max(1, Min(100, r.deadline - r.asleepAt)) <= r.wokeAt
  }

  ghost predicate AsksAgain(r: Round, p: Poll, deadline: nat) {
    PendingIn(r.x, p) && OfferPause(r, deadline, IsInitial(r.x.reply.value))
  }

  /** Rounds of the loop, each of which asks and then asks again. */
  ghost predicate OfferRounds(rounds: seq<Round>, p: Poll) {
    rounds == []
    || (var init, last := rounds[..|rounds|-1], rounds[|rounds|-1];
        && OfferRounds(init, p)
        && Asks(last, AwakeAfter(p.start, init), DeadlineAfter(p.start, init))
        && AsksAgain(last, p, DeadlineAfter(p.start, init)))
  }

  /** A run of the loop: such rounds, and possibly one more request. */
  ghost predicate OfferRun(rounds: seq<Round>, p: Poll) {
    OfferRounds(rounds, p)
    || (var init := rounds[..|rounds|-1];
        && OfferRounds(init, p)
        && Asks(rounds[|rounds|-1], AwakeAfter(p.start, init), DeadlineAfter(p.start, init)))
  }

  lemma OfferRoundAdded(init: seq<Round>, r: Round, p: Poll)
    requires OfferRounds(init, p) && Asks(r, AwakeAfter(p.start, init), DeadlineAfter(p.start, init))
    ensures OfferRun(init + [r], p)
    ensures AsksAgain(r, p, DeadlineAfter(p.start, init)) ==> OfferRounds(init + [r], p)
  {
    assert (init + [r])[..|init|] == init;
  }

  lemma {:induction false} OffersArePaced(rounds: seq<Round>, p: Poll)
    requires OfferRounds(rounds, p)
    ensures DeadlineAfter(p.start, rounds) <= p.start + 30_000
    ensures p.start + 100 * |rounds| <= AwakeAfter(p.start, rounds)
         || DeadlineAfter(p.start, rounds) <= AwakeAfter(p.start, rounds)
    decreases |rounds|
  {
    if rounds != [] { OffersArePaced(rounds[..|rounds|-1], p); }
  }

  /** No run of the offer loop sends more than 300 requests. */
  lemma AtMost300Offers(rounds: seq<Round>, p: Poll)
    requires OfferRun(rounds, p)
    ensures |rounds| <= 300
  {
    if rounds != [] { OffersArePaced(rounds[..|rounds|-1], p); }
  }

  ghost predicate OnlyOffers(log: seq<Exchanged>) { forall i :: 0 <= i < |log| ==> log[i].request.OfferRequest? }

  lemma {:induction false} RunsAskOffers(rounds: seq<Round>, p: Poll)
    requires OfferRun(rounds, p)
    ensures OnlyOffers(Exchanges(rounds))
    decreases |rounds|
  {
    if rounds != [] {
      var init := rounds[..|rounds|-1];
      assert OfferRounds(init, p);
      RunsAskOffers(init, p);
    }
  }

  /** Every reply of a run but the last is pending, valid for its own request, and of one identity. */
  lemma {:induction false} EarlierReplies(rounds: seq<Round>, p: Poll, k: nat)
    requires OfferRun(rounds, p) && k < |rounds| - 1
    ensures PendingIn(rounds[k].x, p)
    decreases |rounds|
  {
    var init := rounds[..|rounds|-1];
    assert rounds[k] == init[k];
    assert OfferRounds(init, p);
    if k < |init| - 1 {
      EarlierReplies(init, p, k);
    } else {
      var last := init[|init|-1];
      assert rounds[k] == last && AsksAgain(last, p, DeadlineAfter(p.start, init[..|init|-1]));
    }
  }

  /** Naming an identity, or an initial reply, for the first time leaves the earlier rounds valid. */
  lemma {:induction false} OfferRoundsKept(rounds: seq<Round>, p: Poll, q: Poll)
    requires OfferRounds(rounds, p) && Refines(q, p)
    ensures OfferRounds(rounds, q)
    decreases |rounds|
  {
    if rounds != [] { OfferRoundsKept(rounds[..|rounds|-1], p, q); }
  }

  /** The pending reply of an operation, valid for the request with this challenge. */
  function OperationPending(b: Binding, challenge: string, d: Descriptor, operationId: string, epoch: nat): (r: Reply)
    requires IsOperationId(operationId) && 1 <= epoch <= MAX_SAFE
    ensures IsPending(r) && !IsInitial(r) && ValidPending(r, b, challenge, d)
    ensures IdentityOf(r) == Some(OperationIdentity(operationId, epoch))
  {
    EMPTY.(schema := Word(PENDING_SCHEMA), decision := Word(PENDING), operationId := Str(operationId),
           generationEpoch := Num(epoch), uid := Num(b.uid), pid := Num(b.pid),
           startTicks := Str(b.startTicks), bootId := Str(b.bootId), challenge := Str(challenge),
           releaseIdentity := Str(d.releaseIdentitySha256), startupClosure := Str(d.startupClosureSha256))
  }

  function OfferRoundAt(p: Poll, challenge: string, operationId: string, epoch: nat, at: nat): Round
    requires IsOperationId(operationId) && 1 <= epoch <= MAX_SAFE
  {
    var reply := OperationPending(p.caller, challenge, p.d, operationId, epoch);
    var x := Exchanged(OfferRequest(challenge), at, Some(p.start + 30_000), Some(reply));
    Round(x, at, at, at + 100, p.start + 30_000)
  }

  lemma EarlierNamed(rounds: seq<Round>, p: Poll, k: nat)
    requires OfferRun(rounds, p) && k < |rounds| - 1
    ensures var x := Exchanges(rounds)[k];
            x.reply.Some? && IsPending(x.reply.value) && p.identity.Some? && IdentityOf(x.reply.value) == p.identity
  {
    ExchangesAt(rounds, k);
    EarlierReplies(rounds, p, k);
  }

  lemma EarlierPending(rounds: seq<Round>, p: Poll)
    requires OfferRun(rounds, p)
    ensures rounds != [] ==> AllPendingAs(Exchanges(rounds)[..|rounds|-1], p.identity)
  {
    var log := Exchanges(rounds);
    forall k: nat | k < |rounds| - 1
      ensures log[k].reply.Some? && IsPending(log[k].reply.value)
           && p.identity.Some? && IdentityOf(log[k].reply.value) == p.identity
    {
      EarlierNamed(rounds, p, k);
    }
  }

  /** What was named first stays named. */
  predicate Refines(q: Poll, p: Poll) {
    && p.start == q.start && p.caller == q.caller && p.d == q.d
    && (p.identity.Some? ==> q.identity == p.identity) && (p.initial.Some? ==> q.initial == p.initial)
  }

  lemma LogGrows(log: seq<Exchanged>, deadline: nat, nearer: nat, x: Exchanged)
    requires OffersTo(log, deadline) && x.deadline == Some(deadline) && nearer <= deadline
    ensures OffersTo(log + [x], nearer)
  {
  }

  /** The deadlines of a run never grow. */
  lemma {:induction false} OffersKeepDeadlines(rounds: seq<Round>, p: Poll)
    requires OfferRounds(rounds, p)
    ensures OffersTo(Exchanges(rounds), DeadlineAfter(p.start, rounds))
    decreases |rounds|
  {
    if rounds != [] {
      var init, last := rounds[..|rounds|-1], rounds[|rounds|-1];
      OffersKeepDeadlines(init, p);
      LogGrows(Exchanges(init), DeadlineAfter(p.start, init), last.deadline, last.x);
    }
  }

  /** A loop that has ended, the deadline being `deadline`. */
  ghost predicate PollEnded(rounds: seq<Round>, p: Poll, deadline: nat) {
    OfferRun(rounds, p) && OffersTo(Exchanges(rounds), deadline)
  }

  lemma NothingAsked(rounds: seq<Round>, p: Poll)
    requires OfferRounds(rounds, p)
    ensures PollEnded(rounds, p, DeadlineAfter(p.start, rounds))
  {
    OffersKeepDeadlines(rounds, p);
  }

  /** Any last exchange of a loop, whatever its reply. */
  lemma LastAsked(rounds: seq<Round>, p: Poll, r: Round)
    requires OfferRounds(rounds, p) && Asks(r, AwakeAfter(p.start, rounds), DeadlineAfter(p.start, rounds))
    ensures PollEnded(rounds + [r], p, DeadlineAfter(p.start, rounds))
  {
    OfferRoundAdded(rounds, r, p);
    OffersKeepDeadlines(rounds, p);
    ExchangesGrow(rounds, r);
    LogGrows(Exchanges(rounds), DeadlineAfter(p.start, rounds), DeadlineAfter(p.start, rounds), r.x);
  }

  /** An exchange after which the loop asks again. */
  lemma {:induction false} AskedAgain(rounds: seq<Round>, p: Poll, q: Poll, r: Round)
    requires OfferRounds(rounds, p) && Refines(q, p)
    requires Asks(r, AwakeAfter(p.start, rounds), DeadlineAfter(p.start, rounds))
    requires AsksAgain(r, q, DeadlineAfter(p.start, rounds))
    ensures OfferRounds(rounds + [r], q)
  {
    OfferRoundsKept(rounds, p, q);
    OfferRoundAdded(rounds, r, q);
  }

  lemma OfferRoundOk(p: Poll, challenge: string, operationId: string, epoch: nat, k: nat)
    requires IsOperationId(operationId) && 1 <= epoch <= MAX_SAFE && k < 300
    requires p.identity == Some(OperationIdentity(operationId, epoch))
    ensures var r := OfferRoundAt(p, challenge, operationId, epoch, p.start + 100 * k);
            && Asks(r, p.start + 100 * k, p.start + 30_000)
            && (k < 299 ==> AsksAgain(r, p, p.start + 30_000))
  {
  }

  /** Request `k` went out `100 * k` ms after the start, with the `k`th challenge. */
  predicate OffersOnTime(rounds: seq<Round>, challenges: seq<string>, start: nat)
    requires |rounds| <= |challenges|
  {
    forall k :: 0 <= k < |rounds| ==>
      rounds[k].x.request == OfferRequest(challenges[k]) && rounds[k].x.sentAt == start + 100 * k
  }

  lemma {:induction false} OffersAtOnce(p: Poll, operationId: string, epoch: nat, challenges: seq<string>, n: nat)
      returns (rounds: seq<Round>)
    requires IsOperationId(operationId) && 1 <= epoch <= MAX_SAFE && n <= |challenges| && n < 300
    requires p.identity == Some(OperationIdentity(operationId, epoch))
    ensures |rounds| == n && OfferRounds(rounds, p) && OffersOnTime(rounds, challenges, p.start)
    ensures AwakeAfter(p.start, rounds) == p.start + 100 * n && DeadlineAfter(p.start, rounds) == p.start + 30_000
    decreases n
  {
    if n == 0 { return []; }
    var init := OffersAtOnce(p, operationId, epoch, challenges, n - 1);
    rounds := OneMoreOffer(p, operationId, epoch, challenges, n - 1, init);
  }

  lemma {:induction false} OneMoreOffer(p: Poll, operationId: string, epoch: nat, challenges: seq<string>, n: nat,
                                        init: seq<Round>)
      returns (rounds: seq<Round>)
    requires IsOperationId(operationId) && 1 <= epoch <= MAX_SAFE && n < |challenges| && n < 300
    requires p.identity == Some(OperationIdentity(operationId, epoch))
    requires |init| == n && OfferRounds(init, p) && OffersOnTime(init, challenges, p.start)
    requires AwakeAfter(p.start, init) == p.start + 100 * n && DeadlineAfter(p.start, init) == p.start + 30_000
    ensures |rounds| == n + 1 && OfferRun(rounds, p) && OffersOnTime(rounds, challenges, p.start)
    ensures n < 299 ==> OfferRounds(rounds, p)
    ensures AwakeAfter(p.start, rounds) == p.start + 100 * (n + 1) && DeadlineAfter(p.start, rounds) == p.start + 30_000
  {
    var r := OfferRoundAt(p, challenges[n], operationId, epoch, p.start + 100 * n);
    OfferRoundOk(p, challenges[n], operationId, epoch, n);
    OfferRoundAdded(init, r, p);
    rounds := init + [r];
  }

  /** The bound is attained: an endpoint that answers at once that the same operation is pending is
      asked exactly 300 times, at 0, 100, .. 29900 ms, whatever the challenges drawn. */
  lemma Exactly300Offers(start: nat, caller: Binding, d: Descriptor, operationId: string, epoch: nat,
                         challenges: seq<string>) returns (rounds: seq<Round>, p: Poll)
    requires IsOperationId(operationId) && 1 <= epoch <= MAX_SAFE && |challenges| == 300
    ensures p.start == start && p.caller == caller && p.d == d && |rounds| == 300
    ensures OfferRun(rounds, p) && OffersOnTime(rounds, challenges, start)
  {
    p := Poll(start, caller, d, Some(OperationIdentity(operationId, epoch)), None);
    var init := OffersAtOnce(p, operationId, epoch, challenges, 299);
    rounds := OneMoreOffer(p, operationId, epoch, challenges, 299, init);
  }

  // ---------------------------------------------------------------- the serving loop

  /** The sleep after serving request `k`, when the deadline does not cut it short. */
  function Wait(k: nat): nat {
    if k == 0 then 100 else Min(Wait(k - 1) * 2, 1000)
  }

  /** The least time between the first serving request and the one after `k` sleeps. */
  function Elapsed(k: nat): nat {
    if k == 0 then 0 else Elapsed(k - 1) + Wait(k - 1)
  }

  lemma NextWait(k: nat)
    ensures Wait(k + 1) == Min(Wait(k) * 2, 1000) && Elapsed(k + 1) == Elapsed(k) + Wait(k)
  {
  }

  lemma {:induction false} ElapsedClosedForm(k: nat)
    ensures k >= 4 ==> Wait(k) == 1000 && Elapsed(k) == 1500 + 1000 * (k - 4)
    ensures Elapsed(0) == 0 && Elapsed(1) == 100 && Elapsed(2) == 300 && Elapsed(3) == 700 && Elapsed(4) == 1500
    decreases k
  {
    assert Wait(1) == 200 && Wait(2) == 400 && Wait(3) == 800 && Wait(4) == 1000;
    if k > 4 { ElapsedClosedForm(k - 1); }
  }

  lemma BeforeDeadline(k: nat)
    ensures Elapsed(k) < 90_000 <==> k < 93
  {
    ElapsedClosedForm(k);
    ElapsedClosedForm(4);
  }

  ghost predicate Confirms(r: Round, from: nat, deadline: nat) {
    && r.x.request.PhaseRequest? && r.x.request.kind.ServingKind?
    && r.x.deadline == Some(deadline) && from <= r.x.sentAt < deadline
  }

  /** The reply is the bound busy reply or a bound pending one. */
  ghost predicate NotYetIn(x: Exchanged, c: ClaimedState, revision: int) {
    BusyBy(x, c) || (GrantedBy(x, c, ServingKind, revision) && x.reply.value.decision != Word(SERVING))
  }

  /** The sleep is `wait`, cut short by the deadline. */
  predicate ServingPause(r: Round, wait: nat, deadline: nat) {
    && r.x.sentAt <= r.checkedAt < deadline && r.checkedAt <= r.asleepAt < deadline
    && r.asleepAt + Min(wait, deadline - r.asleepAt) <= r.wokeAt && r.deadline == deadline
  }

  ghost predicate ConfirmsAgain(r: Round, c: ClaimedState, revision: int, wait: nat, deadline: nat) {
    NotYetIn(r.x, c, revision) && ServingPause(r, wait, deadline)
  }

  /** Rounds of the loop, each of which asks and then asks again. */
  ghost predicate ServingRounds(rounds: seq<Round>, c: ClaimedState, revision: int, start: nat) {
    rounds == []
    || (var init, last := rounds[..|rounds|-1], rounds[|rounds|-1];
        && ServingRounds(init, c, revision, start)
        && Confirms(last, AwakeAfter(start, init), start + 90_000)
        && ConfirmsAgain(last, c, revision, Wait(|init|), start + 90_000))
  }

  /** A run of the loop: such rounds, and possibly one more request. */
  ghost predicate ServingRun(rounds: seq<Round>, c: ClaimedState, revision: int, start: nat) {
    ServingRounds(rounds, c, revision, start)
    || (var init := rounds[..|rounds|-1];
        && ServingRounds(init, c, revision, start)
        && Confirms(rounds[|rounds|-1], AwakeAfter(start, init), start + 90_000))
  }

  lemma ServingRoundAdded(init: seq<Round>, r: Round, c: ClaimedState, revision: int, start: nat)
    requires ServingRounds(init, c, revision, start) && Confirms(r, AwakeAfter(start, init), start + 90_000)
    ensures ServingRun(init + [r], c, revision, start)
    ensures ConfirmsAgain(r, c, revision, Wait(|init|), start + 90_000) ==>
              ServingRounds(init + [r], c, revision, start)
  {
    assert (init + [r])[..|init|] == init;
  }

  lemma {:induction false} ServingsArePaced(rounds: seq<Round>, c: ClaimedState, revision: int, start: nat)
    requires ServingRounds(rounds, c, revision, start)
    ensures start + Elapsed(|rounds|) <= AwakeAfter(start, rounds) || start + 90_000 <= AwakeAfter(start, rounds)
    decreases |rounds|
  {
    if rounds != [] {
      ServingsArePaced(rounds[..|rounds|-1], c, revision, start);
      NextWait(|rounds| - 1);
    }
  }

  /** No run of the serving loop sends more than 93 requests. */
  lemma AtMost93Servings(rounds: seq<Round>, c: ClaimedState, revision: int, start: nat)
    requires ServingRun(rounds, c, revision, start)
    ensures |rounds| <= 93
  {
    if rounds != [] {
      ServingsArePaced(rounds[..|rounds|-1], c, revision, start);
      BeforeDeadline(|rounds| - 1);
    }
  }

  function ServingRoundAt(c: ClaimedState, epoch: int, challenge: string, start: nat, k: nat): Round {
    var at := start + Elapsed(k);
    var x := Exchanged(PhaseRequest(ServingKind, challenge, c.claim.claimId, epoch), at, Some(start + 90_000),
                       Some(BusyReply(c, challenge)));
    Round(x, at, at, at + Wait(k), start + 90_000)
  }

  lemma ServingRoundOk(c: ClaimedState, revision: int, epoch: int, challenge: string, start: nat, k: nat)
    requires k < 93
    ensures var r := ServingRoundAt(c, epoch, challenge, start, k);
            && Confirms(r, start + Elapsed(k), start + 90_000)
            && (k < 92 ==> ConfirmsAgain(r, c, revision, Wait(k), start + 90_000))
  {
    BeforeDeadline(k);
    BeforeDeadline(k + 1);
    NextWait(k);
  }

  /** Request `k` went out `Elapsed(k)` ms after the start, with the `k`th challenge. */
  predicate ServingsOnTime(rounds: seq<Round>, c: ClaimedState, epoch: int, challenges: seq<string>, start: nat)
    requires |rounds| <= |challenges|
  {
    forall k :: 0 <= k < |rounds| ==>
      && rounds[k].x.request == PhaseRequest(ServingKind, challenges[k], c.claim.claimId, epoch)
      && rounds[k].x.sentAt == start + Elapsed(k)
  }

  lemma {:induction false} ServingsAtOnce(c: ClaimedState, revision: int, epoch: int, start: nat,
                                          challenges: seq<string>, n: nat) returns (rounds: seq<Round>)
    requires n <= |challenges| && n < 93
    ensures |rounds| == n && ServingRounds(rounds, c, revision, start)
    ensures ServingsOnTime(rounds, c, epoch, challenges, start) && AwakeAfter(start, rounds) == start + Elapsed(n)
    decreases n
  {
    if n == 0 { return []; }
    var init := ServingsAtOnce(c, revision, epoch, start, challenges, n - 1);
    rounds := OneMoreServing(c, revision, epoch, start, challenges, n - 1, init);
  }

  lemma OneMoreServing(c: ClaimedState, revision: int, epoch: int, start: nat, challenges: seq<string>, n: nat,
                       init: seq<Round>) returns (rounds: seq<Round>)
    requires n < |challenges| && n < 93 && |init| == n && ServingRounds(init, c, revision, start)
    requires ServingsOnTime(init, c, epoch, challenges, start) && AwakeAfter(start, init) == start + Elapsed(n)
    ensures |rounds| == n + 1 && ServingRun(rounds, c, revision, start)
    ensures n < 92 ==> ServingRounds(rounds, c, revision, start)
    ensures ServingsOnTime(rounds, c, epoch, challenges, start) && AwakeAfter(start, rounds) == start + Elapsed(n + 1)
  {
    var r := ServingRoundAt(c, epoch, challenges[n], start, n);
    rounds := init + [r];
    assert ServingRun(rounds, c, revision, start) && (n < 92 ==> ServingRounds(rounds, c, revision, start)) by {
      ServingRoundOk(c, revision, epoch, challenges[n], start, n);
      ServingRoundAdded(init, r, c, revision, start);
    }
    assert AwakeAfter(start, rounds) == start + Elapsed(n + 1) by { NextWait(n); }
  }

  lemma ServingsUpTo(c: ClaimedState, revision: int, epoch: int, start: nat, challenges: seq<string>, n: nat)
      returns (rounds: seq<Round>)
    requires |challenges| == n + 1 <= 93
    ensures |rounds| == n + 1 && ServingRun(rounds, c, revision, start)
    ensures ServingsOnTime(rounds, c, epoch, challenges, start)
  {
    var init := ServingsAtOnce(c, revision, epoch, start, challenges, n);
    rounds := OneMoreServing(c, revision, epoch, start, challenges, n, init);
  }

  /** The bound is attained: an endpoint that answers at once that it is busy is asked exactly 93
      times, at the times Elapsed(0) to Elapsed(92), whatever the challenges drawn. */
  lemma Exactly93Servings(c: ClaimedState, revision: int, epoch: int, start: nat, challenges: seq<string>)
      returns (rounds: seq<Round>)
    requires |challenges| == 93
    ensures |rounds| == 93 && ServingRun(rounds, c, revision, start)
    ensures ServingsOnTime(rounds, c, epoch, challenges, start)
  {
    rounds := ServingsUpTo(c, revision, epoch, start, challenges, 92);
  }
}
