/** Models the tool approvals of server/claude-sdk.js: waiting for an answer, the ways a request is
    settled, who may answer, and what an answer does to a run's tool lists. Each step is one
    synchronous block; the continuation of a settled request is a step of its own. */
module Approvals {
  import opened Common

  type RequestId = nat
  type RunId = nat
  type SignalId = nat

  /** A user id as the program compares it: absent, or its text. */
  type Identity = Option<string>

  /** The metadata of a request; `starterOnly` marks a steer-taint request, all others are ordinary
      prompts of `canUseTool`. */
  datatype Prompt = Prompt(
    run: RunId, session: Option<string>, owner: Identity, starterOnly: bool, timed: bool, signal: Option<SignalId>)

  datatype Decision = Decision(allow: bool, cancelled: bool, remember: Option<string>, updatedInput: Option<string>)

  datatype Role = Owner | Collaborator | Stranger

  /** Who settled a request. */
  datatype Source = Timeout | AbortSignal | Server | Client(role: Role)

  /** The value the waiting promise resolved to: nothing on a timeout. */
  datatype Outcome = Outcome(decision: Option<Decision>, via: Source)

  datatype Verdict = Deny | Allow(updatedInput: Option<string>)

  datatype Tools = Tools(allowed: seq<string>, disallowed: seq<string>)

  /** `asked` and `verdicts` are history; `timers` and `listeners` are what the runtime holds. */
  datatype State = State(
    asked: map<RequestId, Prompt>, pending: map<RequestId, Prompt>, settled: map<RequestId, Outcome>,
    timers: set<RequestId>, listeners: map<RequestId, SignalId>, aborted: set<SignalId>,
    tools: map<RunId, Tools>, verdicts: map<RequestId, Verdict>)

  datatype Step =
    | StartRun(run: RunId, tools: Tools)
    | Ask(id: RequestId, prompt: Prompt)
    | TimerFires(id: RequestId)
    | SignalAborts(signal: SignalId)
    | Answer(id: RequestId, requester: Identity, collaborates: bool, payload: Decision)
    | Settle(id: RequestId, decision: Decision)
    | CancelSession(session: string)
    | CancelAll
    | Continue(id: RequestId)

  const CANCELLED := Decision(false, true, None, None)
  const BY_SERVER := Outcome(Some(CANCELLED), Server)
  const BY_SIGNAL := Outcome(Some(CANCELLED), AbortSignal)
  const BY_TIMEOUT := Outcome(None, Timeout)

  function Normalized(id: Identity): Identity { if id == Some("") then None else id }

  /** `authorizeApprovalDecision`: the role of the answer, and what of it may pass. */
  function Authorize(owner: Identity, requester: Identity, collaborates: bool, payload: Decision)
    : (r: (Role, Option<Decision>))
    ensures r.0 == Owner <==> Normalized(owner) == Normalized(requester)
    ensures r.1.Some? <==> r.0 == Owner || collaborates
    ensures r.0 != Owner && r.1.Some? ==>
              r.1.value.remember.None? && r.1.value.updatedInput.None? && r.1.value.allow == payload.allow
  {
    if Normalized(owner) == Normalized(requester) then (Owner, Some(payload))
    else if collaborates then (Collaborator, Some(payload.(remember := None, updatedInput := None)))
    else (Stranger, None)
  }

  /** The outcome an answer leads to, None if it is refused. */
  function Answered(p: Prompt, requester: Identity, collaborates: bool, payload: Decision): Option<Outcome> {
    var verdict := Authorize(p.owner, requester, collaborates, payload);
    if verdict.1.None? || (p.starterOnly && verdict.0 != Owner) then None
    else if p.starterOnly then
      Some(Outcome(Some(verdict.1.value.(remember := None, updatedInput := None)), Client(verdict.0)))
    else Some(Outcome(verdict.1, Client(verdict.0)))
  }

  /** `finalize`: only the first decision counts. */
  function Finalized(s: State, id: RequestId, o: Outcome): State {
    if id in s.settled then s
    else
      s.(settled := s.settled[id := o], pending := s.pending - {id}, timers := s.timers - {id},
         listeners := s.listeners - {id})
  }

  function AllFinalized(s: State, ids: set<RequestId>, o: Outcome): State {
    s.(settled := s.settled + (map id | id in ids && id !in s.settled :: o),
       pending := s.pending - ids, timers := s.timers - ids, listeners := s.listeners - ids)
  }

  function OfSession(pending: map<RequestId, Prompt>, session: string): set<RequestId> {
    set id | id in pending && pending[id].session == Some(session)
  }

  function Everyone(pending: map<RequestId, Prompt>): set<RequestId> { set id | id in pending }

  function Listening(listeners: map<RequestId, SignalId>, signal: SignalId): set<RequestId> {
    set id | id in listeners && listeners[id] == signal
  }

  /** The tail of `canUseTool`. */
  function VerdictOf(p: Prompt, o: Outcome): Verdict {
    if o.decision.Some? && !o.decision.value.cancelled && o.decision.value.allow
    then Allow(o.decision.value.updatedInput) else Deny
  }

  function Without(entries: seq<string>, entry: string): seq<string> {
    if entries == [] then [] else (if entries[0] == entry then [] else [entries[0]]) + Without(entries[1..], entry)
  }

  function Remembered(t: Tools, p: Prompt, o: Outcome): Tools {
    if VerdictOf(p, o).Allow? && !p.starterOnly && o.decision.value.remember.Some?
       && o.decision.value.remember != Some("") then
      var entry := o.decision.value.remember.value;
      Tools(if entry in t.allowed then t.allowed else t.allowed + [entry], Without(t.disallowed, entry))
    else t
  }

  /** A request id is fresh; a run is started before it asks. The server's own settlements, whose two
      callers are the close of a socket and of a starter's socket, only ever cancel. */
  predicate Enabled(s: State, step: Step) {
    match step
    case StartRun(run, _) => run !in s.tools
    case Ask(id, p) => id !in s.asked && p.run in s.tools
    case TimerFires(id) => id in s.timers
    case Settle(_, decision) => decision.cancelled && !decision.allow
    case Continue(id) => id in s.settled && id in s.asked && id !in s.verdicts && s.asked[id].run in s.tools
    case _ => true
  }

  function Entered(s: State, id: RequestId, p: Prompt): State {
    s.(pending := s.pending[id := p], timers := if p.timed then s.timers + {id} else s.timers,
       listeners := if p.signal.Some? then s.listeners[id := p.signal.value] else s.listeners)
  }

  function Next(s: State, step: Step): State
    requires Enabled(s, step)
  {
    match step
    case StartRun(run, tools) => s.(tools := s.tools[run := tools])
    case Ask(id, p) =>
      var a := s.(asked := s.asked[id := p]);
      if p.signal.Some? && p.signal.value in s.aborted then Finalized(a, id, BY_SIGNAL) else Entered(a, id, p)
    case TimerFires(id) => Finalized(s, id, BY_TIMEOUT)
    case SignalAborts(signal) =>
      AllFinalized(s, Listening(s.listeners, signal), BY_SIGNAL).(aborted := s.aborted + {signal})
    case Answer(id, requester, collaborates, payload) =>
      if id in s.pending && Answered(s.pending[id], requester, collaborates, payload).Some?
      then Finalized(s, id, Answered(s.pending[id], requester, collaborates, payload).value) else s
    case Settle(id, decision) => if id in s.pending then Finalized(s, id, Outcome(Some(decision), Server)) else s
    case CancelSession(session) => AllFinalized(s, OfSession(s.pending, session), BY_SERVER)
    case CancelAll => AllFinalized(s, Everyone(s.pending), BY_SERVER)
    case Continue(id) =>
      var p := s.asked[id];
      s.(tools := s.tools[p.run := Remembered(s.tools[p.run], p, s.settled[id])],
         verdicts := s.verdicts[id := VerdictOf(p, s.settled[id])])
  }

  // ---------------------------------------------------------------- the map and its loops

  lemma OneMoreSettled(s: State, ids: set<RequestId>, id: RequestId, o: Outcome)
    requires id !in ids && id !in s.settled
    ensures AllFinalized(s, ids + {id}, o).settled == AllFinalized(s, ids, o).settled[id := o]
  {
  }

  lemma OneMore(s: State, ids: set<RequestId>, id: RequestId, o: Outcome)
    requires id !in ids && id !in s.settled
    ensures AllFinalized(s, ids + {id}, o) == Finalized(AllFinalized(s, ids, o), id, o)
  {
    OneMoreSettled(s, ids, id, o);
    assert s.pending - (ids + {id}) == s.pending - ids - {id};
    assert s.listeners - (ids + {id}) == s.listeners - ids - {id};
    assert s.timers - (ids + {id}) == s.timers - ids - {id};
  }

  lemma NoneFinalized(s: State, o: Outcome)
    ensures AllFinalized(s, {}, o) == s
  {
    assert AllFinalized(s, {}, o).settled == s.settled;
  }

  /** `pendingToolApprovals`: an ES Map visits its entries in the order in which they were set and
      skips those deleted meanwhile. */
  class PendingApprovals {
    var pending: map<RequestId, Prompt>
    var order: seq<RequestId>
    var settled: map<RequestId, Outcome>
    var timers: set<RequestId>
    var listeners: map<RequestId, SignalId>
    var aborted: set<SignalId>
    ghost var rest: State

    ghost function Abs(): State
      reads this
    {
      State(rest.asked, pending, settled, timers, listeners, aborted, rest.tools, rest.verdicts)
    }

    ghost predicate Valid()
      reads this
    {
      && (forall id :: id in pending ==> id in order && id !in settled)
      && (forall id :: id in settled || id in pending ==> id in rest.asked)
    }

    constructor ()
      ensures Valid() && Abs() == State(map[], map[], map[], {}, map[], {}, map[], map[])
    {
      pending, order, settled, timers, listeners, aborted := map[], [], map[], {}, map[], {};
      rest := State(map[], map[], map[], {}, map[], {}, map[], map[]);
    }

    method Finalize(id: RequestId, o: Outcome)
      requires Valid() && id in rest.asked
      modifies this
      ensures Valid() && order == old(order) && rest == old(rest) && Abs() == Finalized(old(Abs()), id, o)
    {
      if id in settled { return; }
      settled := settled[id := o];
      pending, timers, listeners := pending - {id}, timers - {id}, listeners - {id};
    }

    method WaitForToolApproval(id: RequestId, p: Prompt)
      requires Valid() && Enabled(Abs(), Ask(id, p))
      modifies this
      ensures Valid() && Abs() == Next(old(Abs()), Ask(id, p))
    {
      rest := rest.(asked := rest.asked[id := p]);
      if p.timed { timers := timers + {id}; }
      if p.signal.Some? {
        if p.signal.value in aborted {
          Finalize(id, BY_SIGNAL);
          assert timers == old(timers) - {id} && listeners == old(listeners) - {id};
          return;
        }
        listeners := listeners[id := p.signal.value];
      }
      pending := pending[id := p];
      order := order + [id];
    }

    method ResolveToolApproval(id: RequestId, requester: Identity, collaborates: bool, payload: Decision)
      returns (resolved: bool)
      requires Valid()
      modifies this
      ensures Valid() && Abs() == Next(old(Abs()), Answer(id, requester, collaborates, payload))
      ensures resolved == (id in old(pending) && id !in pending)
    {
      if id !in pending { return false; }
      var p := pending[id];
      var verdict := Authorize(p.owner, requester, collaborates, payload);
      var allowed, decision := verdict.1.Some?, verdict.1;
      if p.starterOnly && verdict.0 != Owner { allowed := false; }
      if p.starterOnly && allowed { decision := Some(decision.value.(remember := None, updatedInput := None)); }
      if !allowed { return false; }
      Finalize(id, Outcome(decision, Client(verdict.0)));
      return true;
    }

    method SettleToolApproval(id: RequestId, decision: Decision) returns (done: bool)
      requires Valid()
      modifies this
      ensures Valid() && done == (id in old(pending))
      ensures Abs() == if done then Finalized(old(Abs()), id, Outcome(Some(decision), Server)) else old(Abs())
    {
      if id !in pending { return false; }
      Finalize(id, Outcome(Some(decision), Server));
      return true;
    }

    /** The loop runs over the map that its own calls shrink. */
    method CancelPendingApprovalsForSession(session: string)
      requires Valid()
      modifies this
      ensures Valid() && Abs() == Next(old(Abs()), CancelSession(session))
    {
      ghost var before := Abs();
      ghost var done: set<RequestId> := {};
      NoneFinalized(before, BY_SERVER);
      for i := 0 to |order|
        invariant Valid() && order == old(order) && rest == old(rest)
        invariant Abs() == AllFinalized(before, done, BY_SERVER)
        invariant forall id :: id in done <==> id in order[..i] && id in OfSession(before.pending, session)
      {
        var id := order[i];
        assert order[..i+1] == order[..i] + [id];
        if id in pending && pending[id].session == Some(session) {
          OneMore(before, done, id, BY_SERVER);
          Finalize(id, BY_SERVER);
          done := done + {id};
        }
      }
      assert order[..|order|] == order;
      assert done == OfSession(before.pending, session);
    }

    method OnTimeout(id: RequestId)
      requires Valid() && Enabled(Abs(), TimerFires(id)) && id in rest.asked
      modifies this
      ensures Valid() && Abs() == Next(old(Abs()), TimerFires(id))
    {
      Finalize(id, BY_TIMEOUT);
    }

    method CancelAllPendingApprovals() returns (cancelled: nat)
      requires Valid()
      modifies this
      ensures Valid() && Abs() == Next(old(Abs()), CancelAll) && cancelled == |Everyone(old(pending))|
    {
      ghost var before := Abs();
      ghost var done: set<RequestId> := {};
      NoneFinalized(before, BY_SERVER);
      cancelled := 0;
      for i := 0 to |order|
        invariant Valid() && order == old(order) && rest == old(rest)
        invariant Abs() == AllFinalized(before, done, BY_SERVER) && cancelled == |done|
        invariant forall id :: id in done <==> id in order[..i] && id in Everyone(before.pending)
      {
        var id := order[i];
        assert order[..i+1] == order[..i] + [id];
        if id in pending {
          OneMore(before, done, id, BY_SERVER);
          Finalize(id, BY_SERVER);
          done := done + {id};
          cancelled := cancelled + 1;
        }
      }
      assert order[..|order|] == order;
      assert done == Everyone(before.pending);
    }
  }

  /** The tool lists of one run, `sdkOptions`. */
  class SdkOptions {
    var allowedTools: seq<string>
    var disallowedTools: seq<string>

    function Abs(): Tools
      reads this
    {
      Tools(allowedTools, disallowedTools)
    }

    constructor (tools: Tools)
      ensures Abs() == tools
    {
      allowedTools, disallowedTools := tools.allowed, tools.disallowed;
    }

    method Filter(entries: seq<string>, entry: string) returns (kept: seq<string>)
      ensures kept == Without(entries, entry)
    {
      kept := [];
      for i := 0 to |entries|
        invariant kept + Without(entries[i..], entry) == Without(entries, entry)
      {
        if entries[i] != entry { kept := kept + [entries[i]]; }
      }
    }

    /** What `canUseTool` does once its prompt is settled. */
    method AfterDecision(p: Prompt, o: Outcome) returns (verdict: Verdict)
      requires !p.starterOnly
      modifies this
      ensures Abs() == Remembered(old(Abs()), p, o) && verdict == VerdictOf(p, o)
    {
      if o.decision.None? || o.decision.value.cancelled || !o.decision.value.allow { return Deny; }
      var decision := o.decision.value;
      if decision.remember.Some? && decision.remember != Some("") {
        var entry := decision.remember.value;
        if entry !in allowedTools { allowedTools := allowedTools + [entry]; }
        disallowedTools := Filter(disallowedTools, entry);
      }
      return Allow(decision.updatedInput);
    }
  }

  // ---------------------------------------------------------------- whole runs

  ghost predicate IsRun(ss: seq<State>, steps: seq<Step>) {
    && |ss| == |steps| + 1 && ss[0] == State(map[], map[], map[], {}, map[], {}, map[], map[])
    && forall i :: 0 <= i < |steps| ==> Enabled(ss[i], steps[i]) && ss[i+1] == Next(ss[i], steps[i])
  }

  /** A request waits or is settled, never both, and waits unchanged. */
  predicate WaitingOrSettled(s: State) {
    && (forall id :: id in s.pending ==> id in s.asked && s.pending[id] == s.asked[id] && id !in s.settled)
    && (forall id :: id in s.settled ==> id in s.asked)
    && (forall id :: id in s.asked ==> id in s.pending || id in s.settled)
  }

  ghost predicate TimersOk(s: State) { forall id :: id in s.timers <==> id in s.pending && s.pending[id].timed }

  ghost predicate ListenersOk(s: State) {
    && (forall id :: id in s.listeners <==> id in s.pending && s.pending[id].signal.Some?)
    && (forall id :: id in s.listeners ==>
          s.listeners[id] == s.pending[id].signal.value && s.listeners[id] !in s.aborted)
  }

  predicate VerdictsOk(s: State) {
    forall id :: id in s.verdicts ==>
      id in s.asked && id in s.settled && s.verdicts[id] == VerdictOf(s.asked[id], s.settled[id])
  }

  ghost predicate Inv(s: State) { WaitingOrSettled(s) && TimersOk(s) && ListenersOk(s) && VerdictsOk(s) }

  /** What is asked and settled stays so. */
  predicate Stands(s: State, t: State) {
    && (forall id :: id in s.settled ==> id in t.settled && t.settled[id] == s.settled[id])
    && (forall id :: id in s.asked ==> id in t.asked && t.asked[id] == s.asked[id])
  }

  lemma FinalizedKeeps(s: State, id: RequestId, o: Outcome)
    requires Inv(s) && id in s.pending
    ensures Inv(Finalized(s, id, o)) && Stands(s, Finalized(s, id, o))
  {
  }

  lemma AllFinalizedKeeps(s: State, ids: set<RequestId>, o: Outcome)
    requires Inv(s) && forall id :: id in ids ==> id in s.pending
    ensures Inv(AllFinalized(s, ids, o)) && Stands(s, AllFinalized(s, ids, o))
  {
  }

  /** A request that is settled at once never enters the map. */
  lemma RefusedKeeps(s: State, id: RequestId, p: Prompt)
    requires Inv(s) && id !in s.asked
    ensures var t := s.(asked := s.asked[id := p], settled := s.settled[id := BY_SIGNAL]); Inv(t) && Stands(s, t)
  {
  }

  lemma EnteredKeeps(s: State, id: RequestId, p: Prompt)
    requires Inv(s) && id !in s.asked && (p.signal.Some? ==> p.signal.value !in s.aborted)
    ensures var t := Entered(s.(asked := s.asked[id := p]), id, p);
            WaitingOrSettled(t) && TimersOk(t) && Stands(s, t) && VerdictsOk(t)
  {
  }

  lemma EnteredListens(s: State, id: RequestId, p: Prompt)
    requires ListenersOk(s) && id !in s.pending && (p.signal.Some? ==> p.signal.value !in s.aborted)
    ensures ListenersOk(Entered(s.(asked := s.asked[id := p]), id, p))
  {
  }

  lemma {:induction false} AskKeeps(s: State, id: RequestId, p: Prompt)
    requires Inv(s) && Enabled(s, Ask(id, p))
    ensures Inv(Next(s, Ask(id, p))) && Stands(s, Next(s, Ask(id, p)))
  {
    if p.signal.Some? && p.signal.value in s.aborted {
      RefusedKeeps(s, id, p);
      assert s.pending - {id} == s.pending && s.timers - {id} == s.timers && s.listeners - {id} == s.listeners;
    } else {
      EnteredKeeps(s, id, p);
      EnteredListens(s, id, p);
    }
  }

  lemma AbortedKeeps(s: State, signal: SignalId)
    requires Inv(s) && forall id :: id in s.listeners ==> s.listeners[id] != signal
    ensures Inv(s.(aborted := s.aborted + {signal}))
  {
  }

  lemma AbortKeeps(s: State, signal: SignalId)
    requires Inv(s)
    ensures Inv(Next(s, SignalAborts(signal))) && Stands(s, Next(s, SignalAborts(signal)))
  {
    var t := AllFinalized(s, Listening(s.listeners, signal), BY_SIGNAL);
    AllFinalizedKeeps(s, Listening(s.listeners, signal), BY_SIGNAL);
    forall id | id in t.listeners ensures t.listeners[id] != signal { assert id !in Listening(s.listeners, signal); }
    AbortedKeeps(t, signal);
  }

  lemma {:induction false} InvStep(s: State, step: Step)
    requires Inv(s) && Enabled(s, step)
    ensures Inv(Next(s, step)) && Stands(s, Next(s, step))
  {
    match step
    case StartRun(_, _) =>
    case Ask(id, p) => AskKeeps(s, id, p);
    case TimerFires(id) => FinalizedKeeps(s, id, BY_TIMEOUT);
    case SignalAborts(signal) => AbortKeeps(s, signal);
    case Answer(id, requester, collaborates, payload) =>
      if id in s.pending && Answered(s.pending[id], requester, collaborates, payload).Some? {
        FinalizedKeeps(s, id, Answered(s.pending[id], requester, collaborates, payload).value);
      }
    case Settle(id, decision) => if id in s.pending { FinalizedKeeps(s, id, Outcome(Some(decision), Server)); }
    case CancelSession(session) => AllFinalizedKeeps(s, OfSession(s.pending, session), BY_SERVER);
    case CancelAll => AllFinalizedKeeps(s, Everyone(s.pending), BY_SERVER);
    case Continue(_) =>
  }

  lemma {:induction false} InvAlong(ss: seq<State>, steps: seq<Step>, i: nat)
    requires IsRun(ss, steps) && i < |ss|
    ensures Inv(ss[i])
    decreases i
  {
    if i > 0 {
      InvAlong(ss, steps, i - 1);
      InvStep(ss[i-1], steps[i-1]);
    }
  }

  /** A request stays in the map exactly until it is settled; its timer and abort listener live
      exactly as long, and no request waits on a signal that has fired. */
  lemma InMapExactlyUntilSettled(ss: seq<State>, steps: seq<Step>, i: nat, id: RequestId)
    requires IsRun(ss, steps) && i < |ss| && id in ss[i].asked
    ensures id in ss[i].pending <==> id !in ss[i].settled
    ensures id in ss[i].timers <==> id in ss[i].pending && ss[i].asked[id].timed
    ensures id in ss[i].listeners <==> id in ss[i].pending && ss[i].asked[id].signal.Some?
    ensures id in ss[i].pending && ss[i].asked[id].signal.Some? ==> ss[i].asked[id].signal.value !in ss[i].aborted
  {
    InvAlong(ss, steps, i);
  }

  predicate StandsAt(ss: seq<State>, j: nat)
    requires 0 < j < |ss|
  {
    Stands(ss[j-1], ss[j])
  }

  lemma {:induction false} StepStands(ss: seq<State>, steps: seq<Step>, j: nat)
    requires IsRun(ss, steps) && 0 < j < |ss|
    ensures StandsAt(ss, j)
  {
    InvAlong(ss, steps, j - 1);
    InvStep(ss[j-1], steps[j-1]);
  }

  lemma StandsTransitive(s: State, t: State, u: State)
    requires Stands(s, t) && Stands(t, u)
    ensures Stands(s, u)
  {
  }

  lemma {:induction false} StandsAlong(ss: seq<State>, i: nat, j: nat)
    requires i <= j < |ss| && forall k :: 0 < k < |ss| ==> StandsAt(ss, k)
    ensures Stands(ss[i], ss[j])
    decreases j
  {
    if i < j {
      StandsAlong(ss, i, j - 1);
      assert StandsAt(ss, j);
      StandsTransitive(ss[i], ss[j-1], ss[j]);
    }
  }

  /** The first decision is the only one. */
  lemma DecisionStands(ss: seq<State>, steps: seq<Step>, i: nat, j: nat, id: RequestId)
    requires IsRun(ss, steps) && i <= j < |ss| && id in ss[i].asked
    ensures id in ss[j].asked && ss[j].asked[id] == ss[i].asked[id]
    ensures id in ss[i].settled ==>
              id in ss[j].settled && ss[j].settled[id] == ss[i].settled[id] && id !in ss[j].pending
  {
    forall k | 0 < k < |ss| ensures StandsAt(ss, k) { StepStands(ss, steps, k); }
    StandsAlong(ss, i, j);
    InvAlong(ss, steps, j);
  }

  /** Cancelling a session settles exactly its own waiting requests, as cancelled, and touches no
      other request. */
  lemma CancelTouchesOnlyItsSession(ss: seq<State>, steps: seq<Step>, i: nat, id: RequestId)
    requires IsRun(ss, steps) && i < |steps| && steps[i].CancelSession? && id in ss[i].pending
    ensures ss[i].pending[id].session == Some(steps[i].session) ==>
              id !in ss[i+1].pending && id in ss[i+1].settled && ss[i+1].settled[id] == BY_SERVER
    ensures ss[i].pending[id].session != Some(steps[i].session) ==>
              id in ss[i+1].pending && ss[i+1].pending[id] == ss[i].pending[id] && id !in ss[i+1].settled
  {
    InvAlong(ss, steps, i);
    assert ss[i+1] == Next(ss[i], steps[i]);
  }

  /** The step settles request `id` without an answer, with that outcome. */
  predicate SettlesUnanswered(s: State, step: Step, id: RequestId, o: Outcome)
    requires id in s.pending
  {
    match step
    case TimerFires(x) => x == id && o == Outcome(None, Timeout)
    case SignalAborts(signal) => s.pending[id].signal == Some(signal) && o == BY_SIGNAL
    case Settle(x, decision) => x == id && o == Outcome(Some(decision), Server)
    case CancelSession(session) => s.pending[id].session == Some(session) && o == BY_SERVER
    case CancelAll => o == BY_SERVER
    case _ => false
  }

  /** A waiting request is settled at once by its timer, its signal, the server, or a cancellation of its
      session or of all, and then waits no longer. */
  lemma SettledAtOnce(ss: seq<State>, steps: seq<Step>, i: nat, id: RequestId, o: Outcome)
    requires IsRun(ss, steps) && i < |steps| && id in ss[i].pending && SettlesUnanswered(ss[i], steps[i], id, o)
    ensures id !in ss[i+1].pending && id in ss[i+1].settled && ss[i+1].settled[id] == o
  {
    InvAlong(ss, steps, i);
    assert ss[i+1] == Next(ss[i], steps[i]);
  }

  /** The step that settled a request. */
  lemma {:induction false} SettlingStep(ss: seq<State>, steps: seq<Step>, i: nat, id: RequestId) returns (j: nat)
    requires IsRun(ss, steps) && i < |ss| && id in ss[i].settled
    ensures j < i && id !in ss[j].settled && id in ss[j+1].settled && ss[j+1].settled[id] == ss[i].settled[id]
    decreases i
  {
    if id in ss[i-1].settled {
      InvAlong(ss, steps, i - 1);
      InvStep(ss[i-1], steps[i-1]);
      j := SettlingStep(ss, steps, i - 1, id);
    } else {
      j := i - 1;
    }
  }

  /** The step is an answer to request `id` that leads to outcome `o`. */
  predicate IsAnswer(s: State, step: Step, id: RequestId, o: Outcome) {
    && step.Answer? && step.id == id && id in s.pending
    && Answered(s.pending[id], step.requester, step.collaborates, step.payload) == Some(o)
  }

  lemma SettledHow(s: State, step: Step, id: RequestId)
    requires Inv(s) && Enabled(s, step) && id !in s.settled && id in Next(s, step).settled
    ensures var o := Next(s, step).settled[id];
            if o.via.Client? then IsAnswer(s, step, id, o) else o.decision.Some? ==> !o.decision.value.allow
  {
  }

  /** A tool call is allowed only by an answer that allows it, given by the owner or, for an
      ordinary prompt, by a collaborator; an edited input comes from the owner alone. */
  lemma AllowedOnlyByAnAnswer(ss: seq<State>, steps: seq<Step>, i: nat, id: RequestId) returns (j: nat)
    requires IsRun(ss, steps) && i < |ss| && id in ss[i].verdicts && ss[i].verdicts[id].Allow?
    ensures id in ss[i].settled && j < i && IsAnswer(ss[j], steps[j], id, ss[i].settled[id])
    ensures id in ss[i].asked && ss[j].pending[id] == ss[i].asked[id] && steps[j].payload.allow
    ensures var owner := Normalized(steps[j].requester) == Normalized(ss[i].asked[id].owner);
            && (owner || (steps[j].collaborates && !ss[i].asked[id].starterOnly))
            && (ss[i].verdicts[id].updatedInput.Some? ==> owner && !ss[i].asked[id].starterOnly)
    ensures !steps[j].payload.cancelled
  {
    InvAlong(ss, steps, i);
    j := SettlingStep(ss, steps, i, id);
    InvAlong(ss, steps, j);
    SettledHow(ss[j], steps[j], id);
    DecisionStands(ss, steps, j, i, id);
  }

  // ---------------------------------------------------------------- what an answer brings about

  predicate Absent(id: Identity) { id == None || id == Some("") }

  predicate SameUser(a: Identity, b: Identity) { a == b || (Absent(a) && Absent(b)) }

  /** The answer comes from the request's owner or, for an ordinary prompt, from a collaborator. */
  predicate Entitled(p: Prompt, step: Step)
    requires step.Answer?
  {
    SameUser(step.requester, p.owner) || (step.collaborates && !p.starterOnly)
  }

  /** What the owner alone may add to an answer, and to an ordinary prompt only. */
  predicate InFull(p: Prompt, step: Step)
    requires step.Answer?
  {
    SameUser(step.requester, p.owner) && !p.starterOnly
  }

  /** The entry the owner asked to remember, if any. */
  function RememberedEntry(p: Prompt, step: Step): Option<string>
    requires step.Answer?
  {
    if InFull(p, step) && step.payload.remember != Some("") then step.payload.remember else None
  }

  /** `kept` is some of `entries`, in their order. */
  predicate InOrder(kept: seq<string>, entries: seq<string>) {
    || kept == []
    || (entries != []
        && if kept[0] == entries[0] then InOrder(kept[1..], entries[1..]) else InOrder(kept, entries[1..]))
  }

  lemma {:induction false} WithoutInOrder(entries: seq<string>, entry: string)
    ensures entry !in Without(entries, entry) && InOrder(Without(entries, entry), entries)
    decreases |entries|
  {
    if entries != [] {
      WithoutInOrder(entries[1..], entry);
      var rest := Without(entries[1..], entry);
      if entries[0] != entry {
        assert ([entries[0]] + rest)[1..] == rest;
      } else {
        assert [] + rest == rest && (rest != [] ==> rest[0] in rest);
      }
    }
  }

  lemma {:induction false} WithoutCounts(entries: seq<string>, entry: string, other: string)
    requires other != entry
    ensures multiset(Without(entries, entry))[other] == multiset(entries)[other]
    decreases |entries|
  {
    if entries != [] {
      WithoutCounts(entries[1..], entry, other);
      assert entries == [entries[0]] + entries[1..];
    }
  }

  /** The tool lists with the entry allowed and not disallowed, and nothing else changed. */
  ghost predicate Allows(was: Tools, now: Tools, entry: string) {
    && now.allowed == (if entry in was.allowed then was.allowed else was.allowed + [entry])
    && entry !in now.disallowed && InOrder(now.disallowed, was.disallowed)
    && forall x :: x != entry ==> multiset(now.disallowed)[x] == multiset(was.disallowed)[x]
  }

  lemma RememberedAllows(t: Tools, p: Prompt, o: Outcome, entry: string)
    requires VerdictOf(p, o).Allow? && !p.starterOnly && o.decision.value.remember == Some(entry) && entry != ""
    ensures Allows(t, Remembered(t, p, o), entry)
  {
    forall x | x != entry ensures multiset(Without(t.disallowed, entry))[x] == multiset(t.disallowed)[x] {
      WithoutCounts(t.disallowed, entry, x);
    }
    WithoutInOrder(t.disallowed, entry);
  }

  lemma AnswerSettles(ss: seq<State>, steps: seq<Step>, i: nat)
    requires IsRun(ss, steps) && i < |steps| && steps[i].Answer? && steps[i].id in ss[i].pending
    requires Entitled(ss[i].pending[steps[i].id], steps[i])
    ensures var p, step := ss[i].pending[steps[i].id], steps[i];
            && step.id !in ss[i+1].pending && step.id in ss[i+1].settled && step.id in ss[i+1].asked
            && ss[i+1].asked[step.id] == p
            && ss[i+1].settled[step.id].via.Client? && ss[i+1].settled[step.id].decision.Some?
            && var d := ss[i+1].settled[step.id].decision.value;
            && d.allow == step.payload.allow && d.cancelled == step.payload.cancelled
            && d.updatedInput == (if InFull(p, step) then step.payload.updatedInput else None)
            && d.remember == (if InFull(p, step) then step.payload.remember else None)
  {
    InvAlong(ss, steps, i);
    assert ss[i+1] == Next(ss[i], steps[i]);
  }

  /** An entitled answer to a waiting request settles it, and decides what its call is answered: it is
      allowed if and only if the answer allows it and does not cancel, with exactly the owner's input on
      an ordinary prompt; the entry the owner asked to remember is then allowed and not disallowed, and
      nothing else in any run's lists changes. */
  lemma AnswerDecides(ss: seq<State>, steps: seq<Step>, i: nat, j: nat)
    requires IsRun(ss, steps) && i < j < |steps| && steps[i].Answer? && steps[i].id in ss[i].pending
    requires Entitled(ss[i].pending[steps[i].id], steps[i]) && steps[j] == Continue(steps[i].id)
    ensures var p, step := ss[i].pending[steps[i].id], steps[i];
            var allowed, entry := step.payload.allow && !step.payload.cancelled, RememberedEntry(p, step);
            && step.id in ss[j+1].verdicts && p.run in ss[j].tools && p.run in ss[j+1].tools
            && ss[j+1].verdicts[step.id]
               == (if allowed then Allow(if InFull(p, step) then step.payload.updatedInput else None) else Deny)
            && (if allowed && entry.Some? then Allows(ss[j].tools[p.run], ss[j+1].tools[p.run], entry.value)
                else ss[j+1].tools[p.run] == ss[j].tools[p.run])
            && forall run :: run != p.run && run in ss[j].tools ==>
                 run in ss[j+1].tools && ss[j+1].tools[run] == ss[j].tools[run]
  {
    var p, step := ss[i].pending[steps[i].id], steps[i];
    AnswerSettles(ss, steps, i);
    DecisionStands(ss, steps, i + 1, j, step.id);
    assert Enabled(ss[j], steps[j]) && ss[j+1] == Next(ss[j], steps[j]);
    var o, entry := ss[j].settled[step.id], RememberedEntry(p, step);
    if step.payload.allow && !step.payload.cancelled && entry.Some? {
      RememberedAllows(ss[j].tools[p.run], p, o, entry.value);
    }
  }

  /** A request that was not settled by an answer is denied, and changes no tool list. */
  lemma OtherwiseDenied(ss: seq<State>, steps: seq<Step>, i: nat, id: RequestId)
    requires IsRun(ss, steps) && i < |steps| && steps[i] == Continue(id)
    requires id in ss[i].settled && !ss[i].settled[id].via.Client?
    ensures id in ss[i+1].verdicts && ss[i+1].verdicts[id] == Deny && ss[i+1].tools == ss[i].tools
  {
    InvAlong(ss, steps, i);
    var j := SettlingStep(ss, steps, i, id);
    InvAlong(ss, steps, j);
    SettledHow(ss[j], steps[j], id);
    assert Enabled(ss[i], steps[i]) && ss[i+1] == Next(ss[i], steps[i]);
  }

  lemma GrowthStep(s: State, step: Step, run: RunId, entry: string)
    requires Inv(s) && Enabled(s, step) && run in s.tools && run in Next(s, step).tools
    requires entry !in s.tools[run].allowed && entry in Next(s, step).tools[run].allowed
    ensures step.Continue? && s.asked[step.id].run == run && !s.asked[step.id].starterOnly
    ensures VerdictOf(s.asked[step.id], s.settled[step.id]).Allow?
    ensures s.settled[step.id].decision.value.remember == Some(entry)
  {
  }

  /** A run's `allowedTools` grows only when an owner's answer to an ordinary prompt of that run
      allowed the call and asked to remember the entry. */
  lemma AllowedToolsGrowOnlyByOwner(ss: seq<State>, steps: seq<Step>, i: nat, run: RunId, entry: string)
      returns (j: nat)
    requires IsRun(ss, steps) && i < |steps| && run in ss[i].tools && run in ss[i+1].tools
    requires entry !in ss[i].tools[run].allowed && entry in ss[i+1].tools[run].allowed
    ensures steps[i].Continue? && j < i
    ensures steps[j].Answer? && steps[j].id == steps[i].id && steps[i].id in ss[j].pending
    ensures var p := ss[j].pending[steps[i].id];
            p.run == run && !p.starterOnly && Normalized(steps[j].requester) == Normalized(p.owner)
    ensures steps[j].payload.allow && !steps[j].payload.cancelled && steps[j].payload.remember == Some(entry)
  {
    InvAlong(ss, steps, i);
    GrowthStep(ss[i], steps[i], run, entry);
    j := SettlingStep(ss, steps, i, steps[i].id);
    InvAlong(ss, steps, j);
    SettledHow(ss[j], steps[j], steps[i].id);
    DecisionStands(ss, steps, j, i, steps[i].id);
  }

  /** An answer by someone who is neither the owner nor a collaborator changes nothing at all. */
  lemma StrangerChangesNothing(s: State, id: RequestId, requester: Identity, payload: Decision)
    requires id in s.pending ==> Normalized(s.pending[id].owner) != Normalized(requester)
    ensures Next(s, Answer(id, requester, false, payload)) == s
  {
  }
}
