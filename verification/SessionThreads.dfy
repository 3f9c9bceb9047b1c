/**
 Any number of threads on one session store, interleaved at lock-section boundaries. A `get_or_create` call is a read
 section and, if that finds nothing live, a separate write section; other threads, cleanups and the clock may run in
 between. The state carries the list of atomic operations the sections amount to, and the calls that have returned.
 */
module SessionThreads {
  import opened Prelude
  import opened Session
  import opened SessionHistory

  type Tid = nat

  /** `invoked` is the number of atomic operations already done when the call started. */
  datatype Phase = Idle | Reading(id: string, model: string, invoked: nat) | Writing(id: string, model: string, invoked: nat)

  /** A call that has returned `info`; `op` is the index of its atomic operation, done just before it returned. */
  datatype Call = Call(tid: Tid, id: string, model: string, invoked: nat, op: nat, info: Info)

  datatype State = State(sessions: Sessions, clock: nat, phases: map<Tid, Phase>, history: seq<Op>, calls: seq<Call>)

  datatype Step =
    | Tick(now: nat)
    | Invoke(tid: Tid, id: string, model: string)
    | ReadSection(tid: Tid)
    | WriteSection(tid: Tid, stamp: nat)
    | RecordRequest(id: string, hash: u64)
    | CleanupExpired

  const Initial := State(map[], 0, map[], [], [])

  function PhaseOf(s: State, tid: Tid): Phase {
    if tid in s.phases then s.phases[tid] else Idle
  }

  /** A step that is not enabled leaves the state alone, so every list of steps is a schedule. */
  ghost function Next(ttl: nat, s: State, step: Step): State {
    match step
    case Tick(now) => if s.clock <= now then s.(clock := now) else s
    case Invoke(tid, id, model) =>
      if PhaseOf(s, tid).Idle? then s.(phases := s.phases[tid := Reading(id, model, |s.history|)]) else s
    case ReadSection(tid) => (
      match PhaseOf(s, tid)
      case Reading(id, model, invoked) =>
        (match Found(ttl, s.sessions, id, s.clock)
         case Some(info) => Returned(s, tid, s.sessions, GetOrCreate(id, model, s.clock, s.clock), info)
         case None => s.(phases := s.phases[tid := Writing(id, model, invoked)]))
      case _ => s)
    case WriteSection(tid, stamp) => (
      match PhaseOf(s, tid)
      case Writing(id, model, invoked) =>
        if s.clock <= stamp then
          Returned(s, tid, AfterWrite(ttl, s.sessions, id, model, s.clock, stamp),
                   GetOrCreate(id, model, s.clock, stamp), WriteInfo(ttl, s.sessions, id, model, s.clock))
        else s
      case _ => s)
    case RecordRequest(id, h) => s.(sessions := AfterRecord(s.sessions, id, h), history := s.history + [Record(id, h)])
    case CleanupExpired =>
      s.(sessions := AfterCleanup(ttl, s.sessions, s.clock), history := s.history + [Cleanup(s.clock)])
  }

  ghost function Returned(s: State, tid: Tid, sessions: Sessions, op: Op, info: Info): State
    requires !PhaseOf(s, tid).Idle? && op.GetOrCreate?
  {
    var call := Call(tid, op.id, op.model, PhaseOf(s, tid).invoked, |s.history|, info);
    State(sessions, op.stamp, s.phases[tid := Idle], s.history + [op], s.calls + [call])
  }

  ghost function Exec(ttl: nat, steps: seq<Step>): State {
    if steps == [] then Initial else Next(ttl, Exec(ttl, steps[..|steps| - 1]), steps[|steps| - 1])
  }

  ghost function Infos(calls: seq<Call>): seq<Info> {
    seq(|calls|, i requires 0 <= i < |calls| => calls[i].info)
  }

  /** The call's atomic operation lies between its start and its return, and yields what the call returned. */
  ghost predicate Linearized(ttl: nat, history: seq<Op>, call: Call) {
    && call.invoked <= call.op < |history|
    && history[call.op].GetOrCreate?
    && history[call.op].id == call.id && history[call.op].model == call.model
    && call.info == InfoAt(ttl, history, call.op)
  }

  ghost predicate CallsOk(ttl: nat, history: seq<Op>, calls: seq<Call>) {
    && Outputs(ttl, history) == Infos(calls)
    && (forall i :: 0 <= i < |calls| ==> Linearized(ttl, history, calls[i]))
    && (forall i, j :: 0 <= i < j < |calls| ==> calls[i].op < calls[j].op)
  }

  ghost predicate PhasesOk(phases: map<Tid, Phase>, done: nat) {
    forall tid :: tid in phases && !phases[tid].Idle? ==> phases[tid].invoked <= done
  }

  ghost predicate Inv(ttl: nat, s: State) {
    && s.sessions == Run(ttl, s.history)
    && Timed(s.history) && Clock(s.history) <= s.clock
    && CallsOk(ttl, s.history, s.calls)
    && PhasesOk(s.phases, |s.history|)
  }

  lemma LinearizedGrows(ttl: nat, history: seq<Op>, op: Op, call: Call)
    requires Linearized(ttl, history, call)
    ensures Linearized(ttl, history + [op], call)
  {
    assert (history + [op])[..call.op] == history[..call.op];
  }

  lemma CallReturns(ttl: nat, history: seq<Op>, calls: seq<Call>, op: Op, call: Call)
    requires CallsOk(ttl, history, calls) && op.GetOrCreate?
    requires call.invoked <= call.op == |history| && call.id == op.id && call.model == op.model
    requires call.info == WriteInfo(ttl, Run(ttl, history), op.id, op.model, op.now)
    ensures CallsOk(ttl, history + [op], calls + [call])
  {
    Append(ttl, history, op);
    forall i | 0 <= i < |calls| ensures Linearized(ttl, history + [op], calls[i]) && calls[i].op < call.op {
      LinearizedGrows(ttl, history, op, calls[i]);
    }
    assert (history + [op])[..|history|] == history;
    assert Linearized(ttl, history + [op], call);
    assert Infos(calls + [call]) == Infos(calls) + [call.info];
  }

  lemma ReturnedInv(ttl: nat, s: State, tid: Tid, sessions: Sessions, op: Op, info: Info)
    requires Inv(ttl, s) && !PhaseOf(s, tid).Idle? && op.GetOrCreate? && s.clock == op.now <= op.stamp
    requires sessions == Apply(ttl, s.sessions, op)
    requires info == WriteInfo(ttl, s.sessions, op.id, op.model, op.now)
    ensures Inv(ttl, Returned(s, tid, sessions, op, info))
  {
    Append(ttl, s.history, op);
    CallReturns(ttl, s.history, s.calls, op, Call(tid, op.id, op.model, PhaseOf(s, tid).invoked, |s.history|, info));
  }

  lemma NextInv(ttl: nat, s: State, step: Step)
    requires Inv(ttl, s)
    ensures Inv(ttl, Next(ttl, s, step))
  {
    match step
    case Tick(_) =>
    case Invoke(tid, id, model) =>
      InvokeInv(ttl, s, tid, id, model);
    case ReadSection(tid) =>
      ReadInv(ttl, s, tid);
    case WriteSection(tid, stamp) =>
      WriteInv(ttl, s, tid, stamp);
    case RecordRequest(id, h) =>
      OtherInv(ttl, s, Record(id, h));
    case CleanupExpired =>
      OtherInv(ttl, s, Cleanup(s.clock));
  }

  lemma InvokeInv(ttl: nat, s: State, tid: Tid, id: string, model: string)
    requires Inv(ttl, s)
    ensures Inv(ttl, Next(ttl, s, Invoke(tid, id, model)))
  {
  }

  lemma ReadInv(ttl: nat, s: State, tid: Tid)
    requires Inv(ttl, s)
    ensures Inv(ttl, Next(ttl, s, ReadSection(tid)))
  {
    var p := PhaseOf(s, tid);
    if p.Reading? && Live(ttl, s.sessions, p.id, s.clock) {
      ReturnedInv(ttl, s, tid, s.sessions, GetOrCreate(p.id, p.model, s.clock, s.clock), InfoOf(s.sessions[p.id]));
    }
  }

  lemma WriteInv(ttl: nat, s: State, tid: Tid, stamp: nat)
    requires Inv(ttl, s)
    ensures Inv(ttl, Next(ttl, s, WriteSection(tid, stamp)))
  {
    var p := PhaseOf(s, tid);
    if p.Writing? && s.clock <= stamp {
      ReturnedInv(ttl, s, tid, AfterWrite(ttl, s.sessions, p.id, p.model, s.clock, stamp),
                  GetOrCreate(p.id, p.model, s.clock, stamp), WriteInfo(ttl, s.sessions, p.id, p.model, s.clock));
    }
  }

  lemma OtherInv(ttl: nat, s: State, op: Op)
    requires Inv(ttl, s) && !op.GetOrCreate? && (op.Cleanup? ==> op.now == s.clock)
    ensures Inv(ttl, s.(sessions := Apply(ttl, s.sessions, op), history := s.history + [op]))
  {
    Append(ttl, s.history, op);
    forall i | 0 <= i < |s.calls| ensures Linearized(ttl, s.history + [op], s.calls[i]) {
      LinearizedGrows(ttl, s.history, op, s.calls[i]);
    }
    assert CallsOk(ttl, s.history + [op], s.calls);
  }

  /** Under every schedule the two-section call refines the atomic one: one atomic operation per call, inside the call. */
  lemma {:induction false} Linearizable(ttl: nat, steps: seq<Step>)
    ensures Inv(ttl, Exec(ttl, steps))
  {
    if steps != [] {
      Linearizable(ttl, steps[..|steps| - 1]);
      NextInv(ttl, Exec(ttl, steps[..|steps| - 1]), steps[|steps| - 1]);
    }
  }

  /**
   Under every schedule each returned call has exactly one source, a creation of its own or one whose lifetime it falls
   in, and returns that creation's model; creations of one id are a time to live apart.
   */
  lemma CallsFollowOneCreation(ttl: nat, steps: seq<Step>, c: nat) returns (i: nat)
    requires c < |Exec(ttl, steps).calls|
    ensures var s := Exec(ttl, steps); var call := s.calls[c];
            && call.op < |s.history| && s.history[call.op].GetOrCreate? && s.history[call.op].id == call.id
            && i <= call.op && SourceOf(ttl, s.history, i, call.op)
            && call.info.model == s.history[i].model
            && (forall j: nat :: SourceOf(ttl, s.history, j, call.op) ==> j == i)
            && (forall j: nat, k: nat :: j < k && CreatesAt(ttl, s.history, j, call.id) && CreatesAt(ttl, s.history, k, call.id)
                               ==> s.history[k].now >= s.history[j].stamp + ttl)
  {
    Linearizable(ttl, steps);
    var s := Exec(ttl, steps);
    var call := s.calls[c];
    assert Linearized(ttl, s.history, call);
    i := EveryCallHasCreation(ttl, s.history, call.op);
    forall j: nat | SourceOf(ttl, s.history, j, call.op) ensures j == i {
      OneSource(ttl, s.history, i, j, call.op);
    }
    forall j: nat, k: nat | j < k && CreatesAt(ttl, s.history, j, call.id) && CreatesAt(ttl, s.history, k, call.id)
      ensures s.history[k].now >= s.history[j].stamp + ttl
    {
      CreationsAreSpaced(ttl, s.history, j, k, call.id);
    }
  }

  // ---------------------------------------------------------------- cleanup under any schedule

  function NoCleanups(steps: seq<Step>): seq<Step> {
    if steps == [] then []
    else
      var n := |steps| - 1;
      NoCleanups(steps[..n]) + (if steps[n].CleanupExpired? then [] else [steps[n]])
  }

  ghost predicate SamePhase(p: Phase, q: Phase) {
    match p
    case Idle => q.Idle?
    case Reading(id, model, _) => q.Reading? && q.id == id && q.model == model
    case Writing(id, model, _) => q.Writing? && q.id == id && q.model == model
  }

  /** Equal but for expired entries and the numbering of atomic operations. */
  ghost predicate Alike(ttl: nat, a: State, b: State) {
    && a.clock == b.clock && SameLive(ttl, a.sessions, b.sessions, a.clock)
    && Infos(a.calls) == Infos(b.calls)
    && forall tid: Tid :: SamePhase(PhaseOf(a, tid), PhaseOf(b, tid))
  }

  lemma ReturnedAlike(ttl: nat, a: State, b: State, tid: Tid, sa: Sessions, sb: Sessions, op: Op, info: Info)
    requires Alike(ttl, a, b) && op.GetOrCreate? && !PhaseOf(a, tid).Idle? && !PhaseOf(b, tid).Idle?
    requires SameLive(ttl, sa, sb, op.stamp)
    ensures Alike(ttl, Returned(a, tid, sa, op, info), Returned(b, tid, sb, op, info))
  {
    var a', b' := Returned(a, tid, sa, op, info), Returned(b, tid, sb, op, info);
    assert Infos(a'.calls) == Infos(a.calls) + [info];
    assert Infos(b'.calls) == Infos(b.calls) + [info];
    forall t: Tid ensures SamePhase(PhaseOf(a', t), PhaseOf(b', t)) {
      assert SamePhase(PhaseOf(a, t), PhaseOf(b, t));
    }
  }

  lemma AlikeStep(ttl: nat, a: State, b: State, step: Step)
    requires Alike(ttl, a, b)
    ensures Alike(ttl, Next(ttl, a, step), if step.CleanupExpired? then b else Next(ttl, b, step))
  {
    match step
    case Tick(now) =>
      if a.clock <= now {
        SameLiveLater(ttl, a.sessions, b.sessions, a.clock, now);
        PhasesKept(ttl, a, b, Next(ttl, a, step), Next(ttl, b, step));
      }
    case Invoke(tid, _, _) =>
      assert SamePhase(PhaseOf(a, tid), PhaseOf(b, tid));
      forall t: Tid ensures SamePhase(PhaseOf(Next(ttl, a, step), t), PhaseOf(Next(ttl, b, step), t)) {
        assert SamePhase(PhaseOf(a, t), PhaseOf(b, t));
      }
    case ReadSection(tid) =>
      var p := PhaseOf(a, tid);
      assert SamePhase(p, PhaseOf(b, tid));
      if p.Reading? {
        if Live(ttl, a.sessions, p.id, a.clock) {
          ReturnedAlike(ttl, a, b, tid, a.sessions, b.sessions,
                        GetOrCreate(p.id, p.model, a.clock, a.clock), InfoOf(a.sessions[p.id]));
        } else {
          forall t: Tid ensures SamePhase(PhaseOf(Next(ttl, a, step), t), PhaseOf(Next(ttl, b, step), t)) {
            assert SamePhase(PhaseOf(a, t), PhaseOf(b, t));
          }
        }
      }
    case WriteSection(tid, stamp) =>
      var p := PhaseOf(a, tid);
      assert SamePhase(p, PhaseOf(b, tid));
      if p.Writing? && a.clock <= stamp {
        var op := GetOrCreate(p.id, p.model, a.clock, stamp);
        SameLiveStep(ttl, a.sessions, b.sessions, a.clock, op);
        ReturnedAlike(ttl, a, b, tid, Apply(ttl, a.sessions, op), Apply(ttl, b.sessions, op), op,
                      WriteInfo(ttl, a.sessions, p.id, p.model, a.clock));
      }
    case RecordRequest(id, h) =>
      SameLiveStep(ttl, a.sessions, b.sessions, a.clock, Record(id, h));
      PhasesKept(ttl, a, b, Next(ttl, a, step), Next(ttl, b, step));
    case CleanupExpired =>
      SameLiveStep(ttl, a.sessions, b.sessions, a.clock, Cleanup(a.clock));
      PhasesKept(ttl, a, b, Next(ttl, a, step), b);
  }

  lemma PhasesKept(ttl: nat, a: State, b: State, a': State, b': State)
    requires Alike(ttl, a, b) && a'.phases == a.phases && b'.phases == b.phases
    ensures forall t: Tid :: SamePhase(PhaseOf(a', t), PhaseOf(b', t))
  {
    forall t: Tid ensures SamePhase(PhaseOf(a', t), PhaseOf(b', t)) {
      assert SamePhase(PhaseOf(a, t), PhaseOf(b, t));
    }
  }

  /** Taking every cleanup out of a schedule changes no call's result. */
  lemma CleanupsInvisible(ttl: nat, steps: seq<Step>)
    ensures Infos(Exec(ttl, steps).calls) == Infos(Exec(ttl, NoCleanups(steps)).calls)
  {
    AlikeExec(ttl, steps);
  }

  lemma {:induction false} AlikeExec(ttl: nat, steps: seq<Step>)
    ensures Alike(ttl, Exec(ttl, steps), Exec(ttl, NoCleanups(steps)))
  {
    if steps != [] {
      var n := |steps| - 1;
      AlikeExec(ttl, steps[..n]);
      AlikeStep(ttl, Exec(ttl, steps[..n]), Exec(ttl, NoCleanups(steps[..n])), steps[n]);
      if !steps[n].CleanupExpired? {
        assert (NoCleanups(steps[..n]) + [steps[n]])[..|NoCleanups(steps[..n])|] == NoCleanups(steps[..n]);
      } else {
        assert NoCleanups(steps) == NoCleanups(steps[..n]);
      }
    }
  }
}
