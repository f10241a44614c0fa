/** All gauges of rise-rewards together. They share the emission, the epoch counter and the rewards
    vault; an instruction on one gauge is, to every other gauge, one of the instructions by which
    `Gauges` describes its surroundings. So what is proved of one gauge holds of each of them, and
    one can ask what an epoch costs altogether. */
module GaugeSystem {
  import opened Arithmetic
  import opened MapSums
  import opened Gauges

  type System = map<Id, State>

  /** An instruction and the gauge it names. */
  datatype Call = Call(gauge: Id, ix: Instruction)

  /** What an accepted instruction on one gauge is to the others. */
  function Echo(s: State, ix: Instruction): seq<Instruction>
    requires Accepts(s, ix)
  {
    match ix
    case CheckpointGauge(slot) => [CheckpointOtherGauge(slot)]
    case CheckpointOtherGauge(_) => [ix]
    case SetEpochEmissions(_) => [ix]
    case SetRewardsVault(_) => [ix]
    case ClaimRewards(_) => [SetRewardsVault(Apply(s, ix).rewardsVault)]
    case ForceWithdrawLp(_) => [SetRewardsVault(Apply(s, ix).rewardsVault)]
    case DepositLp(_, _, _) => []
    case WithdrawLp(_, _) => []
    case SetGaugeWeight(_) => []
  }

  predicate AcceptsCall(sys: System, c: Call) { c.gauge in sys && Accepts(sys[c.gauge], c.ix) }

  /** What gauge `g` sees of a call. */
  function Seen(sys: System, c: Call, g: Id): seq<Instruction> {
    if !AcceptsCall(sys, c) then []
    else if g == c.gauge then [c.ix]
    else Echo(sys[c.gauge], c.ix)
  }

  function StepAll(sys: System, c: Call): System { map g | g in sys :: Run(sys[g], Seen(sys, c, g)) }

  function RunAll(sys: System, calls: seq<Call>): System
    decreases |calls|
  {
    if calls == [] then sys else RunAll(StepAll(sys, calls[0]), calls[1..])
  }

  function SeenAll(sys: System, calls: seq<Call>, g: Id): seq<Instruction>
    decreases |calls|
  {
    if calls == [] then [] else Seen(sys, calls[0], g) + SeenAll(StepAll(sys, calls[0]), calls[1..], g)
  }

  // --- Every gauge of the system is a gauge -------------------------------------

  lemma {:induction false} RunConcat(s: State, ixs: seq<Instruction>, more: seq<Instruction>)
    ensures Run(s, ixs + more) == Run(Run(s, ixs), more)
    decreases |ixs|
  {
    if ixs == [] {
      assert ixs + more == more;
    } else {
      assert (ixs + more)[1..] == ixs[1..] + more;
      RunConcat(Step(s, ixs[0]), ixs[1..], more);
    }
  }

  /** Every run of the system is, to each of its gauges, a run of that gauge: whatever holds of all runs
      of a gauge holds of each gauge beside all others. */
  lemma {:induction false} EachGaugeRuns(sys: System, calls: seq<Call>, g: Id)
    requires g in sys
    ensures g in RunAll(sys, calls) && RunAll(sys, calls)[g] == Run(sys[g], SeenAll(sys, calls, g))
    decreases |calls|
  {
    if calls == [] {
    } else {
      EachGaugeRuns(StepAll(sys, calls[0]), calls[1..], g);
      RunConcat(sys[g], Seen(sys, calls[0], g), SeenAll(StepAll(sys, calls[0]), calls[1..], g));
    }
  }

  lemma RunOne(s: State, ix: Instruction)
    ensures Run(s, [ix]) == Step(s, ix)
  {
    assert [ix][1..] == [];
  }

  // --- The shared configuration ---------------------------------------------------

  predicate SameConfig(s: State, t: State) {
    && s.epochEmissions == t.epochEmissions && s.currentEpoch == t.currentEpoch && s.rewardsVault == t.rewardsVault
    && s.epochStartSlot == t.epochStartSlot && s.slotsPerEpoch == t.slotsPerEpoch
  }

  ghost predicate Consistent(sys: System) {
    && (forall g :: g in sys ==> Inv(sys[g]))
    && (forall g, h :: g in sys && h in sys ==> SameConfig(sys[g], sys[h]))
  }

  lemma AdvanceKeepsConfig(s: State, t: State, slot: u64)
    requires SameConfig(s, t)
    ensures SameConfig(Advanced(s, slot), Advanced(t, slot))
  {
  }

  lemma CheckpointKeepsConfig(s: State, t: State, slot: u64)
    requires SameConfig(s, t) && Accepts(s, CheckpointGauge(slot))
    ensures SameConfig(Step(s, CheckpointGauge(slot)), Step(t, CheckpointOtherGauge(slot)))
  {
    AdvanceKeepsConfig(s, t, slot);
  }

  /** An instruction and its echo do the same to the shared accounts. */
  lemma EchoKeepsConfig(s: State, t: State, ix: Instruction)
    requires Inv(s) && Inv(t) && SameConfig(s, t) && Accepts(s, ix)
    ensures SameConfig(Step(s, ix), Run(t, Echo(s, ix))) && Inv(Run(t, Echo(s, ix)))
  {
    RunKeepsInv(t, Echo(s, ix));
    if Echo(s, ix) != [] { RunOne(t, Echo(s, ix)[0]); }
    if ix.CheckpointGauge? {
      CheckpointKeepsConfig(s, t, ix.slot);
    } else if ix.CheckpointOtherGauge? {
      AdvanceKeepsConfig(s, t, ix.slot);
    }
  }

  lemma StepKeepsConsistent(sys: System, c: Call)
    requires Consistent(sys)
    ensures Consistent(StepAll(sys, c))
  {
    if AcceptsCall(sys, c) {
      var s := sys[c.gauge];
      StepKeepsInv(s, c.ix);
      RunOne(s, c.ix);
      forall g | g in sys
        ensures Inv(StepAll(sys, c)[g]) && SameConfig(Step(s, c.ix), StepAll(sys, c)[g])
      {
        if g != c.gauge { EchoKeepsConfig(s, sys[g], c.ix); }
      }
    }
  }

  // --- What an epoch costs ------------------------------------------------------------

  function AllocatedAt(s: State, e: nat): nat { if e in s.allocations then s.allocations[e] else 0 }

  ghost function AllocatedIn(e: nat): State -> int { (s: State) => AllocatedAt(s, e) }

  ghost const WeightOf: State -> int := (s: State) => s.weightBps

  /** What the current epoch has allocated to a gauge, or will at its weight. */
  function Claim(s: State): nat {
    if s.lastCheckpointEpoch < s.currentEpoch then Allocation(s) else AllocatedAt(s, s.currentEpoch)
  }

  ghost const ClaimOf: State -> int := (s: State) => Claim(s)

  predicate IsConfig(ix: Instruction) { ix.SetGaugeWeight? || ix.SetEpochEmissions? }

  /** Between two states of a gauge: its weight and emission stay, and so does its part of the epoch,
      which is its full allocation when an epoch begins. */
  ghost predicate ClaimKept(s: State, t: State) {
    && t.weightBps == s.weightBps && t.epochEmissions == s.epochEmissions && s.currentEpoch <= t.currentEpoch
    && Claim(t) == if t.currentEpoch == s.currentEpoch then Claim(s) else Allocation(s)
  }

  lemma AdvanceKeepsClaim(s: State, slot: nat)
    requires Inv(s)
    ensures ClaimKept(s, Advanced(s, slot)) && Advanced(s, slot).lastCheckpointEpoch <= s.currentEpoch
  {
  }

  lemma AllocationKeepsClaim(s: State)
    requires s.lastCheckpointEpoch < s.currentEpoch
    ensures ClaimKept(s, Allocated(s))
  {
    var t := Allocated(s);
    assert t.currentEpoch in t.allocations && t.allocations[t.currentEpoch] == Allocation(s);
  }

  lemma CheckpointKeepsClaim(s: State, slot: nat)
    requires Inv(s)
    ensures ClaimKept(s, Checkpointed(s, slot))
  {
    var a := Advanced(s, slot);
    AdvanceKeepsClaim(s, slot);
    if a.lastCheckpointEpoch < a.currentEpoch {
      AllocationKeepsClaim(a);
      assert Allocation(a) == Allocation(s);
    }
  }

  lemma StakersKeepClaim(s: State, ix: Instruction)
    requires Accepts(s, ix) && !IsConfig(ix) && !ix.CheckpointGauge? && !ix.CheckpointOtherGauge?
    ensures var t := Apply(s, ix);
      && t.weightBps == s.weightBps && t.epochEmissions == s.epochEmissions && t.currentEpoch == s.currentEpoch
      && t.lastCheckpointEpoch == s.lastCheckpointEpoch && t.allocations == s.allocations
  {
  }

  lemma StepKeepsClaim(s: State, ix: Instruction)
    requires Inv(s) && !IsConfig(ix)
    ensures ClaimKept(s, Step(s, ix))
  {
    if !Accepts(s, ix) {
    } else if ix.CheckpointGauge? {
      CheckpointKeepsClaim(s, ix.slot);
    } else if ix.CheckpointOtherGauge? {
      AdvanceKeepsClaim(s, ix.slot);
    } else {
      StakersKeepClaim(s, ix);
    }
  }

  /** No call but one on the configuration changes a gauge's part of the epoch. */
  lemma CallKeepsClaim(sys: System, c: Call, g: Id)
    requires Consistent(sys) && g in sys && !IsConfig(c.ix)
    ensures ClaimKept(sys[g], StepAll(sys, c)[g])
  {
    var ixs := Seen(sys, c, g);
    if ixs != [] {
      RunOne(sys[g], ixs[0]);
      StepKeepsClaim(sys[g], ixs[0]);
    }
  }

  ghost const AllocationOf: State -> int := (s: State) => Allocation(s)

  lemma AllocationIsPart(s: State)
    ensures BPS * Allocation(s) <= s.epochEmissions * s.weightBps
  {
    FloorBounds(s.epochEmissions * s.weightBps, BPS);
  }

  lemma Cancel(x: int, y: int)
    requires BPS * x <= BPS * y
    ensures x <= y
  {
  }

  /** Weights that sum to at most the whole share out at most the emission. */
  lemma AllocationsFit(sys: System, k: Id)
    requires Consistent(sys) && k in sys && Sum(sys, WeightOf) <= 10_000
    ensures Sum(sys, AllocationOf) <= sys[k].epochEmissions
  {
    var e := sys[k].epochEmissions;
    var scaled, parts := (s: State) => BPS * AllocationOf(s), (s: State) => e * WeightOf(s);
    forall g | g in sys ensures scaled(sys[g]) <= parts(sys[g]) {
      assert sys[g].epochEmissions == e;
      AllocationIsPart(sys[g]);
    }
    SumPointwise(sys, scaled, sys, parts);
    SumScaled(sys, scaled, AllocationOf, BPS);
    SumScaled(sys, parts, WeightOf, e);
    MulMonotone(Sum(sys, WeightOf), BPS, e);
    Cancel(Sum(sys, AllocationOf), e);
  }

  /** The epoch's emission covers what it has allocated and what it still will. */
  ghost predicate Budgeted(sys: System) {
    && Sum(sys, WeightOf) <= 10_000
    && forall k :: k in sys ==> Sum(sys, ClaimOf) <= sys[k].epochEmissions
  }

  lemma CallKeepsBudget(sys: System, c: Call)
    requires Consistent(sys) && Budgeted(sys) && !IsConfig(c.ix)
    ensures Budgeted(StepAll(sys, c))
  {
    var t := StepAll(sys, c);
    StepKeepsConsistent(sys, c);
    forall g | g in sys ensures ClaimKept(sys[g], t[g]) { CallKeepsClaim(sys, c, g); }
    SumPointwise(t, WeightOf, sys, WeightOf);
    forall k | k in t ensures Sum(t, ClaimOf) <= t[k].epochEmissions {
      if t[k].currentEpoch == sys[k].currentEpoch {
        SumPointwise(t, ClaimOf, sys, ClaimOf);
      } else {
        SumPointwise(t, ClaimOf, sys, AllocationOf);
        AllocationsFit(sys, k);
      }
    }
  }

  /** Weights and emission are changed only so that the current epoch stays within its emission: what
      gauges were allocated already counts as it is, the others at their new weight. */
  ghost predicate Prudent(sys: System, c: Call) { IsConfig(c.ix) ==> Budgeted(StepAll(sys, c)) }

  ghost predicate PrudentRun(sys: System, calls: seq<Call>)
    decreases |calls|
  {
    calls == [] || (Prudent(sys, calls[0]) && PrudentRun(StepAll(sys, calls[0]), calls[1..]))
  }

  lemma {:induction false} RunKeepsBudget(sys: System, calls: seq<Call>)
    requires Consistent(sys) && Budgeted(sys) && PrudentRun(sys, calls)
    ensures Consistent(RunAll(sys, calls)) && Budgeted(RunAll(sys, calls))
    decreases |calls|
  {
    if calls == [] {
    } else {
      StepKeepsConsistent(sys, calls[0]);
      if !IsConfig(calls[0].ix) { CallKeepsBudget(sys, calls[0]); }
      RunKeepsBudget(StepAll(sys, calls[0]), calls[1..]);
    }
  }

  /** What was allocated in an epoch is among what it claims. */
  lemma AllocatedIsClaimed(s: State)
    requires Inv(s)
    ensures AllocatedAt(s, s.currentEpoch) <= Claim(s)
  {
  }

  /** New gauges beside each other. */
  ghost predicate AllCreated(sys: System) {
    && (forall g :: g in sys ==> Created(sys[g]))
    && (forall g, h :: g in sys && h in sys ==> SameConfig(sys[g], sys[h]))
  }

  lemma CreatedIsBudgeted(sys: System)
    requires AllCreated(sys)
    ensures Consistent(sys) && Budgeted(sys)
  {
    forall g | g in sys ensures Inv(sys[g]) { CreatedInv(sys[g]); }
    SumZero(sys, WeightOf);
    SumZero(sys, ClaimOf);
  }

  /** The emission of an epoch is all that it costs: at every moment of every prudent run, what the
      current epoch has allocated to all gauges together is at most the emission in force. */
  lemma EpochBudget(sys: System, calls: seq<Call>, k: Id)
    requires AllCreated(sys) && PrudentRun(sys, calls) && k in RunAll(sys, calls)
    ensures var t := RunAll(sys, calls);
      Sum(t, AllocatedIn(t[k].currentEpoch)) <= t[k].epochEmissions
  {
    var t := RunAll(sys, calls);
    CreatedIsBudgeted(sys);
    RunKeepsBudget(sys, calls);
    forall g | g in t ensures AllocatedIn(t[k].currentEpoch)(t[g]) <= ClaimOf(t[g]) { AllocatedIsClaimed(t[g]); }
    SumPointwise(t, AllocatedIn(t[k].currentEpoch), t, ClaimOf);
  }

  // --- The condition is exact -----------------------------------------------------------

  ghost predicate NoConfig(calls: seq<Call>) { forall i :: 0 <= i < |calls| ==> !IsConfig(calls[i].ix) }

  lemma {:induction false} RunKeepsClaim(sys: System, calls: seq<Call>, g: Id)
    requires Consistent(sys) && NoConfig(calls) && g in sys
    ensures g in RunAll(sys, calls) && ClaimKept(sys[g], RunAll(sys, calls)[g])
    decreases |calls|
  {
    if calls == [] {
    } else {
      var m := StepAll(sys, calls[0]);
      StepKeepsConsistent(sys, calls[0]);
      CallKeepsClaim(sys, calls[0], g);
      assert Allocation(m[g]) == Allocation(sys[g]);
      RunKeepsClaim(m, calls[1..], g);
    }
  }

  lemma {:induction false} RunKeepsGauges(sys: System, calls: seq<Call>)
    ensures RunAll(sys, calls).Keys == sys.Keys
    decreases |calls|
  {
    if calls == [] {
    } else {
      RunKeepsGauges(StepAll(sys, calls[0]), calls[1..]);
    }
  }

  /** Once every gauge was checkpointed, the epoch has cost exactly what it claimed before: so it stays
      within its emission if and only if it did right after the last change of weights or emission. */
  lemma EpochCosts(sys: System, calls: seq<Call>, e: nat)
    requires Consistent(sys) && NoConfig(calls)
    requires forall g :: g in sys ==> sys[g].currentEpoch == e
    requires var t := RunAll(sys, calls);
      forall g :: g in t ==> t[g].currentEpoch == e == t[g].lastCheckpointEpoch
    ensures Sum(RunAll(sys, calls), AllocatedIn(e)) == Sum(sys, ClaimOf)
  {
    var t := RunAll(sys, calls);
    RunKeepsGauges(sys, calls);
    forall g | g in sys ensures g in t && AllocatedIn(e)(t[g]) == ClaimOf(sys[g]) {
      RunKeepsClaim(sys, calls, g);
    }
    SumPointwise(t, AllocatedIn(e), sys, ClaimOf);
    SumPointwise(sys, ClaimOf, t, AllocatedIn(e));
  }

  lemma StepKeepsPast(s: State, ix: Instruction, e: nat)
    requires e < s.currentEpoch
    ensures e < Step(s, ix).currentEpoch && AllocatedAt(Step(s, ix), e) == AllocatedAt(s, e)
  {
  }

  lemma CallKeepsPast(sys: System, c: Call, g: Id, e: nat)
    requires g in sys && e < sys[g].currentEpoch
    ensures e < StepAll(sys, c)[g].currentEpoch && AllocatedAt(StepAll(sys, c)[g], e) == AllocatedAt(sys[g], e)
  {
    var ixs := Seen(sys, c, g);
    if ixs != [] {
      RunOne(sys[g], ixs[0]);
      StepKeepsPast(sys[g], ixs[0], e);
    }
  }

  /** What earlier epochs cost never changes again, prudent or not. */
  lemma {:induction false} PastEpochsStay(sys: System, calls: seq<Call>, e: nat)
    requires forall g :: g in sys ==> e < sys[g].currentEpoch
    ensures Sum(RunAll(sys, calls), AllocatedIn(e)) == Sum(sys, AllocatedIn(e))
    decreases |calls|
  {
    if calls == [] {
    } else {
      var m := StepAll(sys, calls[0]);
      forall g | g in sys ensures e < m[g].currentEpoch && AllocatedIn(e)(m[g]) == AllocatedIn(e)(sys[g]) {
        CallKeepsPast(sys, calls[0], g, e);
      }
      SumPointwise(m, AllocatedIn(e), sys, AllocatedIn(e));
      SumPointwise(sys, AllocatedIn(e), m, AllocatedIn(e));
      PastEpochsStay(m, calls[1..], e);
    }
  }

  // --- Weights that move within an epoch ----------------------------------------------------

  lemma {:induction false} RunAllThen(sys: System, calls: seq<Call>, c: Call)
    ensures RunAll(sys, calls + [c]) == StepAll(RunAll(sys, calls), c)
    decreases |calls|
  {
    if calls == [] {
      assert (calls + [c])[1..] == [];
    } else {
      assert (calls + [c])[1..] == calls[1..] + [c];
      RunAllThen(StepAll(sys, calls[0]), calls[1..], c);
    }
  }

  lemma SumOfTwo(sys: System, f: State -> int, j: Id, k: Id)
    requires sys.Keys == {j, k} && j != k
    ensures Sum(sys, f) == f(sys[j]) + f(sys[k])
  {
    SumSplit(sys, f, j);
    SumSplit(sys - {j}, f, k);
    assert sys - {j} - {k} == map[];
  }

  /** The weights sum to at most the whole at every moment of a run. */
  ghost predicate Light(sys: System, calls: seq<Call>) {
    forall i :: 0 <= i <= |calls| ==> Sum(RunAll(sys, calls[..i]), WeightOf) <= 10_000
  }

  lemma LightThen(sys: System, calls: seq<Call>, c: Call)
    requires Light(sys, calls) && Sum(StepAll(RunAll(sys, calls), c), WeightOf) <= 10_000
    ensures Light(sys, calls + [c])
  {
    RunAllThen(sys, calls, c);
    forall i | 0 <= i <= |calls| + 1 ensures Sum(RunAll(sys, (calls + [c])[..i]), WeightOf) <= 10_000 {
      if i <= |calls| {
        assert (calls + [c])[..i] == calls[..i];
      } else {
        assert (calls + [c])[..i] == calls + [c];
      }
    }
  }

  lemma CallTo(t: System, c: Call, g: Id)
    requires g in t && AcceptsCall(t, c)
    ensures g == c.gauge ==> StepAll(t, c)[g] == Apply(t[g], c.ix)
    ensures g != c.gauge && c.ix.SetGaugeWeight? ==> StepAll(t, c)[g] == t[g]
    ensures g != c.gauge && c.ix.CheckpointGauge? ==> StepAll(t, c)[g] == Step(t[g], CheckpointOtherGauge(c.ix.slot))
  {
    var ixs := Seen(t, c, g);
    if ixs != [] { RunOne(t[g], ixs[0]); }
  }

  /** One more call of such a run on two gauges. */
  lemma LightCall(sys: System, calls: seq<Call>, j: Id, k: Id, c: Call) returns (calls': seq<Call>, t: System)
    requires RunAll(sys, calls).Keys == {j, k} && j != k && Light(sys, calls)
    requires var t := StepAll(RunAll(sys, calls), c); t[j].weightBps + t[k].weightBps <= 10_000
    ensures t == RunAll(sys, calls') == StepAll(RunAll(sys, calls), c) && t.Keys == {j, k} && Light(sys, calls')
  {
    calls', t := calls + [c], StepAll(RunAll(sys, calls), c);
    SumOfTwo(t, WeightOf, j, k);
    RunAllThen(sys, calls, c);
    LightThen(sys, calls, c);
  }

  lemma MoveWeight(sys: System, calls: seq<Call>, j: Id, k: Id, bps: u64) returns (calls': seq<Call>, t: System)
    requires RunAll(sys, calls).Keys == {j, k} && j != k && Light(sys, calls)
    requires bps + RunAll(sys, calls)[k].weightBps <= 10_000
    ensures t == RunAll(sys, calls') && t.Keys == {j, k} && Light(sys, calls')
    ensures t[j] == RunAll(sys, calls)[j].(weightBps := bps) && t[k] == RunAll(sys, calls)[k]
  {
    var c := Call(j, SetGaugeWeight(bps));
    CallTo(RunAll(sys, calls), c, j);
    CallTo(RunAll(sys, calls), c, k);
    calls', t := LightCall(sys, calls, j, k, c);
  }

  lemma CheckpointPair(sys: System, calls: seq<Call>, j: Id, k: Id, slot: u64) returns (calls': seq<Call>, t: System)
    requires RunAll(sys, calls).Keys == {j, k} && j != k && Light(sys, calls)
    requires var t := RunAll(sys, calls);
      && CanCheckpoint(t[j], slot) && Advanced(t[k], slot).currentEpoch < U64
      && t[j].weightBps + t[k].weightBps <= 10_000
    ensures t == RunAll(sys, calls') && t.Keys == {j, k} && Light(sys, calls')
    ensures t[j] == Checkpointed(RunAll(sys, calls)[j], slot) && t[k] == Advanced(RunAll(sys, calls)[k], slot)
  {
    var c := Call(j, CheckpointGauge(slot));
    CallTo(RunAll(sys, calls), c, j);
    CallTo(RunAll(sys, calls), c, k);
    WeightStays(RunAll(sys, calls)[j], RunAll(sys, calls)[k], slot);
    calls', t := LightCall(sys, calls, j, k, c);
  }

  lemma WeightStays(s: State, t: State, slot: nat)
    ensures Checkpointed(s, slot).weightBps == s.weightBps && Advanced(t, slot).weightBps == t.weightBps
  {
  }

  /** A gauge without stakers and rollover that has the whole weight and is due. */
  ghost predicate HasTurn(s: State, slot: nat) {
    && s.weightBps == 10_000 && s.totalLp == 0 && s.pendingEmissions == 0 && s.epochEmissions < U64
    && s.lastCheckpointEpoch < Advanced(s, slot).currentEpoch < U64
  }

  /** It is allocated the whole emission. */
  lemma AllocateWhole(s: State, slot: nat)
    requires HasTurn(s, slot)
    ensures var t := Checkpointed(s, slot);
      && CanCheckpoint(s, slot) && t.currentEpoch == Advanced(s, slot).currentEpoch
      && t.epochStartSlot == Advanced(s, slot).epochStartSlot && t.slotsPerEpoch == s.slotsPerEpoch
      && AllocatedAt(t, t.currentEpoch) == s.epochEmissions == t.epochEmissions
  {
    ShareAtMost(s.epochEmissions, BPS, BPS);
  }

  /** The clock does not move twice at the same slot. */
  lemma AdvancedOnce(s: State, slot: nat)
    requires s.epochStartSlot == slot && 0 < s.slotsPerEpoch
    ensures Advanced(s, slot) == s.(latestSlot := Max(s.latestSlot, slot))
  {
  }

  lemma StartLight(sys: System)
    requires AllCreated(sys)
    ensures Light(sys, []) && RunAll(sys, []) == sys
  {
    CreatedIsBudgeted(sys);
    var none: seq<Call> := [];
    assert none[..0] == none;
  }

  /** The first gauge was allocated the whole emission; the second one is still due, at the same slot. */
  ghost predicate AfterFirst(s: State, t: State, slot: nat, emission: nat) {
    && s.weightBps == 10_000 && s.epochStartSlot == slot == t.epochStartSlot && 0 < s.slotsPerEpoch == t.slotsPerEpoch
    && s.currentEpoch == t.currentEpoch < U64 && AllocatedAt(s, s.currentEpoch) == emission == s.epochEmissions
    && t.weightBps == 0 && t.totalLp == 0 && t.pendingEmissions == 0 && t.epochEmissions == emission < U64
    && t.lastCheckpointEpoch < t.currentEpoch
  }

  lemma FirstTurn(sys: System, j: Id, k: Id, slot: u64) returns (calls: seq<Call>, t: System)
    requires AllCreated(sys) && sys.Keys == {j, k} && j != k && sys[j].currentEpoch + 1 < U64
    requires sys[j].epochStartSlot + sys[j].slotsPerEpoch == slot
    ensures t == RunAll(sys, calls) && t.Keys == {j, k} && Light(sys, calls)
    ensures AfterFirst(t[j], t[k], slot, sys[j].epochEmissions)
  {
    StartLight(sys);
    calls, t := MoveWeight(sys, [], j, k, 10_000);
    AllocateWhole(t[j], slot);
    calls, t := CheckpointPair(sys, calls, j, k, slot);
  }

  /** Both gauges have the whole emission of one epoch. */
  lemma SecondTurn(s: State, t: State, slot: nat, emission: nat)
    requires AfterFirst(s, t, slot, emission)
    ensures var u, v := Advanced(s.(weightBps := 0), slot), Checkpointed(t.(weightBps := 10_000), slot);
      && CanCheckpoint(t.(weightBps := 10_000), slot) && u.currentEpoch == v.currentEpoch < U64
      && AllocatedAt(u, u.currentEpoch) == emission == AllocatedAt(v, v.currentEpoch) && u.epochEmissions == emission
  {
    AdvancedOnce(s.(weightBps := 0), slot);
    AdvancedOnce(t.(weightBps := 10_000), slot);
    AllocateWhole(t.(weightBps := 10_000), slot);
  }

  /** Prudence is needed, although the weights sum to at most the whole at every moment: of two gauges
      that are checkpointed one after the other, each with the whole weight moved to it before, each is
      allocated the whole emission of the same epoch. */
  lemma MovedWeightsOverspend(sys: System, j: Id, k: Id) returns (calls: seq<Call>)
    requires AllCreated(sys) && sys.Keys == {j, k} && j != k
    requires sys[j].currentEpoch + 1 < U64 && sys[j].epochStartSlot + sys[j].slotsPerEpoch < U64
    ensures Light(sys, calls)
    ensures var t := RunAll(sys, calls);
      && t.Keys == {j, k} && t[j].epochEmissions == sys[j].epochEmissions
      && Sum(t, AllocatedIn(t[j].currentEpoch)) == 2 * sys[j].epochEmissions
  {
    var slot := sys[j].epochStartSlot + sys[j].slotsPerEpoch;
    var t;
    calls, t := FirstTurn(sys, j, k, slot);
    SecondTurn(t[j], t[k], slot, sys[j].epochEmissions);
    calls, t := MoveWeight(sys, calls, j, k, 0);
    calls, t := MoveWeight(sys, calls, k, j, 10_000);
    calls, t := CheckpointPair(sys, calls, k, j, slot);
    SumOfTwo(t, AllocatedIn(t[j].currentEpoch), j, k);
  }
}
