/**
 The restartable deployer. A run loads the saved registry, deploys what is missing and
 saves after every contract; the process may die at any await. What survives a death is
 the saved file and whatever reached the chain.
 */
module Deployer {
  import opened DeploymentNames

  // --- Registry and chain ---

  // `address` 0 stands for a missing address, which counts as not deployed; `verified` says
  // whether the entry has a link to the block explorer.
  datatype Entry = Entry(abi: string, address: nat, verified: bool)

  type Registry = map<string, Entry>

  datatype Arg = Config(name: string) | DebtCeiling(token: string) | Number(value: nat) | AddressOf(slot: Slot)

  // A constructor argument as it reached the chain.
  datatype Value = Fixed(arg: Arg) | At(address: nat)

  datatype Contract = Contract(abi: string, args: seq<Value>)

  predicate Recorded(r: Registry, slot: Slot) {
    NameOf(slot) in r && r[NameOf(slot)].address != 0
  }

  function AddressIn(r: Registry, slot: Slot): nat {
    if NameOf(slot) in r then r[NameOf(slot)].address else 0
  }

  function Abi(slot: Slot): string {
    match slot
    case Shared(ARTHStablecoin) => "LiquityLUSDToken"
    case Shared(s) => SharedName(s)
    case PerToken(_, kind) => Suffix(kind)
  }

  // The constructor arguments of `deployLiquityCore`.
  function Params(slot: Slot): seq<Arg> {
    match slot
    case Shared(GMUOracle) => [Number(2000000)]
    case Shared(_) => []
    case PerToken(t, Governance) =>
      [Config("TIMELOCK"), AddressOf(PerToken(t, TroveManager)), AddressOf(PerToken(t, BorrowerOperations)),
       AddressOf(PerToken(t, PriceFeed)), AddressOf(Shared(EcosystemFund)), DebtCeiling(t)]
    case PerToken(t, IncentivePool) =>
      [Config("DEPLOYER"), Config("MAHA"), AddressOf(PerToken(t, TroveManager)), Number(86400 * 30),
       Config("TIMELOCK")]
    case PerToken(t, MultiTroveGetter) =>
      [AddressOf(PerToken(t, TroveManager)), AddressOf(PerToken(t, SortedTroves))]
    case PerToken(_, _) => []
  }

  function Resolve(args: seq<Arg>, r: Registry): seq<Value> {
    seq(|args|, i requires 0 <= i < |args| =>
      if args[i].AddressOf? then At(AddressIn(r, args[i].slot)) else Fixed(args[i]))
  }

  predicate Resolvable(args: seq<Arg>, r: Registry) {
    forall i :: 0 <= i < |args| && args[i].AddressOf? ==> Recorded(r, args[i].slot)
  }

  // The contracts of one collateral, in deployment order.
  function Plan(t: string): seq<Slot> {
    [PerToken(t, PriceFeed), Shared(EcosystemFund), Shared(GMUOracle), Shared(ARTHStablecoin),
     PerToken(t, SortedTroves), PerToken(t, TroveManager), PerToken(t, ActivePool),
     PerToken(t, StabilityPool), PerToken(t, GasPool), PerToken(t, DefaultPool),
     PerToken(t, CollSurplusPool), PerToken(t, BorrowerOperations), PerToken(t, HintHelpers),
     PerToken(t, Governance), PerToken(t, IncentivePool), PerToken(t, MultiTroveGetter)]
  }

  // The contracts submitted to the block explorer: those of the collateral, none shared.
  function ToVerify(t: string): seq<Slot> {
    [PerToken(t, SortedTroves), PerToken(t, TroveManager), PerToken(t, ActivePool),
     PerToken(t, StabilityPool), PerToken(t, GasPool), PerToken(t, DefaultPool),
     PerToken(t, CollSurplusPool), PerToken(t, BorrowerOperations), PerToken(t, HintHelpers),
     PerToken(t, PriceFeed), PerToken(t, IncentivePool), PerToken(t, Governance),
     PerToken(t, MultiTroveGetter)]
  }

  // The contracts that are told of the others, unless their ownership is renounced.
  function ToConnect(t: string): seq<Slot> {
    [PerToken(t, SortedTroves), PerToken(t, TroveManager), PerToken(t, BorrowerOperations),
     PerToken(t, StabilityPool), PerToken(t, ActivePool), PerToken(t, DefaultPool),
     PerToken(t, CollSurplusPool), PerToken(t, HintHelpers)]
  }

  // How submitting a contract to the explorer ends. An error of the plugin, as for a contract
  // verified before, is taken for success.
  datatype Answer = Verified | PluginError | OtherError

  // What a process finds outside: whether an explorer is configured, how it answers for a
  // contract and whether the ownership of one is renounced. The answers may change over
  // time, which is counted in awaits.
  datatype World = World(etherscan: bool, answer: (nat, Slot) -> Answer, renounced: (nat, Slot) -> bool)

  // --- One process ---

  // `ticks` is the number of awaits the process still survives.
  datatype Machine = Machine(file: Registry, chain: seq<Contract>, memory: Registry, ticks: nat, alive: bool)

  function Await(m: Machine): Machine {
    if !m.alive then m
    else if m.ticks == 0 then m.(alive := false) else m.(ticks := m.ticks - 1)
  }

  // The machine after the transaction is sent.
  function Sent(m: Machine, slot: Slot): Machine {
    m.(chain := m.chain + [Contract(Abi(slot), Resolve(Params(slot), m.memory))])
  }

  // The machine after the contract is confirmed, recorded and saved.
  function Saved(m: Machine, slot: Slot): Machine {
    var memory := m.memory[NameOf(slot) := Entry(Abi(slot), |m.chain|, false)];
    m.(memory := memory, file := memory)
  }

  // The transaction is sent between the first two awaits and confirmed at the third; only
  // then are the entry written and the file saved.
  function LoadOrDeploy(m: Machine, slot: Slot): Machine {
    if !m.alive then m
    else
      var m1 := Await(m);
      if !m1.alive || Recorded(m1.memory, slot) then m1
      else
        var m2 := Await(Sent(m1, slot));
        if !m2.alive then m2
        else
          var m3 := Await(m2);
          if !m3.alive then m3
          else Saved(m3, slot)
  }

  function DeployAll(m: Machine, slots: seq<Slot>): Machine
    decreases |slots|
  {
    if slots == [] then m else DeployAll(LoadOrDeploy(m, slots[0]), slots[1..])
  }

  // The machine after the explorer's link is recorded and saved.
  function Marked(m: Machine, slot: Slot): Machine
    requires NameOf(slot) in m.memory
  {
    var memory := m.memory[NameOf(slot) := m.memory[NameOf(slot)].(verified := true)];
    m.(memory := memory, file := memory)
  }

  function Verify(w: World, m: Machine, slot: Slot): Machine {
    var m1 := Await(m);
    if !m1.alive || !Recorded(m1.memory, slot) || m1.memory[NameOf(slot)].verified then m1
    else
      var m2 := Await(m1);
      if !m2.alive || w.answer(m2.ticks, slot).OtherError? then m2 else Marked(m2, slot)
  }

  function VerifyAll(w: World, m: Machine, slots: seq<Slot>): Machine
    decreases |slots|
  {
    if slots == [] then m else VerifyAll(w, Verify(w, m, slots[0]), slots[1..])
  }

  // Asking for the owner takes two awaits, a transaction three more; nothing is recorded.
  function Connect(w: World, m: Machine, slot: Slot): Machine {
    var asked := Await(Await(m));
    if !asked.alive || w.renounced(asked.ticks, slot) then asked else Await(Await(Await(asked)))
  }

  function ConnectAll(w: World, m: Machine, slots: seq<Slot>): Machine
    decreases |slots|
  {
    if slots == [] then m else ConnectAll(w, Connect(w, m, slots[0]), slots[1..])
  }

  // `deployLiquityCore` for one collateral.
  function DeployCore(w: World, m: Machine, t: string): Machine {
    var deployed := DeployAll(m, Plan(t));
    if w.etherscan then VerifyAll(w, deployed, ToVerify(t)) else deployed
  }

  // Deploys one collateral and connects its contracts.
  function DeployToken(w: World, m: Machine, t: string): Machine {
    Await(ConnectAll(w, Await(DeployCore(w, m, t)), ToConnect(t)))
  }

  function Deploy(w: World, m: Machine, tokens: seq<string>): Machine
    decreases |tokens|
  {
    if tokens == [] then m else Deploy(w, DeployToken(w, m, tokens[0]), tokens[1..])
  }

  // A fresh process starts from the saved file.
  function Restart(m: Machine, ticks: nat): Machine {
    m.(memory := m.file, ticks := ticks, alive := true)
  }

  datatype Session = Session(tokens: seq<string>, ticks: nat, world: World)

  function RunSession(m: Machine, s: Session): Machine {
    Deploy(s.world, Restart(m, s.ticks), s.tokens)
  }

  function RunSessions(m: Machine, sessions: seq<Session>): Machine
    decreases |sessions|
  {
    if sessions == [] then m else RunSessions(RunSession(m, sessions[0]), sessions[1..])
  }

  function Crashes(m: Machine, sessions: seq<Session>): nat
    decreases |sessions|
  {
    if sessions == [] then 0
    else
      var next := RunSession(m, sessions[0]);
      (if next.alive then 0 else 1) + Crashes(next, sessions[1..])
  }

  // --- What every step keeps ---

  // A recorded contract is on the chain, built from the addresses recorded for its
  // arguments.
  ghost predicate BuiltAsRecorded(r: Registry, chain: seq<Contract>, slot: Slot) {
    Recorded(r, slot) ==>
      && Resolvable(Params(slot), r)
      && AddressIn(r, slot) <= |chain|
      && chain[AddressIn(r, slot) - 1] == Contract(r[NameOf(slot)].abi, Resolve(Params(slot), r))
      && NameOf(slot) == RecordedName(slot, r[NameOf(slot)].abi)
  }

  // A contract of a collateral is recorded under the collateral and its ABI, a shared one
  // under its ABI, but for the stablecoin.
  function RecordedName(slot: Slot, abi: string): string {
    if slot.PerToken? then slot.token + abi
    else if slot.shared.ARTHStablecoin? && abi == "LiquityLUSDToken" then "ARTHStablecoin"
    else abi
  }

  // Only contracts of a collateral are ever verified.
  ghost predicate SharedUnverified(r: Registry) {
    forall s :: NameOf(Shared(s)) in r ==> !r[NameOf(Shared(s))].verified
  }

  ghost predicate Consistent(r: Registry, chain: seq<Contract>) {
    && (forall slot :: BuiltAsRecorded(r, chain, slot))
    && SharedUnverified(r)
    && (forall n <- r :: 0 < r[n].address <= |chain|)
    && (forall a, b :: a in r && b in r && a != b ==> r[a].address != r[b].address)
  }

  ghost predicate Inv(m: Machine) {
    Consistent(m.file, m.chain) && (m.alive ==> m.memory == m.file)
  }

  // An entry keeps its contract, and its verification once it has one.
  predicate KeepsEntries(r: Registry, r': Registry) {
    forall n <- r :: n in r' && r'[n].abi == r[n].abi && r'[n].address == r[n].address
                     && (r[n].verified ==> r'[n].verified)
  }

  // Entries and contracts are only ever added.
  predicate Extends(before: Machine, after: Machine) {
    before.chain <= after.chain && KeepsEntries(before.file, after.file)
  }

  lemma ResolveKept(args: seq<Arg>, r: Registry, r': Registry)
    requires Resolvable(args, r)
    requires KeepsEntries(r, r')
    ensures Resolvable(args, r') && Resolve(args, r') == Resolve(args, r)
  {
    forall i | 0 <= i < |args| && args[i].AddressOf?
      ensures Recorded(r', args[i].slot) && AddressIn(r', args[i].slot) == AddressIn(r, args[i].slot)
    {
      assert Recorded(r, args[i].slot);
    }
  }

  // A record stays right while entries and contracts are only added.
  lemma StillBuilt(r: Registry, r': Registry, chain: seq<Contract>, chain': seq<Contract>, slot: Slot)
    requires BuiltAsRecorded(r, chain, slot) && KeepsEntries(r, r') && chain <= chain'
    requires Recorded(r', slot) ==> Recorded(r, slot)
    ensures BuiltAsRecorded(r', chain', slot)
  {
    if Recorded(r, slot) {
      ResolveKept(Params(slot), r, r');
    }
  }

  // Recording one more contract keeps every earlier record right. This is where names
  // must not collide.
  lemma RecordOne(r: Registry, chain: seq<Contract>, slot: Slot)
    requires Consistent(r, chain) && !Recorded(r, slot) && Resolvable(Params(slot), r)
    ensures var built := chain + [Contract(Abi(slot), Resolve(Params(slot), r))];
            Consistent(r[NameOf(slot) := Entry(Abi(slot), |built|, false)], built)
  {
    var built := chain + [Contract(Abi(slot), Resolve(Params(slot), r))];
    var r' := r[NameOf(slot) := Entry(Abi(slot), |built|, false)];
    assert NameOf(slot) !in r;
    forall other
      ensures BuiltAsRecorded(r', built, other)
    {
      if Recorded(r', other) {
        if other == slot {
          ResolveKept(Params(slot), r, r');
        } else {
          NamesAreDistinct(other, slot);
          assert BuiltAsRecorded(r, chain, other);
          StillBuilt(r, r', chain, built, other);
        }
      }
    }
  }

  lemma ConsistentOnLongerChain(r: Registry, chain: seq<Contract>, c: Contract)
    requires Consistent(r, chain)
    ensures Consistent(r, chain + [c])
  {
    forall slot
      ensures BuiltAsRecorded(r, chain + [c], slot)
    {
      assert BuiltAsRecorded(r, chain, slot);
    }
  }

  // The contracts on the chain that no record accounts for.
  function Leaked(m: Machine): int {
    |m.chain| - |m.file|
  }

  // What one stretch of a process, from `m` to `r`, guarantees wherever it dies: records
  // are kept and right, and at most the one contract being deployed at the death is on the
  // chain without a record.
  ghost predicate Keeps(m: Machine, r: Machine) {
    && Inv(r) && Extends(m, r) && (r.alive ==> m.alive)
    && Leaked(r) <= Leaked(m) + if m.alive && !r.alive then 1 else 0
  }

  lemma KeepsTransitive(a: Machine, b: Machine, c: Machine)
    requires Keeps(a, b) && Keeps(b, c)
    ensures Keeps(a, c)
  {
  }

  // A death keeps the saved file; a survivor of three awaits has saved its contract.
  lemma LoadOrDeployEnds(m: Machine, slot: Slot)
    requires m.alive
    ensures var r := LoadOrDeploy(m, slot);
            if m.ticks == 0 || Recorded(m.memory, slot) then r == Await(m)
            else if m.ticks < 3 then !r.alive && r.file == m.file && r.chain == Sent(m, slot).chain
            else r == Saved(Sent(m, slot), slot).(ticks := m.ticks - 3)
  {
  }

  lemma SavingKeeps(m: Machine, slot: Slot)
    requires Inv(m) && m.alive && !Recorded(m.memory, slot) && Resolvable(Params(slot), m.memory)
    ensures var r := Saved(Sent(m, slot), slot);
            Consistent(r.file, r.chain) && Extends(m, r) && Leaked(r) == Leaked(m)
  {
    RecordOne(m.file, m.chain, slot);
    assert NameOf(slot) !in m.file;
  }

  lemma LoadOrDeployKeeps(m: Machine, slot: Slot)
    requires Inv(m) && (m.alive ==> Resolvable(Params(slot), m.memory))
    ensures Keeps(m, LoadOrDeploy(m, slot))
    ensures LoadOrDeploy(m, slot).alive ==> Recorded(LoadOrDeploy(m, slot).memory, slot)
  {
    if m.alive {
      LoadOrDeployEnds(m, slot);
      if m.ticks > 0 && !Recorded(m.memory, slot) {
        SavingKeeps(m, slot);
        ConsistentOnLongerChain(m.file, m.chain, Contract(Abi(slot), Resolve(Params(slot), m.memory)));
      }
    }
  }

  // Marking a contract of a collateral as verified changes no contract.
  lemma MarkingKeeps(m: Machine, slot: Slot)
    requires Inv(m) && m.alive && slot.PerToken? && Recorded(m.memory, slot)
    ensures var r := Marked(m, slot); Keeps(m, r) && r.file.Keys == m.file.Keys
  {
    var r := Marked(m, slot);
    assert r.file.Keys == m.file.Keys;
    MarkedConsistent(m.file, r.file, m.chain, slot);
    SameSize(m.file, r.file);
  }

  lemma MarkedConsistent(r: Registry, r': Registry, chain: seq<Contract>, slot: Slot)
    requires Consistent(r, chain) && slot.PerToken? && NameOf(slot) in r
    requires r' == r[NameOf(slot) := r[NameOf(slot)].(verified := true)]
    ensures Consistent(r', chain)
  {
    forall other
      ensures BuiltAsRecorded(r', chain, other)
    {
      assert BuiltAsRecorded(r, chain, other);
      StillBuilt(r, r', chain, chain, other);
    }
    forall s | NameOf(Shared(s)) in r'
      ensures !r'[NameOf(Shared(s))].verified
    {
      NamesAreDistinct(Shared(s), slot);
    }
  }

  lemma SameSize(r: Registry, r': Registry)
    requires r.Keys == r'.Keys
    ensures |r| == |r'|
  {
    assert |r| == |r.Keys| && |r'| == |r'.Keys|;
  }

  // Nothing happens but that awaits are used up.
  predicate OnlyAwaits(m: Machine, r: Machine) {
    r == m.(ticks := r.ticks, alive := r.alive) && (r.alive ==> m.alive)
  }

  lemma AwaitingKeeps(m: Machine, r: Machine)
    requires Inv(m) && OnlyAwaits(m, r)
    ensures Keeps(m, r)
  {
  }

  lemma {:induction false} ConnectingOnlyAwaits(w: World, m: Machine, slots: seq<Slot>)
    ensures OnlyAwaits(m, ConnectAll(w, m, slots))
    decreases |slots|
  {
    if slots != [] {
      ConnectOnlyAwaits(w, m, slots[0]);
      ConnectingOnlyAwaits(w, Connect(w, m, slots[0]), slots[1..]);
    }
  }

  lemma ConnectOnlyAwaits(w: World, m: Machine, slot: Slot)
    ensures OnlyAwaits(m, Connect(w, m, slot))
  {
  }

  // All that comes after a collateral's contracts.
  lemma ConnectedToken(w: World, m: Machine, t: string)
    ensures OnlyAwaits(DeployCore(w, m, t), DeployToken(w, m, t))
  {
    ConnectingOnlyAwaits(w, Await(DeployCore(w, m, t)), ToConnect(t));
  }

  lemma VerifyEnds(w: World, m: Machine, slot: Slot)
    ensures var m2, r := Await(Await(m)), Verify(w, m, slot);
            OnlyAwaits(m, r) || (m2.alive && Recorded(m2.memory, slot) && r == Marked(m2, slot))
    ensures OnlyAwaits(m, Await(Await(m)))
  {
  }

  // A submission that is made, and survived, is recorded exactly when it does not end in
  // an error other than the plugin's.
  lemma RecordedUnlessOtherError(w: World, m: Machine, slot: Slot)
    requires Recorded(m.memory, slot) && !m.memory[NameOf(slot)].verified && m.alive && m.ticks >= 2
    ensures var r := Verify(w, m, slot);
            && (r.memory[NameOf(slot)].verified <==> !w.answer(m.ticks - 2, slot).OtherError?)
            && (r.memory[NameOf(slot)].verified ==> r.file == r.memory)
  {
  }

  lemma VerifyKeeps(w: World, m: Machine, slot: Slot)
    requires Inv(m) && slot.PerToken?
    ensures var r := Verify(w, m, slot); Keeps(m, r) && r.file.Keys == m.file.Keys
  {
    var m2, r := Await(Await(m)), Verify(w, m, slot);
    VerifyEnds(w, m, slot);
    if OnlyAwaits(m, r) {
      AwaitingKeeps(m, r);
    } else {
      AwaitingKeeps(m, m2);
      MarkingKeeps(m2, slot);
      KeepsTransitive(m, m2, r);
    }
  }

  lemma {:induction false} VerifyAllKeeps(w: World, m: Machine, slots: seq<Slot>)
    requires Inv(m) && forall s <- slots :: s.PerToken?
    ensures var r := VerifyAll(w, m, slots); Keeps(m, r) && r.file.Keys == m.file.Keys
    decreases |slots|
  {
    if slots != [] {
      assert slots[0] in slots;
      var next := Verify(w, m, slots[0]);
      VerifyKeeps(w, m, slots[0]);
      VerifyAllKeeps(w, next, slots[1..]);
      KeepsTransitive(m, next, VerifyAll(w, next, slots[1..]));
    }
  }

  // Every argument of the plan is deployed before it is needed.
  lemma PlanIsOrdered(t: string, i: nat, arg: Arg)
    requires i < |Plan(t)| && arg in Params(Plan(t)[i]) && arg.AddressOf?
    ensures arg.slot in Plan(t)[..i]
  {
    var plan := Plan(t);
    assert plan[..i][0] == plan[0] && plan[..i][1] == plan[1] && plan[..i][4] == plan[4]
           && plan[..i][5] == plan[5] && plan[..i][11] == plan[11] by {
      assert i >= 13;
    }
  }

  ghost predicate AllRecorded(r: Registry, slots: seq<Slot>) {
    forall s <- slots :: Recorded(r, s)
  }

  lemma {:induction false} PlanKeeps(m: Machine, t: string, i: nat)
    requires Inv(m) && i <= |Plan(t)| && (m.alive ==> AllRecorded(m.memory, Plan(t)[..i]))
    ensures var r := DeployAll(m, Plan(t)[i..]);
            Keeps(m, r) && (r.alive ==> AllRecorded(r.memory, Plan(t)))
    decreases |Plan(t)| - i
  {
    var plan := Plan(t);
    if i < |plan| {
      var next := LoadOrDeploy(m, plan[i]);
      var params := Params(plan[i]);
      forall k | 0 <= k < |params| && params[k].AddressOf? && m.alive
        ensures Recorded(m.memory, params[k].slot)
      {
        PlanIsOrdered(t, i, params[k]);
      }
      LoadOrDeployKeeps(m, plan[i]);
      assert plan[i..][1..] == plan[i + 1..];
      if next.alive {
        StillRecorded(m, next, plan, i);
      }
      PlanKeeps(next, t, i + 1);
      KeepsTransitive(m, next, DeployAll(next, plan[i + 1..]));
    } else {
      assert plan[..i] == plan;
    }
  }

  lemma StillRecorded(m: Machine, next: Machine, plan: seq<Slot>, i: nat)
    requires i < |plan| && Inv(m) && Keeps(m, next) && next.alive
    requires AllRecorded(m.memory, plan[..i]) && Recorded(next.memory, plan[i])
    ensures AllRecorded(next.memory, plan[..i + 1])
  {
    forall s | s in plan[..i + 1]
      ensures Recorded(next.memory, s)
    {
      assert s in plan[..i] || s == plan[i];
    }
  }

  lemma CoreKeeps(w: World, m: Machine, t: string)
    requires Inv(m)
    ensures Keeps(m, DeployCore(w, m, t))
  {
    var deployed := DeployAll(m, Plan(t));
    PlanKeeps(m, t, 0);
    assert Plan(t)[0..] == Plan(t);
    VerifyAllKeeps(w, deployed, ToVerify(t));
    KeepsTransitive(m, deployed, VerifyAll(w, deployed, ToVerify(t)));
  }

  lemma TokenKeeps(w: World, m: Machine, t: string)
    requires Inv(m)
    ensures Keeps(m, DeployToken(w, m, t))
  {
    var core := DeployCore(w, m, t);
    CoreKeeps(w, m, t);
    ConnectedToken(w, m, t);
    AwaitingKeeps(core, DeployToken(w, m, t));
    KeepsTransitive(m, core, DeployToken(w, m, t));
  }

  lemma {:induction false} DeployKeeps(w: World, m: Machine, tokens: seq<string>)
    requires Inv(m)
    ensures Keeps(m, Deploy(w, m, tokens))
    decreases |tokens|
  {
    if tokens != [] {
      var next := DeployToken(w, m, tokens[0]);
      TokenKeeps(w, m, tokens[0]);
      DeployKeeps(w, next, tokens[1..]);
      KeepsTransitive(m, next, Deploy(w, m, tokens));
    }
  }

  // Over any sequence of runs, over any collaterals and each cut off at any await: a
  // recorded address never changes, every recorded contract was built with exactly the
  // addresses recorded for its arguments, and each crashed run leaves at most one contract
  // on the chain without a record.
  lemma {:induction false} SessionsAreCrashSafe(m: Machine, sessions: seq<Session>)
    requires Inv(m)
    ensures var r := RunSessions(m, sessions);
            && Consistent(r.file, r.chain) && Extends(m, r)
            && Leaked(r) <= Leaked(m) + Crashes(m, sessions)
    decreases |sessions|
  {
    if sessions != [] {
      DeployKeeps(sessions[0].world, Restart(m, sessions[0].ticks), sessions[0].tokens);
      SessionsAreCrashSafe(RunSession(m, sessions[0]), sessions[1..]);
    }
  }

  const EMPTY: Machine := Machine(map[], [], map[], 0, false)

  // The contract recorded for the slot is on the chain and was built with these arguments.
  predicate BuiltWith(m: Machine, slot: Slot, args: seq<Value>) {
    && 0 < AddressIn(m.file, slot) <= |m.chain|
    && m.chain[AddressIn(m.file, slot) - 1] == Contract(m.file[NameOf(slot)].abi, args)
    && NameOf(slot) == RecordedName(slot, m.file[NameOf(slot)].abi)
  }

  lemma RecordedIsBuilt(sessions: seq<Session>, slot: Slot)
    requires Recorded(RunSessions(EMPTY, sessions).file, slot)
    ensures var r := RunSessions(EMPTY, sessions); BuiltWith(r, slot, Resolve(Params(slot), r.file))
  {
    SessionsAreCrashSafe(EMPTY, sessions);
    var r := RunSessions(EMPTY, sessions);
    assert BuiltAsRecorded(r.file, r.chain, slot);
  }

  // After any runs from nothing, whom the contracts with constructor arguments answer to.
  function GovernanceTakes(r: Registry, t: string): seq<Value> {
    [Fixed(Config("TIMELOCK")), At(AddressIn(r, PerToken(t, TroveManager))),
     At(AddressIn(r, PerToken(t, BorrowerOperations))),
     At(AddressIn(r, PerToken(t, PriceFeed))),
     At(AddressIn(r, Shared(EcosystemFund))), Fixed(DebtCeiling(t))]
  }

  lemma GovernanceArguments(sessions: seq<Session>, t: string)
    requires Recorded(RunSessions(EMPTY, sessions).file, PerToken(t, Governance))
    ensures var r := RunSessions(EMPTY, sessions);
            BuiltWith(r, PerToken(t, Governance), GovernanceTakes(r.file, t))
  {
    RecordedIsBuilt(sessions, PerToken(t, Governance));
    GovernanceParams(RunSessions(EMPTY, sessions).file, t);
  }

  lemma GovernanceParams(r: Registry, t: string)
    ensures Resolve(Params(PerToken(t, Governance)), r) == GovernanceTakes(r, t)
  {
  }

  // The price oracle is given its one number, and every other contract nothing.
  lemma OtherArguments(sessions: seq<Session>, slot: Slot)
    requires Recorded(RunSessions(EMPTY, sessions).file, slot)
    requires slot.PerToken? ==> slot.kind !in {Governance, IncentivePool, MultiTroveGetter}
    ensures var r := RunSessions(EMPTY, sessions);
            BuiltWith(r, slot, if slot == Shared(GMUOracle) then [Fixed(Number(2000000))] else [])
  {
    RecordedIsBuilt(sessions, slot);
    OtherParams(RunSessions(EMPTY, sessions).file, slot);
  }

  lemma OtherParams(r: Registry, slot: Slot)
    requires slot.PerToken? ==> slot.kind !in {Governance, IncentivePool, MultiTroveGetter}
    ensures Resolve(Params(slot), r) == if slot == Shared(GMUOracle) then [Fixed(Number(2000000))] else []
  {
  }

  function IncentivePoolTakes(r: Registry, t: string): seq<Value> {
    [Fixed(Config("DEPLOYER")), Fixed(Config("MAHA")),
     At(AddressIn(r, PerToken(t, TroveManager))),
     Fixed(Number(2592000)), Fixed(Config("TIMELOCK"))]
  }

  lemma IncentivePoolArguments(sessions: seq<Session>, t: string)
    requires Recorded(RunSessions(EMPTY, sessions).file, PerToken(t, IncentivePool))
    ensures var r := RunSessions(EMPTY, sessions);
            BuiltWith(r, PerToken(t, IncentivePool), IncentivePoolTakes(r.file, t))
  {
    RecordedIsBuilt(sessions, PerToken(t, IncentivePool));
    IncentivePoolParams(RunSessions(EMPTY, sessions).file, t);
  }

  lemma IncentivePoolParams(r: Registry, t: string)
    ensures Resolve(Params(PerToken(t, IncentivePool)), r) == IncentivePoolTakes(r, t)
  {
  }

  function MultiTroveGetterTakes(r: Registry, t: string): seq<Value> {
    [At(AddressIn(r, PerToken(t, TroveManager))),
     At(AddressIn(r, PerToken(t, SortedTroves)))]
  }

  lemma MultiTroveGetterArguments(sessions: seq<Session>, t: string)
    requires Recorded(RunSessions(EMPTY, sessions).file, PerToken(t, MultiTroveGetter))
    ensures var r := RunSessions(EMPTY, sessions);
            BuiltWith(r, PerToken(t, MultiTroveGetter), MultiTroveGetterTakes(r.file, t))
  {
    RecordedIsBuilt(sessions, PerToken(t, MultiTroveGetter));
    MultiTroveGetterParams(RunSessions(EMPTY, sessions).file, t);
  }

  lemma MultiTroveGetterParams(r: Registry, t: string)
    ensures Resolve(Params(PerToken(t, MultiTroveGetter)), r) == MultiTroveGetterTakes(r, t)
  {
  }

  // --- What a completed run records ---

  function SlotSet(slots: seq<Slot>): set<Slot> {
    set s | s in slots
  }

  function NameSet(slots: set<Slot>): set<string> {
    set s | s in slots :: NameOf(s)
  }

  function PlannedSlots(tokens: seq<string>): set<Slot> {
    if tokens == [] then {} else SlotSet(Plan(tokens[0])) + PlannedSlots(tokens[1..])
  }

  lemma {:induction false} DeployAllRecords(m: Machine, slots: seq<Slot>)
    requires m.alive ==> m.memory == m.file
    requires forall n <- m.file :: m.file[n].address > 0
    ensures var r := DeployAll(m, slots);
            && (r.alive ==> m.alive && r.memory == r.file && m.file.Keys + NameSet(SlotSet(slots)) <= r.file.Keys)
            && r.file.Keys <= m.file.Keys + NameSet(SlotSet(slots))
            && (forall n <- r.file :: r.file[n].address > 0)
    decreases |slots|
  {
    if slots != [] {
      var next := LoadOrDeploy(m, slots[0]);
      DeployAllRecords(next, slots[1..]);
      assert SlotSet(slots) == {slots[0]} + SlotSet(slots[1..]);
      assert NameSet({slots[0]} + SlotSet(slots[1..])) == {NameOf(slots[0])} + NameSet(SlotSet(slots[1..]));
      assert next.file.Keys <= m.file.Keys + {NameOf(slots[0])};
      assert next.alive ==> next.file.Keys == m.file.Keys + {NameOf(slots[0])};
    } else {
      assert NameSet(SlotSet(slots)) == {};
    }
  }

  lemma CoreRecords(w: World, m: Machine, t: string)
    requires Inv(m)
    ensures var r := DeployCore(w, m, t);
            && (r.alive ==> m.alive && m.file.Keys + NameSet(SlotSet(Plan(t))) <= r.file.Keys)
            && r.file.Keys <= m.file.Keys + NameSet(SlotSet(Plan(t)))
  {
    var deployed := DeployAll(m, Plan(t));
    DeployAllRecords(m, Plan(t));
    PlanKeeps(m, t, 0);
    assert Plan(t)[0..] == Plan(t);
    VerifyAllKeeps(w, deployed, ToVerify(t));
  }

  lemma TokenRecords(w: World, m: Machine, t: string)
    requires Inv(m)
    ensures var r := DeployToken(w, m, t);
            && Inv(r) && (r.alive ==> m.alive && m.file.Keys + NameSet(SlotSet(Plan(t))) <= r.file.Keys)
            && r.file.Keys <= m.file.Keys + NameSet(SlotSet(Plan(t)))
  {
    CoreRecords(w, m, t);
    TokenKeeps(w, m, t);
    ConnectedToken(w, m, t);
  }

  lemma {:induction false} DeployRecords(w: World, m: Machine, tokens: seq<string>)
    requires Inv(m)
    ensures var r := Deploy(w, m, tokens);
            && (r.alive ==> m.alive && m.file.Keys + NameSet(PlannedSlots(tokens)) <= r.file.Keys)
            && r.file.Keys <= m.file.Keys + NameSet(PlannedSlots(tokens))
    decreases |tokens|
  {
    if tokens == [] {
      assert NameSet(PlannedSlots(tokens)) == {};
    } else {
      TokenRecords(w, m, tokens[0]);
      DeployRecords(w, DeployToken(w, m, tokens[0]), tokens[1..]);
      NameSetUnion(SlotSet(Plan(tokens[0])), PlannedSlots(tokens[1..]));
    }
  }

  lemma NameSetUnion(a: set<Slot>, b: set<Slot>)
    ensures NameSet(a + b) == NameSet(a) + NameSet(b)
  {
  }

  lemma {:induction false} NameCount(slots: set<Slot>)
    ensures |NameSet(slots)| == |slots|
  {
    if slots != {} {
      var s :| s in slots;
      var rest := slots - {s};
      NameCount(rest);
      forall other | other in rest
        ensures NameOf(other) != NameOf(s)
      {
        NamesAreDistinct(other, s);
      }
      assert NameSet(slots) == NameSet(rest) + {NameOf(s)};
    }
  }

  const SHARED_SLOTS: set<Slot> := {Shared(EcosystemFund), Shared(GMUOracle), Shared(ARTHStablecoin)}

  const POOLS: set<Kind> := {ActivePool, StabilityPool, GasPool, DefaultPool, CollSurplusPool, IncentivePool}

  const OTHERS: set<Kind> :=
    {PriceFeed, SortedTroves, TroveManager, BorrowerOperations, HintHelpers, Governance, MultiTroveGetter}

  function TokenSlots(t: string, kinds: set<Kind>): set<Slot> {
    set k | k in kinds :: PerToken(t, k)
  }

  lemma {:induction false} TokenSlotCount(t: string, kinds: set<Kind>)
    ensures |TokenSlots(t, kinds)| == |kinds|
  {
    if kinds != {} {
      var k :| k in kinds;
      TokenSlotCount(t, kinds - {k});
      assert TokenSlots(t, kinds) == TokenSlots(t, kinds - {k}) + {PerToken(t, k)};
    }
  }

  lemma KindCount()
    ensures |POOLS + OTHERS| == 13
  {
    assert |POOLS| == 6 && |OTHERS| == 7 && POOLS !! OTHERS;
  }

  lemma EveryKind(k: Kind)
    ensures k in POOLS + OTHERS
  {
    match k
    case ActivePool | StabilityPool | GasPool | DefaultPool | CollSurplusPool | IncentivePool => assert k in POOLS;
    case _ => assert k in OTHERS;
  }

  lemma TokenSlotsAre(t: string, s: Slot)
    ensures s in TokenSlots(t, POOLS + OTHERS) <==> s.PerToken? && s.token == t
  {
    if s.PerToken? {
      EveryKind(s.kind);
    }
  }

  function PlanIndex(s: Slot): nat {
    match s
    case Shared(EcosystemFund) => 1
    case Shared(GMUOracle) => 2
    case Shared(ARTHStablecoin) => 3
    case PerToken(_, k) => (
      match k
      case PriceFeed => 0
      case SortedTroves => 4
      case TroveManager => 5
      case ActivePool => 6
      case StabilityPool => 7
      case GasPool => 8
      case DefaultPool => 9
      case CollSurplusPool => 10
      case BorrowerOperations => 11
      case HintHelpers => 12
      case Governance => 13
      case IncentivePool => 14
      case MultiTroveGetter => 15
    )
  }

  lemma PlanAt(t: string, s: Slot)
    requires s.Shared? || s.token == t
    ensures PlanIndex(s) < |Plan(t)| && Plan(t)[PlanIndex(s)] == s
  {
  }

  lemma PlanHoldsOnly(t: string, i: nat)
    requires i < |Plan(t)|
    ensures Plan(t)[i].Shared? || Plan(t)[i].token == t
  {
  }

  lemma PlanHolds(t: string, s: Slot)
    ensures s in Plan(t) <==> s.Shared? || s.token == t
  {
    var plan := Plan(t);
    if s.Shared? || s.token == t {
      PlanAt(t, s);
    } else if s in plan {
      var i :| 0 <= i < |plan| && plan[i] == s;
      PlanHoldsOnly(t, i);
    }
  }

  // A slot is planned when its collateral is, or when it is shared and there is any.
  lemma {:induction false} PlannedAre(tokens: seq<string>, s: Slot)
    ensures s in PlannedSlots(tokens) <==> tokens != [] && (s.Shared? || s.token in tokens)
  {
    if tokens != [] {
      PlanHolds(tokens[0], s);
      PlannedAre(tokens[1..], s);
    }
  }

  // The slots planned before one more collateral, the shared ones among them.
  function PlannedBefore(rest: seq<string>): set<Slot> {
    if rest == [] then SHARED_SLOTS else PlannedSlots(rest)
  }

  lemma PlannedBeforeAre(rest: seq<string>, s: Slot)
    ensures s in PlannedBefore(rest) <==> s.Shared? || s.token in rest
  {
    PlannedAre(rest, s);
    match s
    case Shared(EcosystemFund) =>
    case Shared(GMUOracle) =>
    case Shared(ARTHStablecoin) =>
    case PerToken(_, _) =>
  }

  lemma OneMoreToken(t: string, rest: seq<string>)
    ensures PlannedSlots([t] + rest) == PlannedBefore(rest) + TokenSlots(t, POOLS + OTHERS)
    ensures t in rest ==> TokenSlots(t, POOLS + OTHERS) <= PlannedBefore(rest)
    ensures t !in rest ==> TokenSlots(t, POOLS + OTHERS) !! PlannedBefore(rest)
  {
    forall s: Slot
      ensures s in PlannedSlots([t] + rest) <==> s in PlannedBefore(rest) + TokenSlots(t, POOLS + OTHERS)
      ensures s in TokenSlots(t, POOLS + OTHERS) ==> (s in PlannedBefore(rest) <==> t in rest)
    {
      PlannedAre([t] + rest, s);
      PlannedBeforeAre(rest, s);
      TokenSlotsAre(t, s);
    }
  }

  function Distinct(tokens: seq<string>): set<string> {
    set t | t in tokens
  }

  lemma {:induction false} PlannedBeforeCount(tokens: seq<string>)
    ensures |PlannedBefore(tokens)| == 3 + 13 * |Distinct(tokens)|
    decreases |tokens|
  {
    if tokens == [] {
      assert Distinct(tokens) == {};
    } else {
      var t, rest := tokens[0], tokens[1..];
      PlannedBeforeCount(rest);
      assert tokens == [t] + rest;
      CountOneMore(t, rest);
    }
  }

  lemma CountOneMore(t: string, rest: seq<string>)
    ensures |PlannedSlots([t] + rest)| == |PlannedBefore(rest)| + if t in rest then 0 else 13
    ensures |Distinct([t] + rest)| == |Distinct(rest)| + if t in rest then 0 else 1
  {
    KindCount();
    TokenSlotCount(t, POOLS + OTHERS);
    OneMoreToken(t, rest);
    assert Distinct([t] + rest) == Distinct(rest) + {t};
    if t in rest {
      assert Distinct([t] + rest) == Distinct(rest);
      assert PlannedSlots([t] + rest) == PlannedBefore(rest);
    }
  }

  // Nothing is recorded but contracts of these collaterals.
  ghost predicate RecordsOnly(m: Machine, tokens: seq<string>) {
    m.file.Keys <= NameSet(PlannedSlots(tokens))
  }

  lemma NamesOfFewer(fewer: seq<string>, tokens: seq<string>)
    requires forall t <- fewer :: t in tokens
    ensures PlannedSlots(fewer) <= PlannedSlots(tokens)
    ensures NameSet(PlannedSlots(fewer)) <= NameSet(PlannedSlots(tokens))
  {
    forall s | s in PlannedSlots(fewer)
      ensures s in PlannedSlots(tokens)
    {
      PlannedAre(fewer, s);
      PlannedAre(tokens, s);
      if s.Shared? {
        assert fewer[0] in tokens;
      }
    }
  }

  lemma {:induction false} SessionsRecordOnly(m: Machine, sessions: seq<Session>, tokens: seq<string>)
    requires Inv(m) && RecordsOnly(m, tokens)
    requires forall s <- sessions :: forall t <- s.tokens :: t in tokens
    ensures RecordsOnly(RunSessions(m, sessions), tokens) && Inv(RunSessions(m, sessions))
    decreases |sessions|
  {
    if sessions != [] {
      var s := sessions[0];
      assert s in sessions;
      NamesOfFewer(s.tokens, tokens);
      DeployRecords(s.world, Restart(m, s.ticks), s.tokens);
      DeployKeeps(s.world, Restart(m, s.ticks), s.tokens);
      SessionsRecordOnly(RunSession(m, s), sessions[1..], tokens);
    }
  }

  // From nothing, after any runs over these collaterals that died anywhere, a run that
  // completes leaves three shared contracts and thirteen for each distinct collateral on
  // record; over no collaterals it records nothing at all.
  lemma CompletedRunRecords(sessions: seq<Session>, last: Session)
    requires forall s <- sessions :: forall t <- s.tokens :: t in last.tokens
    ensures var r := RunSession(RunSessions(EMPTY, sessions), last);
            r.alive ==> |r.file| == if last.tokens == [] then 0 else 3 + 13 * |Distinct(last.tokens)|
  {
    SessionsRecordOnly(EMPTY, sessions, last.tokens);
    CountAfterCompletion(RunSessions(EMPTY, sessions), last);
  }

  function RecordCount(tokens: seq<string>): nat {
    if tokens == [] then 0 else 3 + 13 * |Distinct(tokens)|
  }

  lemma CountAfterCompletion(m: Machine, last: Session)
    requires Inv(m) && RecordsOnly(m, last.tokens)
    ensures var r := RunSession(m, last);
            r.alive ==> |r.file| == RecordCount(last.tokens)
  {
    var r := RunSession(m, last);
    DeployRecords(last.world, Restart(m, last.ticks), last.tokens);
    if r.alive {
      PlannedNameCount(last.tokens);
      KeyCount(r.file, NameSet(PlannedSlots(last.tokens)));
    }
  }

  lemma KeyCount(r: Registry, names: set<string>)
    requires names <= r.Keys <= names
    ensures |r| == |names|
  {
    assert r.Keys == names && |r| == |r.Keys|;
  }

  lemma PlannedNameCount(tokens: seq<string>)
    ensures |NameSet(PlannedSlots(tokens))| == RecordCount(tokens)
  {
    NameCount(PlannedSlots(tokens));
    PlannedBeforeCount(tokens);
  }

  // --- Verification and further runs ---

  lemma {:induction false} NothingLeftToDeploy(m: Machine, slots: seq<Slot>)
    requires AllRecorded(m.memory, slots)
    ensures OnlyAwaits(m, DeployAll(m, slots))
    decreases |slots|
  {
    if slots != [] {
      assert slots[0] in slots;
      NothingLeftToDeploy(LoadOrDeploy(m, slots[0]), slots[1..]);
    }
  }

  lemma PlanRecorded(r: Registry, tokens: seq<string>)
    requires tokens != [] && forall s <- PlannedSlots(tokens) :: Recorded(r, s)
    ensures AllRecorded(r, Plan(tokens[0]))
    ensures forall s <- PlannedSlots(tokens[1..]) :: Recorded(r, s)
  {
    var plan := Plan(tokens[0]);
    assert forall s <- plan :: s in SlotSet(plan);
  }

  ghost predicate SlotsVerified(r: Registry, slots: seq<Slot>) {
    forall s <- slots :: NameOf(s) in r && r[NameOf(s)].verified
  }

  // Every contract of these collaterals is marked as verified.
  ghost predicate AllVerified(r: Registry, tokens: seq<string>) {
    forall t <- tokens :: SlotsVerified(r, ToVerify(t))
  }

  lemma EveryKindIsSubmitted(t: string, kind: Kind)
    ensures PerToken(t, kind) in ToVerify(t)
  {
    var slots := ToVerify(t);
    assert slots[0].kind == SortedTroves && slots[1].kind == TroveManager && slots[2].kind == ActivePool;
    assert slots[3].kind == StabilityPool && slots[4].kind == GasPool && slots[5].kind == DefaultPool;
    assert slots[6].kind == CollSurplusPool && slots[7].kind == BorrowerOperations && slots[8].kind == HintHelpers;
    assert slots[9].kind == PriceFeed && slots[10].kind == IncentivePool && slots[11].kind == Governance;
    assert slots[12].kind == MultiTroveGetter;
  }

  lemma {:induction false} SubmittedAreRecorded(r: Registry, t: string)
    requires AllRecorded(r, Plan(t))
    ensures AllRecorded(r, ToVerify(t))
  {
    forall s | s in ToVerify(t)
      ensures Recorded(r, s)
    {
      PlanHolds(t, s);
    }
  }

  // No submission ends in an error other than the plugin's.
  ghost predicate AcceptsAll(w: World) {
    w.etherscan && forall time, slot :: !w.answer(time, slot).OtherError?
  }

  lemma SubmittedIsVerified(w: World, m: Machine, slot: Slot)
    requires Inv(m) && AcceptsAll(w) && slot.PerToken? && Recorded(m.memory, slot)
    ensures var r := Verify(w, m, slot); r.alive ==> r.file[NameOf(slot)].verified
  {
    var m2 := Await(Await(m));
    VerifyEnds(w, m, slot);
  }

  lemma {:induction false} SubmittedAreVerified(w: World, m: Machine, slots: seq<Slot>)
    requires Inv(m) && AcceptsAll(w) && AllRecorded(m.memory, slots) && forall s <- slots :: s.PerToken?
    ensures var r := VerifyAll(w, m, slots); r.alive ==> SlotsVerified(r.file, slots)
    decreases |slots|
  {
    if slots != [] {
      assert slots[0] in slots;
      var next, rest := Verify(w, m, slots[0]), slots[1..];
      VerifyKeeps(w, m, slots[0]);
      VerifyAllKeeps(w, next, rest);
      if next.alive {
        SubmittedIsVerified(w, m, slots[0]);
        StillAllRecorded(m.memory, next.memory, rest);
        SubmittedAreVerified(w, next, rest);
        OneMoreVerified(next.file, VerifyAll(w, next, rest).file, slots);
      }
    }
  }

  lemma StillAllRecorded(r: Registry, r': Registry, slots: seq<Slot>)
    requires AllRecorded(r, slots) && KeepsEntries(r, r')
    ensures AllRecorded(r', slots)
  {
    forall s | s in slots
      ensures Recorded(r', s)
    {
      assert Recorded(r, s);
    }
  }

  lemma OneMoreVerified(r: Registry, r': Registry, slots: seq<Slot>)
    requires slots != [] && NameOf(slots[0]) in r && r[NameOf(slots[0])].verified && KeepsEntries(r, r')
    ensures SlotsVerified(r', slots[1..]) ==> SlotsVerified(r', slots)
  {
    assert forall s <- slots :: s == slots[0] || s in slots[1..];
  }

  lemma CoreVerified(w: World, m: Machine, t: string)
    requires Inv(m) && AcceptsAll(w)
    ensures var r := DeployCore(w, m, t); r.alive ==> SlotsVerified(r.file, ToVerify(t))
  {
    var deployed := DeployAll(m, Plan(t));
    PlanKeeps(m, t, 0);
    assert Plan(t)[0..] == Plan(t);
    VerifyAllKeeps(w, deployed, ToVerify(t));
    if deployed.alive {
      SubmittedAreRecorded(deployed.memory, t);
      SubmittedAreVerified(w, deployed, ToVerify(t));
    }
  }

  lemma TokenVerified(w: World, m: Machine, t: string)
    requires Inv(m) && AcceptsAll(w)
    ensures var r := DeployToken(w, m, t); r.alive ==> SlotsVerified(r.file, ToVerify(t))
  {
    CoreVerified(w, m, t);
    ConnectedToken(w, m, t);
  }

  lemma {:induction false} TokensVerified(w: World, m: Machine, tokens: seq<string>)
    requires Inv(m) && AcceptsAll(w)
    ensures var r := Deploy(w, m, tokens); r.alive ==> AllVerified(r.file, tokens)
    decreases |tokens|
  {
    if tokens != [] {
      var next := DeployToken(w, m, tokens[0]);
      TokenKeeps(w, m, tokens[0]);
      TokenVerified(w, m, tokens[0]);
      TokensVerified(w, next, tokens[1..]);
      DeployKeeps(w, next, tokens[1..]);
      assert forall t <- tokens :: t == tokens[0] || t in tokens[1..];
    }
  }

  // A completed run in which no submission ends in another error leaves every contract of its
  // collaterals marked as verified, and none of the shared ones.
  lemma CompletedRunVerifies(m: Machine, s: Session, t: string, kind: Kind, shared: SharedKind)
    requires Inv(m) && AcceptsAll(s.world) && RunSession(m, s).alive && t in s.tokens
    ensures var file := RunSession(m, s).file;
            && NameOf(PerToken(t, kind)) in file && file[NameOf(PerToken(t, kind))].verified
            && NameOf(Shared(shared)) in file && !file[NameOf(Shared(shared))].verified
  {
    var r := RunSession(m, s);
    TokensVerified(s.world, Restart(m, s.ticks), s.tokens);
    DeployKeeps(s.world, Restart(m, s.ticks), s.tokens);
    DeployRecords(s.world, Restart(m, s.ticks), s.tokens);
    EveryKindIsSubmitted(t, kind);
    PlannedAre(s.tokens, Shared(shared));
    assert NameOf(Shared(shared)) in NameSet(PlannedSlots(s.tokens));
  }

  lemma {:induction false} NothingLeftToVerify(w: World, m: Machine, slots: seq<Slot>)
    requires SlotsVerified(m.memory, slots)
    ensures OnlyAwaits(m, VerifyAll(w, m, slots))
    decreases |slots|
  {
    if slots != [] {
      assert slots[0] in slots;
      NothingLeftToVerify(w, Verify(w, m, slots[0]), slots[1..]);
    }
  }

  lemma {:induction false} VerifyingBuildsNothing(w: World, m: Machine, slots: seq<Slot>)
    ensures VerifyAll(w, m, slots).chain == m.chain
    decreases |slots|
  {
    if slots != [] {
      VerifyingBuildsNothing(w, Verify(w, m, slots[0]), slots[1..]);
    }
  }

  // What a run that finds everything deployed does: it builds and records nothing, and
  // leaves the file alone where nothing is left to verify.
  ghost predicate BuildsNothing(m: Machine, r: Machine, verified: bool) {
    && Keeps(m, r) && r.chain == m.chain && r.file.Keys == m.file.Keys
    && (verified ==> r.file == m.file)
  }

  lemma CoreAgain(w: World, m: Machine, t: string)
    requires Inv(m) && m.alive && AllRecorded(m.memory, Plan(t))
    ensures BuildsNothing(m, DeployCore(w, m, t), !w.etherscan || SlotsVerified(m.file, ToVerify(t)))
  {
    SubmittedAreTokens(t);
    ContractsAgain(w, m, Plan(t), ToVerify(t));
  }

  lemma SubmittedAreTokens(t: string)
    ensures forall s <- ToVerify(t) :: s.PerToken?
  {
  }

  lemma ContractsAgain(w: World, m: Machine, plan: seq<Slot>, submitted: seq<Slot>)
    requires Inv(m) && m.alive && AllRecorded(m.memory, plan) && forall s <- submitted :: s.PerToken?
    ensures BuildsNothing(m, DeployAll(m, plan), true)
    ensures BuildsNothing(m, VerifyAll(w, DeployAll(m, plan), submitted), SlotsVerified(m.file, submitted))
  {
    var deployed := DeployAll(m, plan);
    NothingLeftToDeploy(m, plan);
    AwaitingKeeps(m, deployed);
    VerifyAgain(w, deployed, submitted);
    BuildsNothingAfter(m, deployed, VerifyAll(w, deployed, submitted), SlotsVerified(m.file, submitted));
  }

  lemma BuildsNothingAfter(m: Machine, waited: Machine, r: Machine, verified: bool)
    requires Inv(m) && OnlyAwaits(m, waited) && BuildsNothing(waited, r, verified)
    ensures BuildsNothing(m, r, verified)
  {
    AwaitingKeeps(m, waited);
    KeepsTransitive(m, waited, r);
  }

  lemma VerifyAgain(w: World, m: Machine, slots: seq<Slot>)
    requires Inv(m) && m.memory == m.file && forall s <- slots :: s.PerToken?
    ensures BuildsNothing(m, VerifyAll(w, m, slots), SlotsVerified(m.file, slots))
  {
    VerifyAllKeeps(w, m, slots);
    VerifyingBuildsNothing(w, m, slots);
    if SlotsVerified(m.file, slots) {
      NothingLeftToVerify(w, m, slots);
    }
  }

  lemma TokenAgain(w: World, m: Machine, t: string)
    requires Inv(m) && m.alive && AllRecorded(m.memory, Plan(t))
    ensures BuildsNothing(m, DeployToken(w, m, t), !w.etherscan || SlotsVerified(m.file, ToVerify(t)))
  {
    CoreAgain(w, m, t);
    TokenKeeps(w, m, t);
    ConnectedToken(w, m, t);
  }

  lemma {:induction false} DeadStay(w: World, m: Machine, tokens: seq<string>)
    requires !m.alive
    ensures Deploy(w, m, tokens) == m
    decreases |tokens|
  {
    if tokens != [] {
      DeadDeployNothing(m, Plan(tokens[0]));
      DeadVerifyNothing(w, m, ToVerify(tokens[0]));
      ConnectingOnlyAwaits(w, m, ToConnect(tokens[0]));
      DeadConnectNothing(w, m, ToConnect(tokens[0]));
      DeadStay(w, m, tokens[1..]);
    }
  }

  lemma {:induction false} DeadDeployNothing(m: Machine, slots: seq<Slot>)
    requires !m.alive
    ensures DeployAll(m, slots) == m
    decreases |slots|
  {
    if slots != [] {
      DeadDeployNothing(m, slots[1..]);
    }
  }

  lemma {:induction false} DeadVerifyNothing(w: World, m: Machine, slots: seq<Slot>)
    requires !m.alive
    ensures VerifyAll(w, m, slots) == m
    decreases |slots|
  {
    if slots != [] {
      DeadVerifyNothing(w, m, slots[1..]);
    }
  }

  lemma {:induction false} DeadConnectNothing(w: World, m: Machine, slots: seq<Slot>)
    requires !m.alive
    ensures ConnectAll(w, m, slots) == m
    decreases |slots|
  {
    if slots != [] {
      DeadConnectNothing(w, m, slots[1..]);
    }
  }

  ghost predicate PlannedRecorded(r: Registry, tokens: seq<string>) {
    forall s <- PlannedSlots(tokens) :: Recorded(r, s)
  }

  lemma StillPlanned(r: Registry, r': Registry, tokens: seq<string>)
    requires KeepsEntries(r, r') && PlannedRecorded(r, tokens)
    ensures PlannedRecorded(r', tokens)
  {
    forall s | s in PlannedSlots(tokens)
      ensures Recorded(r', s)
    {
      assert Recorded(r, s);
    }
  }

  lemma {:induction false} NothingLeftForTokens(w: World, m: Machine, tokens: seq<string>)
    requires Inv(m) && PlannedRecorded(m.file, tokens)
    ensures BuildsNothing(m, Deploy(w, m, tokens), !w.etherscan || AllVerified(m.file, tokens))
    decreases |tokens|
  {
    if !m.alive {
      DeadStay(w, m, tokens);
    } else if tokens != [] {
      PlanRecorded(m.file, tokens);
      TokenAgain(w, m, tokens[0]);
      var next := DeployToken(w, m, tokens[0]);
      StillPlanned(m.file, next.file, tokens[1..]);
      NothingLeftForTokens(w, next, tokens[1..]);
      KeepsTransitive(m, next, Deploy(w, next, tokens[1..]));
    }
  }

  // After a completed run, a run over any of its collaterals deploys nothing and records no
  // further contract, however long it lives; it does not even write to the file unless it
  // has an explorer and something is left to verify.
  lemma FurtherRunDeploysNothing(m: Machine, s: Session, again: Session)
    requires Inv(m) && RunSession(m, s).alive && forall t <- again.tokens :: t in s.tokens
    ensures var r, r' := RunSession(m, s), RunSession(RunSession(m, s), again);
            && r'.chain == r.chain && r'.file.Keys == r.file.Keys && KeepsEntries(r.file, r'.file)
            && (!again.world.etherscan || AllVerified(r.file, again.tokens) ==> r'.file == r.file)
  {
    var r := RunSession(m, s);
    DeployKeeps(s.world, Restart(m, s.ticks), s.tokens);
    DeployRecords(s.world, Restart(m, s.ticks), s.tokens);
    NamesOfFewer(again.tokens, s.tokens);
    forall slot | slot in PlannedSlots(again.tokens)
      ensures Recorded(r.file, slot)
    {
      assert NameOf(slot) in NameSet(PlannedSlots(s.tokens));
    }
    NothingLeftForTokens(again.world, Restart(r, again.ticks), again.tokens);
  }

  // --- Completion ---

  // What one collateral takes at most: three awaits for each of sixteen deployments, two for
  // each of thirteen verifications, five for each of eight connections, and two between.
  const AWAITS_PER_TOKEN: nat := 116

  lemma {:induction false} EnoughToDeploy(m: Machine, slots: seq<Slot>)
    requires m.alive && m.ticks >= 3 * |slots|
    ensures var r := DeployAll(m, slots); r.alive && r.ticks >= m.ticks - 3 * |slots|
    decreases |slots|
  {
    if slots != [] {
      EnoughToDeploy(LoadOrDeploy(m, slots[0]), slots[1..]);
    }
  }

  lemma {:induction false} EnoughToVerify(w: World, m: Machine, slots: seq<Slot>)
    requires m.alive && m.ticks >= 2 * |slots|
    ensures var r := VerifyAll(w, m, slots); r.alive && r.ticks >= m.ticks - 2 * |slots|
    decreases |slots|
  {
    if slots != [] {
      EnoughToVerify(w, Verify(w, m, slots[0]), slots[1..]);
    }
  }

  lemma {:induction false} EnoughToConnect(w: World, m: Machine, slots: seq<Slot>)
    requires m.alive && m.ticks >= 5 * |slots|
    ensures var r := ConnectAll(w, m, slots); r.alive && r.ticks >= m.ticks - 5 * |slots|
    decreases |slots|
  {
    if slots != [] {
      EnoughToConnect(w, Connect(w, m, slots[0]), slots[1..]);
    }
  }

  lemma EnoughForToken(w: World, m: Machine, t: string)
    requires m.alive && m.ticks >= AWAITS_PER_TOKEN
    ensures var r := DeployToken(w, m, t); r.alive && r.ticks >= m.ticks - AWAITS_PER_TOKEN
  {
    EnoughToDeploy(m, Plan(t));
    EnoughToVerify(w, DeployAll(m, Plan(t)), ToVerify(t));
    EnoughToConnect(w, Await(DeployCore(w, m, t)), ToConnect(t));
  }

  lemma {:induction false} EnoughForTokens(w: World, m: Machine, tokens: seq<string>)
    requires m.alive && m.ticks >= AWAITS_PER_TOKEN * |tokens|
    ensures Deploy(w, m, tokens).alive
    decreases |tokens|
  {
    if tokens != [] {
      EnoughForToken(w, m, tokens[0]);
      EnoughForTokens(w, DeployToken(w, m, tokens[0]), tokens[1..]);
    }
  }

  // Whatever crashed before, a run that survives 116 awaits per collateral completes.
  lemma LongEnoughRunCompletes(m: Machine, s: Session)
    requires s.ticks >= AWAITS_PER_TOKEN * |s.tokens|
    ensures RunSession(m, s).alive
  {
    EnoughForTokens(s.world, Restart(m, s.ticks), s.tokens);
  }

  // The contracts whose ownership is renounced, at any time.
  ghost predicate RenouncedAre(w: World, renounced: set<Slot>) {
    forall time, slot :: w.renounced(time, slot) <==> slot in renounced
  }

  // The machine lives on after exactly `cost` awaits, or has died.
  predicate Costs(m: Machine, r: Machine, cost: nat) {
    r.alive == (m.alive && m.ticks >= cost) && (r.alive ==> r.ticks == m.ticks - cost)
  }

  predicate Distinguished(slots: seq<Slot>) {
    forall i, j :: 0 <= i < j < |slots| ==> slots[i] != slots[j]
  }

  lemma {:induction false} DeployingCosts(m: Machine, slots: seq<Slot>)
    requires Distinguished(slots) && forall s <- slots :: !Recorded(m.memory, s)
    requires forall n <- m.memory :: !m.memory[n].verified
    ensures var r := DeployAll(m, slots);
            Costs(m, r, 3 * |slots|) && forall n <- r.memory :: !r.memory[n].verified
    decreases |slots|
  {
    if !m.alive {
      DeadDeployNothing(m, slots);
    } else if slots != [] {
      assert slots[0] in slots;
      LoadOrDeployEnds(m, slots[0]);
      var next := LoadOrDeploy(m, slots[0]);
      forall s | s in slots[1..]
        ensures !Recorded(next.memory, s)
      {
        assert s in slots && s != slots[0];
        NamesAreDistinct(s, slots[0]);
      }
      DeployingCosts(next, slots[1..]);
    }
  }

  ghost predicate NoneVerified(r: Registry, slots: seq<Slot>) {
    forall s <- slots :: NameOf(s) in r && !r[NameOf(s)].verified
  }

  // Submitting takes two awaits, whatever the answer.
  lemma {:induction false} VerifyingCosts(w: World, m: Machine, slots: seq<Slot>)
    requires m.alive && Distinguished(slots) && AllRecorded(m.memory, slots) && NoneVerified(m.memory, slots)
    ensures Costs(m, VerifyAll(w, m, slots), 2 * |slots|)
    decreases |slots|
  {
    if slots != [] {
      assert slots[0] in slots;
      var next := Verify(w, m, slots[0]);
      if next.alive {
        OthersUnverified(w, m, slots);
        VerifyingCosts(w, next, slots[1..]);
      } else {
        DeadVerifyNothing(w, next, slots[1..]);
      }
    }
  }

  lemma OthersUnverified(w: World, m: Machine, slots: seq<Slot>)
    requires m.alive && slots != [] && Distinguished(slots)
    requires AllRecorded(m.memory, slots) && NoneVerified(m.memory, slots)
    ensures var next := Verify(w, m, slots[0]);
            AllRecorded(next.memory, slots[1..]) && NoneVerified(next.memory, slots[1..])
  {
    var next := Verify(w, m, slots[0]);
    assert slots[0] in slots;
    forall s | s in slots[1..]
      ensures Recorded(next.memory, s) && !next.memory[NameOf(s)].verified
    {
      assert s in slots && s != slots[0];
      NamesAreDistinct(s, slots[0]);
    }
  }

  // Two awaits for each contract asked, and three more where it is not renounced.
  function ConnectingCost(slots: seq<Slot>, renounced: set<Slot>): nat {
    if slots == [] then 0 else (if slots[0] in renounced then 2 else 5) + ConnectingCost(slots[1..], renounced)
  }

  lemma {:induction false} ConnectingCosts(w: World, m: Machine, slots: seq<Slot>, renounced: set<Slot>)
    requires RenouncedAre(w, renounced)
    ensures Costs(m, ConnectAll(w, m, slots), ConnectingCost(slots, renounced))
    decreases |slots|
  {
    if slots != [] {
      ConnectCosts(w, m, slots[0], renounced);
      ConnectingCosts(w, Connect(w, m, slots[0]), slots[1..], renounced);
    }
  }

  lemma ConnectCosts(w: World, m: Machine, slot: Slot, renounced: set<Slot>)
    requires RenouncedAre(w, renounced)
    ensures Costs(m, Connect(w, m, slot), if slot in renounced then 2 else 5)
  {
  }

  lemma PlanIsDistinguished(t: string)
    ensures Distinguished(Plan(t))
  {
    forall i, j | 0 <= i < j < |Plan(t)|
      ensures Plan(t)[i] != Plan(t)[j]
    {
      IndexInPlan(t, i);
      IndexInPlan(t, j);
    }
  }

  lemma IndexInPlan(t: string, i: nat)
    requires i < |Plan(t)|
    ensures PlanIndex(Plan(t)[i]) == i
  {
  }

  // The position of a contract in the order of submission.
  function SubmitIndex(kind: Kind): nat {
    match kind
    case SortedTroves => 0
    case TroveManager => 1
    case ActivePool => 2
    case StabilityPool => 3
    case GasPool => 4
    case DefaultPool => 5
    case CollSurplusPool => 6
    case BorrowerOperations => 7
    case HintHelpers => 8
    case PriceFeed => 9
    case IncentivePool => 10
    case Governance => 11
    case MultiTroveGetter => 12
  }

  lemma IndexInSubmission(t: string, i: nat)
    requires i < |ToVerify(t)|
    ensures ToVerify(t)[i].PerToken? && SubmitIndex(ToVerify(t)[i].kind) == i
  {
  }

  lemma SubmissionIsDistinguished(t: string)
    ensures Distinguished(ToVerify(t))
  {
    forall i, j | 0 <= i < j < |ToVerify(t)|
      ensures ToVerify(t)[i] != ToVerify(t)[j]
    {
      IndexInSubmission(t, i);
      IndexInSubmission(t, j);
    }
  }

  lemma CoreCosts(w: World, m: Machine, t: string)
    requires Inv(m) && m.alive && m.memory == map[]
    ensures Costs(m, DeployCore(w, m, t), 48 + if w.etherscan then 26 else 0)
  {
    var deployed := DeployAll(m, Plan(t));
    PlanIsDistinguished(t);
    DeployingCosts(m, Plan(t));
    PlanKeeps(m, t, 0);
    assert Plan(t)[0..] == Plan(t);
    if deployed.alive {
      SubmittedAreRecorded(deployed.memory, t);
      SubmissionIsDistinguished(t);
      VerifyingCosts(w, deployed, ToVerify(t));
    } else {
      DeadVerifyNothing(w, deployed, ToVerify(t));
    }
  }

  // The eight contracts to connect.
  const CONNECTED: set<Kind> :=
    {SortedTroves, TroveManager, BorrowerOperations, StabilityPool, ActivePool, DefaultPool, CollSurplusPool,
     HintHelpers}

  // Those of these kinds that a collateral has not renounced.
  function OwnedOf(t: string, kinds: set<Kind>, renounced: set<Slot>): set<Kind> {
    set k | k in kinds && PerToken(t, k) !in renounced
  }

  function Owned(t: string, renounced: set<Slot>): set<Kind> {
    OwnedOf(t, CONNECTED, renounced)
  }

  lemma OneMoreOwned(t: string, first: Kind, kinds: set<Kind>, renounced: set<Slot>)
    requires first !in kinds
    ensures |OwnedOf(t, {first} + kinds, renounced)| ==
            |OwnedOf(t, kinds, renounced)| + if PerToken(t, first) in renounced then 0 else 1
  {
    var others := OwnedOf(t, kinds, renounced);
    assert OwnedOf(t, {first} + kinds, renounced) ==
           others + if PerToken(t, first) in renounced then {} else {first};
  }

  function KindsOf(slots: seq<Slot>): set<Kind> {
    set s | s in slots && s.PerToken? :: s.kind
  }

  // Distinct contracts of one collateral.
  predicate OneOfEach(t: string, slots: seq<Slot>) {
    Distinguished(slots) && forall s <- slots :: s.PerToken? && s.token == t
  }

  lemma KindsOfRest(t: string, slots: seq<Slot>)
    requires slots != [] && OneOfEach(t, slots)
    ensures OneOfEach(t, slots[1..]) && slots[0] == PerToken(t, slots[0].kind)
    ensures KindsOf(slots) == {slots[0].kind} + KindsOf(slots[1..])
    ensures slots[0].kind !in KindsOf(slots[1..])
  {
    assert slots[0] in slots;
    assert forall s :: s in slots <==> s == slots[0] || s in slots[1..];
  }

  lemma {:induction false} CostByKinds(t: string, slots: seq<Slot>, renounced: set<Slot>)
    requires OneOfEach(t, slots)
    ensures ConnectingCost(slots, renounced) == 2 * |slots| + 3 * |OwnedOf(t, KindsOf(slots), renounced)|
  {
    if slots == [] {
      assert OwnedOf(t, KindsOf(slots), renounced) == {};
    } else {
      KindsOfRest(t, slots);
      CostByKinds(t, slots[1..], renounced);
      OneMoreOwned(t, slots[0].kind, KindsOf(slots[1..]), renounced);
    }
  }

  function ConnectIndex(kind: Kind): nat {
    match kind
    case SortedTroves => 0
    case TroveManager => 1
    case BorrowerOperations => 2
    case StabilityPool => 3
    case ActivePool => 4
    case DefaultPool => 5
    case CollSurplusPool => 6
    case HintHelpers => 7
    case _ => 8
  }

  lemma IndexInConnecting(t: string, i: nat)
    requires i < |ToConnect(t)|
    ensures ToConnect(t)[i] == PerToken(t, ToConnect(t)[i].kind) && ConnectIndex(ToConnect(t)[i].kind) == i
    ensures ToConnect(t)[i].kind in CONNECTED
  {
  }

  lemma ConnectedKind(t: string, k: Kind)
    requires k in CONNECTED
    ensures ConnectIndex(k) < |ToConnect(t)| && ToConnect(t)[ConnectIndex(k)] == PerToken(t, k)
  {
  }

  lemma ConnectionIsDistinguished(t: string)
    ensures Distinguished(ToConnect(t)) && KindsOf(ToConnect(t)) == CONNECTED
    ensures forall s <- ToConnect(t) :: s.PerToken? && s.token == t
  {
    var slots := ToConnect(t);
    forall i, j | 0 <= i < j < |slots|
      ensures slots[i] != slots[j]
    {
      IndexInConnecting(t, i);
      IndexInConnecting(t, j);
    }
    forall s | s in slots
      ensures s.PerToken? && s.token == t && s.kind in CONNECTED
    {
      var i :| 0 <= i < |slots| && slots[i] == s;
      IndexInConnecting(t, i);
    }
    forall k | k in CONNECTED
      ensures k in KindsOf(slots)
    {
      ConnectedKind(t, k);
      assert slots[ConnectIndex(k)] in slots;
    }
  }

  lemma ConnectingTokenCost(t: string, renounced: set<Slot>)
    ensures ConnectingCost(ToConnect(t), renounced) == 16 + 3 * |Owned(t, renounced)|
  {
    ConnectionIsDistinguished(t);
    CostByKinds(t, ToConnect(t), renounced);
  }

  // What the first run for a collateral takes.
  function FirstRunCost(t: string, etherscan: bool, renounced: set<Slot>): nat {
    48 + (if etherscan then 26 else 0) + 16 + 3 * |Owned(t, renounced)| + 2
  }

  lemma TokenCosts(w: World, m: Machine, t: string, renounced: set<Slot>)
    requires RenouncedAre(w, renounced) && Inv(m) && m.alive && m.memory == map[]
    ensures Costs(m, DeployToken(w, m, t), FirstRunCost(t, w.etherscan, renounced))
  {
    CoreCosts(w, m, t);
    ConnectingCosts(w, Await(DeployCore(w, m, t)), ToConnect(t), renounced);
    ConnectingTokenCost(t, renounced);
  }

  lemma DeployOne(w: World, m: Machine, t: string)
    ensures Deploy(w, m, [t]) == DeployToken(w, m, t)
  {
    assert [t][1..] == [];
    assert Deploy(w, DeployToken(w, m, t), []) == DeployToken(w, m, t);
  }

  // The first run for one collateral completes if and only if it survives 48 awaits for
  // deploying, 26 for submitting if there is an explorer, 16 for asking the owners of the
  // eight contracts to connect, 3 for each of them that is not renounced, and 2 between.
  lemma AwaitsAreNeeded(t: string, ticks: nat, w: World, renounced: set<Slot>)
    requires RenouncedAre(w, renounced)
    ensures RunSession(EMPTY, Session([t], ticks, w)).alive <==> ticks >= FirstRunCost(t, w.etherscan, renounced)
  {
    var m := Restart(EMPTY, ticks);
    TokenCosts(w, m, t, renounced);
    DeployOne(w, m, t);
  }

  // With an explorer and nothing renounced, that is all 116.
  lemma AllAwaitsNeeded(t: string)
    ensures FirstRunCost(t, true, {}) == AWAITS_PER_TOKEN
  {
    assert Owned(t, {}) == CONNECTED;
    assert |CONNECTED| == 8;
  }

  // --- The helper as the source runs it ---

  class DeploymentHelper {
    const world: World
    var outputFile: Registry
    var deploymentState: Registry
    var chain: seq<Contract>
    var ticks: nat
    var alive: bool

    function Snapshot(): Machine
      reads this
    {
      Machine(outputFile, chain, deploymentState, ticks, alive)
    }

    constructor (world: World, outputFile: Registry, chain: seq<Contract>)
      ensures Snapshot() == Machine(outputFile, chain, map[], 0, false) && this.world == world
    {
      this.world, this.outputFile, this.chain := world, outputFile, chain;
      deploymentState, ticks, alive := map[], 0, false;
    }

    method AwaitOrDie()
      modifies this`ticks, this`alive
      ensures Snapshot() == Await(old(Snapshot()))
    {
      if alive {
        if ticks == 0 {
          alive := false;
        } else {
          ticks := ticks - 1;
        }
      }
    }

    method LoadOrDeployContract(slot: Slot)
      modifies this
      ensures Snapshot() == LoadOrDeploy(old(Snapshot()), slot)
    {
      if !alive {
        return;
      }
      AwaitOrDie();
      if !alive || Recorded(deploymentState, slot) {
        return;
      }
      chain := chain + [Contract(Abi(slot), Resolve(Params(slot), deploymentState))];
      var address := |chain|;
      AwaitOrDie();
      if !alive {
        return;
      }
      AwaitOrDie();
      if !alive {
        return;
      }
      deploymentState := deploymentState[NameOf(slot) := Entry(Abi(slot), address, false)];
      outputFile := deploymentState;
    }

    method VerifyContract(slot: Slot)
      modifies this
      ensures Snapshot() == Verify(world, old(Snapshot()), slot)
    {
      AwaitOrDie();
      if !alive || !Recorded(deploymentState, slot) || deploymentState[NameOf(slot)].verified {
        return;
      }
      AwaitOrDie();
      if !alive || world.answer(ticks, slot).OtherError? {
        return;
      }
      deploymentState := deploymentState[NameOf(slot) := deploymentState[NameOf(slot)].(verified := true)];
      outputFile := deploymentState;
    }

    method ConnectContract(slot: Slot)
      modifies this`ticks, this`alive
      ensures Snapshot() == Connect(world, old(Snapshot()), slot)
    {
      AwaitOrDie();
      AwaitOrDie();
      if !alive || world.renounced(ticks, slot) {
        return;
      }
      AwaitOrDie();
      AwaitOrDie();
      AwaitOrDie();
    }

    // The calls of one collateral, in the order of the plan, and its verifications.
    method DeployLiquityCore(token: string)
      modifies this
      ensures Snapshot() == DeployCore(world, old(Snapshot()), token)
    {
      var plan := Plan(token);
      ghost var target := DeployAll(Snapshot(), plan);
      assert plan[0..] == plan;
      for i := 0 to |plan|
        invariant target == DeployAll(Snapshot(), plan[i..])
      {
        assert plan[i..][1..] == plan[i + 1..];
        LoadOrDeployContract(plan[i]);
      }
      if world.etherscan {
        VerifyContracts(ToVerify(token));
      }
    }

    method VerifyContracts(slots: seq<Slot>)
      modifies this
      ensures Snapshot() == VerifyAll(world, old(Snapshot()), slots)
    {
      ghost var target := VerifyAll(world, Snapshot(), slots);
      assert slots[0..] == slots;
      for i := 0 to |slots|
        invariant target == VerifyAll(world, Snapshot(), slots[i..])
      {
        assert slots[i..][1..] == slots[i + 1..];
        VerifyContract(slots[i]);
      }
    }

    method ConnectCoreContracts(token: string)
      modifies this`ticks, this`alive
      ensures Snapshot() == ConnectAll(world, old(Snapshot()), ToConnect(token))
    {
      var slots := ToConnect(token);
      ghost var target := ConnectAll(world, Snapshot(), slots);
      assert slots[0..] == slots;
      for i := 0 to |slots|
        invariant target == ConnectAll(world, Snapshot(), slots[i..])
      {
        assert slots[i..][1..] == slots[i + 1..];
        ConnectContract(slots[i]);
      }
    }

    method DeployCollaterals(tokens: seq<string>)
      modifies this
      ensures Snapshot() == Deploy(world, old(Snapshot()), tokens)
    {
      ghost var target := Deploy(world, Snapshot(), tokens);
      assert tokens[0..] == tokens;
      for i := 0 to |tokens|
        invariant target == Deploy(world, Snapshot(), tokens[i..])
      {
        assert tokens[i..][1..] == tokens[i + 1..];
        DeployLiquityCore(tokens[i]);
        AwaitOrDie();
        ConnectCoreContracts(tokens[i]);
        AwaitOrDie();
      }
    }

    // One process: load the saved file, then deploy until done or dead.
    method RunProcess(tokens: seq<string>, lifetime: nat)
      requires Inv(Snapshot())
      modifies this
      ensures Snapshot() == RunSession(old(Snapshot()), Session(tokens, lifetime, world))
      ensures Inv(Snapshot()) && Extends(old(Snapshot()), Snapshot())
    {
      DeployKeeps(world, Restart(Snapshot(), lifetime), tokens);
      deploymentState, ticks, alive := outputFile, lifetime, true;
      DeployCollaterals(tokens);
    }
  }
}
