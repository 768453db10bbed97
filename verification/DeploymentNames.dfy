/**
 The names under which the deployer records contracts. A collateral's contracts are
 recorded under the collateral followed by the contract's own name, the shared ones under
 their own name, so everything rests on these strings never colliding.
 */
module DeploymentNames {

  datatype Kind =
    | PriceFeed
    | SortedTroves
    | TroveManager
    | ActivePool
    | StabilityPool
    | GasPool
    | DefaultPool
    | CollSurplusPool
    | BorrowerOperations
    | HintHelpers
    | Governance
    | IncentivePool
    | MultiTroveGetter

  datatype SharedKind = EcosystemFund | GMUOracle | ARTHStablecoin

  // What a name stands for.
  datatype Slot = Shared(shared: SharedKind) | PerToken(token: string, kind: Kind)

  function Suffix(k: Kind): string {
    match k
    case PriceFeed => "PriceFeed"
    case SortedTroves => "SortedTroves"
    case TroveManager => "TroveManager"
    case ActivePool => "ActivePool"
    case StabilityPool => "StabilityPool"
    case GasPool => "GasPool"
    case DefaultPool => "DefaultPool"
    case CollSurplusPool => "CollSurplusPool"
    case BorrowerOperations => "BorrowerOperations"
    case HintHelpers => "HintHelpers"
    case Governance => "Governance"
    case IncentivePool => "IncentivePool"
    case MultiTroveGetter => "MultiTroveGetter"
  }

  function SharedName(s: SharedKind): string {
    match s
    case EcosystemFund => "EcosystemFund"
    case GMUOracle => "GMUOracle"
    case ARTHStablecoin => "ARTHStablecoin"
  }

  function NameOf(slot: Slot): string {
    match slot
    case Shared(s) => SharedName(s)
    case PerToken(token, kind) => token + Suffix(kind)
  }

  // --- No two slots share a name ---

  function FromEnd(s: string, i: nat): char
    requires i < |s|
  {
    s[|s| - 1 - i]
  }

  // The last and the sixth-last character of the name.
  function Ending(slot: Slot): (char, char) {
    match slot
    case Shared(s) => (
      match s
      case EcosystemFund => ('d', 'e')
      case GMUOracle => ('e', 'O')
      case ARTHStablecoin => ('n', 'l')
    )
    case PerToken(_, k) => (
      match k
      case PriceFeed => ('d', 'c')
      case SortedTroves => ('s', 'T')
      case TroveManager => ('r', 'a')
      case ActivePool => ('l', 'v')
      case StabilityPool => ('l', 't')
      case GasPool => ('l', 'a')
      case DefaultPool => ('l', 'l')
      case CollSurplusPool => ('l', 'u')
      case BorrowerOperations => ('s', 'a')
      case HintHelpers => ('s', 'e')
      case Governance => ('e', 'r')
      case IncentivePool => ('l', 'v')
      case MultiTroveGetter => ('r', 'G')
    )
  }

  lemma SuffixEnding(token: string, k: Kind)
    ensures |Suffix(k)| >= 6
    ensures FromEnd(Suffix(k), 0) == Ending(PerToken(token, k)).0
    ensures FromEnd(Suffix(k), 5) == Ending(PerToken(token, k)).1
  {
  }

  lemma NameEnding(slot: Slot)
    ensures |NameOf(slot)| >= 6
    ensures FromEnd(NameOf(slot), 0) == Ending(slot).0
    ensures FromEnd(NameOf(slot), 5) == Ending(slot).1
  {
    if slot.PerToken? {
      SuffixEnding(slot.token, slot.kind);
    }
  }

  lemma OtherTokenOtherName(t: string, u: string, suffix: string)
    requires t != u
    ensures t + suffix != u + suffix
  {
    if |t| == |u| {
      var i :| 0 <= i < |t| && t[i] != u[i];
      assert (t + suffix)[i] != (u + suffix)[i];
    } else {
      assert |t + suffix| != |u + suffix|;
    }
  }

  // Active and incentive pools end alike; they differ in the ninth-last character.
  lemma PoolsDiffer(t: string, u: string)
    ensures t + Suffix(ActivePool) != u + Suffix(IncentivePool)
  {
    var a, b := t + Suffix(ActivePool), u + Suffix(IncentivePool);
    assert FromEnd(a, 8) == 'c' && FromEnd(b, 8) == 'n';
  }

  lemma EndingsNearlyDetermine(a: Slot, b: Slot)
    requires a != b && Ending(a) == Ending(b)
    ensures a.PerToken? && b.PerToken?
    ensures a.kind == b.kind || {a.kind, b.kind} == {ActivePool, IncentivePool}
  {
  }

  // No name of one slot, for any collateral strings, is the name of another.
  lemma NamesAreDistinct(a: Slot, b: Slot)
    requires a != b
    ensures NameOf(a) != NameOf(b)
  {
    if Ending(a) != Ending(b) {
      NameEnding(a);
      NameEnding(b);
    } else {
      EndingsNearlyDetermine(a, b);
      if a.kind == b.kind {
        OtherTokenOtherName(a.token, b.token, Suffix(a.kind));
      } else if a.kind == ActivePool {
        PoolsDiffer(a.token, b.token);
      } else {
        PoolsDiffer(b.token, a.token);
      }
    }
  }
}
