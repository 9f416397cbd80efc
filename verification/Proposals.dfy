/** The proposal record of packages/cw3: votes, thresholds, early decisions and status updates. */
module Proposals {
  import opened Common
  import opened Rounding

  datatype Vote = Yes | No | Abstain | Veto

  datatype Status = Pending | Open | Rejected | Passed | Executed

  datatype Threshold =
    | AbsoluteCount(weight: U64)
    | AbsolutePercentage(percentage: Decimal)
    | ThresholdQuorum(threshold: Decimal, quorum: Decimal)
  {
    predicate InRange(totalWeight: nat) {
      match this
      case AbsoluteCount(needed) => needed <= totalWeight
      case AbsolutePercentage(p) => p <= ONE
      case ThresholdQuorum(t, quorum) => t <= ONE && quorum <= ONE
    }
  }

  datatype Ballot = Ballot(weight: U64, vote: Vote)

  /** The value of a Votes object. */
  datatype Tally = Tally(yes: nat, no: nat, abstain: nat, veto: nat) {
    function Total(): nat {
      yes + no + abstain + veto
    }

    function Of(vote: Vote): nat {
      match vote
      case Yes => yes
      case No => no
      case Abstain => abstain
      case Veto => veto
    }

    function Add(ballot: Ballot): Tally {
      match ballot.vote
      case Yes => this.(yes := yes + ballot.weight)
      case No => this.(no := no + ballot.weight)
      case Abstain => this.(abstain := abstain + ballot.weight)
      case Veto => this.(veto := veto + ballot.weight)
    }
  }

  function CheckedTotal(t: Tally): Option<U64> {
    if t.Total() <= U64_MAX then Some(t.Total()) else None
  }

  function CheckedSub(a: nat, b: nat): Option<nat> {
    if b <= a then Some(a - b) else None
  }

  /** The value of a Proposal object, without the descriptive fields no decision reads.
      Every function is the source's expression; `None` is a checked-arithmetic panic. */
  datatype Snapshot = Snapshot(
    expires: Expiration, status: Status, threshold: Threshold, totalWeight: U64, votes: Tally) {

    function IsPassed(block: BlockInfo): Option<bool> {
      match threshold
      case AbsoluteCount(needed) => Some(votes.yes >= needed)
      case AbsolutePercentage(p) =>
        var possible :- CheckedSub(totalWeight, votes.abstain);
        var needed :- VotesNeeded(possible, p);
        Some(votes.yes >= needed)
      case ThresholdQuorum(t, quorum) =>
        var total :- CheckedTotal(votes);
        var present :- VotesNeeded(totalWeight, quorum);
        if total < present then Some(false)
        else if expires.IsExpired(block) then
          var opinions :- CheckedSub(total, votes.abstain);
          var needed :- VotesNeeded(opinions, t);
          Some(votes.yes >= needed)
        else
          var possible :- CheckedSub(totalWeight, votes.abstain);
          var needed :- VotesNeeded(possible, t);
          Some(votes.yes >= needed)
    }

    function IsRejected(block: BlockInfo): Option<bool> {
      match threshold
      case AbsoluteCount(needed) =>
        var weight :- CheckedSub(totalWeight, needed);
        Some(votes.no > weight)
      case AbsolutePercentage(p) =>
        var possible :- CheckedSub(totalWeight, votes.abstain);
        var against :- CheckedSub(ONE, p);
        var needed :- VotesNeeded(possible, against);
        Some(votes.no > needed)
      case ThresholdQuorum(t, _) =>
        if expires.IsExpired(block) then
          var total :- CheckedTotal(votes);
          var opinions :- CheckedSub(total, votes.abstain);
          var against :- CheckedSub(ONE, t);
          var needed :- VotesNeeded(opinions, against);
          Some(votes.no > needed)
        else
          var possible :- CheckedSub(totalWeight, votes.abstain);
          var against :- CheckedSub(ONE, t);
          var needed :- VotesNeeded(possible, against);
          Some(votes.no > needed)
    }

    /** The status the proposal should have: an open proposal passes as soon as it is sure to pass,
        and otherwise is rejected when that is sure or when it has run out. */
    function CurrentStatus(block: BlockInfo): Option<Status> {
      if status != Open then Some(status)
      else
        var passed :- IsPassed(block);
        if passed then Some(Passed)
        else
          var rejected :- IsRejected(block);
          Some(if rejected || expires.IsExpired(block) then Rejected else Open)
    }

    /** What a voting contract sets up: no more votes than members, and a threshold within range. */
    predicate WellFormed() {
      votes.Total() <= totalWeight && threshold.InRange(totalWeight)
    }
  }

  class Votes {
    var yes: U64
    var no: U64
    var abstain: U64
    var veto: U64

    function View(): (t: Tally)
      reads this
      ensures t.yes == yes && t.no == no && t.abstain == abstain && t.veto == veto
    {
      Tally(yes, no, abstain, veto)
    }

    /** A tally opened by one Yes vote of the given weight. */
    constructor Yes(initWeight: U64)
      ensures yes == initWeight && no == abstain == veto == 0
      ensures View() == Tally(0, 0, 0, 0).Add(Ballot(initWeight, Vote.Yes))
    {
      yes, no, abstain, veto := initWeight, 0, 0, 0;
    }

    /** Adds to one counter and leaves the other three; a counter that would overflow aborts the call. */
    method AddVote(vote: Vote, weight: U64) returns (ok: bool)
      modifies this
      ensures ok <==> old(View()).Of(vote) + weight <= U64_MAX
      ensures ok ==> yes == old(yes) + (if vote == Vote.Yes then weight else 0)
      ensures ok ==> no == old(no) + (if vote == No then weight else 0)
      ensures ok ==> abstain == old(abstain) + (if vote == Abstain then weight else 0)
      ensures ok ==> veto == old(veto) + (if vote == Veto then weight else 0)
      ensures View() == if ok then old(View()).Add(Ballot(weight, vote)) else old(View())
    {
      ok := false;
      match vote {
        case Yes =>
          if weight <= U64_MAX - yes { yes := yes + weight; ok := true; }
        case Abstain =>
          if weight <= U64_MAX - abstain { abstain := abstain + weight; ok := true; }
        case No =>
          if weight <= U64_MAX - no { no := no + weight; ok := true; }
        case Veto =>
          if weight <= U64_MAX - veto { veto := veto + weight; ok := true; }
      }
    }
  }

  class Proposal {
    const expires: Expiration
    const threshold: Threshold
    const totalWeight: U64
    const votes: Votes
    var status: Status

    constructor (expires: Expiration, threshold: Threshold, totalWeight: U64, status: Status, votes: Votes)
      ensures this.votes == votes
      ensures View() == Snapshot(expires, status, threshold, totalWeight, votes.View())
    {
      this.expires, this.threshold, this.totalWeight := expires, threshold, totalWeight;
      this.status, this.votes := status, votes;
    }

    function View(): Snapshot
      reads this, votes
    {
      Snapshot(expires, status, threshold, totalWeight, votes.View())
    }

    /** Reads the stored status and rebinds a local copy; the proposal itself is untouched. */
    method CurrentStatus(block: BlockInfo) returns (r: Option<Status>)
      ensures r == View().CurrentStatus(block)
    {
      var current := status;
      if current == Open {
        var passed :- View().IsPassed(block);
        if passed {
          current := Passed;
        }
      }
      if current == Open {
        var rejected :- View().IsRejected(block);
        if rejected || expires.IsExpired(block) {
          current := Rejected;
        }
      }
      return Some(current);
    }

    /** Stores the current status; a panic while computing it leaves the stored one. */
    method UpdateStatus(block: BlockInfo) returns (ok: bool)
      modifies this`status
      ensures ok <==> old(View()).CurrentStatus(block).Some?
      ensures View() == if ok then old(View()).(status := old(View()).CurrentStatus(block).value) else old(View())
    {
      var current := CurrentStatus(block);
      if current.None? {
        return false;
      }
      status := current.value;
      return true;
    }
  }
}
