/** Early decisions against every possible future: when `is_passed` and `is_rejected` are exact,
    and why a status stored early is the status the final count gives. */
module Decisions {
  import opened Common
  import opened Rounding
  import opened Proposals

  // ---------------------------------------------------------------- the decision rule, unrounded by widths

  /** The pass rule over unbounded integers; `expired` picks the basis of the quorum threshold. */
  predicate Passes(t: Threshold, totalWeight: nat, v: Tally, expired: bool)
    requires v.Total() <= totalWeight
  {
    match t
    case AbsoluteCount(needed) => v.yes >= needed
    case AbsolutePercentage(p) => v.yes >= Needed(totalWeight - v.abstain, p)
    case ThresholdQuorum(p, quorum) =>
      && v.Total() >= Needed(totalWeight, quorum)
      && v.yes >= Needed((if expired then v.Total() else totalWeight) - v.abstain, p)
  }

  /** The No weight beyond which `is_rejected` fires. */
  function RejectBound(t: Threshold, totalWeight: nat, v: Tally, expired: bool): int
    requires v.Total() <= totalWeight && t.InRange(totalWeight)
  {
    match t
    case AbsoluteCount(needed) => totalWeight - needed
    case AbsolutePercentage(p) => Needed(totalWeight - v.abstain, ONE - p)
    case ThresholdQuorum(p, _) => Needed((if expired then v.Total() else totalWeight) - v.abstain, ONE - p)
  }

  /** A well-formed proposal never panics, and its checked decisions are the unrounded rule. */
  lemma DecisionsNeverPanic(p: Snapshot, block: BlockInfo)
    requires p.WellFormed()
    ensures p.IsPassed(block) == Some(Passes(p.threshold, p.totalWeight, p.votes, p.expires.IsExpired(block)))
    ensures p.IsRejected(block)
         == Some(p.votes.no > RejectBound(p.threshold, p.totalWeight, p.votes, p.expires.IsExpired(block)))
  {
    hide Needed, VotesNeeded;
    var v, w := p.votes, p.totalWeight;
    match p.threshold {
      case AbsoluteCount(_) =>
      case AbsolutePercentage(q) =>
        VotesNeededFits(w - v.abstain, q);
        VotesNeededFits(w - v.abstain, ONE - q);
      case ThresholdQuorum(q, quorum) =>
        VotesNeededFits(w, quorum);
        VotesNeededFits(w - v.abstain, q);
        VotesNeededFits(w - v.abstain, ONE - q);
        VotesNeededFits(v.Total() - v.abstain, q);
        VotesNeededFits(v.Total() - v.abstain, ONE - q);
    }
  }

  /** `votes` reach the fraction `p` of `weight` in exact arithmetic, give or take less than 10^-9 of a vote. */
  predicate Reaches(votes: nat, weight: nat, p: Decimal) {
    weight * p < votes * ONE + PRECISION_FACTOR
  }

  lemma ReachesIff(votes: nat, weight: nat, p: Decimal)
    ensures Reaches(votes, weight, p) <==> votes >= Needed(weight, p)
  {
    hide Needed;
    EnoughIff(weight, p, votes);
  }

  /** The weight a fraction of Yes or No is taken of: everybody who did not abstain, among all members while votes
      are open, and among those who voted once expired under a quorum. */
  function Basis(p: Snapshot, expired: bool): int {
    if p.threshold.ThresholdQuorum? && expired then p.votes.yes + p.votes.no + p.votes.veto
    else p.totalWeight - p.votes.abstain
  }

  /** Yes reaches its count or its fraction and, under a quorum, enough members have voted in any way. */
  predicate EnoughYes(p: Snapshot, expired: bool)
    requires p.WellFormed()
  {
    match p.threshold
    case AbsoluteCount(needed) => p.votes.yes >= needed
    case AbsolutePercentage(q) => Reaches(p.votes.yes, Basis(p, expired), q)
    case ThresholdQuorum(q, quorum) =>
      Reaches(p.votes.Total(), p.totalWeight, quorum) && Reaches(p.votes.yes, Basis(p, expired), q)
  }

  /** No leaves too few for the count, or exceeds the complementary fraction by a whole vote, give or take less than
      10^-9. Neither veto nor the quorum plays a role. */
  predicate TooMuchNo(p: Snapshot, expired: bool)
    requires p.WellFormed()
  {
    match p.threshold
    case AbsoluteCount(needed) => p.votes.no + needed > p.totalWeight
    case AbsolutePercentage(q) => p.votes.no > 0 && Reaches(p.votes.no - 1, Basis(p, expired), ONE - q)
    case ThresholdQuorum(q, _) => p.votes.no > 0 && Reaches(p.votes.no - 1, Basis(p, expired), ONE - q)
  }

  /** A well-formed proposal passes exactly when Yes is enough in exact fractions. */
  lemma PassedAsFractions(p: Snapshot, block: BlockInfo)
    requires p.WellFormed()
    ensures p.IsPassed(block) == Some(EnoughYes(p, p.expires.IsExpired(block)))
  {
    hide Needed, VotesNeeded, Reaches, Snapshot.IsPassed, Snapshot.IsRejected;
    DecisionsNeverPanic(p, block);
    var v, basis := p.votes, Basis(p, p.expires.IsExpired(block));
    match p.threshold {
      case AbsoluteCount(_) =>
      case AbsolutePercentage(q) => ReachesIff(v.yes, basis, q);
      case ThresholdQuorum(q, quorum) =>
        ReachesIff(v.Total(), p.totalWeight, quorum);
        ReachesIff(v.yes, basis, q);
    }
  }

  /** A well-formed proposal is rejected, with veto weight or without, expired or not, exactly when No is too much in
      exact fractions. */
  lemma RejectedAsFractions(p: Snapshot, block: BlockInfo)
    requires p.WellFormed()
    ensures p.IsRejected(block) == Some(TooMuchNo(p, p.expires.IsExpired(block)))
  {
    hide Needed, VotesNeeded, Reaches, Snapshot.IsPassed, Snapshot.IsRejected;
    DecisionsNeverPanic(p, block);
    if !p.threshold.AbsoluteCount? && p.votes.no > 0 {
      var q := if p.threshold.AbsolutePercentage? then p.threshold.percentage else p.threshold.threshold;
      ReachesIff(p.votes.no - 1, Basis(p, p.expires.IsExpired(block)), ONE - q);
    }
  }

  // ---------------------------------------------------------------- futures

  function CastAll(v: Tally, ballots: seq<Ballot>): Tally
    decreases |ballots|
  {
    if ballots == [] then v else CastAll(v.Add(ballots[0]), ballots[1..])
  }

  function WeightOf(ballots: seq<Ballot>): nat {
    if ballots == [] then 0 else ballots[0].weight + WeightOf(ballots[1..])
  }

  /** A future sequence of votes is possible when it fits in the weight not yet cast. */
  predicate Possible(p: Snapshot, ballots: seq<Ballot>) {
    p.votes.Total() + WeightOf(ballots) <= p.totalWeight
  }

  function After(p: Snapshot, ballots: seq<Ballot>): Snapshot {
    p.(votes := CastAll(p.votes, ballots))
  }

  predicate Extends(v: Tally, v': Tally) {
    v.yes <= v'.yes && v.no <= v'.no && v.abstain <= v'.abstain && v.veto <= v'.veto
  }

  /** Casting adds exactly the weight of the ballots and takes nothing away. */
  lemma {:induction false} CastAllExtends(v: Tally, ballots: seq<Ballot>)
    ensures Extends(v, CastAll(v, ballots))
    ensures CastAll(v, ballots).Total() == v.Total() + WeightOf(ballots)
    decreases |ballots|
  {
    if ballots == [] {
    } else {
      CastAllExtends(v.Add(ballots[0]), ballots[1..]);
    }
  }

  /** The best future for Yes: everyone left votes Yes. */
  function AllYes(v: Tally, totalWeight: nat): Tally
    requires v.Total() <= totalWeight
  {
    v.(yes := v.yes + (totalWeight - v.Total()))
  }

  /** A pass survives every future, from any evaluation basis to the same or the expired one. */
  lemma PassSurvives(t: Threshold, w: U64, v: Tally, v': Tally, expired: bool)
    requires v.Total() <= w && t.InRange(w)
    requires Extends(v, v') && v'.Total() <= w
    requires Passes(t, w, v, false)
    ensures Passes(t, w, v', expired)
  {
    hide Needed, VotesNeeded;
    var basis := (if expired then v'.Total() else w) - v'.abstain;
    match t {
      case AbsoluteCount(_) =>
      case AbsolutePercentage(p) => NeededMonotone(w - v'.abstain, w - v.abstain, p, p);
      case ThresholdQuorum(p, _) => NeededMonotone(basis, w - v.abstain, p, p);
    }
  }

  /** Turning every vote not yet cast, and every later abstention, into a Yes keeps Yes above the requirement: both
      grow, but the requirement no faster than the votes. */
  lemma MoreYesOnWiderBasis(yes: nat, against: nat, basis: nat, possible: nat, p: nat)
    requires p <= ONE && basis <= possible && yes + against <= basis && yes >= Needed(basis, p)
    ensures possible - against >= Needed(possible, p)
  {
    NeededGrowth(basis, possible - basis, p);
    assert basis + (possible - basis) == possible;
  }

  /** If any future passes, on any basis, then the all-Yes future passes at expiry. */
  lemma BestFutureIsAllYes(t: Threshold, w: U64, v: Tally, v': Tally, expired: bool)
    requires v.Total() <= w && t.InRange(w)
    requires Extends(v, v') && v'.Total() <= w
    requires Passes(t, w, v', expired)
    ensures Passes(t, w, AllYes(v, w), true)
  {
    hide Needed, VotesNeeded;
    var best, possible := AllYes(v, w), w - v.abstain;
    assert best.Total() == w && best.yes == possible - (v.no + v.veto);
    match t {
      case AbsoluteCount(_) =>
      case AbsolutePercentage(p) =>
        MoreYesOnWiderBasis(v'.yes, v.no + v.veto, w - v'.abstain, possible, p);
      case ThresholdQuorum(p, quorum) =>
        MoreYesOnWiderBasis(v'.yes, v.no + v.veto, (if expired then v'.Total() else w) - v'.abstain, possible, p);
        VotesNeededFits(w, quorum);
    }
  }

  // ---------------------------------------------------------------- is_passed is exact

  /** The vote is counted as passed at an expired block after these further ballots. */
  predicate PassesFinally(p: Snapshot, ballots: seq<Ballot>, end: BlockInfo) {
    p.expires.IsExpired(end) && After(p, ballots).IsPassed(end) == Some(true)
  }

  /** No future sequence of votes can make the final count fail. */
  ghost predicate SureToPass(p: Snapshot, now: BlockInfo) {
    forall ballots: seq<Ballot>, end: BlockInfo {:trigger PassesFinally(p, ballots, end)} ::
      Possible(p, ballots) && now.UpTo(end) && p.expires.IsExpired(end) ==> PassesFinally(p, ballots, end)
  }

  /** No future sequence of votes can make the final count pass. */
  ghost predicate SureToFail(p: Snapshot, now: BlockInfo) {
    forall ballots: seq<Ballot>, end: BlockInfo {:trigger PassesFinally(p, ballots, end)} ::
      Possible(p, ballots) && now.UpTo(end) ==> !PassesFinally(p, ballots, end)
  }

  lemma FutureIsWellFormed(p: Snapshot, ballots: seq<Ballot>)
    requires p.WellFormed() && Possible(p, ballots)
    ensures After(p, ballots).WellFormed() && Extends(p.votes, After(p, ballots).votes)
  {
    CastAllExtends(p.votes, ballots);
  }

  lemma SomeExpiredBlock(e: Expiration, now: BlockInfo) returns (end: BlockInfo)
    requires e != Never
    ensures now.UpTo(end) && e.IsExpired(end)
  {
    end := BlockInfo(U64_MAX, U64_MAX);
  }

  /** While votes can still be cast and the proposal can expire, `is_passed` holds exactly when every
      possible future passes. The failing future, when there is one, is that nobody else votes
      (quorum missing) or that everyone left votes No. */
  lemma {:induction false} PassedIsExact(p: Snapshot, now: BlockInfo)
    requires p.WellFormed() && p.expires != Never && !p.expires.IsExpired(now)
    ensures p.IsPassed(now) == Some(true) <==> SureToPass(p, now)
  {
    hide Needed, VotesNeeded;
    DecisionsNeverPanic(p, now);
    if Passes(p.threshold, p.totalWeight, p.votes, false) {
      forall ballots: seq<Ballot>, end: BlockInfo |
        Possible(p, ballots) && now.UpTo(end) && p.expires.IsExpired(end)
        ensures PassesFinally(p, ballots, end)
      {
        FutureIsWellFormed(p, ballots);
        PassSurvives(p.threshold, p.totalWeight, p.votes, After(p, ballots).votes, true);
        DecisionsNeverPanic(After(p, ballots), end);
      }
    } else {
      var end := SomeExpiredBlock(p.expires, now);
      var rest := [Ballot(p.totalWeight - p.votes.Total(), No)];
      assert CastAll(p.votes, rest) == p.votes.Add(rest[0]) by {
        assert rest[1..] == [];
      }
      assert WeightOf(rest) == rest[0].weight;
      assert Possible(p, []) && Possible(p, rest);
      assert After(p, []) == p;
      DecisionsNeverPanic(After(p, []), end);
      DecisionsNeverPanic(After(p, rest), end);
      assert !PassesFinally(p, [], end) || !PassesFinally(p, rest, end);
    }
  }

  /** While votes can still be cast, a pass is permanent: in every possible future and at every later
      block, expired or not, the proposal is passed. This covers proposals that never expire. */
  lemma PassedIsPermanent(p: Snapshot, now: BlockInfo, ballots: seq<Ballot>, later: BlockInfo)
    requires p.WellFormed() && !p.expires.IsExpired(now) && p.IsPassed(now) == Some(true)
    requires Possible(p, ballots) && now.UpTo(later)
    ensures After(p, ballots).IsPassed(later) == Some(true)
  {
    hide Needed, VotesNeeded;
    DecisionsNeverPanic(p, now);
    FutureIsWellFormed(p, ballots);
    PassSurvives(p.threshold, p.totalWeight, p.votes, After(p, ballots).votes, p.expires.IsExpired(later));
    DecisionsNeverPanic(After(p, ballots), later);
  }

  // ---------------------------------------------------------------- is_rejected is sound, and how late it is

  lemma RejectedBlocksBest(p: Snapshot)
    requires p.WellFormed()
    requires p.votes.no > RejectBound(p.threshold, p.totalWeight, p.votes, false)
    ensures !Passes(p.threshold, p.totalWeight, AllYes(p.votes, p.totalWeight), true)
  {
    hide Needed, VotesNeeded;
    match p.threshold {
      case AbsoluteCount(_) =>
      case AbsolutePercentage(q) => NeededComplement(p.totalWeight - p.votes.abstain, q);
      case ThresholdQuorum(q, _) => NeededComplement(p.totalWeight - p.votes.abstain, q);
    }
  }

  /** A rejection rules out a pass in every possible future, at every later block, expired or not. */
  lemma RejectedIsSound(p: Snapshot, now: BlockInfo, ballots: seq<Ballot>, later: BlockInfo)
    requires p.WellFormed() && !p.expires.IsExpired(now) && p.IsRejected(now) == Some(true)
    requires Possible(p, ballots) && now.UpTo(later)
    ensures After(p, ballots).IsPassed(later) == Some(false)
  {
    hide Needed, VotesNeeded;
    DecisionsNeverPanic(p, now);
    FutureIsWellFormed(p, ballots);
    DecisionsNeverPanic(After(p, ballots), later);
    if Passes(p.threshold, p.totalWeight, After(p, ballots).votes, p.expires.IsExpired(later)) {
      BestFutureIsAllYes(p.threshold, p.totalWeight, p.votes, After(p, ballots).votes, p.expires.IsExpired(later));
      RejectedBlocksBest(p);
    }
  }

  /** In every state, expired ones included, a proposal is not both passed and rejected. */
  lemma NeverPassedAndRejected(p: Snapshot, block: BlockInfo)
    requires p.WellFormed()
    ensures !(p.IsPassed(block) == Some(true) && p.IsRejected(block) == Some(true))
  {
    hide Needed, VotesNeeded;
    DecisionsNeverPanic(p, block);
    var v, expired := p.votes, p.expires.IsExpired(block);
    match p.threshold {
      case AbsoluteCount(_) =>
      case AbsolutePercentage(q) => NeededComplement(p.totalWeight - v.abstain, q);
      case ThresholdQuorum(q, _) =>
        NeededComplement((if expired then v.Total() else p.totalWeight) - v.abstain, q);
    }
  }

  /** A possible future passes if and only if the all-Yes one does. */
  lemma SureToFailIsAllYesFails(p: Snapshot, now: BlockInfo)
    requires p.WellFormed() && p.expires != Never
    ensures SureToFail(p, now) <==> !Passes(p.threshold, p.totalWeight, AllYes(p.votes, p.totalWeight), true)
  {
    hide Needed, VotesNeeded;
    var best := AllYes(p.votes, p.totalWeight);
    if Passes(p.threshold, p.totalWeight, best, true) {
      var end := SomeExpiredBlock(p.expires, now);
      var rest := [Ballot(p.totalWeight - p.votes.Total(), Yes)];
      assert CastAll(p.votes, rest) == best by {
        assert rest[1..] == [];
      }
      assert WeightOf(rest) == rest[0].weight;
      DecisionsNeverPanic(After(p, rest), end);
      assert Possible(p, rest) && PassesFinally(p, rest, end);
    } else {
      forall ballots: seq<Ballot>, end: BlockInfo | Possible(p, ballots) && now.UpTo(end)
        ensures !PassesFinally(p, ballots, end)
      {
        FutureIsWellFormed(p, ballots);
        DecisionsNeverPanic(After(p, ballots), end);
        if PassesFinally(p, ballots, end) {
          BestFutureIsAllYes(p.threshold, p.totalWeight, p.votes, After(p, ballots).votes, true);
        }
      }
    }
  }

  /** The states where a proposal is already lost but `is_rejected` does not say so yet: the No weight is
      within the rejection bound, and yet No together with the weight that can no longer vote Yes
      leaves too little for Yes. Veto weight, and Abstain weight under an absolute count, is lost to Yes
      but not counted by the test; the rounding of the two requirements accounts for one more vote. */
  predicate RejectionGap(p: Snapshot)
    requires p.WellFormed()
  {
    && p.votes.no <= RejectBound(p.threshold, p.totalWeight, p.votes, false)
    && match p.threshold
       case AbsoluteCount(needed) => p.votes.no + p.votes.abstain + p.votes.veto > p.totalWeight - needed
       case AbsolutePercentage(q) =>
         p.votes.no + p.votes.veto + Needed(p.totalWeight - p.votes.abstain, q) > p.totalWeight - p.votes.abstain
       case ThresholdQuorum(q, _) =>
         p.votes.no + p.votes.veto + Needed(p.totalWeight - p.votes.abstain, q) > p.totalWeight - p.votes.abstain
  }

  lemma GapMeaning(p: Snapshot)
    requires p.WellFormed()
    ensures RejectionGap(p) <==>
            && p.votes.no <= RejectBound(p.threshold, p.totalWeight, p.votes, false)
            && !Passes(p.threshold, p.totalWeight, AllYes(p.votes, p.totalWeight), true)
  {
    if p.threshold.ThresholdQuorum? {
      VotesNeededFits(p.totalWeight, p.threshold.quorum);
    }
    hide Needed, VotesNeeded;
    assert AllYes(p.votes, p.totalWeight).Total() == p.totalWeight;
  }

  /** `is_rejected` is "sure to be rejected" exactly outside the gap. */
  lemma RejectedIsExactIff(p: Snapshot, now: BlockInfo)
    requires p.WellFormed() && p.expires != Never && !p.expires.IsExpired(now)
    ensures (p.IsRejected(now) == Some(true) <==> SureToFail(p, now)) <==> !RejectionGap(p)
  {
    DecisionsNeverPanic(p, now);
    SureToFailIsAllYesFails(p, now);
    GapMeaning(p);
    hide *;
    if p.votes.no > RejectBound(p.threshold, p.totalWeight, p.votes, false) {
      RejectedBlocksBest(p);
    }
  }

  /** Without veto weight the gap is one vote wide: one No less than the bound and some future passes.
      For an absolute count without veto or abstention there is no gap at all. */
  lemma RejectedIsLateByAtMostOne(p: Snapshot, now: BlockInfo)
    requires p.WellFormed() && p.expires != Never && !p.expires.IsExpired(now)
    requires p.votes.veto == 0 && (p.threshold.AbsoluteCount? ==> p.votes.abstain == 0)
    ensures !p.threshold.AbsoluteCount? && p.votes.no < RejectBound(p.threshold, p.totalWeight, p.votes, false)
        ==> !SureToFail(p, now)
    ensures p.threshold.AbsoluteCount? ==> (p.IsRejected(now) == Some(true) <==> SureToFail(p, now))
  {
    hide Needed, VotesNeeded;
    RejectedIsExactIff(p, now);
    DecisionsNeverPanic(p, now);
    match p.threshold {
      case AbsoluteCount(_) =>
      case AbsolutePercentage(q) => NeededComplement(p.totalWeight - p.votes.abstain, q);
      case ThresholdQuorum(q, _) => NeededComplement(p.totalWeight - p.votes.abstain, q);
    }
  }

  /** Fifteen members, half of them needed, eight against: lost, but not reported as rejected. */
  lemma RejectionCanBeLate(now: BlockInfo, end: U64)
    requires now.height < end
    ensures var p := Snapshot(AtHeight(end), Open, AbsolutePercentage(ONE / 2), 15, Tally(0, 8, 0, 0));
            p.IsRejected(now) == Some(false) && SureToFail(p, now)
  {
    var p := Snapshot(AtHeight(end), Open, AbsolutePercentage(ONE / 2), 15, Tally(0, 8, 0, 0));
    assert Needed(15, ONE / 2) == 8 by {
      TimesIsProduct(15, ONE / 2);
    }
    DecisionsNeverPanic(p, now);
    SureToFailIsAllYesFails(p, now);
  }

  // ---------------------------------------------------------------- the current status

  /** An open proposal shows Passed as soon as, and only when, every possible future passes; it shows Rejected only when
      none does, and then always, exactly outside the gap. */
  lemma OpenStatusIsExact(p: Snapshot, now: BlockInfo)
    requires p.WellFormed() && p.status == Open && p.expires != Never && !p.expires.IsExpired(now)
    ensures p.CurrentStatus(now) == Some(Passed) <==> SureToPass(p, now)
    ensures p.CurrentStatus(now) == Some(Rejected) ==> SureToFail(p, now)
    ensures (p.CurrentStatus(now) == Some(Rejected) <==> SureToFail(p, now)) <==> !RejectionGap(p)
  {
    PassedIsExact(p, now);
    RejectedIsExactIff(p, now);
    NeverPassedAndRejected(p, now);
    DecisionsNeverPanic(p, now);
    SureToFailIsAllYesFails(p, now);
    hide *;
    if p.votes.no > RejectBound(p.threshold, p.totalWeight, p.votes, false) {
      RejectedBlocksBest(p);
    }
  }

  /** The status read off the tally, at every block and for every kind of expiry: a decision once made is shown; an
      open proposal shows Passed when Yes is enough, else Rejected when No is too much or it has expired, else Open. */
  lemma StatusIsByCount(p: Snapshot, block: BlockInfo)
    requires p.WellFormed()
    ensures var expired := p.expires.IsExpired(block);
            && (p.status != Open ==> p.CurrentStatus(block) == Some(p.status))
            && (p.status == Open && expired ==>
                  p.CurrentStatus(block) == Some(if EnoughYes(p, true) then Passed else Rejected))
            && (p.status == Open && !expired ==>
                  && (p.CurrentStatus(block) == Some(Passed) <==> EnoughYes(p, false))
                  && (p.CurrentStatus(block) == Some(Rejected) <==> TooMuchNo(p, false))
                  && (p.CurrentStatus(block) == Some(Open) <==> !EnoughYes(p, false) && !TooMuchNo(p, false)))
  {
    PassedAsFractions(p, block);
    RejectedAsFractions(p, block);
    NeverPassedAndRejected(p, block);
    hide EnoughYes, TooMuchNo, Snapshot.IsPassed, Snapshot.IsRejected;
  }

  // ---------------------------------------------------------------- runs of votes and status updates

  /** A ballot is counted, or the stored status is refreshed, at some block. */
  datatype Event = Cast(ballot: Ballot, at: BlockInfo) | Refresh(at: BlockInfo)

  function Apply(p: Snapshot, e: Event): Snapshot {
    match e
    case Cast(ballot, _) => p.(votes := p.votes.Add(ballot))
    case Refresh(at) =>
      match p.CurrentStatus(at)
      case Some(s) => p.(status := s)
      case None => p
  }

  function Run(p: Snapshot, events: seq<Event>): Snapshot
    decreases |events|
  {
    if events == [] then p else Run(Apply(p, events[0]), events[1..])
  }

  /** Blocks do not run backwards from `now` to `end`, nobody votes once the proposal has expired, and nobody votes
      with more weight than is left. Voting on after an early decision is allowed. */
  predicate Legal(expires: Expiration, left: int, now: BlockInfo, events: seq<Event>, end: BlockInfo)
    decreases |events|
  {
    if events == [] then now.UpTo(end)
    else
      now.UpTo(events[0].at) &&
      match events[0]
      case Refresh(at) => Legal(expires, left, at, events[1..], end)
      case Cast(ballot, at) =>
        !expires.IsExpired(at) && ballot.weight <= left && Legal(expires, left - ballot.weight, at, events[1..], end)
  }

  function Left(p: Snapshot): int {
    p.totalWeight - p.votes.Total()
  }

  /** The stored status agrees with the count so far: a stored Passed passes now, and a stored Rejected
      can no longer pass. */
  predicate Settled(p: Snapshot, now: BlockInfo) {
    && p.WellFormed()
    && p.status in {Open, Passed, Rejected}
    && (p.status == Passed ==> Passes(p.threshold, p.totalWeight, p.votes, p.expires.IsExpired(now)))
    && (p.status == Rejected ==>
         if p.expires.IsExpired(now) then !Passes(p.threshold, p.totalWeight, p.votes, true)
         else !Passes(p.threshold, p.totalWeight, AllYes(p.votes, p.totalWeight), true))
  }

  lemma SettledLater(p: Snapshot, now: BlockInfo, later: BlockInfo)
    requires Settled(p, now) && now.UpTo(later)
    ensures Settled(p, later)
  {
    hide Needed, VotesNeeded;
    var t, w, v := p.threshold, p.totalWeight, p.votes;
    if p.expires.IsExpired(now) {
      ExpiredStays(p.expires, now, later);
    } else if p.status == Passed {
      PassSurvives(t, w, v, v, p.expires.IsExpired(later));
    } else if p.status == Rejected && Passes(t, w, v, true) {
      BestFutureIsAllYes(t, w, v, v, true);
    }
  }

  lemma SettledAfterCast(p: Snapshot, ballot: Ballot, now: BlockInfo)
    requires Settled(p, now) && !p.expires.IsExpired(now)
    requires p.votes.Total() + ballot.weight <= p.totalWeight
    ensures Settled(p.(votes := p.votes.Add(ballot)), now)
  {
    hide Needed, VotesNeeded;
    var t, w, v := p.threshold, p.totalWeight, p.votes;
    var v' := v.Add(ballot);
    if p.status == Passed {
      PassSurvives(t, w, v, v', false);
    } else if p.status == Rejected && Passes(t, w, AllYes(v', w), true) {
      BestFutureIsAllYes(t, w, v, AllYes(v', w), true);
    }
  }

  lemma SettledAfterRefresh(p: Snapshot, now: BlockInfo)
    requires Settled(p, now)
    ensures Settled(Apply(p, Refresh(now)), now)
  {
    hide Needed, VotesNeeded;
    DecisionsNeverPanic(p, now);
    if p.status == Open && p.votes.no > RejectBound(p.threshold, p.totalWeight, p.votes, false) {
      RejectedBlocksBest(p);
    }
  }

  lemma {:induction false} RunSettles(p: Snapshot, now: BlockInfo, events: seq<Event>, end: BlockInfo)
    requires Settled(p, now) && Legal(p.expires, Left(p), now, events, end)
    ensures Settled(Run(p, events), end) && Run(p, events).expires == p.expires
    decreases |events|
  {
    if events == [] {
      SettledLater(p, now, end);
    } else {
      var e := events[0];
      SettledLater(p, now, e.at);
      match e {
        case Cast(ballot, at) => SettledAfterCast(p, ballot, at);
        case Refresh(at) => SettledAfterRefresh(p, at);
      }
      RunSettles(Apply(p, e), e.at, events[1..], end);
    }
  }

  /** However votes and status updates interleave before and after an early decision, the status at
      expiry is the one a single count of the final tally would give. */
  lemma EarlyDecisionsAgree(p: Snapshot, start: BlockInfo, events: seq<Event>, end: BlockInfo)
    requires p.WellFormed() && p.status == Open
    requires Legal(p.expires, Left(p), start, events, end) && p.expires.IsExpired(end)
    ensures Run(p, events).CurrentStatus(end).Some?
    ensures Run(p, events).CurrentStatus(end) == Run(p, events).(status := Open).CurrentStatus(end)
  {
    hide Needed, VotesNeeded;
    RunSettles(p, start, events, end);
    DecisionsNeverPanic(Run(p, events), end);
    DecisionsNeverPanic(Run(p, events).(status := Open), end);
  }

  /** After a run, a stored Passed is confirmed and a stored Rejected is never contradicted by a count at
      the end of the run; as every prefix and every extension of a run is a run, at any later time. */
  lemma {:induction false} StoredDecisionsStand(p: Snapshot, start: BlockInfo, events: seq<Event>, end: BlockInfo)
    requires p.WellFormed() && p.status == Open
    requires Legal(p.expires, Left(p), start, events, end)
    ensures Run(p, events).status == Passed ==> Run(p, events).IsPassed(end) == Some(true)
    ensures Run(p, events).status == Rejected ==> Run(p, events).IsPassed(end) == Some(false)
  {
    hide Needed, VotesNeeded;
    RunSettles(p, start, events, end);
    var q := Run(p, events);
    DecisionsNeverPanic(q, end);
    if q.status == Rejected && Passes(q.threshold, q.totalWeight, q.votes, q.expires.IsExpired(end)) {
      BestFutureIsAllYes(q.threshold, q.totalWeight, q.votes, q.votes, q.expires.IsExpired(end));
    }
  }

  /** A status update after any run stores what is sure. Before expiry: Passed exactly when every possible future
      passes, and Rejected only when none does. At expiry: Passed exactly when Yes is enough, and Rejected otherwise. */
  lemma UpdateStoresWhatIsSure(p: Snapshot, start: BlockInfo, events: seq<Event>, at: BlockInfo)
    requires p.WellFormed() && p.status == Open && p.expires != Never
    requires Legal(p.expires, Left(p), start, events, at)
    ensures var q := Run(p, events);
            var stored := Apply(q, Refresh(at)).status;
            && q.WellFormed()
            && if p.expires.IsExpired(at) then stored == (if EnoughYes(q, true) then Passed else Rejected)
               else (stored == Passed <==> SureToPass(q, at)) && (stored == Rejected ==> SureToFail(q, at))
  {
    RunSettles(p, start, events, at);
    var q := Run(p, events);
    StoredDecisionsStand(p, start, events, at);
    DecisionsNeverPanic(q, at);
    PassedAsFractions(q, at);
    StatusIsByCount(q, at);
    if !p.expires.IsExpired(at) {
      PassedIsExact(q, at);
      if q.status == Open {
        OpenStatusIsExact(q, at);
      }
      SureToFailIsAllYesFails(q, at);
    }
    hide Run, Legal, EnoughYes, TooMuchNo, Passes, SureToPass, SureToFail, Snapshot.IsPassed, Snapshot.IsRejected;
  }

  /** A decision once stored is never replaced by a later run of votes and updates. */
  lemma {:induction false} DecidedStaysDecided(p: Snapshot, events: seq<Event>)
    requires p.status != Open
    ensures Run(p, events).status == p.status
    decreases |events|
  {
    if events == [] {
    } else {
      DecidedStaysDecided(Apply(p, events[0]), events[1..]);
    }
  }

  // ---------------------------------------------------------------- ranking of ballots, order of ballots

  lemma {:induction false} CastAllSplits(v: Tally, a: seq<Ballot>, b: seq<Ballot>)
    ensures CastAll(v, a + b) == CastAll(CastAll(v, a), b)
    decreases |a|
  {
    if a == [] {
      assert a + b == b;
    } else {
      assert (a + b)[1..] == a[1..] + b;
      CastAllSplits(v.Add(a[0]), a[1..], b);
    }
  }

  lemma {:induction false} AddThenCast(v: Tally, x: Ballot, ballots: seq<Ballot>)
    ensures CastAll(v.Add(x), ballots) == CastAll(v, ballots).Add(x)
    decreases |ballots|
  {
    if ballots == [] {
    } else {
      assert v.Add(x).Add(ballots[0]) == v.Add(ballots[0]).Add(x);
      AddThenCast(v.Add(ballots[0]), x, ballots[1..]);
    }
  }

  lemma TakeOut(v: Tally, ballots: seq<Ballot>, i: nat)
    requires i < |ballots|
    ensures CastAll(v, ballots) == CastAll(v, ballots[..i] + ballots[i + 1..]).Add(ballots[i])
    ensures multiset(ballots[..i] + ballots[i + 1..]) == multiset(ballots) - multiset{ballots[i]}
  {
    var front, back := ballots[..i], ballots[i + 1..];
    assert ballots == front + ([ballots[i]] + back);
    CastAllSplits(v, front, [ballots[i]] + back);
    assert ([ballots[i]] + back)[1..] == back;
    AddThenCast(CastAll(v, front), ballots[i], back);
    CastAllSplits(v, front, back);
  }

  /** The count depends on which ballots were cast, not on their order. */
  lemma {:induction false} OrderIsIrrelevant(v: Tally, a: seq<Ballot>, b: seq<Ballot>)
    requires multiset(a) == multiset(b)
    ensures CastAll(v, a) == CastAll(v, b)
    decreases |a|
  {
    if a == [] {
      assert |b| == |multiset(b)| == 0;
    } else {
      assert a[0] in multiset(b);
      var i :| 0 <= i < |b| && b[i] == a[0];
      var a', b' := a[..0] + a[1..], b[..i] + b[i + 1..];
      TakeOut(v, a, 0);
      TakeOut(v, b, i);
      hide CastAll;
      OrderIsIrrelevant(v, a', b');
    }
  }

  /** No and Veto rank below Abstain, Abstain below Yes. */
  predicate RanksAtMost(x: Vote, y: Vote) {
    x == y || x in {No, Veto} || y == Yes
  }

  lemma UpgradePasses(t: Threshold, w: U64, v: Tally, x: Ballot, y: Ballot, expired: bool)
    requires t.InRange(w)
    requires x.weight == y.weight && RanksAtMost(x.vote, y.vote)
    requires v.Add(x).Total() <= w && Passes(t, w, v.Add(x), expired)
    ensures Passes(t, w, v.Add(y), expired)
  {
    hide Needed, VotesNeeded;
    var a, b := v.Add(x), v.Add(y);
    assert a.Total() == b.Total();
    if !t.AbsoluteCount? {
      var p := if t.AbsolutePercentage? then t.percentage else t.threshold;
      var base := if t.AbsolutePercentage? || !expired then w else a.Total();
      if x.vote == Abstain {
        NeededGrowth(base - a.abstain, a.abstain - b.abstain, p);
      } else {
        NeededMonotone(base - b.abstain, base - a.abstain, p, p);
      }
    }
  }

  lemma UpgradeOnTally(p: Snapshot, rest: Tally, x: Ballot, y: Ballot, block: BlockInfo)
    requires p.(votes := rest.Add(x)).WellFormed() && x.weight == y.weight && RanksAtMost(x.vote, y.vote)
    ensures p.(votes := rest.Add(x)).IsPassed(block) == Some(true) ==>
              p.(votes := rest.Add(y)).IsPassed(block) == Some(true)
  {
    assert rest.Add(x).Total() == rest.Add(y).Total();
    hide Passes, Snapshot.IsPassed, Snapshot.IsRejected;
    DecisionsNeverPanic(p.(votes := rest.Add(x)), block);
    DecisionsNeverPanic(p.(votes := rest.Add(y)), block);
    if Passes(p.threshold, p.totalWeight, rest.Add(x), p.expires.IsExpired(block)) {
      UpgradePasses(p.threshold, p.totalWeight, rest, x, y, p.expires.IsExpired(block));
    }
  }

  /** Upgrading any one ballot of any possible ballot list never turns a pass into a failure. */
  lemma UpgradeKeepsPass(p: Snapshot, ballots: seq<Ballot>, i: nat, vote: Vote, block: BlockInfo)
    requires p.WellFormed() && Possible(p, ballots)
    requires i < |ballots| && RanksAtMost(ballots[i].vote, vote)
    ensures After(p, ballots).IsPassed(block) == Some(true) ==>
              After(p, ballots[i := Ballot(ballots[i].weight, vote)]).IsPassed(block) == Some(true)
  {
    hide CastAll, Snapshot.IsPassed;
    var x, y := ballots[i], Ballot(ballots[i].weight, vote);
    var changed := ballots[i := y];
    FutureIsWellFormed(p, ballots);
    TakeOut(p.votes, ballots, i);
    TakeOut(p.votes, changed, i);
    assert changed[..i] == ballots[..i] && changed[i + 1..] == ballots[i + 1..];
    UpgradeOnTally(p, CastAll(p.votes, ballots[..i] + ballots[i + 1..]), x, y, block);
  }

  lemma MoreYesPasses(t: Threshold, w: U64, v: Tally, weight: U64, expired: bool)
    requires t.InRange(w) && v.Total() + weight <= w && Passes(t, w, v, expired)
    ensures v.Add(Ballot(weight, Yes)).Total() <= w && Passes(t, w, v.Add(Ballot(weight, Yes)), expired)
  {
    hide Needed, VotesNeeded;
    if t.ThresholdQuorum? && expired {
      NeededGrowth(v.Total() - v.abstain, weight, t.threshold);
    }
  }

  /** One more Yes ballot never turns a pass into a failure. */
  lemma MoreYesKeepsPass(p: Snapshot, weight: U64, block: BlockInfo)
    requires p.WellFormed() && p.votes.Total() + weight <= p.totalWeight
    requires p.IsPassed(block) == Some(true)
    ensures p.(votes := p.votes.Add(Ballot(weight, Yes))).IsPassed(block) == Some(true)
  {
    hide Passes, Snapshot.IsPassed, Snapshot.IsRejected;
    DecisionsNeverPanic(p, block);
    MoreYesPasses(p.threshold, p.totalWeight, p.votes, weight, p.expires.IsExpired(block));
    DecisionsNeverPanic(p.(votes := p.votes.Add(Ballot(weight, Yes))), block);
  }
}
