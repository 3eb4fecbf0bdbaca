/** How a release splits the escrowed amount (lib.rs). */
module ReleasePlan {
  import opened Wrappers
  import opened Bitcoin

  datatype FeeOutput = FeeOutput(address: nat, amount: nat)

  datatype ReleaseMode = Offchain | Delegate

  datatype Plan = Plan(total: nat, buyer: nat, effective: seq<FeeOutput>, discarded: seq<FeeOutput>)

  datatype PlanError = FeeExceedsEscrow | BuyerBelowDust

  function Sum(fees: seq<FeeOutput>): nat {
    if fees == [] then 0 else fees[0].amount + Sum(fees[1..])
  }

  function Keep(fees: seq<FeeOutput>, belowDust: bool, dust: nat): seq<FeeOutput> {
    if fees == [] then []
    else if (fees[0].amount < dust) == belowDust then [fees[0]] + Keep(fees[1..], belowDust, dust)
    else Keep(fees[1..], belowDust, dust)
  }

  function PlanRelease(total: nat, fees: seq<FeeOutput>, mode: ReleaseMode, dust: nat): Result<Plan, PlanError> {
    var discarded := if mode == Offchain then [] else Keep(fees, true, dust);
    var effective := if mode == Offchain then fees else Keep(fees, false, dust);
    var fee := WrapU64(Sum(effective));
    if fee > total then Err(FeeExceedsEscrow)
    else if total - fee < dust then Err(BuyerBelowDust)
    else Ok(Plan(total, total - fee, effective, discarded))
  }

  // ---- The two parts of the fee list ----

  /** `whole` is an interleaving of `kept` and `dropped`, each in its own order. */
  ghost predicate Interleaves(whole: seq<FeeOutput>, kept: seq<FeeOutput>, dropped: seq<FeeOutput>)
    decreases |whole|
  {
    if whole == [] then
      kept == [] && dropped == []
    else
      || (kept != [] && kept[0] == whole[0] && Interleaves(whole[1..], kept[1..], dropped))
      || (dropped != [] && dropped[0] == whole[0] && Interleaves(whole[1..], kept, dropped[1..]))
  }

  lemma {:induction false} KeepSplits(fees: seq<FeeOutput>, dust: nat)
    ensures Interleaves(fees, Keep(fees, false, dust), Keep(fees, true, dust))
    ensures forall i :: 0 <= i < |Keep(fees, false, dust)| ==> Keep(fees, false, dust)[i].amount >= dust
    ensures forall i :: 0 <= i < |Keep(fees, true, dust)| ==> Keep(fees, true, dust)[i].amount < dust
  {
    if fees != [] {
      KeepSplits(fees[1..], dust);
      var below := fees[0].amount < dust;
      assert Keep(fees, below, dust)[1..] == Keep(fees[1..], below, dust);
    }
  }

  lemma {:induction false} InterleavedSum(whole: seq<FeeOutput>, kept: seq<FeeOutput>, dropped: seq<FeeOutput>)
    requires Interleaves(whole, kept, dropped)
    ensures Sum(whole) == Sum(kept) + Sum(dropped)
    decreases |whole|
  {
    if whole != [] {
      if kept != [] && kept[0] == whole[0] && Interleaves(whole[1..], kept[1..], dropped) {
        InterleavedSum(whole[1..], kept[1..], dropped);
      } else {
        InterleavedSum(whole[1..], kept, dropped[1..]);
      }
    }
  }

  lemma {:induction false} NothingDropped(fees: seq<FeeOutput>)
    ensures Interleaves(fees, fees, [])
  {
    if fees != [] {
      NothingDropped(fees[1..]);
    }
  }

  // ---- What a plan guarantees ----

  /** A plan partitions the fees in order and leaves the buyer, and every paid
      delegate fee, at least dust. */
  lemma PlanPartitions(total: nat, fees: seq<FeeOutput>, mode: ReleaseMode, dust: nat)
    requires PlanRelease(total, fees, mode, dust).Ok?
    ensures var plan := PlanRelease(total, fees, mode, dust).value;
            && Interleaves(fees, plan.effective, plan.discarded)
            && plan.buyer >= dust
            && (mode == Offchain ==> plan.discarded == [])
            && (mode == Delegate ==>
                  && (forall i :: 0 <= i < |plan.effective| ==> plan.effective[i].amount >= dust)
                  && (forall i :: 0 <= i < |plan.discarded| ==> plan.discarded[i].amount < dust))
  {
    KeepSplits(fees, dust);
    NothingDropped(fees);
  }

  /** A plan is for the whole escrow, and the buyer gets what is left after the
      fees as 64 bits hold them; so it pays out exactly what is escrowed if and
      only if the fees it pays fit in 64 bits. */
  lemma PlanConserves(total: nat, fees: seq<FeeOutput>, mode: ReleaseMode, dust: nat)
    requires PlanRelease(total, fees, mode, dust).Ok?
    ensures var plan := PlanRelease(total, fees, mode, dust).value;
            && plan.total == total
            && plan.buyer + Sum(plan.effective) % 0x1_0000_0000_0000_0000 == total
            && (plan.buyer + Sum(plan.effective) == total <==> Sum(plan.effective) < 0x1_0000_0000_0000_0000)
  {
  }

  /** Fees that wrap around are paid to the buyer a second time. */
  lemma WrappedFeesOverpay()
    ensures exists total: nat, fees: seq<FeeOutput>, dust: nat ::
              && total < AMOUNT_LIMIT
              && PlanRelease(total, fees, Offchain, dust).Ok?
              && PlanRelease(total, fees, Offchain, dust).value.buyer + Sum(fees) > total
  {
    var half := FeeOutput(0, AMOUNT_LIMIT / 2);
    var fees := [half, half];
    assert fees[1..] == [half] && [half][1..] == [];
    assert Sum([half]) == half.amount + Sum([]);
    assert Sum(fees) == AMOUNT_LIMIT;
    assert PlanRelease(1000, fees, Offchain, 330).value.buyer == 1000;
  }

  lemma WrapAdd(e: nat, d: nat)
    ensures WrapU64(e + d) == WrapU64(WrapU64(e) + d)
  {
  }

  /** Settling through a batch pays the buyer the discarded fees on top, if and
      only if adding them to the fees paid does not wrap around. */
  lemma DelegateBuyerGetsDiscarded(total: nat, fees: seq<FeeOutput>, dust: nat)
    requires PlanRelease(total, fees, Offchain, dust).Ok? && PlanRelease(total, fees, Delegate, dust).Ok?
    ensures var offchain := PlanRelease(total, fees, Offchain, dust).value;
            var delegate := PlanRelease(total, fees, Delegate, dust).value;
            delegate.buyer == offchain.buyer + Sum(delegate.discarded)
            <==> WrapU64(Sum(delegate.effective)) + Sum(delegate.discarded) < AMOUNT_LIMIT
  {
    KeepSplits(fees, dust);
    InterleavedSum(fees, Keep(fees, false, dust), Keep(fees, true, dust));
    WrapAdd(Sum(Keep(fees, false, dust)), Sum(Keep(fees, true, dust)));
  }

  /** The fees a release pays. */
  function Paid(fees: seq<FeeOutput>, mode: ReleaseMode, dust: nat): seq<FeeOutput> {
    if mode == Offchain then fees else Keep(fees, false, dust)
  }

  /** A release is refused for its fees exactly when they exceed the escrow,
      and refused at all exactly when they do with the dust on top, if and only
      if the fees fit in 64 bits or exceed the escrow even after wrapping around. */
  lemma PlanFails(total: nat, fees: seq<FeeOutput>, mode: ReleaseMode, dust: nat)
    requires total < AMOUNT_LIMIT
    ensures var plan, fee := PlanRelease(total, fees, mode, dust), Sum(Paid(fees, mode, dust));
            && ((plan == Err(FeeExceedsEscrow) <==> fee > total)
                <==> fee < AMOUNT_LIMIT || WrapU64(fee) > total)
            && ((plan.Err? <==> fee + dust > total)
                <==> fee < AMOUNT_LIMIT || WrapU64(fee) + dust > total)
  {
  }
}
