/** Credit calculator (src/legacy/networker/messenger/credit_calc.rs): message
    lengths and the credits frozen, earned on success and earned on failure by
    the nodes along a route of linear price proposals. Every step of the
    source is overflow-checked and yields `None` instead of wrapping; each
    operation here is proved equal to an exact integer formula whenever that
    formula and every intermediate value fit their machine width, and `None`
    otherwise. */
module CreditCalc {
  import opened Wrappers
  import opened MachineInts
  import opened Identity

  // Sizes (`mem::size_of`) of the types the length formulas count, besides
  // the identity types' lengths.
  const U16_LEN: nat := 2
  const U32_LEN: nat := 4
  const U64_LEN: nat := 8
  const SEND_PRICE_LEN: nat := 8
  const ROUTE_LINK_LEN: nat := 48
  const FREEZE_LINK_LEN: nat := 24

  /** A linear price proposal: sending `len` bytes costs `base + multiplier * len`. */
  datatype NetworkerSendPrice = NetworkerSendPrice(base: u32, multiplier: u32) {
    /** `calc_cost`, checked in u64; it never overflows for u32 inputs. */
    function CalcCost(len: u32): (r: Option<u64>)
      ensures r == Some(base + multiplier * len)
    {
      MulBounded(multiplier, len, U32_MAX);
      var product := CheckedMul64(multiplier, len).value;
      CheckedAdd64(base, product)
    }
  }

  datatype PaymentProposalPair = PaymentProposalPair(request: NetworkerSendPrice, response: NetworkerSendPrice)

  datatype PaymentProposals = PaymentProposals(middleProps: seq<PaymentProposalPair>, destResponseProposal: NetworkerSendPrice)

  // ---------------------------------------------------------------------
  // Arithmetic helpers

  lemma MulBounded(a: nat, b: nat, m: nat)
    requires a <= m && b <= m
    ensures a * b <= m * m
  {
    assert a * b <= a * m;
    assert a * m <= m * m;
  }

  lemma MulMonotone(k: int, a: int, b: int)
    requires 0 <= k && a <= b
    ensures k * a <= k * b
  {
    assert k * b - k * a == k * (b - a);
  }

  lemma Distrib(a: int, b: int, c: int)
    ensures a * (b + c) == a * b + a * c
  {
  }

  lemma MulNonNegative(a: int, b: nat)
    ensures a >= 0 ==> a * b >= 0
  {
  }

  // ---------------------------------------------------------------------
  // Message lengths

  /** Length of a request message for a route of `routeLen` nodes, seen by the
      node `nodesToDest` nodes before the destination. */
  function RequestLenFormula(requestContentLen: int, routeLen: int, nodesToDest: int): int {
    (UID_LEN + U32_LEN + U64_LEN)
    + (PUBLIC_KEY_LEN * 2 + (routeLen - 2) * ROUTE_LINK_LEN + SEND_PRICE_LEN * 2)
    + requestContentLen
    + (routeLen - nodesToDest) * FREEZE_LINK_LEN
  }

  function ResponseLenFormula(responseContentLen: int): int {
    UID_LEN + RAND_VALUE_LEN + U64_LEN + responseContentLen + SIGNATURE_LEN
  }

  function FailureLenFormula(nodesToReporting: int): int {
    UID_LEN + U16_LEN + (RAND_VALUE_LEN + SIGNATURE_LEN) * nodesToReporting
  }

  /** `calc_request_len`: `None` for a route shorter than 2 nodes, for
      `nodes_to_dest > route_len`, and on u32 overflow. */
  function CalcRequestLen(requestContentLen: u32, routeLen: u32, nodesToDest: u32): (r: Option<u32>)
    ensures r == if 2 <= routeLen && nodesToDest <= routeLen
                    && RequestLenFormula(requestContentLen, routeLen, nodesToDest) <= U32_MAX
                 then Some(RequestLenFormula(requestContentLen, routeLen, nodesToDest)) else None
  {
    // The size conversions and products of constants cannot fail.
    var keysLen: u32 := PUBLIC_KEY_LEN * 2;
    var innerLinks :- CheckedSub32(routeLen, 2);
    var linksLen :- CheckedMul32(innerLinks, ROUTE_LINK_LEN);
    var keysAndLinks :- CheckedAdd32(keysLen, linksLen);
    var routeBytesCount :- CheckedAdd32(keysAndLinks, SEND_PRICE_LEN * 2);
    var frozenNodes :- CheckedSub32(routeLen, nodesToDest);
    var freezeLinksLen :- CheckedMul32(frozenNodes, FREEZE_LINK_LEN);
    var requestOverhead: u32 := UID_LEN + U32_LEN + U64_LEN;
    var withRoute :- CheckedAdd32(requestOverhead, routeBytesCount);
    var withContent :- CheckedAdd32(withRoute, requestContentLen);
    var total :- CheckedAdd32(withContent, freezeLinksLen);
    Some(total)
  }

  /** `calc_response_len`: affine in the content length; `None` on u32 overflow. */
  function CalcResponseLen(responseContentLen: u32): (r: Option<u32>)
    ensures r == if ResponseLenFormula(responseContentLen) <= U32_MAX
                 then Some(ResponseLenFormula(responseContentLen)) else None
  {
    var overhead: u32 := UID_LEN + RAND_VALUE_LEN + U64_LEN;
    var c :- CheckedAdd32(overhead, responseContentLen);
    var total :- CheckedAdd32(c, SIGNATURE_LEN);
    Some(total)
  }

  /** `calc_failure_len`: affine in the number of nodes to the reporting node;
      `None` on u32 overflow. */
  function CalcFailureLen(nodesToReporting: u32): (r: Option<u32>)
    ensures r == if FailureLenFormula(nodesToReporting) <= U32_MAX
                 then Some(FailureLenFormula(nodesToReporting)) else None
  {
    var randNonceSigLen: u32 := RAND_VALUE_LEN + SIGNATURE_LEN;
    var signaturesLen :- CheckedMul32(randNonceSigLen, nodesToReporting);
    var total :- CheckedAdd32(UID_LEN + U16_LEN, signaturesLen);
    Some(total)
  }

  // ---------------------------------------------------------------------
  // Credits paid to the destination

  /** Sum of the response multipliers of `props[lo..hi]`. */
  function ResponseMultiplierSum(props: seq<PaymentProposalPair>, lo: nat, hi: nat): nat
    requires lo <= hi <= |props|
    decreases hi - lo
  {
    if lo == hi then 0
    else ResponseMultiplierSum(props, lo, hi - 1) + props[hi - 1].response.multiplier
  }

  lemma {:induction false} ResponseMultiplierSumSplit(props: seq<PaymentProposalPair>, lo: nat, mid: nat, hi: nat)
    requires lo <= mid <= hi <= |props|
    ensures ResponseMultiplierSum(props, lo, hi)
         == ResponseMultiplierSum(props, lo, mid) + ResponseMultiplierSum(props, mid, hi)
    decreases hi - mid
  {
    if mid < hi {
      ResponseMultiplierSumSplit(props, lo, mid, hi - 1);
    }
  }

  /** processing_fee + {dest}_b + max_response_len * {dest}_r
        + (max_response_len - response_len) * (sum of the middle response multipliers). */
  function DestCredits(pp: PaymentProposals, fee: nat, responseContentLen: nat, maxResponseContentLen: nat): (r: int)
    ensures responseContentLen <= maxResponseContentLen ==> r >= 0
  {
    MulNonNegative(maxResponseContentLen - responseContentLen, ResponseMultiplierSum(pp.middleProps, 0, |pp.middleProps|));
    MulMonotone(pp.destResponseProposal.multiplier, 0, ResponseLenFormula(maxResponseContentLen));
    fee + pp.destResponseProposal.base
    + pp.destResponseProposal.multiplier * ResponseLenFormula(maxResponseContentLen)
    + (maxResponseContentLen - responseContentLen) * ResponseMultiplierSum(pp.middleProps, 0, |pp.middleProps|)
  }

  predicate DestFits(pp: PaymentProposals, fee: nat, responseContentLen: nat, maxResponseContentLen: nat) {
    && responseContentLen <= maxResponseContentLen
    && ResponseLenFormula(maxResponseContentLen) <= U32_MAX
    && ResponseMultiplierSum(pp.middleProps, 0, |pp.middleProps|) <= U64_MAX
    && DestCredits(pp, fee, responseContentLen, maxResponseContentLen) <= U64_MAX
  }

  /** What `credits_on_success_dest` returns. */
  function DestCreditsOutcome(pp: PaymentProposals, fee: u64, responseContentLen: u32, maxResponseContentLen: u32): Option<u64>
  {
    if DestFits(pp, fee, responseContentLen, maxResponseContentLen)
    then Some(DestCredits(pp, fee, responseContentLen, maxResponseContentLen))
    else None
  }

  /** `credits_on_success_dest`: credits paid to the destination node for a
      signed response. */
  method CreditsOnSuccessDest(pp: PaymentProposals, fee: u64, responseContentLen: u32, maxResponseContentLen: u32)
    returns (res: Option<u64>)
    ensures res == DestCreditsOutcome(pp, fee, responseContentLen, maxResponseContentLen)
    ensures responseContentLen > maxResponseContentLen ==> res.None?
    ensures res.Some? ==> res.value == DestCredits(pp, fee, responseContentLen, maxResponseContentLen)
  {
    var props := pp.middleProps;
    var responseLen :- CalcResponseLen(responseContentLen);
    var maxResponseLen :- CalcResponseLen(maxResponseContentLen);

    var sumRespMultiplier: u64 := 0;
    for i := 0 to |props|
      invariant sumRespMultiplier == ResponseMultiplierSum(props, 0, i)
    {
      ResponseMultiplierSumSplit(props, 0, i + 1, |props|);
      sumRespMultiplier :- CheckedAdd64(sumRespMultiplier, props[i].response.multiplier);
    }

    var S := sumRespMultiplier;
    MulNonNegative(maxResponseContentLen - responseContentLen, S);
    var destCost := pp.destResponseProposal.CalcCost(maxResponseLen).value;
    var withFee :- CheckedAdd64(fee, destCost);
    var unusedLen :- CheckedSub64(maxResponseLen, responseLen);
    assert unusedLen == maxResponseContentLen - responseContentLen;
    var unusedCredits :- CheckedMul64(unusedLen, S);
    var credits :- CheckedAdd64(withFee, unusedCredits);
    res := Some(credits);
  }

  // ---------------------------------------------------------------------
  // Credits paid to a middle node on success

  /** What node `i` of the middle proposals earns when a response passes:
      {i}_request cost of the request plus {i}_response cost of the response
      and the longest failure, with lengths as the source computes them
      (route length `|middle_props|`, `|middle_props| - i` nodes to dest). */
  function HopCredits(prop: PaymentProposalPair, requestContentLen: int, responseContentLen: int, middleLen: int, i: int): int {
    prop.request.base + prop.request.multiplier * RequestLenFormula(requestContentLen, middleLen, middleLen - i)
    + prop.response.base
    + prop.response.multiplier * (ResponseLenFormula(responseContentLen) + FailureLenFormula(middleLen - i))
  }

  predicate HopFits(prop: PaymentProposalPair, requestContentLen: int, responseContentLen: int, middleLen: int, i: int) {
    && 2 <= middleLen
    && RequestLenFormula(requestContentLen, middleLen, middleLen - i) <= U32_MAX
    && FailureLenFormula(middleLen - i) <= U32_MAX
    && ResponseLenFormula(responseContentLen) + FailureLenFormula(middleLen - i) <= U32_MAX
    && HopCredits(prop, requestContentLen, responseContentLen, middleLen, i) <= U64_MAX
  }

  /** The body of the loop of `credits_on_success` for one index `i`. */
  function HopCreditsEarned(prop: PaymentProposalPair, requestContentLen: u32, responseContentLen: u32, middleLen: u32, i: u32): (r: Option<u64>)
    requires i < middleLen
    ensures r == if HopFits(prop, requestContentLen, responseContentLen, middleLen, i)
                 then Some(HopCredits(prop, requestContentLen, responseContentLen, middleLen, i)) else None
  {
    // `middle_len - i` cannot underflow here, nor can `calc_cost` overflow.
    var requestLen :- CalcRequestLen(requestContentLen, middleLen, middleLen - i);
    var responseLen :- CalcResponseLen(responseContentLen);
    var maxFailureLen :- CalcFailureLen(middleLen - i);
    var requestCost := prop.request.CalcCost(requestLen).value;
    var backLen :- CheckedAdd32(responseLen, maxFailureLen);
    var responseCost := prop.response.CalcCost(backLen).value;
    CheckedAdd64(requestCost, responseCost)
  }

  function Hops(props: seq<PaymentProposalPair>, requestContentLen: int, responseContentLen: int, lo: nat, hi: nat): nat
    requires lo <= hi <= |props|
    decreases hi - lo
  {
    if lo == hi then 0
    else
      var h := HopCredits(props[hi - 1], requestContentLen, responseContentLen, |props|, hi - 1);
      Hops(props, requestContentLen, responseContentLen, lo, hi - 1) + (if h < 0 then 0 else h)
  }

  predicate HopsFit(props: seq<PaymentProposalPair>, requestContentLen: int, responseContentLen: int, lo: nat, hi: nat)
    requires lo <= hi <= |props|
  {
    forall i {:trigger HopFits(props[i], requestContentLen, responseContentLen, |props|, i)} ::
      lo <= i < hi ==> HopFits(props[i], requestContentLen, responseContentLen, |props|, i)
  }

  lemma HopCreditsNonNegative(prop: PaymentProposalPair, requestContentLen: nat, responseContentLen: nat, middleLen: nat, i: nat)
    requires 2 <= middleLen && i < middleLen
    ensures HopCredits(prop, requestContentLen, responseContentLen, middleLen, i) >= 0
  {
    assert RequestLenFormula(requestContentLen, middleLen, middleLen - i) >= 0;
  }

  lemma {:induction false} HopsSplit(props: seq<PaymentProposalPair>, c: int, r: int, lo: nat, mid: nat, hi: nat)
    requires lo <= mid <= hi <= |props|
    ensures Hops(props, c, r, lo, hi) == Hops(props, c, r, lo, mid) + Hops(props, c, r, mid, hi)
    decreases hi - mid
  {
    if mid < hi {
      HopsSplit(props, c, r, lo, mid, hi - 1);
    }
  }

  /** Total credits of a node `nodesToDest` nodes before the destination. */
  function SuccessCredits(pp: PaymentProposals, fee: nat, requestContentLen: nat, responseContentLen: nat,
                          maxResponseContentLen: nat, nodesToDest: nat): int
    requires nodesToDest <= |pp.middleProps|
  {
    var L := |pp.middleProps|;
    DestCredits(pp, fee, responseContentLen, maxResponseContentLen)
    + Hops(pp.middleProps, requestContentLen, responseContentLen, L - nodesToDest, L)
  }

  /** What `credits_on_success` returns. */
  function SuccessOutcome(pp: PaymentProposals, fee: u64, requestContentLen: u32, responseContentLen: u32,
                          maxResponseContentLen: u32, nodesToDest: u32): Option<u64>
  {
    var L := |pp.middleProps|;
    if && L <= U32_MAX
       && DestFits(pp, fee, responseContentLen, maxResponseContentLen)
       && nodesToDest <= L
       && HopsFit(pp.middleProps, requestContentLen, responseContentLen, L - nodesToDest, L)
       && SuccessCredits(pp, fee, requestContentLen, responseContentLen, maxResponseContentLen, nodesToDest) <= U64_MAX
    then Some(SuccessCredits(pp, fee, requestContentLen, responseContentLen, maxResponseContentLen, nodesToDest))
    else None
  }

  /** `credits_on_success`: credits paid to a node that passes a valid
      response back, `nodes_to_dest` nodes before the destination. */
  method CreditsOnSuccess(pp: PaymentProposals, fee: u64, requestContentLen: u32, responseContentLen: u32,
                          maxResponseContentLen: u32, nodesToDest: u32) returns (res: Option<u64>)
    ensures res == SuccessOutcome(pp, fee, requestContentLen, responseContentLen, maxResponseContentLen, nodesToDest)
  {
    var props := pp.middleProps;
    var middleLen :- UsizeToU32(|props|);
    var sumCredits: u64 :- CreditsOnSuccessDest(pp, fee, responseContentLen, maxResponseContentLen);
    var lo :- CheckedSub32(middleLen, nodesToDest);
    ghost var dest := sumCredits;
    for i := lo to middleLen
      invariant sumCredits == dest + Hops(props, requestContentLen, responseContentLen, lo, i)
      invariant HopsFit(props, requestContentLen, responseContentLen, lo, i)
    {
      var earned := HopCreditsEarned(props[i], requestContentLen, responseContentLen, middleLen, i);
      if earned.None? {
        SuccessOutcomeUnfit(pp, fee, requestContentLen, responseContentLen, maxResponseContentLen, nodesToDest, i);
        return None;
      }
      HopsStep(props, requestContentLen, responseContentLen, lo, i, earned.value);
      var next := CheckedAdd64(sumCredits, earned.value);
      if next.None? {
        SuccessOutcomeOverflow(pp, fee, requestContentLen, responseContentLen, maxResponseContentLen, nodesToDest,
                               i, sumCredits - dest, earned.value);
        return None;
      }
      sumCredits := next.value;
    }
    SuccessOutcomeOfSum(pp, fee, requestContentLen, responseContentLen, maxResponseContentLen, nodesToDest, sumCredits);
    res := Some(sumCredits);
  }

  /** One more hop that fits extends the fitting range and adds its credits. */
  lemma HopsStep(props: seq<PaymentProposalPair>, requestContentLen: u32, responseContentLen: u32, lo: nat, i: nat, h: nat)
    requires 2 <= |props| && lo <= i < |props|
    requires HopsFit(props, requestContentLen, responseContentLen, lo, i)
    requires HopFits(props[i], requestContentLen, responseContentLen, |props|, i)
    requires h == HopCredits(props[i], requestContentLen, responseContentLen, |props|, i)
    ensures HopsFit(props, requestContentLen, responseContentLen, lo, i + 1)
    ensures Hops(props, requestContentLen, responseContentLen, lo, i + 1)
         == Hops(props, requestContentLen, responseContentLen, lo, i) + h
  {
  }

  /** Once every hop fits and the destination's part fits, the outcome of
      `credits_on_success` is the checked total. */
  lemma SuccessOutcomeOfSum(pp: PaymentProposals, fee: u64, requestContentLen: u32, responseContentLen: u32,
                            maxResponseContentLen: u32, nodesToDest: u32, sum: u64)
    requires nodesToDest <= |pp.middleProps| <= U32_MAX
    requires DestFits(pp, fee, responseContentLen, maxResponseContentLen)
    requires var L := |pp.middleProps|;
             && HopsFit(pp.middleProps, requestContentLen, responseContentLen, L - nodesToDest, L)
             && sum == DestCredits(pp, fee, responseContentLen, maxResponseContentLen)
                       + Hops(pp.middleProps, requestContentLen, responseContentLen, L - nodesToDest, L)
    ensures SuccessOutcome(pp, fee, requestContentLen, responseContentLen, maxResponseContentLen, nodesToDest) == Some(sum)
  {
  }

  /** A hop whose lengths or credits do not fit makes the outcome `None`. */
  lemma SuccessOutcomeUnfit(pp: PaymentProposals, fee: u64, requestContentLen: u32, responseContentLen: u32,
                            maxResponseContentLen: u32, nodesToDest: u32, i: nat)
    requires nodesToDest <= |pp.middleProps| && |pp.middleProps| - nodesToDest <= i < |pp.middleProps|
    requires !HopFits(pp.middleProps[i], requestContentLen, responseContentLen, |pp.middleProps|, i)
    ensures SuccessOutcome(pp, fee, requestContentLen, responseContentLen, maxResponseContentLen, nodesToDest).None?
  {
  }

  /** An overflow of the running sum makes the outcome `None`: the total is at
      least the running sum. */
  lemma SuccessOutcomeOverflow(pp: PaymentProposals, fee: u64, requestContentLen: u32, responseContentLen: u32,
                               maxResponseContentLen: u32, nodesToDest: u32, i: nat, hops: nat, h: nat)
    requires nodesToDest <= |pp.middleProps| && |pp.middleProps| - nodesToDest <= i < |pp.middleProps|
    requires DestFits(pp, fee, responseContentLen, maxResponseContentLen)
    requires var lo := |pp.middleProps| - nodesToDest;
             && hops == Hops(pp.middleProps, requestContentLen, responseContentLen, lo, i)
             && h == HopCredits(pp.middleProps[i], requestContentLen, responseContentLen, |pp.middleProps|, i)
             && DestCredits(pp, fee, responseContentLen, maxResponseContentLen) + hops + h > U64_MAX
    ensures SuccessOutcome(pp, fee, requestContentLen, responseContentLen, maxResponseContentLen, nodesToDest).None?
  {
    var props := pp.middleProps;
    var L := |props|;
    var lo := L - nodesToDest;
    HopsSplit(props, requestContentLen, responseContentLen, lo, i + 1, L);
    assert Hops(props, requestContentLen, responseContentLen, lo, i + 1) == hops + h;
  }

  /** `credits_to_freeze`: `credits_on_success` with an empty response. */
  method CreditsToFreeze(pp: PaymentProposals, fee: u64, requestContentLen: u32, maxResponseContentLen: u32,
                         nodesToDest: u32) returns (res: Option<u64>)
    ensures res == SuccessOutcome(pp, fee, requestContentLen, 0, maxResponseContentLen, nodesToDest)
  {
    res := CreditsOnSuccess(pp, fee, requestContentLen, 0, maxResponseContentLen, nodesToDest);
  }

  // ---------------------------------------------------------------------
  // Credits paid on failure

  /** What non-reporting node `i` earns when a failure is reported from `end`. */
  function FailureHopCredits(prop: PaymentProposalPair, requestContentLen: int, middleLen: int, end: int, i: int): int {
    prop.request.base + prop.request.multiplier * RequestLenFormula(requestContentLen, middleLen, middleLen - i)
    + prop.response.base + prop.response.multiplier * FailureLenFormula(end - i)
  }

  predicate FailureHopFits(prop: PaymentProposalPair, requestContentLen: int, middleLen: int, end: int, i: int) {
    && 2 <= middleLen
    && RequestLenFormula(requestContentLen, middleLen, middleLen - i) <= U32_MAX
    && FailureLenFormula(end - i) <= U32_MAX
    && FailureHopCredits(prop, requestContentLen, middleLen, end, i) <= U64_MAX
  }

  /** The body of the loop of `credits_on_failure` for one index `i`. */
  function FailureHopCreditsEarned(prop: PaymentProposalPair, requestContentLen: u32, middleLen: u32, end: u32, i: u32): (r: Option<u64>)
    requires i < end <= middleLen
    ensures r == if FailureHopFits(prop, requestContentLen, middleLen, end, i)
                 then Some(FailureHopCredits(prop, requestContentLen, middleLen, end, i)) else None
  {
    var requestLen :- CalcRequestLen(requestContentLen, middleLen, middleLen - i);
    var failureLen :- CalcFailureLen(end - i);
    var requestCost := prop.request.CalcCost(requestLen).value;
    var responseCost := prop.response.CalcCost(failureLen).value;
    CheckedAdd64(requestCost, responseCost)
  }

  function FailureHops(props: seq<PaymentProposalPair>, requestContentLen: int, end: nat, lo: nat, hi: nat): nat
    requires lo <= hi <= |props|
    decreases hi - lo
  {
    if lo == hi then 0
    else
      var h := FailureHopCredits(props[hi - 1], requestContentLen, |props|, end, hi - 1);
      FailureHops(props, requestContentLen, end, lo, hi - 1) + (if h < 0 then 0 else h)
  }

  predicate FailureHopsFit(props: seq<PaymentProposalPair>, requestContentLen: int, end: nat, lo: nat, hi: nat)
    requires lo <= hi <= |props|
  {
    forall i {:trigger FailureHopFits(props[i], requestContentLen, |props|, end, i)} ::
      lo <= i < hi ==> FailureHopFits(props[i], requestContentLen, |props|, end, i)
  }

  lemma {:induction false} FailureHopsSplit(props: seq<PaymentProposalPair>, c: int, end: nat, lo: nat, mid: nat, hi: nat)
    requires lo <= mid <= hi <= |props|
    ensures FailureHops(props, c, end, lo, hi) == FailureHops(props, c, end, lo, mid) + FailureHops(props, c, end, mid, hi)
    decreases hi - mid
  {
    if mid < hi {
      FailureHopsSplit(props, c, end, lo, mid, hi - 1);
    }
  }

  /** What the reporting node earns: its response cost for a failure message
      that it creates itself. */
  function ReportingCredits(prop: PaymentProposalPair): nat {
    prop.response.base + prop.response.multiplier * FailureLenFormula(0)
  }

  /** Total credits on failure, for `nodesToReporting <= end = |middle_props| - reportingToDest`. */
  function FailureCredits(props: seq<PaymentProposalPair>, requestContentLen: int, nodesToReporting: nat, reportingToDest: nat): int
    requires 2 <= reportingToDest <= |props| && nodesToReporting <= |props| - reportingToDest
  {
    var end := |props| - reportingToDest;
    FailureHops(props, requestContentLen, end, end - nodesToReporting, end) + ReportingCredits(props[end])
  }

  /** What `credits_on_failure` returns. */
  function FailureOutcome(pp: PaymentProposals, requestContentLen: u32, nodesToReporting: u32, reportingToDest: u32): Option<u64>
    requires reportingToDest > 1
  {
    var props := pp.middleProps;
    var L := |props|;
    if && L <= U32_MAX
       && reportingToDest <= L
       && nodesToReporting <= L - reportingToDest
       && FailureHopsFit(props, requestContentLen, L - reportingToDest, L - reportingToDest - nodesToReporting, L - reportingToDest)
       && FailureCredits(props, requestContentLen, nodesToReporting, reportingToDest) <= U64_MAX
    then Some(FailureCredits(props, requestContentLen, nodesToReporting, reportingToDest))
    else None
  }

  /** `credits_on_failure`: credits paid to a node when a failure is reported
      `nodes_to_reporting` nodes further along the route. The source asserts
      `reporting_to_dest > 1` (the destination never reports a failure). */
  method CreditsOnFailure(pp: PaymentProposals, requestContentLen: u32, nodesToReporting: u32, reportingToDest: u32)
    returns (res: Option<u64>)
    requires reportingToDest > 1
    ensures res == FailureOutcome(pp, requestContentLen, nodesToReporting, reportingToDest)
  {
    var props := pp.middleProps;
    var middleLen :- UsizeToU32(|props|);
    var sumCredits: u64 := 0;
    var end :- CheckedSub32(middleLen, reportingToDest);
    var start :- CheckedSub32(end, nodesToReporting);
    for i := start to end
      invariant sumCredits == FailureHops(props, requestContentLen, end, start, i)
      invariant FailureHopsFit(props, requestContentLen, end, start, i)
    {
      var earned := FailureHopCreditsEarned(props[i], requestContentLen, middleLen, end, i);
      if earned.None? {
        FailureOutcomeUnfit(pp, requestContentLen, nodesToReporting, reportingToDest, i);
        return None;
      }
      FailureHopsStep(props, requestContentLen, end, start, i, earned.value);
      var next := CheckedAdd64(sumCredits, earned.value);
      if next.None? {
        FailureOutcomeOverflow(pp, requestContentLen, nodesToReporting, reportingToDest, i, sumCredits, earned.value);
        return None;
      }
      sumCredits := next.value;
    }
    var failureLenReporting := CalcFailureLen(0).value;
    var reportingNodeCredits := props[end].response.CalcCost(failureLenReporting).value;
    FailureOutcomeOfSum(pp, requestContentLen, nodesToReporting, reportingToDest, sumCredits, reportingNodeCredits);
    sumCredits :- CheckedAdd64(sumCredits, reportingNodeCredits);
    res := Some(sumCredits);
  }

  /** One more hop that fits extends the fitting range and adds its credits. */
  lemma FailureHopsStep(props: seq<PaymentProposalPair>, requestContentLen: u32, end: nat, lo: nat, i: nat, h: nat)
    requires lo <= i < end <= |props|
    requires FailureHopsFit(props, requestContentLen, end, lo, i)
    requires FailureHopFits(props[i], requestContentLen, |props|, end, i)
    requires h == FailureHopCredits(props[i], requestContentLen, |props|, end, i)
    ensures FailureHopsFit(props, requestContentLen, end, lo, i + 1)
    ensures FailureHops(props, requestContentLen, end, lo, i + 1) == FailureHops(props, requestContentLen, end, lo, i) + h
  {
  }

  /** The checks of `credits_on_failure` are all on the fixed-width sums: once
      every hop fits, the outcome is the checked total. */
  lemma FailureOutcomeOfSum(pp: PaymentProposals, requestContentLen: u32, nodesToReporting: u32, reportingToDest: u32,
                            sum: nat, rep: nat)
    requires 1 < reportingToDest <= |pp.middleProps| <= U32_MAX
    requires nodesToReporting <= |pp.middleProps| - reportingToDest
    requires var end := |pp.middleProps| - reportingToDest;
             && FailureHopsFit(pp.middleProps, requestContentLen, end, end - nodesToReporting, end)
             && sum == FailureHops(pp.middleProps, requestContentLen, end, end - nodesToReporting, end)
             && rep == ReportingCredits(pp.middleProps[end])
    ensures FailureOutcome(pp, requestContentLen, nodesToReporting, reportingToDest)
         == if sum + rep <= U64_MAX then Some(sum + rep) else None
  {
  }

  /** A hop whose lengths or credits do not fit makes the outcome `None`. */
  lemma FailureOutcomeUnfit(pp: PaymentProposals, requestContentLen: u32, nodesToReporting: u32, reportingToDest: u32, i: nat)
    requires 1 < reportingToDest <= |pp.middleProps| <= U32_MAX
    requires nodesToReporting <= |pp.middleProps| - reportingToDest
    requires var end := |pp.middleProps| - reportingToDest;
             && end - nodesToReporting <= i < end
             && !FailureHopFits(pp.middleProps[i], requestContentLen, |pp.middleProps|, end, i)
    ensures FailureOutcome(pp, requestContentLen, nodesToReporting, reportingToDest).None?
  {
  }

  /** An overflow of the running sum makes the outcome `None`: the total is at
      least the running sum. */
  lemma FailureOutcomeOverflow(pp: PaymentProposals, requestContentLen: u32, nodesToReporting: u32, reportingToDest: u32,
                               i: nat, sum: nat, h: nat)
    requires 1 < reportingToDest <= |pp.middleProps| <= U32_MAX
    requires nodesToReporting <= |pp.middleProps| - reportingToDest
    requires var end := |pp.middleProps| - reportingToDest;
             && end - nodesToReporting <= i < end
             && sum == FailureHops(pp.middleProps, requestContentLen, end, end - nodesToReporting, i)
             && h == FailureHopCredits(pp.middleProps[i], requestContentLen, |pp.middleProps|, end, i)
             && sum + h > U64_MAX
    ensures FailureOutcome(pp, requestContentLen, nodesToReporting, reportingToDest).None?
  {
    var props := pp.middleProps;
    var end := |props| - reportingToDest;
    var start := end - nodesToReporting;
    FailureHopsSplit(props, requestContentLen, end, start, i + 1, end);
    assert FailureHops(props, requestContentLen, end, start, i + 1) == sum + h;
  }

  // ---------------------------------------------------------------------
  // Properties of the credit formulas

  /** With no nodes to the destination only the destination payment remains. */
  lemma SuccessAtDestIsDestCredits(pp: PaymentProposals, fee: u64, requestContentLen: u32, responseContentLen: u32,
                                   maxResponseContentLen: u32)
    requires |pp.middleProps| <= U32_MAX
    ensures SuccessOutcome(pp, fee, requestContentLen, responseContentLen, maxResponseContentLen, 0)
         == DestCreditsOutcome(pp, fee, responseContentLen, maxResponseContentLen)
  {
    var L := |pp.middleProps|;
    assert Hops(pp.middleProps, requestContentLen, responseContentLen, L, L) == 0;
  }

  /** The destination payment is the processing fee plus a part that does not
      depend on it. */
  lemma DestCreditsAffineInFee(pp: PaymentProposals, fee: u64, responseContentLen: u32, maxResponseContentLen: u32)
    requires DestCreditsOutcome(pp, fee, responseContentLen, maxResponseContentLen).Some?
    ensures DestCreditsOutcome(pp, 0, responseContentLen, maxResponseContentLen).Some?
    ensures DestCreditsOutcome(pp, fee, responseContentLen, maxResponseContentLen).value
         == fee + DestCreditsOutcome(pp, 0, responseContentLen, maxResponseContentLen).value
  {
  }

  lemma HopCreditsResponseShift(prop: PaymentProposalPair, c: nat, r1: nat, r2: nat, middleLen: nat, i: nat)
    ensures HopCredits(prop, c, r2, middleLen, i)
         == HopCredits(prop, c, r1, middleLen, i) + (r2 - r1) * prop.response.multiplier
  {
    var F := FailureLenFormula(middleLen - i);
    var k := prop.response.multiplier;
    assert k * (ResponseLenFormula(r2) + F) == k * (ResponseLenFormula(r1) + F) + k * (r2 - r1);
  }

  /** A longer response raises every middle node's payment by its response
      multiplier per extra byte. */
  lemma {:induction false} HopsResponseShift(props: seq<PaymentProposalPair>, c: nat, r1: nat, r2: nat, lo: nat, hi: nat)
    requires 2 <= |props| && lo <= hi <= |props|
    ensures Hops(props, c, r2, lo, hi)
         == Hops(props, c, r1, lo, hi) + (r2 - r1) * ResponseMultiplierSum(props, lo, hi)
    decreases hi - lo
  {
    if lo < hi {
      HopsResponseShift(props, c, r1, r2, lo, hi - 1);
      var k := props[hi - 1].response.multiplier;
      var h1 := HopCredits(props[hi - 1], c, r1, |props|, hi - 1);
      var h2 := HopCredits(props[hi - 1], c, r2, |props|, hi - 1);
      HopCreditsResponseShift(props[hi - 1], c, r1, r2, |props|, hi - 1);
      HopCreditsNonNegative(props[hi - 1], c, r1, |props|, hi - 1);
      HopCreditsNonNegative(props[hi - 1], c, r2, |props|, hi - 1);
      var S := ResponseMultiplierSum(props, lo, hi - 1);
      assert Hops(props, c, r1, lo, hi) == Hops(props, c, r1, lo, hi - 1) + h1;
      assert Hops(props, c, r2, lo, hi) == Hops(props, c, r2, lo, hi - 1) + h2;
      assert ResponseMultiplierSum(props, lo, hi) == S + k;
      Distrib(r2 - r1, S, k);
    }
  }

  /** The exact effect of the response length on a node's success payment:
      each byte less than the maximum pays the response multipliers of the
      nodes before it (the destination's unused-length term) and each byte
      more pays those of the nodes from it on, so the difference is carried
      by the first `|middle_props| - nodes_to_dest` nodes. */
  lemma SuccessCreditsResponseShift(pp: PaymentProposals, fee: nat, c: nat, r1: nat, r2: nat, m: nat, nodesToDest: nat)
    requires 2 <= |pp.middleProps| && nodesToDest <= |pp.middleProps| && r1 <= r2 <= m
    ensures SuccessCredits(pp, fee, c, r1, m, nodesToDest)
         == SuccessCredits(pp, fee, c, r2, m, nodesToDest)
            + (r2 - r1) * ResponseMultiplierSum(pp.middleProps, 0, |pp.middleProps| - nodesToDest)
  {
    var props := pp.middleProps;
    var L := |props|;
    var lo := L - nodesToDest;
    HopsResponseShift(props, c, r1, r2, lo, L);
    ResponseMultiplierSumSplit(props, 0, lo, L);
    var Sall := ResponseMultiplierSum(props, 0, L);
    var Sbefore := ResponseMultiplierSum(props, 0, lo);
    var Srange := ResponseMultiplierSum(props, lo, L);
    Distrib(Sall, m - r2, r2 - r1);
    Distrib(r2 - r1, Sbefore, Srange);
    assert (m - r1) * Sall == (m - r2) * Sall + (r2 - r1) * Sall;
  }

  /** A node's success payment never grows with the response length. */
  lemma SuccessNonIncreasingInResponseLen(pp: PaymentProposals, fee: u64, c: u32, r1: u32, r2: u32, m: u32, nodesToDest: u32)
    requires r1 <= r2
    requires SuccessOutcome(pp, fee, c, r1, m, nodesToDest).Some?
    requires SuccessOutcome(pp, fee, c, r2, m, nodesToDest).Some?
    ensures SuccessOutcome(pp, fee, c, r2, m, nodesToDest).value <= SuccessOutcome(pp, fee, c, r1, m, nodesToDest).value
  {
    var L := |pp.middleProps|;
    if 2 <= L {
      SuccessCreditsResponseShift(pp, fee, c, r1, r2, m, nodesToDest);
      MulNonNegative(r2 - r1, ResponseMultiplierSum(pp.middleProps, 0, L - nodesToDest));
    } else {
      SuccessNoHopsOnShortRoute(pp, fee, c, r1, m, nodesToDest);
      SuccessNoHopsOnShortRoute(pp, fee, c, r2, m, nodesToDest);
      assert (m - r1) * ResponseMultiplierSum(pp.middleProps, 0, L)
          == (m - r2) * ResponseMultiplierSum(pp.middleProps, 0, L) + (r2 - r1) * ResponseMultiplierSum(pp.middleProps, 0, L);
      MulNonNegative(r2 - r1, ResponseMultiplierSum(pp.middleProps, 0, L));
    }
  }

  /** For the node right after the source (`nodes_to_dest == |middle_props|`)
      the payment does not depend on the response length at all. */
  lemma SuccessAtSourceIndependentOfResponseLen(pp: PaymentProposals, fee: nat, c: nat, r1: nat, r2: nat, m: nat)
    requires 2 <= |pp.middleProps| && r1 <= m && r2 <= m
    ensures SuccessCredits(pp, fee, c, r1, m, |pp.middleProps|) == SuccessCredits(pp, fee, c, r2, m, |pp.middleProps|)
  {
    if r1 <= r2 {
      SuccessCreditsResponseShift(pp, fee, c, r1, r2, m, |pp.middleProps|);
    } else {
      SuccessCreditsResponseShift(pp, fee, c, r2, r1, m, |pp.middleProps|);
    }
  }

  /** Sum of the request multipliers of `props[lo..hi]`. */
  function RequestMultiplierSum(props: seq<PaymentProposalPair>, lo: nat, hi: nat): nat
    requires lo <= hi <= |props|
    decreases hi - lo
  {
    if lo == hi then 0
    else RequestMultiplierSum(props, lo, hi - 1) + props[hi - 1].request.multiplier
  }

  lemma HopCreditsRequestShift(prop: PaymentProposalPair, c1: nat, c2: nat, r: nat, middleLen: nat, i: nat)
    ensures HopCredits(prop, c2, r, middleLen, i)
         == HopCredits(prop, c1, r, middleLen, i) + (c2 - c1) * prop.request.multiplier
  {
    var q1 := RequestLenFormula(c1, middleLen, middleLen - i);
    assert RequestLenFormula(c2, middleLen, middleLen - i) == q1 + (c2 - c1);
    Distrib(prop.request.multiplier, q1, c2 - c1);
  }

  /** A longer request raises every middle node's payment by its request
      multiplier per extra byte. */
  lemma {:induction false} HopsRequestShift(props: seq<PaymentProposalPair>, c1: nat, c2: nat, r: nat, lo: nat, hi: nat)
    requires 2 <= |props| && lo <= hi <= |props|
    ensures Hops(props, c2, r, lo, hi)
         == Hops(props, c1, r, lo, hi) + (c2 - c1) * RequestMultiplierSum(props, lo, hi)
    decreases hi - lo
  {
    if lo < hi {
      HopsRequestShift(props, c1, c2, r, lo, hi - 1);
      var k := props[hi - 1].request.multiplier;
      var h1 := HopCredits(props[hi - 1], c1, r, |props|, hi - 1);
      var h2 := HopCredits(props[hi - 1], c2, r, |props|, hi - 1);
      HopCreditsRequestShift(props[hi - 1], c1, c2, r, |props|, hi - 1);
      HopCreditsNonNegative(props[hi - 1], c1, r, |props|, hi - 1);
      HopCreditsNonNegative(props[hi - 1], c2, r, |props|, hi - 1);
      var S := RequestMultiplierSum(props, lo, hi - 1);
      assert Hops(props, c1, r, lo, hi) == Hops(props, c1, r, lo, hi - 1) + h1;
      assert Hops(props, c2, r, lo, hi) == Hops(props, c2, r, lo, hi - 1) + h2;
      assert RequestMultiplierSum(props, lo, hi) == S + k;
      Distrib(c2 - c1, S, k);
    }
  }

  /** The success payment is linear in the request length: each extra byte
      adds the request multipliers of the nodes from this one to the
      destination; the destination's share does not depend on it. */
  lemma SuccessCreditsRequestShift(pp: PaymentProposals, fee: nat, c1: nat, c2: nat, r: nat, m: nat, nodesToDest: nat)
    requires 2 <= |pp.middleProps| && nodesToDest <= |pp.middleProps|
    ensures SuccessCredits(pp, fee, c2, r, m, nodesToDest)
         == SuccessCredits(pp, fee, c1, r, m, nodesToDest)
            + (c2 - c1) * RequestMultiplierSum(pp.middleProps, |pp.middleProps| - nodesToDest, |pp.middleProps|)
  {
    HopsRequestShift(pp.middleProps, c1, c2, r, |pp.middleProps| - nodesToDest, |pp.middleProps|);
  }

  /** A longer request never lowers a node's success payment. */
  lemma SuccessNonDecreasingInRequestLen(pp: PaymentProposals, fee: u64, c1: u32, c2: u32, r: u32, m: u32, nodesToDest: u32)
    requires c1 <= c2
    requires SuccessOutcome(pp, fee, c1, r, m, nodesToDest).Some?
    requires SuccessOutcome(pp, fee, c2, r, m, nodesToDest).Some?
    ensures SuccessOutcome(pp, fee, c1, r, m, nodesToDest).value <= SuccessOutcome(pp, fee, c2, r, m, nodesToDest).value
  {
    var L := |pp.middleProps|;
    if 2 <= L {
      SuccessCreditsRequestShift(pp, fee, c1, c2, r, m, nodesToDest);
      MulNonNegative(c2 - c1, RequestMultiplierSum(pp.middleProps, L - nodesToDest, L));
    } else {
      SuccessNoHopsOnShortRoute(pp, fee, c1, r, m, nodesToDest);
    }
  }

  /** The success payment is linear in the maximal response length: each
      extra byte adds the destination's response multiplier and the response
      multipliers of all middle nodes, through the destination's share. */
  lemma SuccessCreditsMaxResponseShift(pp: PaymentProposals, fee: nat, c: nat, r: nat, m1: nat, m2: nat, nodesToDest: nat)
    requires nodesToDest <= |pp.middleProps| && r <= m1 <= m2
    ensures SuccessCredits(pp, fee, c, r, m2, nodesToDest)
         == SuccessCredits(pp, fee, c, r, m1, nodesToDest)
            + (m2 - m1) * (pp.destResponseProposal.multiplier + ResponseMultiplierSum(pp.middleProps, 0, |pp.middleProps|))
  {
    var d := pp.destResponseProposal.multiplier;
    var S := ResponseMultiplierSum(pp.middleProps, 0, |pp.middleProps|);
    Distrib(d, ResponseLenFormula(m1), m2 - m1);
    Distrib(S, m1 - r, m2 - m1);
    Distrib(m2 - m1, d, S);
    assert (m2 - r) * S == (m1 - r) * S + (m2 - m1) * S;
  }

  /** On a route with fewer than two middle nodes there is no valid request
      length, so any node before the destination gets `None`. */
  lemma SuccessNoHopsOnShortRoute(pp: PaymentProposals, fee: u64, c: u32, r: u32, m: u32, nodesToDest: u32)
    requires |pp.middleProps| < 2
    ensures SuccessOutcome(pp, fee, c, r, m, nodesToDest).Some? ==> nodesToDest == 0
  {
    var L := |pp.middleProps|;
    if 0 < nodesToDest <= L {
      assert !HopFits(pp.middleProps[L - nodesToDest], c, r, L, L - nodesToDest);
    }
  }

  /** What `credits_to_freeze` computes bounds every success payment: the
      maximum is reached at an empty response. */
  lemma FreezeBoundsSuccess(pp: PaymentProposals, fee: u64, c: u32, r: u32, m: u32, nodesToDest: u32)
    requires SuccessOutcome(pp, fee, c, 0, m, nodesToDest).Some?
    requires SuccessOutcome(pp, fee, c, r, m, nodesToDest).Some?
    ensures SuccessOutcome(pp, fee, c, r, m, nodesToDest).value <= SuccessOutcome(pp, fee, c, 0, m, nodesToDest).value
  {
    SuccessNonIncreasingInResponseLen(pp, fee, c, 0, r, m, nodesToDest);
  }

  /** With no nodes before the reporting node only the reporting node is paid. */
  lemma FailureAtReportingNode(pp: PaymentProposals, c: u32, reportingToDest: u32)
    requires 1 < reportingToDest <= |pp.middleProps| <= U32_MAX
    ensures FailureOutcome(pp, c, 0, reportingToDest)
         == Some(ReportingCredits(pp.middleProps[|pp.middleProps| - reportingToDest]))
  {
    var prop := pp.middleProps[|pp.middleProps| - reportingToDest];
    MulBounded(prop.response.multiplier, FailureLenFormula(0), U32_MAX);
  }

  lemma SuccessHopCoversFailureHop(prop: PaymentProposalPair, c: nat, r: nat, middleLen: nat, end: nat, i: nat)
    requires i <= end <= middleLen
    ensures FailureHopCredits(prop, c, middleLen, end, i) <= HopCredits(prop, c, r, middleLen, i)
  {
    MulMonotone(prop.response.multiplier, FailureLenFormula(end - i),
                ResponseLenFormula(r) + FailureLenFormula(middleLen - i));
  }

  lemma ReportingCoveredBySuccessHop(prop: PaymentProposalPair, c: nat, r: nat, middleLen: nat, i: nat)
    requires 2 <= middleLen && i < middleLen
    ensures ReportingCredits(prop) <= HopCredits(prop, c, r, middleLen, i)
  {
    MulMonotone(prop.response.multiplier, FailureLenFormula(0),
                ResponseLenFormula(r) + FailureLenFormula(middleLen - i));
    MulNonNegative(prop.request.multiplier, RequestLenFormula(c, middleLen, middleLen - i));
  }

  lemma {:induction false} HopsCoverFailureHops(props: seq<PaymentProposalPair>, c: nat, r: nat, end: nat, lo: nat, hi: nat)
    requires 2 <= |props| && lo <= hi <= end <= |props|
    ensures FailureHops(props, c, end, lo, hi) <= Hops(props, c, r, lo, hi)
    decreases hi - lo
  {
    if lo < hi {
      HopsCoverFailureHops(props, c, r, end, lo, hi - 1);
      SuccessHopCoversFailureHop(props[hi - 1], c, r, |props|, end, hi - 1);
    }
  }

  /** A node is paid at least as much for passing back a response as for
      passing back any failure reported further along the route, as long as
      the success payment covers the nodes the failure payment covers. */
  lemma SuccessCoversFailure(pp: PaymentProposals, fee: nat, c: nat, r: nat, m: nat, nodesToDest: nat,
                             nodesToReporting: nat, reportingToDest: nat)
    requires 2 <= reportingToDest <= |pp.middleProps| && nodesToReporting <= |pp.middleProps| - reportingToDest
    requires nodesToDest <= |pp.middleProps| && r <= m
    requires |pp.middleProps| - nodesToDest <= |pp.middleProps| - reportingToDest - nodesToReporting
    ensures FailureCredits(pp.middleProps, c, nodesToReporting, reportingToDest)
         <= SuccessCredits(pp, fee, c, r, m, nodesToDest)
  {
    var props := pp.middleProps;
    var L := |props|;
    var end := L - reportingToDest;
    var start := end - nodesToReporting;
    var lo := L - nodesToDest;
    HopsSplit(props, c, r, lo, start, L);
    HopsSplit(props, c, r, start, end, L);
    HopsSplit(props, c, r, end, end + 1, L);
    HopsCoverFailureHops(props, c, r, end, start, end);
    ReportingCoveredBySuccessHop(props[end], c, r, L, end);
    HopCreditsNonNegative(props[end], c, r, L, end);
  }

  // ---------------------------------------------------------------------
  // The calculator bound to one request

  /** One link of a route: only the proposal pair is read here. */
  datatype NeighborRouteLink = NeighborRouteLink(nodePublicKey: seq<byte>, paymentProposalPair: PaymentProposalPair)

  /** A route between a source and a destination, through `routeLinks`. */
  datatype NeighborsRoute = NeighborsRoute(routeLinks: seq<NeighborRouteLink>, destResponseProposal: NetworkerSendPrice)

  datatype CreditCalculator = CreditCalculator(
    paymentProposals: PaymentProposals,
    routeLen: u32,
    requestContentLen: u32,
    processingFeeProposal: u64,
    maxResponseLen: u32)

  /** The route counts the source and the destination besides the middle nodes. */
  predicate ValidCalculator(calculator: CreditCalculator) {
    calculator.routeLen == |calculator.paymentProposals.middleProps| + 2
  }

  /** `CreditCalculator::new`: `None` exactly when the route length overflows u32. */
  function NewCreditCalculator(route: NeighborsRoute, requestContentLen: u32, processingFeeProposal: u64,
                               maxResponseLen: u32): (r: Option<CreditCalculator>)
    ensures r.Some? <==> |route.routeLinks| + 2 <= U32_MAX
    ensures r.Some? ==> ValidCalculator(r.value)
    ensures r.Some? ==> |r.value.paymentProposals.middleProps| == |route.routeLinks|
    ensures r.Some? ==> forall i :: 0 <= i < |route.routeLinks| ==>
              r.value.paymentProposals.middleProps[i] == route.routeLinks[i].paymentProposalPair
    ensures r.Some? ==> r.value.paymentProposals.destResponseProposal == route.destResponseProposal
    ensures r.Some? ==> r.value.requestContentLen == requestContentLen
                        && r.value.processingFeeProposal == processingFeeProposal
                        && r.value.maxResponseLen == maxResponseLen
  {
    var links := route.routeLinks;
    var middleProps := seq(|links|, i requires 0 <= i < |links| => links[i].paymentProposalPair);
    var routeLen :- UsizeToU32(|links| + 2);
    Some(CreditCalculator(PaymentProposals(middleProps, route.destResponseProposal),
                          routeLen, requestContentLen, processingFeeProposal, maxResponseLen))
  }

  /** `freeze_index_to_nodes_to_dest`: the source has index 0 and the
      destination index `route_len - 1`. */
  function FreezeIndexToNodesToDest(calculator: CreditCalculator, index: nat): (r: Option<u32>)
    ensures r.Some? <==> index < calculator.routeLen
    ensures r.Some? ==> r.value + index + 1 == calculator.routeLen
  {
    var index32 :- UsizeToU32(index);
    var rest :- CheckedSub32(calculator.routeLen, index32);
    CheckedSub32(rest, 1)
  }

  /** Credits node `index - 1` freezes when sending the request to node `index`. */
  method CalculatorCreditsToFreeze(calculator: CreditCalculator, index: nat) returns (res: Option<u64>)
    ensures index >= calculator.routeLen ==> res.None?
    ensures index < calculator.routeLen ==>
              res == SuccessOutcome(calculator.paymentProposals, calculator.processingFeeProposal, calculator.requestContentLen, 0,
                                    calculator.maxResponseLen, calculator.routeLen - index - 1)
  {
    var nodesToDest :- FreezeIndexToNodesToDest(calculator, index);
    res := CreditsToFreeze(calculator.paymentProposals, calculator.processingFeeProposal, calculator.requestContentLen,
                           calculator.maxResponseLen, nodesToDest);
  }

  /** Credits paid to node `index` for sending a valid response to node `index - 1`. */
  method CalculatorCreditsOnSuccess(calculator: CreditCalculator, index: nat, responseContentLen: u32) returns (res: Option<u64>)
    ensures index >= calculator.routeLen ==> res.None?
    ensures index < calculator.routeLen ==>
              res == SuccessOutcome(calculator.paymentProposals, calculator.processingFeeProposal, calculator.requestContentLen,
                                    responseContentLen, calculator.maxResponseLen, calculator.routeLen - index - 1)
  {
    var nodesToDest :- FreezeIndexToNodesToDest(calculator, index);
    res := CreditsOnSuccess(calculator.paymentProposals, calculator.processingFeeProposal, calculator.requestContentLen,
                            responseContentLen, calculator.maxResponseLen, nodesToDest);
  }

  /** The index arguments `credits_on_failure` accepts before it reaches the
      assertion on `reporting_to_dest`. */
  predicate FailureIndicesInRange(calculator: CreditCalculator, index: nat, reportingIndex: nat) {
    index <= reportingIndex && reportingIndex - index <= U32_MAX && reportingIndex < calculator.routeLen
  }

  /** Credits paid to node `index` for passing back a failure reported by
      node `reporting_index`. */
  method CalculatorCreditsOnFailure(calculator: CreditCalculator, index: nat, reportingIndex: nat) returns (res: Option<u64>)
    requires FailureIndicesInRange(calculator, index, reportingIndex) ==> reportingIndex + 2 < calculator.routeLen
    ensures !FailureIndicesInRange(calculator, index, reportingIndex) ==> res.None?
    ensures FailureIndicesInRange(calculator, index, reportingIndex) ==>
              res == FailureOutcome(calculator.paymentProposals, calculator.requestContentLen, reportingIndex - index,
                                    calculator.routeLen - reportingIndex - 1)
  {
    if reportingIndex < index {
      return None;
    }
    var nodesToReporting :- UsizeToU32(reportingIndex - index);
    var reportingToDest :- FreezeIndexToNodesToDest(calculator, reportingIndex);
    res := CreditsOnFailure(calculator.paymentProposals, calculator.requestContentLen, nodesToReporting, reportingToDest);
  }

  /** For the same node index, the payment for a response is at least the
      payment for any failure reported further along. */
  lemma CalculatorSuccessCoversFailure(calculator: CreditCalculator, index: nat, reportingIndex: nat, responseContentLen: u32)
    requires ValidCalculator(calculator)
    requires 1 <= index <= reportingIndex && reportingIndex + 2 < calculator.routeLen
    ensures var success := SuccessOutcome(calculator.paymentProposals, calculator.processingFeeProposal, calculator.requestContentLen,
                                          responseContentLen, calculator.maxResponseLen, calculator.routeLen - index - 1);
            var failure := FailureOutcome(calculator.paymentProposals, calculator.requestContentLen, reportingIndex - index,
                                          calculator.routeLen - reportingIndex - 1);
            success.Some? && failure.Some? ==> failure.value <= success.value
  {
    var pp := calculator.paymentProposals;
    if responseContentLen <= calculator.maxResponseLen {
      SuccessCoversFailure(pp, calculator.processingFeeProposal, calculator.requestContentLen, responseContentLen,
                           calculator.maxResponseLen, calculator.routeLen - index - 1,
                           reportingIndex - index, calculator.routeLen - reportingIndex - 1);
    }
  }
}
