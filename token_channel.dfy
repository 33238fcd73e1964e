/** The token channel between two friends (components/funder/src/token_channel.rs):
    the move token passes back and forth, so the channel is either waiting for
    the friend's next token (`Incoming`, holding the last token received) or
    has sent its own (`Outgoing`). Next to the direction sits the
    mutual-credit ledger. */
module FunderTokenChannel {
  import opened Wrappers
  import opened MachineInts
  import opened Identity
  import CanonicalSerialize
  import FunderTypes

  /** Prefix hashed into a reset token: the bytes of "RESET". */
  const TOKEN_RESET: seq<byte> := [0x52, 0x45, 0x53, 0x45, 0x54]

  /** An operation carried by a move token; its contents are read only by
      `process_operations_list`. */
  datatype FriendTcOp = FriendTcOp(encoded: seq<byte>)

  /** A message produced by processing an incoming operation. */
  datatype IncomingMessage = IncomingMessage(encoded: seq<byte>)

  /** Why `process_operations_list` rejected an operation list. */
  datatype ProcessTransListError = ProcessTransListError(index: nat)

  /** The fields of a move token that its signature covers. */
  datatype MoveTokenDraft = MoveTokenDraft(
    operations: seq<FriendTcOp>,
    oldToken: Signature,
    inconsistencyCounter: u64,
    moveTokenCounter: u128,
    balance: i128,
    localPendingDebt: u128,
    remotePendingDebt: u128,
    randNonce: RandValue)

  datatype FriendMoveToken = FriendMoveToken(
    operations: seq<FriendTcOp>,
    oldToken: Signature,
    inconsistencyCounter: u64,
    moveTokenCounter: u128,
    balance: i128,
    localPendingDebt: u128,
    remotePendingDebt: u128,
    randNonce: RandValue,
    newToken: Signature)

  datatype FriendMoveTokenRequest = FriendMoveTokenRequest(friendMoveToken: FriendMoveToken, tokenWanted: bool)

  datatype OutgoingMoveToken = OutgoingMoveToken(
    outgoingMoveTokenRequest: FriendMoveTokenRequest,
    optPrevIncomingMoveToken: Option<FriendMoveToken>)

  datatype MoveTokenDirection =
    | Incoming(lastMoveToken: FriendMoveToken)
    | Outgoing(outgoing: OutgoingMoveToken)

  datatype SetDirection = SetIncoming(incomingToken: FriendMoveToken) | SetOutgoing(outgoingToken: FriendMoveToken)

  datatype TcMutation =
    | McMutation(mcMutation: FunderTypes.TcMutation)
    | SetDirection(setDirection: SetDirection)
    | SetTokenWanted

  datatype ReceiveMoveTokenError =
    | ChainInconsistency
    | InvalidTransaction(transError: ProcessTransListError)
    | InvalidSignature
    | InvalidStatedBalance
    | InvalidInconsistencyCounter
    | MoveTokenCounterOverflow
    | InvalidMoveTokenCounter

  datatype MoveTokenReceived = MoveTokenReceived(incomingMessages: seq<IncomingMessage>, mutations: seq<TcMutation>)

  datatype ReceiveMoveTokenOutput =
    | Duplicate
    | RetransmitOutgoing(moveToken: FriendMoveToken)
    | Received(received: MoveTokenReceived)

  datatype ResetTerms = ResetTerms(resetToken: Signature, inconsistencyCounter: u64, balanceForReset: i128)

  datatype ProcessOperationOutput = ProcessOperationOutput(
    incomingMessage: Option<IncomingMessage>,
    mcMutations: seq<FunderTypes.TcMutation>)

  /** What `process_operations_list` did to the ledger it was given: on
      success the outputs, whose mutations it applied in order; on failure the
      error and the mutations it had applied before failing. */
  datatype ProcessOutcome =
    | ProcessOk(outputs: seq<ProcessOperationOutput>)
    | ProcessErr(processError: ProcessTransListError, appliedMutations: seq<FunderTypes.TcMutation>)

  /** A batch of outgoing operations being built against a snapshot of the ledger. */
  datatype OutgoingMc = OutgoingMc(mutualCredit: FunderTypes.TokenChannelState, maxOperationsInBatch: nat)

  /** The operations this model takes as given: hashing, the signatures of
      move tokens and of reset tokens, the processing of incoming operations
      and the batch size constant. */
  datatype Externals = Externals(
    sha512256: seq<byte> -> HashResult,
    verifyMoveToken: (FriendMoveToken, PublicKey) -> bool,
    signMoveToken: MoveTokenDraft -> Signature,
    requestSignature: seq<byte> -> Signature,
    processOperationsList: (FunderTypes.TokenChannelState, seq<FriendTcOp>) -> ProcessOutcome,
    maxOperationsInBatch: nat)

  // ---------------------------------------------------------------------
  // Order of hashes

  /** Lexicographic order of byte strings, as `<` compares hash results. */
  predicate LexLess(a: seq<byte>, b: seq<byte>)
    decreases |a|
  {
    if |a| == 0 then |b| > 0
    else |b| > 0 && (a[0] < b[0] || (a[0] == b[0] && LexLess(a[1..], b[1..])))
  }

  lemma {:induction false} LexLessAsymmetric(a: seq<byte>, b: seq<byte>)
    ensures !(LexLess(a, b) && LexLess(b, a))
    decreases |a|
  {
    if |a| > 0 && |b| > 0 && a[0] == b[0] {
      LexLessAsymmetric(a[1..], b[1..]);
    }
  }

  lemma {:induction false} LexLessTotal(a: seq<byte>, b: seq<byte>)
    requires |a| == |b|
    ensures a != b ==> LexLess(a, b) || LexLess(b, a)
    decreases |a|
  {
    if |a| > 0 && a[0] == b[0] {
      LexLessTotal(a[1..], b[1..]);
      if a[1..] == b[1..] {
        assert a == [a[0]] + a[1..] && b == [b[0]] + b[1..];
      }
    }
  }

  lemma {:induction false} LexLessTransitive(a: seq<byte>, b: seq<byte>, c: seq<byte>)
    requires LexLess(a, b) && LexLess(b, c)
    ensures LexLess(a, c)
    decreases |a|
  {
    if |a| > 0 && a[0] == b[0] && b[0] == c[0] {
      LexLessTransitive(a[1..], b[1..], c[1..]);
    }
  }

  predicate HashLess(ext: Externals, a: PublicKey, b: PublicKey) {
    LexLess(ext.sha512256(a), ext.sha512256(b))
  }

  // ---------------------------------------------------------------------
  // Genesis

  /** `token_from_public_key`: the key followed by zero bytes. */
  function TokenFromPublicKey(publicKey: PublicKey): (r: Signature)
    ensures r[..PUBLIC_KEY_LEN] == publicKey
    ensures forall i :: PUBLIC_KEY_LEN <= i < SIGNATURE_LEN ==> r[i] == 0
  {
    publicKey + seq(SIGNATURE_LEN - PUBLIC_KEY_LEN, _ => 0 as byte)
  }

  /** Distinct keys give distinct genesis tokens. */
  lemma TokenFromPublicKeyInjective(a: PublicKey, b: PublicKey)
    ensures TokenFromPublicKey(a) == TokenFromPublicKey(b) ==> a == b
  {
  }

  /** `rand_nonce_from_public_key`: the first bytes of the key's hash. */
  function RandNonceFromPublicKey(ext: Externals, publicKey: PublicKey): RandValue {
    ext.sha512256(publicKey)[..RAND_VALUE_LEN]
  }

  /** `first_move_token_lower` of `TokenChannel::new`, built from the local
      and remote keys in that order: no operations, zero counters and
      balances, and a chain link from the first key's token to the second's. */
  function GenesisMoveToken(ext: Externals, localPublicKey: PublicKey, remotePublicKey: PublicKey): (r: FriendMoveToken)
    ensures r.operations == []
    ensures r.oldToken == TokenFromPublicKey(localPublicKey) && r.newToken == TokenFromPublicKey(remotePublicKey)
    ensures localPublicKey != remotePublicKey ==> r.oldToken != r.newToken
    ensures r.inconsistencyCounter == 0 && r.moveTokenCounter == 0
    ensures r.balance == 0 && r.localPendingDebt == 0 && r.remotePendingDebt == 0
  {
    FriendMoveToken([], TokenFromPublicKey(localPublicKey), 0, 0, 0, 0, 0,
                    RandNonceFromPublicKey(ext, remotePublicKey), TokenFromPublicKey(remotePublicKey))
  }

  function FirstSenderDirection(moveToken: FriendMoveToken): MoveTokenDirection {
    Outgoing(OutgoingMoveToken(FriendMoveTokenRequest(moveToken, false), None))
  }

  /** The direction `TokenChannel::new` starts in, as written: both sides
      build the genesis token from their own (local, remote) keys. */
  function GenesisDirectionAsWritten(ext: Externals, localPublicKey: PublicKey, remotePublicKey: PublicKey): (r: MoveTokenDirection)
    ensures r.Outgoing? <==> HashLess(ext, localPublicKey, remotePublicKey)
    ensures CurMoveToken(r) == GenesisMoveToken(ext, localPublicKey, remotePublicKey)
    ensures r.Outgoing? ==> LastIncomingMoveToken(r).None? && !r.outgoing.outgoingMoveTokenRequest.tokenWanted
  {
    var firstMoveTokenLower := GenesisMoveToken(ext, localPublicKey, remotePublicKey);
    if HashLess(ext, localPublicKey, remotePublicKey) then FirstSenderDirection(firstMoveTokenLower)
    else Incoming(firstMoveTokenLower)
  }

  /** The direction `TokenChannel::new` starts in, with the genesis token built
      from the lower key first on both sides, so that both sides hold the same
      token. */
  function GenesisDirection(ext: Externals, localPublicKey: PublicKey, remotePublicKey: PublicKey): (r: MoveTokenDirection)
    ensures r.Outgoing? <==> HashLess(ext, localPublicKey, remotePublicKey)
    ensures r.Outgoing? ==> CurMoveToken(r) == GenesisMoveToken(ext, localPublicKey, remotePublicKey)
    ensures r.Incoming? ==> CurMoveToken(r) == GenesisMoveToken(ext, remotePublicKey, localPublicKey)
    ensures r.Outgoing? ==> LastIncomingMoveToken(r).None? && !r.outgoing.outgoingMoveTokenRequest.tokenWanted
  {
    if HashLess(ext, localPublicKey, remotePublicKey)
    then FirstSenderDirection(GenesisMoveToken(ext, localPublicKey, remotePublicKey))
    else Incoming(GenesisMoveToken(ext, remotePublicKey, localPublicKey))
  }

  // ---------------------------------------------------------------------
  // Reading the direction

  function CurMoveToken(d: MoveTokenDirection): FriendMoveToken {
    match d
    case Incoming(t) => t
    case Outgoing(o) => o.outgoingMoveTokenRequest.friendMoveToken
  }

  function LastIncomingMoveToken(d: MoveTokenDirection): Option<FriendMoveToken> {
    match d
    case Incoming(t) => Some(t)
    case Outgoing(o) => o.optPrevIncomingMoveToken
  }

  /** `get_outgoing_move_token`. */
  function OutgoingMoveTokenRequestOf(d: MoveTokenDirection): (r: Option<FriendMoveTokenRequest>)
    ensures r.None? <==> d.Incoming?
    ensures r.Some? ==> r.value.friendMoveToken == CurMoveToken(d)
  {
    match d
    case Incoming(_) => None
    case Outgoing(o) => Some(o.outgoingMoveTokenRequest)
  }

  /** `begin_outgoing_move_token`: a batch can start only while the token is here. */
  function OutgoingMcOf(ext: Externals, d: MoveTokenDirection, ledger: FunderTypes.TokenChannelState): (r: Option<OutgoingMc>)
    ensures r.None? <==> d.Outgoing?
    ensures r.Some? ==> r.value.mutualCredit == ledger && r.value.maxOperationsInBatch == ext.maxOperationsInBatch
  {
    if d.Outgoing? then None else Some(OutgoingMc(ledger, ext.maxOperationsInBatch))
  }

  function Sign(ext: Externals, draft: MoveTokenDraft): FriendMoveToken {
    FriendMoveToken(draft.operations, draft.oldToken, draft.inconsistencyCounter, draft.moveTokenCounter,
                    draft.balance, draft.localPendingDebt, draft.remotePendingDebt, draft.randNonce,
                    ext.signMoveToken(draft))
  }

  /** `create_friend_move_token`: the next token continues the chain from the
      last one received and states the current ledger balances. */
  function CreatedMoveToken(ext: Externals, d: MoveTokenDirection, ledger: FunderTypes.TokenChannelState,
                            operations: seq<FriendTcOp>, randNonce: RandValue): (r: Option<FriendMoveToken>)
    ensures r.None? <==> d.Outgoing?
    ensures r.Some? ==>
      var last := d.lastMoveToken;
      && r.value.operations == operations
      && r.value.oldToken == last.newToken
      && r.value.inconsistencyCounter == last.inconsistencyCounter
      && r.value.moveTokenCounter == (last.moveTokenCounter + 1) % U128_LIMIT
      && r.value.balance == ledger.balance.balance
      && r.value.localPendingDebt == ledger.balance.localPendingDebt
      && r.value.remotePendingDebt == ledger.balance.remotePendingDebt
      && r.value.randNonce == randNonce
  {
    match d
    case Outgoing(_) => None
    case Incoming(last) =>
      Some(Sign(ext, MoveTokenDraft(operations, last.newToken, last.inconsistencyCounter,
                                    WrappingInc128(last.moveTokenCounter), ledger.balance.balance,
                                    ledger.balance.localPendingDebt, ledger.balance.remotePendingDebt, randNonce)))
  }

  /** The buffer `calc_channel_reset_token` signs. */
  function ResetTokenBuffer(ext: Externals, newToken: Signature, balanceForReset: i128): (buf: seq<byte>)
    ensures |buf| == HASH_RESULT_LEN + SIGNATURE_LEN + 16
    ensures buf[..HASH_RESULT_LEN] == ext.sha512256(TOKEN_RESET)
    ensures buf[HASH_RESULT_LEN..HASH_RESULT_LEN + SIGNATURE_LEN] == newToken
    ensures CanonicalSerialize.FromBigEndian(buf[HASH_RESULT_LEN + SIGNATURE_LEN..]) == FunderTypes.I128AsU128(balanceForReset)
  {
    CanonicalSerialize.Pow256Width16();
    var balanceBytes := CanonicalSerialize.BigEndian(FunderTypes.I128AsU128(balanceForReset), 16);
    CanonicalSerialize.BigEndianRoundTrip(FunderTypes.I128AsU128(balanceForReset), 16);
    var buf := ext.sha512256(TOKEN_RESET) + newToken + balanceBytes;
    assert buf[HASH_RESULT_LEN + SIGNATURE_LEN..] == balanceBytes;
    buf
  }

  function CalcChannelResetToken(ext: Externals, newToken: Signature, balanceForReset: i128): Signature {
    ext.requestSignature(ResetTokenBuffer(ext, newToken, balanceForReset))
  }

  /** `get_reset_terms`: the counter moves on by one (wrapping at 2^64), and
      the balance for reset is the balance plus the remote pending debt. */
  function ResetTermsOf(ext: Externals, d: MoveTokenDirection, ledger: FunderTypes.TokenChannelState): (r: ResetTerms)
    requires FunderTypes.BalanceForResetFits(ledger)
    ensures r.inconsistencyCounter == (CurMoveToken(d).inconsistencyCounter + 1) % U64_LIMIT
    ensures r.balanceForReset == ledger.balance.balance + ledger.balance.remotePendingDebt
    ensures r.resetToken == ext.requestSignature(ResetTokenBuffer(ext, CurMoveToken(d).newToken, r.balanceForReset))
  {
    var balanceForReset := ledger.balance.balance + ledger.balance.remotePendingDebt;
    ResetTerms(CalcChannelResetToken(ext, CurMoveToken(d).newToken, balanceForReset),
               WrappingInc64(CurMoveToken(d).inconsistencyCounter),
               balanceForReset)
  }

  // ---------------------------------------------------------------------
  // Mutations

  /** `SetTokenWanted` is only reached while outgoing (`unreachable!` otherwise). */
  predicate Applicable(d: MoveTokenDirection, m: TcMutation) {
    m.SetTokenWanted? ==> d.Outgoing?
  }

  /** The direction and ledger after `mutate`: a ledger mutation leaves the
      direction alone, and the other mutations leave the ledger alone. */
  function ApplyTcMutation(d: MoveTokenDirection, ledger: FunderTypes.TokenChannelState, m: TcMutation)
    : (r: (MoveTokenDirection, FunderTypes.TokenChannelState))
    requires Applicable(d, m)
    ensures r.1.idents == ledger.idents
    ensures m.McMutation? ==> r.0 == d && r.1 == FunderTypes.ApplyMutation(ledger, m.mcMutation)
    ensures !m.McMutation? ==> r.1 == ledger
    ensures m.SetDirection? && m.setDirection.SetIncoming? ==> r.0 == Incoming(m.setDirection.incomingToken)
    ensures m.SetDirection? && m.setDirection.SetOutgoing? ==>
            && OutgoingMoveTokenRequestOf(r.0) == Some(FriendMoveTokenRequest(m.setDirection.outgoingToken, false))
            && LastIncomingMoveToken(r.0) == LastIncomingMoveToken(d)
    ensures m.SetTokenWanted? ==>
            && r.0.Outgoing? && CurMoveToken(r.0) == CurMoveToken(d)
            && r.0.outgoing.outgoingMoveTokenRequest.tokenWanted
            && LastIncomingMoveToken(r.0) == LastIncomingMoveToken(d)
  {
    match m
    case McMutation(mc) => (d, FunderTypes.ApplyMutation(ledger, mc))
    case SetDirection(SetIncoming(t)) => (Incoming(t), ledger)
    case SetDirection(SetOutgoing(t)) =>
      (Outgoing(OutgoingMoveToken(FriendMoveTokenRequest(t, false), LastIncomingMoveToken(d))), ledger)
    case SetTokenWanted =>
      var o := d.outgoing;
      (Outgoing(o.(outgoingMoveTokenRequest := o.outgoingMoveTokenRequest.(tokenWanted := true))), ledger)
  }

  /** A mutation log applied in order; `None` if some step would panic, which
      only a `SetTokenWanted` can do. No step changes the identities. */
  function ApplyTcMutations(d: MoveTokenDirection, ledger: FunderTypes.TokenChannelState, ms: seq<TcMutation>)
    : (r: Option<(MoveTokenDirection, FunderTypes.TokenChannelState)>)
    ensures (forall i | 0 <= i < |ms| :: !ms[i].SetTokenWanted?) ==> r.Some?
    ensures r.Some? ==> r.value.1.idents == ledger.idents
    decreases |ms|
  {
    if ms == [] then Some((d, ledger))
    else if !Applicable(d, ms[0]) then None
    else
      var next := ApplyTcMutation(d, ledger, ms[0]);
      ApplyTcMutations(next.0, next.1, ms[1..])
  }

  /** Setting the direction to outgoing stores the token, not yet wanted back,
      and keeps the last incoming token. */
  lemma SetOutgoingKeepsLastIncoming(d: MoveTokenDirection, ledger: FunderTypes.TokenChannelState, t: FriendMoveToken)
    ensures var next := ApplyTcMutation(d, ledger, SetDirection(SetOutgoing(t)));
            && next.0.Outgoing?
            && OutgoingMoveTokenRequestOf(next.0) == Some(FriendMoveTokenRequest(t, false))
            && LastIncomingMoveToken(next.0) == LastIncomingMoveToken(d)
            && next.1 == ledger
  {
  }

  /** `SetTokenWanted` sets the flag and nothing else. */
  lemma SetTokenWantedOnlySetsFlag(d: MoveTokenDirection, ledger: FunderTypes.TokenChannelState)
    requires d.Outgoing?
    ensures var next := ApplyTcMutation(d, ledger, SetTokenWanted);
            && next.0.Outgoing?
            && OutgoingMoveTokenRequestOf(next.0) == Some(OutgoingMoveTokenRequestOf(d).value.(tokenWanted := true))
            && LastIncomingMoveToken(next.0) == LastIncomingMoveToken(d)
            && next.1 == ledger
  {
  }

  /** Ledger mutations leave the direction alone. */
  lemma McMutationKeepsDirection(d: MoveTokenDirection, ledger: FunderTypes.TokenChannelState, mc: FunderTypes.TcMutation)
    ensures ApplyTcMutation(d, ledger, McMutation(mc)) == (d, FunderTypes.ApplyMutation(ledger, mc))
  {
  }

  // ---------------------------------------------------------------------
  // Receiving a move token

  function Wrap(ms: seq<FunderTypes.TcMutation>): (r: seq<TcMutation>)
    ensures |r| == |ms| && forall i :: 0 <= i < |ms| ==> r[i] == McMutation(ms[i])
  {
    seq(|ms|, i requires 0 <= i < |ms| => McMutation(ms[i]))
  }

  /** The ledger mutations of the outputs, in operation order. */
  function RawMutationsOf(outputs: seq<ProcessOperationOutput>): seq<FunderTypes.TcMutation>
    decreases |outputs|
  {
    if outputs == [] then []
    else RawMutationsOf(outputs[..|outputs| - 1]) + outputs[|outputs| - 1].mcMutations
  }

  /** The incoming messages of the outputs, in operation order. */
  function IncomingMessagesOf(outputs: seq<ProcessOperationOutput>): seq<IncomingMessage>
    decreases |outputs|
  {
    if outputs == [] then []
    else
      var last := outputs[|outputs| - 1];
      IncomingMessagesOf(outputs[..|outputs| - 1]) + (if last.incomingMessage.Some? then [last.incomingMessage.value] else [])
  }

  function AppliedMutations(outcome: ProcessOutcome): seq<FunderTypes.TcMutation> {
    match outcome
    case ProcessOk(outputs) => RawMutationsOf(outputs)
    case ProcessErr(_, applied) => applied
  }

  /** The ledger's balances are the ones the token states. */
  predicate StatedBalanceMatches(ledger: FunderTypes.TokenChannelState, t: FriendMoveToken) {
    && ledger.balance.balance == t.balance
    && ledger.balance.localPendingDebt == t.localPendingDebt
    && ledger.balance.remotePendingDebt == t.remotePendingDebt
  }

  /** The counter checks of `outgoing_to_incoming`: the same inconsistency
      counter, and the move token counter one more than ours without overflow. */
  predicate CountersPass(oldMoveToken: FriendMoveToken, newMoveToken: FriendMoveToken) {
    && newMoveToken.inconsistencyCounter == oldMoveToken.inconsistencyCounter
    && oldMoveToken.moveTokenCounter < U128_MAX
    && newMoveToken.moveTokenCounter == oldMoveToken.moveTokenCounter + 1
  }

  /** The cloned ledger after processing the token's operations, as far as
      they applied. */
  function ProcessedLedger(ext: Externals, ledger: FunderTypes.TokenChannelState, t: FriendMoveToken)
    : FunderTypes.TokenChannelState
  {
    FunderTypes.ApplyMutations(ledger, AppliedMutations(ext.processOperationsList(ledger, t.operations)))
  }

  /** What a received token hands back: the incoming messages and the
      processing's mutations, then the turn to incoming. */
  function ReceivedOf(outputs: seq<ProcessOperationOutput>, t: FriendMoveToken): MoveTokenReceived {
    MoveTokenReceived(IncomingMessagesOf(outputs), Wrap(RawMutationsOf(outputs)) + [SetDirection(SetIncoming(t))])
  }

  /** What `outgoing_to_incoming` returns for the ledger `ledger`. The
      inconsistency counter is checked first, then the move token counter's
      overflow, then its value, then the stated balances against the processed
      clone, and only then the processing's own error. A token that passes
      every check is received, and its log ends by turning the direction to
      incoming. */
  function OutgoingToIncomingOutcome(ext: Externals, ledger: FunderTypes.TokenChannelState,
                                     oldMoveToken: FriendMoveToken, newMoveToken: FriendMoveToken)
    : (r: Result<ReceiveMoveTokenOutput, ReceiveMoveTokenError>)
    ensures newMoveToken.inconsistencyCounter != oldMoveToken.inconsistencyCounter ==> r == Err(InvalidInconsistencyCounter)
    ensures oldMoveToken.moveTokenCounter == U128_MAX && newMoveToken.inconsistencyCounter == oldMoveToken.inconsistencyCounter
            ==> r == Err(MoveTokenCounterOverflow)
    ensures r.Ok? ==> r.value.Received?
    ensures r.Ok? ==> && newMoveToken.inconsistencyCounter == oldMoveToken.inconsistencyCounter
                      && newMoveToken.moveTokenCounter == oldMoveToken.moveTokenCounter + 1
    ensures r.Ok? ==> && ext.processOperationsList(ledger, newMoveToken.operations).ProcessOk?
                      && StatedBalanceMatches(FunderTypes.ApplyMutations(ledger,
                           AppliedMutations(ext.processOperationsList(ledger, newMoveToken.operations))), newMoveToken)
    ensures r.Ok? ==> var ms := r.value.received.mutations;
                      |ms| > 0 && ms[|ms| - 1] == SetDirection(SetIncoming(newMoveToken))
    ensures r.Err? && r.error.InvalidTransaction? ==> ext.processOperationsList(ledger, newMoveToken.operations).ProcessErr?
    ensures && newMoveToken.inconsistencyCounter == oldMoveToken.inconsistencyCounter
            && oldMoveToken.moveTokenCounter < U128_MAX
            && newMoveToken.moveTokenCounter != oldMoveToken.moveTokenCounter + 1
            ==> r == Err(InvalidMoveTokenCounter)
    ensures CountersPass(oldMoveToken, newMoveToken) && !StatedBalanceMatches(ProcessedLedger(ext, ledger, newMoveToken), newMoveToken)
            ==> r == Err(InvalidStatedBalance)
    ensures CountersPass(oldMoveToken, newMoveToken) && StatedBalanceMatches(ProcessedLedger(ext, ledger, newMoveToken), newMoveToken)
            ==> match ext.processOperationsList(ledger, newMoveToken.operations)
                case ProcessOk(outputs) => r == Ok(Received(ReceivedOf(outputs, newMoveToken)))
                case ProcessErr(e, _) => r == Err(InvalidTransaction(e))
  {
    if newMoveToken.inconsistencyCounter != oldMoveToken.inconsistencyCounter then Err(InvalidInconsistencyCounter)
    else if CheckedInc128(oldMoveToken.moveTokenCounter).None? then Err(MoveTokenCounterOverflow)
    else if newMoveToken.moveTokenCounter != CheckedInc128(oldMoveToken.moveTokenCounter).value then Err(InvalidMoveTokenCounter)
    else
      var outcome := ext.processOperationsList(ledger, newMoveToken.operations);
      var cloned := FunderTypes.ApplyMutations(ledger, AppliedMutations(outcome));
      if !StatedBalanceMatches(cloned, newMoveToken) then Err(InvalidStatedBalance)
      else match outcome
        case ProcessOk(outputs) =>
          Ok(Received(ReceivedOf(outputs, newMoveToken)))
        case ProcessErr(e, _) => Err(InvalidTransaction(e))
  }

  /** What `simulate_receive_move_token` returns. While incoming, the token
      already held is a duplicate and any other is a chain inconsistency.
      While outgoing, the signature is checked first. A signed token that
      continues ours goes to `outgoing_to_incoming`, one that precedes ours
      makes us retransmit our token, and any other is a chain inconsistency. */
  function ReceiveOutcome(ext: Externals, d: MoveTokenDirection, ledger: FunderTypes.TokenChannelState,
                          newMoveToken: FriendMoveToken)
    : (r: Result<ReceiveMoveTokenOutput, ReceiveMoveTokenError>)
    ensures d.Incoming? ==> (r.Ok? <==> newMoveToken == d.lastMoveToken)
    ensures r.Ok? && r.value.Duplicate? ==> d.Incoming?
    ensures d.Outgoing? && !ext.verifyMoveToken(newMoveToken, ledger.idents.remotePublicKey) ==> r == Err(InvalidSignature)
    ensures r.Ok? && !r.value.Duplicate? ==> d.Outgoing? && ext.verifyMoveToken(newMoveToken, ledger.idents.remotePublicKey)
    ensures r.Ok? && r.value.Received? ==> newMoveToken.oldToken == CurMoveToken(d).newToken
    ensures r.Ok? && r.value.RetransmitOutgoing? ==> r.value.moveToken == CurMoveToken(d)
    ensures d.Incoming? && newMoveToken != d.lastMoveToken ==> r == Err(ChainInconsistency)
    ensures d.Outgoing? && ext.verifyMoveToken(newMoveToken, ledger.idents.remotePublicKey) ==>
            if newMoveToken.oldToken == CurMoveToken(d).newToken
            then r == OutgoingToIncomingOutcome(ext, ledger, CurMoveToken(d), newMoveToken)
            else if CurMoveToken(d).oldToken == newMoveToken.newToken
            then r == Ok(RetransmitOutgoing(CurMoveToken(d)))
            else r == Err(ChainInconsistency)
  {
    match d
    case Incoming(last) =>
      if last == newMoveToken then Ok(Duplicate) else Err(ChainInconsistency)
    case Outgoing(o) =>
      if !ext.verifyMoveToken(newMoveToken, ledger.idents.remotePublicKey) then Err(InvalidSignature)
      else
        var ours := o.outgoingMoveTokenRequest.friendMoveToken;
        if newMoveToken.oldToken == CurMoveToken(d).newToken then OutgoingToIncomingOutcome(ext, ledger, ours, newMoveToken)
        else if ours.oldToken == newMoveToken.newToken then Ok(RetransmitOutgoing(ours))
        else Err(ChainInconsistency)
  }

  /** `process_operations_list` on a ledger object: the outcome is the one the
      processor reports, and the ledger ends with its mutations applied. */
  method ProcessOperationsList(ext: Externals, mutualCredit: FunderTypes.TokenChannel, operations: seq<FriendTcOp>)
    returns (outcome: ProcessOutcome)
    modifies mutualCredit
    ensures outcome == ext.processOperationsList(old(mutualCredit.state), operations)
    ensures mutualCredit.state == FunderTypes.ApplyMutations(old(mutualCredit.state), AppliedMutations(outcome))
  {
    outcome := ext.processOperationsList(mutualCredit.state, operations);
    var ms := AppliedMutations(outcome);
    ghost var initial := mutualCredit.state;
    for i := 0 to |ms|
      invariant mutualCredit.state == FunderTypes.ApplyMutations(initial, ms[..i])
    {
      assert ms[..i + 1][..i] == ms[..i];
      mutualCredit.Mutate(ms[i]);
    }
    assert ms[..|ms|] == ms;
  }

  // ---------------------------------------------------------------------
  // The token channel object

  class TokenChannel {
    var direction: MoveTokenDirection
    const mutualCredit: FunderTypes.TokenChannel

    /** `TokenChannel::new`: a zero balance, and the genesis direction. */
    constructor(ext: Externals, localPublicKey: PublicKey, remotePublicKey: PublicKey)
      ensures direction == GenesisDirection(ext, localPublicKey, remotePublicKey)
      ensures fresh(mutualCredit) && mutualCredit.state == FunderTypes.InitialState(localPublicKey, remotePublicKey, 0)
    {
      mutualCredit := new FunderTypes.TokenChannel(localPublicKey, remotePublicKey, 0);
      direction := GenesisDirection(ext, localPublicKey, remotePublicKey);
    }

    /** `new_from_remote_reset`: the friend's reset token is the last one received. */
    constructor FromRemoteReset(localPublicKey: PublicKey, remotePublicKey: PublicKey,
                                resetMoveToken: FriendMoveToken, balance: i128)
      requires balance != I128_MIN
      ensures direction == Incoming(resetMoveToken)
      ensures fresh(mutualCredit) && mutualCredit.state == FunderTypes.InitialState(localPublicKey, remotePublicKey, balance)
    {
      mutualCredit := new FunderTypes.TokenChannel(localPublicKey, remotePublicKey, balance);
      direction := Incoming(resetMoveToken);
    }

    /** `new_from_local_reset`: our reset token is outgoing, not yet wanted back. */
    constructor FromLocalReset(localPublicKey: PublicKey, remotePublicKey: PublicKey,
                               resetMoveToken: FriendMoveToken, balance: i128,
                               optLastIncomingMoveToken: Option<FriendMoveToken>)
      requires balance != I128_MIN
      ensures direction == Outgoing(OutgoingMoveToken(FriendMoveTokenRequest(resetMoveToken, false), optLastIncomingMoveToken))
      ensures fresh(mutualCredit) && mutualCredit.state == FunderTypes.InitialState(localPublicKey, remotePublicKey, balance)
    {
      mutualCredit := new FunderTypes.TokenChannel(localPublicKey, remotePublicKey, balance);
      direction := Outgoing(OutgoingMoveToken(FriendMoveTokenRequest(resetMoveToken, false), optLastIncomingMoveToken));
    }

    function IsOutgoing(): bool
      reads this
    {
      direction.Outgoing?
    }

    function GetCurMoveToken(): FriendMoveToken
      reads this
    {
      CurMoveToken(direction)
    }

    function GetLastIncomingMoveToken(): Option<FriendMoveToken>
      reads this
    {
      LastIncomingMoveToken(direction)
    }

    function RemoteMaxDebt(): u128
      reads mutualCredit
    {
      mutualCredit.state.balance.remoteMaxDebt
    }

    function GetInconsistencyCounter(): u64
      reads this
    {
      CurMoveToken(direction).inconsistencyCounter
    }

    function GetMoveTokenCounter(): u128
      reads this
    {
      CurMoveToken(direction).moveTokenCounter
    }

    function CreateFriendMoveToken(ext: Externals, operations: seq<FriendTcOp>, randNonce: RandValue): Option<FriendMoveToken>
      reads this, mutualCredit
    {
      CreatedMoveToken(ext, direction, mutualCredit.state, operations, randNonce)
    }

    function GetResetTerms(ext: Externals): ResetTerms
      reads this, mutualCredit
      requires FunderTypes.BalanceForResetFits(mutualCredit.state)
    {
      ResetTermsOf(ext, direction, mutualCredit.state)
    }

    function BeginOutgoingMoveToken(ext: Externals): Option<OutgoingMc>
      reads this, mutualCredit
    {
      OutgoingMcOf(ext, direction, mutualCredit.state)
    }

    function GetOutgoingMoveToken(): Option<FriendMoveTokenRequest>
      reads this
    {
      OutgoingMoveTokenRequestOf(direction)
    }

    method Mutate(m: TcMutation)
      requires Applicable(direction, m)
      modifies this, mutualCredit
      ensures (direction, mutualCredit.state) == ApplyTcMutation(old(direction), old(mutualCredit.state), m)
    {
      match m
      case McMutation(mc) =>
        mutualCredit.Mutate(mc);
      case SetDirection(SetIncoming(t)) =>
        direction := Incoming(t);
      case SetDirection(SetOutgoing(t)) =>
        direction := Outgoing(OutgoingMoveToken(FriendMoveTokenRequest(t, false), GetLastIncomingMoveToken()));
      case SetTokenWanted =>
        var o := direction.outgoing;
        direction := Outgoing(o.(outgoingMoveTokenRequest := o.outgoingMoveTokenRequest.(tokenWanted := true)));
    }

    /** `outgoing_to_incoming`: checks the counters, replays the operations on
        a clone of the ledger, checks the stated balances and collects the
        mutations to commit. Nothing existing is modified. */
    method OutgoingToIncoming(ext: Externals, oldMoveToken: FriendMoveToken, newMoveToken: FriendMoveToken)
      returns (r: Result<ReceiveMoveTokenOutput, ReceiveMoveTokenError>)
      ensures r == OutgoingToIncomingOutcome(ext, mutualCredit.state, oldMoveToken, newMoveToken)
    {
      if newMoveToken.inconsistencyCounter != oldMoveToken.inconsistencyCounter {
        return Err(InvalidInconsistencyCounter);
      }
      var expectedMoveTokenCounter := CheckedInc128(oldMoveToken.moveTokenCounter);
      if expectedMoveTokenCounter.None? {
        return Err(MoveTokenCounterOverflow);
      }
      if newMoveToken.moveTokenCounter != expectedMoveTokenCounter.value {
        return Err(InvalidMoveTokenCounter);
      }

      var cloned := mutualCredit.Clone();
      var res := ProcessOperationsList(ext, cloned, newMoveToken.operations);

      if cloned.state.balance.balance != newMoveToken.balance
         || cloned.state.balance.localPendingDebt != newMoveToken.localPendingDebt
         || cloned.state.balance.remotePendingDebt != newMoveToken.remotePendingDebt {
        return Err(InvalidStatedBalance);
      }

      match res
      case ProcessErr(e, _) =>
        return Err(InvalidTransaction(e));
      case ProcessOk(outputs) =>
        var incomingMessages: seq<IncomingMessage> := [];
        var mutations: seq<TcMutation> := [];
        for i := 0 to |outputs|
          invariant incomingMessages == IncomingMessagesOf(outputs[..i])
          invariant mutations == Wrap(RawMutationsOf(outputs[..i]))
        {
          var output := outputs[i];
          assert outputs[..i + 1][..i] == outputs[..i];
          if output.incomingMessage.Some? {
            incomingMessages := incomingMessages + [output.incomingMessage.value];
          }
          for j := 0 to |output.mcMutations|
            invariant mutations == Wrap(RawMutationsOf(outputs[..i]) + output.mcMutations[..j])
          {
            assert output.mcMutations[..j + 1] == output.mcMutations[..j] + [output.mcMutations[j]];
            mutations := mutations + [McMutation(output.mcMutations[j])];
          }
          assert output.mcMutations[..|output.mcMutations|] == output.mcMutations;
        }
        assert outputs[..|outputs|] == outputs;
        mutations := mutations + [SetDirection(SetIncoming(newMoveToken))];
        return Ok(Received(MoveTokenReceived(incomingMessages, mutations)));
    }

    /** `simulate_receive_move_token`: classifies a token from the friend
        without changing the channel. */
    method SimulateReceiveMoveToken(ext: Externals, newMoveToken: FriendMoveToken)
      returns (r: Result<ReceiveMoveTokenOutput, ReceiveMoveTokenError>)
      ensures r == ReceiveOutcome(ext, direction, mutualCredit.state, newMoveToken)
    {
      match direction
      case Incoming(friendMoveToken) =>
        if friendMoveToken == newMoveToken {
          return Ok(Duplicate);
        } else {
          return Err(ChainInconsistency);
        }
      case Outgoing(outgoingMoveToken) =>
        var remotePublicKey := mutualCredit.state.idents.remotePublicKey;
        if !ext.verifyMoveToken(newMoveToken, remotePublicKey) {
          return Err(InvalidSignature);
        }
        var friendMoveToken := outgoingMoveToken.outgoingMoveTokenRequest.friendMoveToken;
        if newMoveToken.oldToken == GetCurMoveToken().newToken {
          r := OutgoingToIncoming(ext, friendMoveToken, newMoveToken);
        } else if friendMoveToken.oldToken == newMoveToken.newToken {
          return Ok(RetransmitOutgoing(friendMoveToken));
        } else {
          return Err(ChainInconsistency);
        }
    }
  }

  // ---------------------------------------------------------------------
  // Properties of receiving

  /** While incoming, a token is accepted only as a duplicate of the last
      one, whatever the ledger and the externals. */
  lemma ReceiveWhileIncoming(ext: Externals, last: FriendMoveToken, ledger: FunderTypes.TokenChannelState,
                             newMoveToken: FriendMoveToken)
    ensures ReceiveOutcome(ext, Incoming(last), ledger, newMoveToken).Ok? <==> newMoveToken == last
    ensures ReceiveOutcome(ext, Incoming(last), ledger, newMoveToken).Ok? ==>
            ReceiveOutcome(ext, Incoming(last), ledger, newMoveToken).value == Duplicate
    ensures !ReceiveOutcome(ext, Incoming(last), ledger, newMoveToken).Ok? ==>
            ReceiveOutcome(ext, Incoming(last), ledger, newMoveToken).error == ChainInconsistency
  {
  }

  /** While outgoing, the signature is checked before anything else. */
  lemma ReceiveChecksSignatureFirst(ext: Externals, d: MoveTokenDirection, ledger: FunderTypes.TokenChannelState,
                                    newMoveToken: FriendMoveToken)
    requires d.Outgoing?
    ensures !ext.verifyMoveToken(newMoveToken, ledger.idents.remotePublicKey) <==>
            ReceiveOutcome(ext, d, ledger, newMoveToken) == Err(InvalidSignature)
  {
  }

  /** A token is received only if it is signed by the friend, continues the
      chain from our outgoing token with the same inconsistency counter and the
      next move token counter, the operations all process, and the balances it
      states are the ledger's after processing. The mutations to commit are the
      processing's ledger mutations followed by the new direction. */
  lemma ReceivedOnlyWhenValid(ext: Externals, d: MoveTokenDirection, ledger: FunderTypes.TokenChannelState,
                              newMoveToken: FriendMoveToken, received: MoveTokenReceived)
    requires ReceiveOutcome(ext, d, ledger, newMoveToken) == Ok(Received(received))
    ensures d.Outgoing?
    ensures ext.verifyMoveToken(newMoveToken, ledger.idents.remotePublicKey)
    ensures newMoveToken.oldToken == CurMoveToken(d).newToken
    ensures newMoveToken.inconsistencyCounter == CurMoveToken(d).inconsistencyCounter
    ensures newMoveToken.moveTokenCounter == CurMoveToken(d).moveTokenCounter + 1
    ensures ext.processOperationsList(ledger, newMoveToken.operations).ProcessOk?
    ensures var outputs := ext.processOperationsList(ledger, newMoveToken.operations).outputs;
            && StatedBalanceMatches(FunderTypes.ApplyMutations(ledger, RawMutationsOf(outputs)), newMoveToken)
            && received.incomingMessages == IncomingMessagesOf(outputs)
            && received.mutations == Wrap(RawMutationsOf(outputs)) + [SetDirection(SetIncoming(newMoveToken))]
  {
  }

  /** A transaction error is reported only after the counters passed and only
      when the balances the token states are those of the clone after the
      mutations applied before the failure. */
  lemma InvalidTransactionAfterBalanceCheck(ext: Externals, d: MoveTokenDirection, ledger: FunderTypes.TokenChannelState,
                                            newMoveToken: FriendMoveToken, e: ProcessTransListError)
    requires ReceiveOutcome(ext, d, ledger, newMoveToken) == Err(InvalidTransaction(e))
    ensures d.Outgoing? && newMoveToken.oldToken == CurMoveToken(d).newToken
    ensures newMoveToken.inconsistencyCounter == CurMoveToken(d).inconsistencyCounter
    ensures newMoveToken.moveTokenCounter == CurMoveToken(d).moveTokenCounter + 1
    ensures var outcome := ext.processOperationsList(ledger, newMoveToken.operations);
            && outcome.ProcessErr? && outcome.processError == e
            && StatedBalanceMatches(FunderTypes.ApplyMutations(ledger, outcome.appliedMutations), newMoveToken)
  {
  }

  /** Our token is retransmitted only when the friend's token is the one ours
      answered, that is, the friend has not seen ours yet. */
  lemma RetransmitOnlyWhenFriendBehind(ext: Externals, d: MoveTokenDirection, ledger: FunderTypes.TokenChannelState,
                                       newMoveToken: FriendMoveToken, t: FriendMoveToken)
    requires ReceiveOutcome(ext, d, ledger, newMoveToken) == Ok(RetransmitOutgoing(t))
    ensures d.Outgoing? && t == CurMoveToken(d)
    ensures ext.verifyMoveToken(newMoveToken, ledger.idents.remotePublicKey)
    ensures newMoveToken.newToken == t.oldToken && newMoveToken.oldToken != t.newToken
  {
  }

  /** While outgoing, a signed token that continues ours, with the next
      counters, operations that all apply and the stated balances of the
      processed ledger, is received. */
  lemma ReceivedWhenValid(ext: Externals, d: MoveTokenDirection, ledger: FunderTypes.TokenChannelState, t: FriendMoveToken)
    requires d.Outgoing? && ext.verifyMoveToken(t, ledger.idents.remotePublicKey)
    requires t.oldToken == CurMoveToken(d).newToken && CountersPass(CurMoveToken(d), t)
    requires ext.processOperationsList(ledger, t.operations).ProcessOk?
    requires StatedBalanceMatches(ProcessedLedger(ext, ledger, t), t)
    ensures ReceiveOutcome(ext, d, ledger, t)
         == Ok(Received(ReceivedOf(ext.processOperationsList(ledger, t.operations).outputs, t)))
  {
  }

  /** While outgoing, a signed token that does not continue ours but precedes
      it makes us retransmit our token. */
  lemma RetransmitWhenFriendBehind(ext: Externals, d: MoveTokenDirection, ledger: FunderTypes.TokenChannelState, t: FriendMoveToken)
    requires d.Outgoing? && ext.verifyMoveToken(t, ledger.idents.remotePublicKey)
    requires t.oldToken != CurMoveToken(d).newToken && CurMoveToken(d).oldToken == t.newToken
    ensures ReceiveOutcome(ext, d, ledger, t) == Ok(RetransmitOutgoing(CurMoveToken(d)))
  {
  }

  /** While outgoing, a signed token that neither continues nor precedes ours
      is a chain inconsistency. */
  lemma ChainInconsistencyWhenUnlinked(ext: Externals, d: MoveTokenDirection, ledger: FunderTypes.TokenChannelState, t: FriendMoveToken)
    requires d.Outgoing? && ext.verifyMoveToken(t, ledger.idents.remotePublicKey)
    requires t.oldToken != CurMoveToken(d).newToken && CurMoveToken(d).oldToken != t.newToken
    ensures ReceiveOutcome(ext, d, ledger, t) == Err(ChainInconsistency)
  {
  }

  /** A signed, linked token whose move counter is not ours plus one is
      rejected with `InvalidMoveTokenCounter`. */
  lemma InvalidCounterRejected(ext: Externals, d: MoveTokenDirection, ledger: FunderTypes.TokenChannelState, t: FriendMoveToken)
    requires d.Outgoing? && ext.verifyMoveToken(t, ledger.idents.remotePublicKey)
    requires t.oldToken == CurMoveToken(d).newToken
    requires t.inconsistencyCounter == CurMoveToken(d).inconsistencyCounter
    requires CurMoveToken(d).moveTokenCounter < U128_MAX && t.moveTokenCounter != CurMoveToken(d).moveTokenCounter + 1
    ensures ReceiveOutcome(ext, d, ledger, t) == Err(InvalidMoveTokenCounter)
  {
  }

  /** A signed, linked token with valid counters whose stated balances differ
      from the processed ledger's is rejected with `InvalidStatedBalance`,
      whether or not the processing failed. */
  lemma StatedBalanceMismatchRejected(ext: Externals, d: MoveTokenDirection, ledger: FunderTypes.TokenChannelState, t: FriendMoveToken)
    requires d.Outgoing? && ext.verifyMoveToken(t, ledger.idents.remotePublicKey)
    requires t.oldToken == CurMoveToken(d).newToken && CountersPass(CurMoveToken(d), t)
    requires !StatedBalanceMatches(ProcessedLedger(ext, ledger, t), t)
    ensures ReceiveOutcome(ext, d, ledger, t) == Err(InvalidStatedBalance)
  {
  }

  /** A signed, linked token with valid counters and matching balances whose
      operations fail is rejected with the processing's error. */
  lemma InvalidTransactionWhenProcessingFails(ext: Externals, d: MoveTokenDirection, ledger: FunderTypes.TokenChannelState,
                                              t: FriendMoveToken)
    requires d.Outgoing? && ext.verifyMoveToken(t, ledger.idents.remotePublicKey)
    requires t.oldToken == CurMoveToken(d).newToken && CountersPass(CurMoveToken(d), t)
    requires StatedBalanceMatches(ProcessedLedger(ext, ledger, t), t)
    requires ext.processOperationsList(ledger, t.operations).ProcessErr?
    ensures ReceiveOutcome(ext, d, ledger, t)
         == Err(InvalidTransaction(ext.processOperationsList(ledger, t.operations).processError))
  {
  }

  /** Committing ledger mutations wrapped as channel mutations, then more
      mutations, is committing them to the ledger first. */
  lemma {:induction false} ApplyWrapped(d: MoveTokenDirection, ledger: FunderTypes.TokenChannelState,
                                        ms: seq<FunderTypes.TcMutation>, rest: seq<TcMutation>)
    ensures ApplyTcMutations(d, ledger, Wrap(ms) + rest) == ApplyTcMutations(d, FunderTypes.ApplyMutations(ledger, ms), rest)
    decreases |ms|
  {
    if ms == [] {
      assert Wrap(ms) + rest == rest;
    } else {
      var l1 := FunderTypes.ApplyMutation(ledger, ms[0]);
      assert (Wrap(ms) + rest)[0] == McMutation(ms[0]);
      assert (Wrap(ms) + rest)[1..] == Wrap(ms[1..]) + rest;
      ApplyWrapped(d, l1, ms[1..], rest);
      FunderTypes.ApplyMutationsAppend(ledger, [ms[0]], ms[1..]);
      assert [ms[0]] + ms[1..] == ms;
      assert FunderTypes.ApplyMutations(ledger, [ms[0]]) == l1 by {
        assert [ms[0]][..0] == [];
      }
    }
  }

  /** Committing a received token's mutations leaves the channel incoming
      with the new token and the ledger in the state processing produced,
      whose balances are the ones the token states. */
  lemma CommitReceived(ext: Externals, d: MoveTokenDirection, ledger: FunderTypes.TokenChannelState,
                       newMoveToken: FriendMoveToken, received: MoveTokenReceived)
    requires ReceiveOutcome(ext, d, ledger, newMoveToken) == Ok(Received(received))
    ensures var outputs := ext.processOperationsList(ledger, newMoveToken.operations).outputs;
            ApplyTcMutations(d, ledger, received.mutations)
              == Some((Incoming(newMoveToken), FunderTypes.ApplyMutations(ledger, RawMutationsOf(outputs))))
    ensures var committed := ApplyTcMutations(d, ledger, received.mutations).value;
            && CurMoveToken(committed.0) == newMoveToken
            && StatedBalanceMatches(committed.1, newMoveToken)
  {
    ReceivedOnlyWhenValid(ext, d, ledger, newMoveToken, received);
    var outputs := ext.processOperationsList(ledger, newMoveToken.operations).outputs;
    var tail := [SetDirection(SetIncoming(newMoveToken))];
    ApplyWrapped(d, ledger, RawMutationsOf(outputs), tail);
    assert tail[1..] == [];
  }

  /** The next token created by the side holding our outgoing token passes
      the chain and counter checks on our side. */
  lemma CreatedTokenLinks(ext: Externals, ours: OutgoingMoveToken, ledger: FunderTypes.TokenChannelState,
                          friendLedger: FunderTypes.TokenChannelState, operations: seq<FriendTcOp>, randNonce: RandValue)
    requires ours.outgoingMoveTokenRequest.friendMoveToken.moveTokenCounter < U128_MAX
    requires var t := CreatedMoveToken(ext, Incoming(ours.outgoingMoveTokenRequest.friendMoveToken), friendLedger, operations, randNonce).value;
             ext.verifyMoveToken(t, ledger.idents.remotePublicKey)
    ensures var t := CreatedMoveToken(ext, Incoming(ours.outgoingMoveTokenRequest.friendMoveToken), friendLedger, operations, randNonce).value;
            var r := ReceiveOutcome(ext, Outgoing(ours), ledger, t);
            && r == OutgoingToIncomingOutcome(ext, ledger, ours.outgoingMoveTokenRequest.friendMoveToken, t)
            && r != Err(ChainInconsistency) && r != Err(InvalidSignature)
            && r != Err(InvalidInconsistencyCounter) && r != Err(MoveTokenCounterOverflow)
            && r != Err(InvalidMoveTokenCounter)
  {
  }

  // ---------------------------------------------------------------------
  // Properties of genesis

  /** With distinct key hashes exactly one side starts outgoing, both as
      written and corrected. */
  lemma GenesisOppositeDirections(ext: Externals, a: PublicKey, b: PublicKey)
    requires ext.sha512256(a) != ext.sha512256(b)
    ensures GenesisDirection(ext, a, b).Outgoing? != GenesisDirection(ext, b, a).Outgoing?
    ensures GenesisDirectionAsWritten(ext, a, b).Outgoing? != GenesisDirectionAsWritten(ext, b, a).Outgoing?
  {
    LexLessTotal(ext.sha512256(a), ext.sha512256(b));
    LexLessAsymmetric(ext.sha512256(a), ext.sha512256(b));
  }

  /** Corrected genesis: both sides hold the same genesis token. */
  lemma GenesisSharedToken(ext: Externals, a: PublicKey, b: PublicKey)
    requires ext.sha512256(a) != ext.sha512256(b)
    ensures CurMoveToken(GenesisDirection(ext, a, b)) == CurMoveToken(GenesisDirection(ext, b, a))
  {
    LexLessTotal(ext.sha512256(a), ext.sha512256(b));
    LexLessAsymmetric(ext.sha512256(a), ext.sha512256(b));
  }

  /** Corrected genesis: the second sender's first token passes the first
      sender's chain and counter checks. */
  lemma GenesisFirstMoveLinks(ext: Externals, a: PublicKey, b: PublicKey, ledgerA: FunderTypes.TokenChannelState,
                              ledgerB: FunderTypes.TokenChannelState, operations: seq<FriendTcOp>, randNonce: RandValue)
    requires HashLess(ext, a, b)
    requires CreatedMoveToken(ext, GenesisDirection(ext, b, a), ledgerB, operations, randNonce).Some?
    requires ext.verifyMoveToken(CreatedMoveToken(ext, GenesisDirection(ext, b, a), ledgerB, operations, randNonce).value,
                                 ledgerA.idents.remotePublicKey)
    ensures var t := CreatedMoveToken(ext, GenesisDirection(ext, b, a), ledgerB, operations, randNonce).value;
            var r := ReceiveOutcome(ext, GenesisDirection(ext, a, b), ledgerA, t);
            && t.oldToken == CurMoveToken(GenesisDirection(ext, a, b)).newToken
            && r != Err(ChainInconsistency) && r != Err(InvalidSignature)
            && r != Err(InvalidInconsistencyCounter) && r != Err(MoveTokenCounterOverflow)
            && r != Err(InvalidMoveTokenCounter)
  {
    LexLessAsymmetric(ext.sha512256(a), ext.sha512256(b));
    var d := GenesisDirection(ext, a, b);
    assert GenesisDirection(ext, b, a) == Incoming(d.outgoing.outgoingMoveTokenRequest.friendMoveToken);
    CreatedTokenLinks(ext, d.outgoing, ledgerA, ledgerB, operations, randNonce);
  }

  /** Genesis as written: the two sides hold different genesis tokens, and the
      second sender's first token never links to the first sender's, so it is
      never received. */
  lemma GenesisAsWrittenBreaksChain(ext: Externals, a: PublicKey, b: PublicKey, ledgerA: FunderTypes.TokenChannelState,
                                    ledgerB: FunderTypes.TokenChannelState, operations: seq<FriendTcOp>, randNonce: RandValue)
    requires HashLess(ext, a, b) && a != b
    ensures CurMoveToken(GenesisDirectionAsWritten(ext, a, b)) != CurMoveToken(GenesisDirectionAsWritten(ext, b, a))
    ensures CreatedMoveToken(ext, GenesisDirectionAsWritten(ext, b, a), ledgerB, operations, randNonce).Some?
    ensures var t := CreatedMoveToken(ext, GenesisDirectionAsWritten(ext, b, a), ledgerB, operations, randNonce).value;
            var r := ReceiveOutcome(ext, GenesisDirectionAsWritten(ext, a, b), ledgerA, t);
            && t.oldToken != CurMoveToken(GenesisDirectionAsWritten(ext, a, b)).newToken
            && !(r.Ok? && r.value.Received?)
  {
    LexLessAsymmetric(ext.sha512256(a), ext.sha512256(b));
    TokenFromPublicKeyInjective(a, b);
  }

  // ---------------------------------------------------------------------
  // Properties of reset terms

  /** The signed reset buffer determines the token and the balance it resets to. */
  lemma ResetTokenBufferInjective(ext: Externals, t1: Signature, b1: i128, t2: Signature, b2: i128)
    requires ResetTokenBuffer(ext, t1, b1) == ResetTokenBuffer(ext, t2, b2)
    ensures t1 == t2 && b1 == b2
  {
    var buf := ResetTokenBuffer(ext, t1, b1);
    assert FunderTypes.I128AsU128(b1) == FunderTypes.I128AsU128(b2);
  }
}
