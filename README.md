# Offst token channel, mutual credit and credit calculator in Dafny

This project models the core of the Offst credit network. Two friends keep a
mutual credit line and pass a signed, hash-chained *move token* back and forth.
Whoever holds the token may append a batch of operations to the chain. The project has five parts:

- **The token channel** (`token_channel.dfy`, module `FunderTokenChannel`).
  It is a class whose direction is a datatype: `Incoming` (waiting for the
  friend's token) or `Outgoing` (our token sent, kept for retransmission). It
  covers genesis, the two reset constructors, creating the next move token and
  reset terms, the mutation log, and classifying a received token. A received
  token is a duplicate, a retransmission request, a valid continuation with the
  mutations to commit, or one of seven errors.
- **The mutual-credit ledger** (`funder_types.dfy`, module `FunderTypes`). It
  holds the balance, the two debt limits and the two pending debts, the pending
  request maps and the request status of each side. The eleven mutations are
  modelled both as a value-level function and as a class whose `Mutate`
  dispatches to one setter per field.
- **The credit calculator** (`credit_calc.dfy`, module `CreditCalc`). It
  computes the lengths of request, response and failure messages. It computes
  the credits paid to the destination, to a middle node on success and on
  failure, and the amount to freeze. It also covers the calculator bound to one
  route.
- **Transactional pending requests** (`pending_requests.dfy`, module
  `PendingRequests`). Staged inserts and removals over the local and remote
  maps can be cancelled.
- **The canonical serialiser** (`canonical_serialize.dfy`, module
  `CanonicalSerialize`). It writes `u32` values, options (a tag byte) and
  vectors (an 8-byte big-endian count) in one fixed byte layout. A reference
  decoder proves that this layout can be parsed back unambiguously.

Supporting modules:

- `wrappers.dfy`: `Option` and `Result`, with `:-` standing for Rust's `?`.
- `machine_ints.dfy`: the Rust integer widths and their checked and wrapping
  operations.
- `identity.dfy`: the fixed sizes of keys, signatures, ids, nonces and hashes.

The loops of the source are methods proved against closed-form
definitions. For example, `CreditsOnSuccess` returns exactly `SuccessOutcome`,
which is `Some` of an integer formula when every checked step fits, else
`None`. The properties the source's tests check are then lemmas. They cover
linearity in the fee, the exact effects of the response length on a payment,
the freeze amount as a bound, and success covering failure.

On the token channel the lemmas cover several facts:

- what a receive can accept;
- that committing a received token's mutations reproduces the ledger the
  checks ran on;
- how both sides start at genesis.

Points of the source that are easy to misread:

- `mutate` and its setters (src/funder/token_channel/types.rs:157-233) write
  the new values unchecked, and so does `ApplyMutation`.
- `create_friend_move_token` does not change the direction. The caller applies
  `SetDirection(SetOutgoing(..))`.
- The move token counter wraps in `create_friend_move_token` (`wrapping_add`),
  but `outgoing_to_incoming` rejects overflow with `MoveTokenCounterOverflow`
  (components/funder/src/token_channel.rs:334-336). Both behaviours are
  modelled.
- The two sides' genesis tokens differ; see Findings.

## Model

| member | source | states |
|---|---|---|
| CanonicalSerialize.SerializeU32 | components/common/src/canonical_serialize.rs:45-51 | four big-endian bytes whose value read back is `x` |
| CanonicalSerialize.SerializeOption | components/common/src/canonical_serialize.rs:11-27 | `[0]` for an absent value, `[1]` followed by the value's encoding for a present one |
| CanonicalSerialize.SerializeVec | components/common/src/canonical_serialize.rs:29-42 | an 8-byte big-endian count equal to the number of items, then the items' encodings concatenated in order; total length 8 plus their lengths |
| CanonicalSerialize.Serialize | components/common/src/canonical_serialize.rs:7-9 | the serialisation of any well-formed value is its canonical encoding |
| CanonicalSerialize.BigEndianRoundTrip | components/common/src/canonical_serialize.rs:35 | a number written big-endian in a fixed width reads back as the same number |
| CanonicalSerialize.DecodeEncoding | components/common/src/canonical_serialize.rs:4-6 | the encoding is canonical: decoding a value's encoding followed by any bytes gives back exactly that value and the encoding's length, so distinct values of one shape never share an encoding or a prefix |
| CanonicalSerialize.DecodeEncodingVec | components/common/src/canonical_serialize.rs:29-42 | a vector's count prefix and item encodings decode back to the vector |
| CanonicalSerialize.DecodeItemsEncoding | components/common/src/canonical_serialize.rs:37-39 | any suffix of the concatenated item encodings decodes back to those items |
| CanonicalSerialize.DecodeEncodingU32 | components/common/src/canonical_serialize.rs:45-51 | a `u32` encoding decodes back to the number and consumes 4 bytes |
| CanonicalSerialize.DecodeEncodingOpt | components/common/src/canonical_serialize.rs:11-27 | an `Option` encoding decodes back to the option, tag byte included |
| CanonicalSerialize.DecodeItemsCons | components/common/src/canonical_serialize.rs:37-39 | items written one after another decode one after another: the first item, then the rest from the bytes that follow it |
| CanonicalSerialize.EncodeItemsCons | components/common/src/canonical_serialize.rs:37-39 | the item bytes from position `k` on are item `k`'s encoding followed by those of the later items |
| CanonicalSerialize.BigEndianU32 | components/common/src/canonical_serialize.rs:48 | the 4-byte big-endian form of a `u32` is its four bytes, most significant first |
| CanonicalSerialize.ReadU32Bytes | components/common/src/canonical_serialize.rs:48 | the four bytes `write_u32::<BigEndian>` writes read back as the number, whatever follows them |
| CanonicalSerialize.ReadU64Bytes | components/common/src/canonical_serialize.rs:35 | the eight bytes `write_u64::<BigEndian>` writes read back as the number, whatever follows them |
| CanonicalSerialize.FromBigEndianU64Bytes | components/common/src/canonical_serialize.rs:35 | the eight length bytes are the length in big-endian order |
| CanonicalSerialize.U64BytesBigEndian | components/common/src/canonical_serialize.rs:35 | the eight length bytes (high half, then low half) equal the 8-byte big-endian form of the length |
| CanonicalSerialize.FromBigEndianConcat | components/common/src/canonical_serialize.rs:35 | a big-endian string followed by another reads as the first shifted by the second's width plus the second |
| CanonicalSerialize.FromBigEndianInjective | components/common/src/canonical_serialize.rs:35 | two big-endian strings of one width that read as the same number are the same bytes |
| CreditCalc.NetworkerSendPrice.CalcCost | src/legacy/networker/messenger/credit_calc.rs:177-179 | a price's cost for `len` bytes is `base + multiplier * len` and never overflows u64 |
| CreditCalc.CalcRequestLen | src/legacy/networker/messenger/credit_calc.rs:29-53 | `Some` of the request length formula exactly when the route has at least 2 nodes, `nodes_to_dest <= route_len` and the length fits u32; otherwise `None` |
| CreditCalc.CalcResponseLen | src/legacy/networker/messenger/credit_calc.rs:55-61 | `Some(104 + content_len)` exactly when it fits u32 |
| CreditCalc.CalcFailureLen | src/legacy/networker/messenger/credit_calc.rs:73-81 | `Some(18 + 80 * nodes_to_reporting)` exactly when it fits u32 |
| CreditCalc.DestCredits | src/legacy/networker/messenger/credit_calc.rs:95-120 | the destination's payment is non-negative whenever the response is no longer than the maximum |
| CreditCalc.CreditsOnSuccessDest | src/legacy/networker/messenger/credit_calc.rs:95-120 | fee + destination cost of the maximal response + unused response length times the sum of the middle response multipliers; `None` for a response longer than the maximum or on overflow |
| CreditCalc.HopCreditsEarned | src/legacy/networker/messenger/credit_calc.rs:166-180 | one middle node's payment: request cost plus response cost over response and longest failure, `None` exactly when a checked step overflows |
| CreditCalc.CreditsOnSuccess | src/legacy/networker/messenger/credit_calc.rs:142-185 | the destination payment plus the payments of the last `nodes_to_dest` middle nodes, `None` exactly when any checked step overflows or `nodes_to_dest` exceeds the middle nodes |
| CreditCalc.HopsStep | src/legacy/networker/messenger/credit_calc.rs:164-181 | one more fitting middle node extends the fitting range and adds exactly its payment to the running sum |
| CreditCalc.SuccessOutcomeOfSum | src/legacy/networker/messenger/credit_calc.rs:150-184 | once the destination part and every node fit, the outcome is the running sum |
| CreditCalc.SuccessOutcomeUnfit | src/legacy/networker/messenger/credit_calc.rs:166-178 | a node whose lengths or payment overflow makes the whole success payment `None` |
| CreditCalc.SuccessOutcomeOverflow | src/legacy/networker/messenger/credit_calc.rs:180 | an overflow of the running sum makes the whole success payment `None` |
| CreditCalc.CreditsToFreeze | src/legacy/networker/messenger/credit_calc.rs:267-281 | the success payment for an empty response |
| CreditCalc.FailureHopCreditsEarned | src/legacy/networker/messenger/credit_calc.rs:232-240 | one non-reporting node's payment for a failure: request cost plus cost of the failure message from the reporting node |
| CreditCalc.CreditsOnFailure | src/legacy/networker/messenger/credit_calc.rs:213-251 | the payments of the nodes between this one and the reporting node, plus the reporting node's own failure cost; `None` exactly on underflow of the indices or overflow |
| CreditCalc.FailureHopsStep | src/legacy/networker/messenger/credit_calc.rs:229-240 | one more fitting non-reporting node extends the fitting range and adds exactly its payment to the running sum |
| CreditCalc.FailureOutcomeOfSum | src/legacy/networker/messenger/credit_calc.rs:242-250 | once every node fits, the outcome is the running sum plus the reporting node's payment, `None` exactly when that addition overflows |
| CreditCalc.FailureOutcomeUnfit | src/legacy/networker/messenger/credit_calc.rs:230-237 | a node whose lengths or payment overflow makes the whole failure payment `None` |
| CreditCalc.FailureOutcomeOverflow | src/legacy/networker/messenger/credit_calc.rs:239 | an overflow of the running sum makes the whole failure payment `None` |
| CreditCalc.SuccessAtDestIsDestCredits | src/legacy/networker/messenger/credit_calc.rs:544-561 | with `nodes_to_dest = 0` the success payment equals the destination payment |
| CreditCalc.DestCreditsAffineInFee | src/legacy/networker/messenger/credit_calc.rs:565-600 | the destination payment is the processing fee plus a part independent of the fee |
| CreditCalc.HopCreditsResponseShift | src/legacy/networker/messenger/credit_calc.rs:616-696 | one more response byte raises a middle node's payment by exactly its response multiplier |
| CreditCalc.HopsResponseShift | src/legacy/networker/messenger/credit_calc.rs:616-696 | the middle nodes' payments grow with the response length by exactly the sum of their response multipliers per byte |
| CreditCalc.SuccessCreditsResponseShift | src/legacy/networker/messenger/credit_calc.rs:616-720 | the success payment falls, per extra response byte, by exactly the response multipliers of the middle nodes before this node |
| CreditCalc.SuccessNonIncreasingInResponseLen | src/legacy/networker/messenger/credit_calc.rs:697-720 | a longer response never raises a node's success payment |
| CreditCalc.SuccessAtSourceIndependentOfResponseLen | src/legacy/networker/messenger/credit_calc.rs:723-745 | for the first node after the source the success payment does not depend on the response length |
| CreditCalc.SuccessCreditsRequestShift | src/legacy/networker/messenger/credit_calc.rs:638-653 | the success payment is linear in the request length: each extra byte adds exactly the request multipliers of the nodes from this one to the destination |
| CreditCalc.SuccessNonDecreasingInRequestLen | src/legacy/networker/messenger/credit_calc.rs:638-653 | a longer request never lowers a node's success payment |
| CreditCalc.SuccessCreditsMaxResponseShift | src/legacy/networker/messenger/credit_calc.rs:674-690 | the success payment is linear in the maximal response length: each extra byte adds exactly the destination's response multiplier plus the response multipliers of all middle nodes |
| CreditCalc.SuccessNoHopsOnShortRoute | src/legacy/networker/messenger/credit_calc.rs:29-53 | with fewer than two middle nodes only the destination can be paid on success |
| CreditCalc.FreezeBoundsSuccess | src/legacy/networker/messenger/credit_calc.rs:804-832 | the amount frozen is at least every success payment for the same node |
| CreditCalc.FailureAtReportingNode | src/legacy/networker/messenger/credit_calc.rs:780-800 | with no nodes before the reporting node, the failure payment is the reporting node's response cost of a zero-hop failure |
| CreditCalc.SuccessHopCoversFailureHop | src/legacy/networker/messenger/credit_calc.rs:749-776 | a middle node earns at least as much for a response as for a failure through it |
| CreditCalc.ReportingCoveredBySuccessHop | src/legacy/networker/messenger/credit_calc.rs:749-776 | the reporting node's payment is at most its success payment |
| CreditCalc.HopsCoverFailureHops | src/legacy/networker/messenger/credit_calc.rs:749-776 | summed over a range of nodes, failure payments are at most success payments |
| CreditCalc.SuccessCoversFailure | src/legacy/networker/messenger/credit_calc.rs:749-776 | a node earns at least as much for passing back a response as for passing back a failure reported further along |
| CreditCalc.NewCreditCalculator | src/legacy/networker/messenger/credit_calc.rs:294-320 | `Some` exactly when the route length (links plus 2) fits u32; the proposals are the links' proposals in order, and the other fields are the arguments |
| CreditCalc.FreezeIndexToNodesToDest | src/legacy/networker/messenger/credit_calc.rs:335-338 | `Some` exactly for an index on the route, and index plus nodes to destination plus 1 is the route length |
| CreditCalc.CalculatorCreditsToFreeze | src/legacy/networker/messenger/credit_calc.rs:343-350 | `None` off the route, otherwise the freeze amount for that node |
| CreditCalc.CalculatorCreditsOnSuccess | src/legacy/networker/messenger/credit_calc.rs:355-363 | `None` off the route, otherwise the success payment for that node |
| CreditCalc.CalculatorCreditsOnFailure | src/legacy/networker/messenger/credit_calc.rs:368-374 | `None` for a reporting index before the node or off the route, otherwise the failure payment for that pair |
| CreditCalc.CalculatorSuccessCoversFailure | src/legacy/networker/messenger/credit_calc.rs:749-776 | for one node, the response payment is at least the payment for any failure reported further along the route |
| FunderTypes.TcBalanceNewAsWritten | src/funder/token_channel/types.rs:53-61 | as written: the local debt limit is 0 for a non-positive balance and `2^128 - balance` for a positive one |
| FunderTypes.TcBalanceNewAsWrittenBreaksLimits | src/funder/token_channel/types.rs:57 | as written, balance -1 starts beyond its local limit of 0, and balance 1 gets a local limit of `u128::MAX` |
| FunderTypes.TcBalanceNew | src/funder/token_channel/types.rs:53-61 | corrected: the limits are `max(balance, 0)` and `max(-balance, 0)`, no pending debts, and the balance lies within both limits |
| FunderTypes.TcPendingRequestsNew | src/funder/token_channel/types.rs:73-78 | no request is pending on either side |
| FunderTypes.TcRequestsStatusNew | src/funder/token_channel/types.rs:90-95 | both sides start closed for requests |
| FunderTypes.InitialState | src/funder/token_channel/types.rs:128-143 | the state holds the two keys and the given balance within its corrected limits, with nothing frozen, nothing pending, both sides closed, and a reset balance that fits in i128 |
| FunderTypes.ApplyMutationsAppend | src/funder/token_channel/types.rs:157-182 | applying two mutation logs in turn is applying their concatenation |
| FunderTypes.ApplyMutation | src/funder/token_channel/types.rs:157-182 | a mutation writes its target field and no other, and never the identities |
| FunderTypes.ApplyMutations | src/funder/token_channel/types.rs:157-182 | a mutation log keeps the identities and every field that none of its mutations targets |
| FunderTypes.FieldsDetermineState | src/funder/token_channel/types.rs:100-105 | two states with equal fields are equal |
| FunderTypes.InsertPendingRequest | src/funder/token_channel/types.rs:204-224 | inserting a pending request maps its id to it and keeps every other id |
| FunderTypes.RemovePendingRequest | src/funder/token_channel/types.rs:204-224 | removing an id drops only that id; removing an absent id changes nothing |
| FunderTypes.TokenChannel.constructor | src/funder/token_channel/types.rs:128-143 | the new state holds both keys, the initial balance with `TcBalanceNew`'s corrected limits, empty pending maps and closed request status |
| FunderTypes.TokenChannel.BalanceForReset | src/funder/token_channel/types.rs:147-151 | the balance plus the remote pending debt, never below the balance |
| FunderTypes.TokenChannel.Clone | src/funder/token_channel/types.rs:107-110 | a fresh ledger object with the same state |
| FunderTypes.TokenChannel.Mutate | src/funder/token_channel/types.rs:157-182 | the new state is the mutation applied to the old one |
| FunderTypes.TokenChannel.SetLocalRequestsStatusField | src/funder/token_channel/types.rs:184-186 | only the local request status changes |
| FunderTypes.TokenChannel.SetRemoteRequestsStatusField | src/funder/token_channel/types.rs:188-190 | only the remote request status changes |
| FunderTypes.TokenChannel.SetRemoteMaxDebtField | src/funder/token_channel/types.rs:192-194 | only the remote debt limit changes |
| FunderTypes.TokenChannel.SetLocalMaxDebtField | src/funder/token_channel/types.rs:196-198 | only the local debt limit changes |
| FunderTypes.TokenChannel.SetBalanceField | src/funder/token_channel/types.rs:200-202 | only the balance changes |
| FunderTypes.TokenChannel.InsertRemotePendingRequestEntry | src/funder/token_channel/types.rs:204-208 | only the remote pending map changes, gaining the request under its id |
| FunderTypes.TokenChannel.RemoveRemotePendingRequestEntry | src/funder/token_channel/types.rs:210-213 | only the remote pending map changes, losing the id |
| FunderTypes.TokenChannel.InsertLocalPendingRequestEntry | src/funder/token_channel/types.rs:215-219 | only the local pending map changes, gaining the request under its id |
| FunderTypes.TokenChannel.RemoveLocalPendingRequestEntry | src/funder/token_channel/types.rs:221-224 | only the local pending map changes, losing the id |
| FunderTypes.TokenChannel.SetRemotePendingDebtField | src/funder/token_channel/types.rs:226-229 | only the remote pending debt changes |
| FunderTypes.TokenChannel.SetLocalPendingDebtField | src/funder/token_channel/types.rs:231-233 | only the local pending debt changes |
| PendingRequests.TransHashMapMut.constructor | src/networker/messenger/pending_requests.rs:25-26 | the staged map and the saved original both start as the owner's map |
| PendingRequests.TransHashMapMut.Insert | src/networker/messenger/pending_requests.rs:41 | the key maps to the value in the staged map; the previous value is returned |
| PendingRequests.TransHashMapMut.Remove | src/networker/messenger/pending_requests.rs:47 | the key leaves the staged map; the removed value is returned |
| PendingRequests.TransHashMapMut.Cancel | src/networker/messenger/pending_requests.rs:32-33 | cancelling yields the original map |
| PendingRequests.PendingRequests.constructor | src/networker/messenger/pending_requests.rs:11-14 | the two maps hold the given requests |
| PendingRequests.TransPendingRequests.constructor | src/networker/messenger/pending_requests.rs:23-28 | two separate transactions, each starting from the owner's map |
| PendingRequests.TransPendingRequests.Cancel | src/networker/messenger/pending_requests.rs:30-34 | the owner's maps are restored to the originals, which are the maps before the transaction |
| PendingRequests.TransPendingRequests.AddPendingRemoteRequest | src/networker/messenger/pending_requests.rs:37-44 | added exactly when the id is not yet staged; then the request is staged under its id, else nothing changes; the local map is untouched |
| PendingRequests.TransPendingRequests.RemoveLocalPendingRequest | src/networker/messenger/pending_requests.rs:46-48 | returns the staged request for the id if any; afterwards the id is absent and nothing else changed |
| FunderTokenChannel.LexLessAsymmetric | components/funder/src/token_channel.rs:148 | no two hashes are each less than the other |
| FunderTokenChannel.LexLessTotal | components/funder/src/token_channel.rs:148 | of two distinct hashes one is less than the other |
| FunderTokenChannel.LexLessTransitive | components/funder/src/token_channel.rs:148 | the hash order is transitive |
| FunderTokenChannel.TokenFromPublicKey | components/funder/src/token_channel.rs:109-113 | the key followed by zero bytes up to the signature length |
| FunderTokenChannel.TokenFromPublicKeyInjective | components/funder/src/token_channel.rs:109-113 | distinct keys give distinct placeholder tokens |
| FunderTokenChannel.GenesisMoveToken | components/funder/src/token_channel.rs:136-146 | the genesis token has no operations, zero counters and balances, and links the first key's placeholder token to the second's, which differ for distinct keys |
| FunderTokenChannel.GenesisDirectionAsWritten | components/funder/src/token_channel.rs:136-168 | as written: outgoing exactly when our key hash is the lower one, with the token built from our key first on both sides, not wanted back and with no previous incoming token |
| FunderTokenChannel.GenesisDirection | components/funder/src/token_channel.rs:136-168 | corrected: outgoing exactly when our key hash is the lower one; the token is built from the first sender's key first, and starts not wanted back with no previous incoming token |
| FunderTokenChannel.OutgoingMoveTokenRequestOf | components/funder/src/token_channel.rs:433-440 | `None` exactly while incoming; otherwise the request for the current token |
| FunderTokenChannel.OutgoingMcOf | components/funder/src/token_channel.rs:422-428 | a batch starts exactly while incoming, on the current ledger with the batch limit |
| FunderTokenChannel.CreatedMoveToken | components/funder/src/token_channel.rs:202-222 | `None` exactly while outgoing; otherwise continues from the last received token (its new token, same inconsistency counter, counter plus one wrapping at 2^128) and states the ledger's balance and pending debts |
| FunderTokenChannel.ResetTokenBuffer | components/funder/src/token_channel.rs:90-99 | 112 bytes: the hash of "RESET", the current new token, then the balance for reset as 16 big-endian two's-complement bytes |
| FunderTokenChannel.ResetTermsOf | components/funder/src/token_channel.rs:268-282 | inconsistency counter plus one wrapping at 2^64, balance plus remote pending debt, and the signature of the reset buffer over these |
| FunderTokenChannel.ResetTokenBufferInjective | components/funder/src/token_channel.rs:90-99 | the signed reset buffer determines both the token and the balance for reset |
| FunderTokenChannel.ApplyTcMutation | components/funder/src/token_channel.rs:291-321 | a ledger mutation changes only the ledger; setting the direction stores the given token (outgoing: not wanted back, keeping the last incoming token); `SetTokenWanted` only raises the flag; the identities never change |
| FunderTokenChannel.ApplyTcMutations | components/funder/src/token_channel.rs:291-321 | a log with no `SetTokenWanted` always applies, and an applied log keeps the identities |
| FunderTokenChannel.SetOutgoingKeepsLastIncoming | components/funder/src/token_channel.rs:299-309 | setting the outgoing direction stores the token as not wanted back, keeps the last received token and leaves the ledger alone |
| FunderTokenChannel.SetTokenWantedOnlySetsFlag | components/funder/src/token_channel.rs:312-319 | `SetTokenWanted` sets the flag and changes nothing else |
| FunderTokenChannel.McMutationKeepsDirection | components/funder/src/token_channel.rs:293-295 | a ledger mutation leaves the direction alone |
| FunderTokenChannel.ProcessOperationsList | components/funder/src/token_channel.rs:342-344 | the ledger object ends with the mutations the processing reports applied in order |
| FunderTokenChannel.TokenChannel.constructor | components/funder/src/token_channel.rs:124-169 | corrected genesis: a fresh zero-balance ledger; outgoing with the shared genesis token exactly when our key's hash is lower |
| FunderTokenChannel.TokenChannel.FromRemoteReset | components/funder/src/token_channel.rs:171-180 | incoming with the friend's reset token, on a fresh ledger at the reset balance |
| FunderTokenChannel.TokenChannel.FromLocalReset | components/funder/src/token_channel.rs:182-200 | outgoing with our reset token, not wanted back, keeping the given last received token, on a fresh ledger at the reset balance |
| FunderTokenChannel.TokenChannel.Mutate | components/funder/src/token_channel.rs:291-321 | the new direction and ledger are the mutation applied to the old ones |
| FunderTokenChannel.TokenChannel.OutgoingToIncoming | components/funder/src/token_channel.rs:324-380 | the counters are checked, then the operations are replayed on a clone and the stated balances checked; the result is exactly `OutgoingToIncomingOutcome` |
| FunderTokenChannel.TokenChannel.SimulateReceiveMoveToken | components/funder/src/token_channel.rs:384-420 | the result is exactly `ReceiveOutcome`: a duplicate check while incoming; while outgoing a signature check, then the chain link, retransmission or inconsistency |
| FunderTokenChannel.OutgoingToIncomingOutcome | components/funder/src/token_channel.rs:324-380 | the checks in the source's order, each as a sufficient condition: a changed inconsistency counter gives `InvalidInconsistencyCounter`, a move counter at `u128::MAX` gives `MoveTokenCounterOverflow`, any other counter than ours plus one gives `InvalidMoveTokenCounter`, stated balances that differ from the processed clone give `InvalidStatedBalance`, and then a failed processing gives `InvalidTransaction(e)` while a successful one gives `Received` with the messages, the processing's mutations and the turn to incoming; conversely a success implies every check passed |
| FunderTokenChannel.ReceiveOutcome | components/funder/src/token_channel.rs:384-420 | while incoming, `Duplicate` exactly for the token held and `ChainInconsistency` otherwise; while outgoing, an unsigned token gives `InvalidSignature`, a signed token that continues ours gets the result of `outgoing_to_incoming`, one that precedes ours gets `RetransmitOutgoing(ours)`, and any other gets `ChainInconsistency` |
| FunderTokenChannel.ReceiveWhileIncoming | components/funder/src/token_channel.rs:387-396 | while incoming, a token is accepted exactly when it equals the last one, as `Duplicate`; otherwise `ChainInconsistency` |
| FunderTokenChannel.ReceiveChecksSignatureFirst | components/funder/src/token_channel.rs:398-406 | while outgoing, the result is `InvalidSignature` exactly when the friend's signature does not verify |
| FunderTokenChannel.ReceivedOnlyWhenValid | components/funder/src/token_channel.rs:324-380 | a token is received only if signed by the friend, chained to ours, with the same inconsistency counter and the next move counter, all operations processed, and the stated balances equal to the ledger after processing; the mutations are those of the processing then the new direction; `ReceivedWhenValid` is the converse |
| FunderTokenChannel.InvalidTransactionAfterBalanceCheck | components/funder/src/token_channel.rs:342-379 | a transaction error comes only after the counters passed and when the stated balances match the partly processed clone |
| FunderTokenChannel.RetransmitOnlyWhenFriendBehind | components/funder/src/token_channel.rs:411-414 | our token is retransmitted only when the friend's token is the one ours answered; `RetransmitWhenFriendBehind` is the converse |
| FunderTokenChannel.ReceivedWhenValid | components/funder/src/token_channel.rs:324-411 | conversely: while outgoing, a signed token that continues ours, with the next counters, operations that all apply and the stated balances of the processed ledger, is received with the processing's messages and mutations followed by the turn to incoming |
| FunderTokenChannel.RetransmitWhenFriendBehind | components/funder/src/token_channel.rs:412-414 | conversely: a signed token that does not continue ours but whose new token is our old token gets `RetransmitOutgoing(ours)` |
| FunderTokenChannel.ChainInconsistencyWhenUnlinked | components/funder/src/token_channel.rs:410-417 | a signed token that neither continues nor precedes ours gets `ChainInconsistency` |
| FunderTokenChannel.InvalidCounterRejected | components/funder/src/token_channel.rs:334-340 | a signed, linked token with our inconsistency counter but a move counter other than ours plus one gets `InvalidMoveTokenCounter` |
| FunderTokenChannel.StatedBalanceMismatchRejected | components/funder/src/token_channel.rs:342-351 | a signed, linked token with valid counters whose stated balances differ from the processed clone gets `InvalidStatedBalance`, whether or not processing failed |
| FunderTokenChannel.InvalidTransactionWhenProcessingFails | components/funder/src/token_channel.rs:342-378 | a signed, linked token with valid counters and matching balances whose processing fails gets `InvalidTransaction` with the processing's error |
| FunderTokenChannel.ApplyWrapped | components/funder/src/token_channel.rs:360-371 | ledger mutations wrapped for the channel act on the ledger in order |
| FunderTokenChannel.CommitReceived | components/funder/src/token_channel.rs:357-375 | committing a received token's mutations leaves the channel incoming with the new token and the ledger in the clone's state, whose balances are the stated ones |
| FunderTokenChannel.CreatedTokenLinks | components/funder/src/token_channel.rs:202-222 | the next token made by the side holding our token passes our signature-independent chain and counter checks |
| FunderTokenChannel.GenesisOppositeDirections | components/funder/src/token_channel.rs:148-168 | with distinct key hashes exactly one side starts outgoing |
| FunderTokenChannel.GenesisSharedToken | components/funder/src/token_channel.rs:136-168 | corrected genesis: both sides hold the same token |
| FunderTokenChannel.GenesisFirstMoveLinks | components/funder/src/token_channel.rs:136-168 | corrected genesis: the second sender's first token chains to the first sender's and passes the counter checks |
| FunderTokenChannel.GenesisAsWrittenBreaksChain | components/funder/src/token_channel.rs:136-168 | as written, the sides hold different tokens and the second sender's first token is never received |

## Left out

- Hashing, signing and verifying are passed in as an `Externals` value. These
  are `sha_512_256`, `FriendMoveToken::new`'s signature through the identity
  client, `verify`, and `request_signature`. Their algorithms are not part of
  this model.
- The signature of a move token covers a `MoveTokenDraft` value. The byte
  layout of that signed buffer is not modelled.
- `process_operations_list` and `MutualCredit` (crate::mutual_credit) are not
  part of this model. Processing is an `Externals` function that reports its
  outputs or its error, together with the ledger mutations it applied. The
  ledger of src/funder/token_channel/types.rs stands in for `MutualCredit`; it
  has the same state and mutations.
- `OutgoingMc` (crate::mutual_credit::outgoing) is not part of this model. It
  becomes a snapshot of the ledger plus the batch limit.
- `MAX_OPERATIONS_IN_BATCH` (crate::consts) is not part of this model. It is a
  field of `Externals`.
- `async`/`await` calls are sequential calls to the external functions.
- The contents of operations, incoming messages and pending requests are
  opaque byte strings. Only their ids are read.
- `mem::size_of` of Uid, RandValue, Signature, PublicKey, send price, route
  link and freeze link are fixed constants (16, 16, 64, 32, 8, 48 and 24).
  The byte layouts of those types are not part of this model.
- FunderTypes.TcBalanceNew requires `balance != i128::MIN`. `-balance`
  overflows there. The same precondition sits on the members built on it or
  on the same negation: FunderTypes.TcBalanceNewAsWritten,
  FunderTypes.InitialState, FunderTypes.TokenChannel.constructor,
  FunderTokenChannel.TokenChannel.FromRemoteReset and
  FunderTokenChannel.TokenChannel.FromLocalReset.
- FunderTypes.TokenChannel.BalanceForReset requires the sum to fit i128;
  the source's `expect` panics otherwise. FunderTokenChannel.ResetTermsOf and
  FunderTokenChannel.TokenChannel.GetResetTerms, which compute it, carry the
  same precondition (`BalanceForResetFits`).
- CreditCalc.CreditsOnFailure requires `reporting_to_dest > 1`; the source
  asserts it.
- CreditCalc.CalculatorCreditsOnFailure requires `reporting_to_dest > 1` for
  indices on the route, which is the same assertion.
- CanonicalSerialize.SerializeVec requires fewer than 2^64 items; the source
  unwraps `usize_to_u64`. Only the `u32`, `Option` and `Vec` implementations of
  the trait are modelled, because they are the ones in the serialiser file.
- PendingRequests.TransHashMapMut models utils::trans_hashmap_mut, which is
  not part of this model. It is modelled by its observable behaviour: a saved
  original and a staged map. The Rust borrow of the owner's maps becomes an
  object reference.
- FunderTokenChannel.TokenChannel.Mutate requires `Applicable(direction, m)`: the
  source's `unreachable!()` for `SetTokenWanted` while incoming
  (components/funder/src/token_channel.rs:314) becomes a precondition, and
  `ApplyTcMutations` returns `None` at such a step.
- FunderTokenChannel.ReceivedOnlyWhenValid states only the necessary half
  for a received token; the sufficient half is
  FunderTokenChannel.ReceivedWhenValid.
- FunderTokenChannel.RetransmitOnlyWhenFriendBehind states only the
  necessary half for a retransmission; the sufficient half is
  FunderTokenChannel.RetransmitWhenFriendBehind.
- PendingRequests.TransPendingRequests has no commit in the source, and the
  helper's commit is not part of this model. Staged changes therefore never
  reach `PendingRequests`, and the two map writes in `Cancel` store the values
  the maps already hold.
- `get_total_remote_pending_to` is commented out in the source and is not modelled.
- CreditCalc.Hops clamps a negative hop payment to 0. A hop payment can only
  be negative on a route too short for any hop to fit, and there the outcome
  is `None` anyway.
- CreditCalc.SuccessNonIncreasingInResponseLen proves "never larger" rather
  than the test's "strictly smaller". With zero response multipliers the two
  payments are equal.
- CreditCalc.SuccessCoversFailure proves "at least as large" rather than the
  test's "strictly larger". With zero prices the payments are equal.
- FunderTokenChannel.TokenChannel getters (`get_cur_move_token`,
  `get_last_incoming_move_token`, `get_mutual_credit`, `remote_max_debt`,
  the counters, `is_outgoing`) read fields and carry no contract of their own.
- `RandNonceFromPublicKey` takes the first 16 bytes of the key's hash and
  carries no contract of its own.
- Not modelled: components/funder/src/handler/sender.rs,
  components/channeler/src/connect.rs, components/test/src/test_basic.rs,
  components/proto/src/index_client/messages.rs and components/secure_channel/src/lib.rs.

## Findings

| source | as written | input that shows it | evidently intended | confidence | as-written member | corrected member |
|---|---|---|---|---|---|---|
| src/funder/token_channel/types.rs:57 | `local_max_debt: cmp::min(-balance, 0) as u128` | balance -1 gives local limit 0 with a local debt of 1; balance 1 gives `u128::MAX` | `max(-balance, 0)`, mirroring the remote limit | high; not executed | FunderTypes.TcBalanceNewAsWritten, FunderTypes.TcBalanceNewAsWrittenBreaksLimits | FunderTypes.TcBalanceNew, FunderTypes.TokenChannel.constructor |
| components/funder/src/token_channel.rs:136-168 | both sides build the genesis token from their own (local, remote) keys, so the second sender stores a token with old and new swapped | keys a, b with hash(a) < hash(b): b's first token has old token `token_from_public_key(a)`, but a's genesis token has new token `token_from_public_key(b)`, so a never receives it | both sides store the token built from the lower key first | medium; not executed | FunderTokenChannel.GenesisDirectionAsWritten, FunderTokenChannel.GenesisAsWrittenBreaksChain | FunderTokenChannel.GenesisDirection, FunderTokenChannel.GenesisSharedToken, FunderTokenChannel.GenesisFirstMoveLinks, FunderTokenChannel.TokenChannel.constructor |
