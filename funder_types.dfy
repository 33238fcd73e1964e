/** Mutual-credit ledger of a token channel (src/funder/token_channel/types.rs):
    the balance, the debt limits, the pending debts, the pending requests of
    both sides and the two request-status flags, changed one field at a time
    by a closed set of mutations. */
module FunderTypes {
  import opened Wrappers
  import opened MachineInts
  import opened Identity

  /** The largest debt, `(1 << 127) - 1`: i128 cannot go beyond it. */
  const MAX_FUNDER_DEBT: u128 := 0x7fff_ffff_ffff_ffff_ffff_ffff_ffff_ffff

  datatype RequestsStatus = Open | Closed

  /** A request a friend has frozen credits for; only its id is read here. */
  datatype PendingFriendRequest = PendingFriendRequest(requestId: Uid, content: seq<byte>)

  datatype TcIdents = TcIdents(localPublicKey: PublicKey, remotePublicKey: PublicKey)

  datatype TcBalance = TcBalance(
    balance: i128,            // credits this side has against the remote side
    remoteMaxDebt: u128,
    localMaxDebt: u128,
    localPendingDebt: u128,   // credits frozen by this side
    remotePendingDebt: u128)  // credits frozen by the remote side

  datatype TcPendingRequests = TcPendingRequests(
    pendingLocalRequests: map<Uid, PendingFriendRequest>,
    pendingRemoteRequests: map<Uid, PendingFriendRequest>)

  /** Whether each side is open for incoming requests. */
  datatype TcRequestsStatus = TcRequestsStatus(local: RequestsStatus, remote: RequestsStatus)

  datatype TokenChannelState = TokenChannelState(
    idents: TcIdents,
    balance: TcBalance,
    pendingRequests: TcPendingRequests,
    requestsStatus: TcRequestsStatus)

  datatype TcMutation =
    | SetLocalRequestsStatus(requestsStatus: RequestsStatus)
    | SetRemoteRequestsStatus(requestsStatus: RequestsStatus)
    | SetLocalMaxDebt(proposedMaxDebt: u128)
    | SetRemoteMaxDebt(proposedMaxDebt: u128)
    | SetBalance(newBalance: i128)
    | InsertLocalPendingRequest(request: PendingFriendRequest)
    | RemoveLocalPendingRequest(requestId: Uid)
    | InsertRemotePendingRequest(request: PendingFriendRequest)
    | RemoveRemotePendingRequest(requestId: Uid)
    | SetLocalPendingDebt(pendingDebt: u128)
    | SetRemotePendingDebt(pendingDebt: u128)

  // ---------------------------------------------------------------------
  // Initial balance

  /** The debt limits cover the balance and stay within MAX_FUNDER_DEBT. */
  predicate WithinDebtLimits(b: TcBalance) {
    && 0 - (b.localMaxDebt as int) <= b.balance <= b.remoteMaxDebt
    && b.localMaxDebt <= MAX_FUNDER_DEBT
    && b.remoteMaxDebt <= MAX_FUNDER_DEBT
  }

  /** `x as u128` for an i128 `x`: two's complement reinterpretation. */
  function I128AsU128(x: i128): (r: u128)
    ensures x >= 0 ==> r == x
    ensures x < 0 ==> r == x + U128_LIMIT
  {
    x % U128_LIMIT
  }

  function Max(a: int, b: int): int { if a < b then b else a }
  function Min(a: int, b: int): int { if a < b then a else b }

  /** `TcBalance::new` as written: `local_max_debt = min(-balance, 0) as u128`. */
  function TcBalanceNewAsWritten(balance: i128): (r: TcBalance)
    requires balance != I128_MIN
    ensures r.balance == balance && r.remoteMaxDebt == Max(balance, 0)
    ensures balance <= 0 ==> r.localMaxDebt == 0
    ensures balance > 0 ==> r.localMaxDebt == U128_LIMIT - balance
    ensures r.localPendingDebt == 0 && r.remotePendingDebt == 0
  {
    TcBalance(balance, Max(balance, 0), I128AsU128(Min(-balance, 0)), 0, 0)
  }

  /** The as-written limit is wrong on both sides of zero: a balance of -1
      (this side owes 1) gets a local debt limit of 0, and a balance of 1 gets
      a local debt limit of 2^128 - 1, above MAX_FUNDER_DEBT. */
  lemma TcBalanceNewAsWrittenBreaksLimits()
    ensures TcBalanceNewAsWritten(-1).localMaxDebt == 0
    ensures !WithinDebtLimits(TcBalanceNewAsWritten(-1))
    ensures TcBalanceNewAsWritten(1).localMaxDebt == U128_MAX
    ensures !WithinDebtLimits(TcBalanceNewAsWritten(1))
  {
  }

  /** `TcBalance::new` with the evidently intended `max(-balance, 0)`. The
      negation overflows for i128::MIN. */
  function TcBalanceNew(balance: i128): (r: TcBalance)
    requires balance != I128_MIN
    ensures r.balance == balance
    ensures r.remoteMaxDebt == Max(balance, 0) && r.localMaxDebt == Max(-balance, 0)
    ensures r.localPendingDebt == 0 && r.remotePendingDebt == 0
    ensures WithinDebtLimits(r)
  {
    TcBalance(balance, Max(balance, 0), Max(-balance, 0), 0, 0)
  }

  /** A new channel has no pending request on either side. */
  function TcPendingRequestsNew(): (r: TcPendingRequests)
    ensures forall id: Uid :: id !in r.pendingLocalRequests && id !in r.pendingRemoteRequests
  {
    TcPendingRequests(map[], map[])
  }

  /** A new channel is closed for requests in both directions. */
  function TcRequestsStatusNew(): (r: TcRequestsStatus)
    ensures r.local == Closed && r.remote == Closed
  {
    TcRequestsStatus(Closed, Closed)
  }

  /** The ledger `TokenChannel::new` starts with: the two identities, the
      given balance within its limits, nothing frozen or pending, both sides
      closed. */
  function InitialState(localPublicKey: PublicKey, remotePublicKey: PublicKey, balance: i128): (r: TokenChannelState)
    requires balance != I128_MIN
    ensures r.idents.localPublicKey == localPublicKey && r.idents.remotePublicKey == remotePublicKey
    ensures r.balance.balance == balance && WithinDebtLimits(r.balance)
    ensures r.balance.localPendingDebt == 0 && r.balance.remotePendingDebt == 0
    ensures |r.pendingRequests.pendingLocalRequests| == 0 && |r.pendingRequests.pendingRemoteRequests| == 0
    ensures r.requestsStatus.local == Closed && r.requestsStatus.remote == Closed
    ensures BalanceForResetFits(r)
  {
    TokenChannelState(TcIdents(localPublicKey, remotePublicKey), TcBalanceNew(balance),
                      TcPendingRequestsNew(), TcRequestsStatusNew())
  }

  // ---------------------------------------------------------------------
  // Mutations

  /** The state after one mutation: it writes its target field and no other,
      and never the identities. */
  function ApplyMutation(s: TokenChannelState, m: TcMutation): (r: TokenChannelState)
    ensures r.idents == s.idents
    ensures Get(r, Target(m)) == Written(s, m)
    ensures forall f: Field :: f != Target(m) ==> Get(r, f) == Get(s, f)
  {
    match m
    case SetLocalRequestsStatus(st) => s.(requestsStatus := s.requestsStatus.(local := st))
    case SetRemoteRequestsStatus(st) => s.(requestsStatus := s.requestsStatus.(remote := st))
    case SetLocalMaxDebt(d) => s.(balance := s.balance.(localMaxDebt := d))
    case SetRemoteMaxDebt(d) => s.(balance := s.balance.(remoteMaxDebt := d))
    case SetBalance(b) => s.(balance := s.balance.(balance := b))
    case InsertLocalPendingRequest(r) =>
      s.(pendingRequests := s.pendingRequests.(pendingLocalRequests :=
           s.pendingRequests.pendingLocalRequests[r.requestId := r]))
    case RemoveLocalPendingRequest(id) =>
      s.(pendingRequests := s.pendingRequests.(pendingLocalRequests :=
           s.pendingRequests.pendingLocalRequests - {id}))
    case InsertRemotePendingRequest(r) =>
      s.(pendingRequests := s.pendingRequests.(pendingRemoteRequests :=
           s.pendingRequests.pendingRemoteRequests[r.requestId := r]))
    case RemoveRemotePendingRequest(id) =>
      s.(pendingRequests := s.pendingRequests.(pendingRemoteRequests :=
           s.pendingRequests.pendingRemoteRequests - {id}))
    case SetLocalPendingDebt(d) => s.(balance := s.balance.(localPendingDebt := d))
    case SetRemotePendingDebt(d) => s.(balance := s.balance.(remotePendingDebt := d))
  }

  /** The state after a sequence of mutations, applied in order: a field that
      no mutation of the sequence targets keeps its value. */
  function ApplyMutations(s: TokenChannelState, ms: seq<TcMutation>): (r: TokenChannelState)
    ensures r.idents == s.idents
    ensures forall f: Field :: (forall i | 0 <= i < |ms| :: Target(ms[i]) != f) ==> Get(r, f) == Get(s, f)
    decreases |ms|
  {
    if ms == [] then s else ApplyMutation(ApplyMutations(s, ms[..|ms| - 1]), ms[|ms| - 1])
  }

  lemma {:induction false} ApplyMutationsAppend(s: TokenChannelState, ms: seq<TcMutation>, ns: seq<TcMutation>)
    ensures ApplyMutations(s, ms + ns) == ApplyMutations(ApplyMutations(s, ms), ns)
    decreases |ns|
  {
    if ns == [] {
      assert ms + ns == ms;
    } else {
      assert (ms + ns)[..|ms + ns| - 1] == ms + ns[..|ns| - 1];
      ApplyMutationsAppend(s, ms, ns[..|ns| - 1]);
    }
  }

  /** The observable fields of the ledger state, one per kind of mutation
      target, plus the identities that no mutation touches. */
  datatype Field =
    | IdentsField | BalanceField | LocalMaxDebtField | RemoteMaxDebtField
    | LocalPendingDebtField | RemotePendingDebtField
    | LocalPendingRequestsField | RemotePendingRequestsField
    | LocalRequestsStatusField | RemoteRequestsStatusField

  datatype FieldValue =
    | IdentsValue(idents: TcIdents)
    | IntValue(n: int)
    | RequestsValue(requests: map<Uid, PendingFriendRequest>)
    | StatusValue(status: RequestsStatus)

  function Get(s: TokenChannelState, f: Field): FieldValue {
    match f
    case IdentsField => IdentsValue(s.idents)
    case BalanceField => IntValue(s.balance.balance)
    case LocalMaxDebtField => IntValue(s.balance.localMaxDebt)
    case RemoteMaxDebtField => IntValue(s.balance.remoteMaxDebt)
    case LocalPendingDebtField => IntValue(s.balance.localPendingDebt)
    case RemotePendingDebtField => IntValue(s.balance.remotePendingDebt)
    case LocalPendingRequestsField => RequestsValue(s.pendingRequests.pendingLocalRequests)
    case RemotePendingRequestsField => RequestsValue(s.pendingRequests.pendingRemoteRequests)
    case LocalRequestsStatusField => StatusValue(s.requestsStatus.local)
    case RemoteRequestsStatusField => StatusValue(s.requestsStatus.remote)
  }

  /** The one field a mutation writes. */
  function Target(m: TcMutation): Field {
    match m
    case SetLocalRequestsStatus(_) => LocalRequestsStatusField
    case SetRemoteRequestsStatus(_) => RemoteRequestsStatusField
    case SetLocalMaxDebt(_) => LocalMaxDebtField
    case SetRemoteMaxDebt(_) => RemoteMaxDebtField
    case SetBalance(_) => BalanceField
    case InsertLocalPendingRequest(_) => LocalPendingRequestsField
    case RemoveLocalPendingRequest(_) => LocalPendingRequestsField
    case InsertRemotePendingRequest(_) => RemotePendingRequestsField
    case RemoveRemotePendingRequest(_) => RemotePendingRequestsField
    case SetLocalPendingDebt(_) => LocalPendingDebtField
    case SetRemotePendingDebt(_) => RemotePendingDebtField
  }

  /** What the mutation writes into its target field. */
  function Written(s: TokenChannelState, m: TcMutation): FieldValue {
    match m
    case SetLocalRequestsStatus(st) => StatusValue(st)
    case SetRemoteRequestsStatus(st) => StatusValue(st)
    case SetLocalMaxDebt(d) => IntValue(d)
    case SetRemoteMaxDebt(d) => IntValue(d)
    case SetBalance(b) => IntValue(b)
    case InsertLocalPendingRequest(r) => RequestsValue(s.pendingRequests.pendingLocalRequests[r.requestId := r])
    case RemoveLocalPendingRequest(id) => RequestsValue(s.pendingRequests.pendingLocalRequests - {id})
    case InsertRemotePendingRequest(r) => RequestsValue(s.pendingRequests.pendingRemoteRequests[r.requestId := r])
    case RemoveRemotePendingRequest(id) => RequestsValue(s.pendingRequests.pendingRemoteRequests - {id})
    case SetLocalPendingDebt(d) => IntValue(d)
    case SetRemotePendingDebt(d) => IntValue(d)
  }

  /** The observable fields determine the state. */
  lemma FieldsDetermineState(s: TokenChannelState, t: TokenChannelState)
    requires forall f: Field :: Get(s, f) == Get(t, f)
    ensures s == t
  {
    assert Get(s, IdentsField) == Get(t, IdentsField);
    assert Get(s, BalanceField) == Get(t, BalanceField);
    assert Get(s, LocalMaxDebtField) == Get(t, LocalMaxDebtField);
    assert Get(s, RemoteMaxDebtField) == Get(t, RemoteMaxDebtField);
    assert Get(s, LocalPendingDebtField) == Get(t, LocalPendingDebtField);
    assert Get(s, RemotePendingDebtField) == Get(t, RemotePendingDebtField);
    assert Get(s, LocalPendingRequestsField) == Get(t, LocalPendingRequestsField);
    assert Get(s, RemotePendingRequestsField) == Get(t, RemotePendingRequestsField);
    assert Get(s, LocalRequestsStatusField) == Get(t, LocalRequestsStatusField);
    assert Get(s, RemoteRequestsStatusField) == Get(t, RemoteRequestsStatusField);
  }

  /** Inserting a pending request maps its id to it, overwriting any earlier
      entry and leaving every other id as it was. */
  lemma InsertPendingRequest(s: TokenChannelState, r: PendingFriendRequest, id: Uid)
    ensures var local := ApplyMutation(s, InsertLocalPendingRequest(r)).pendingRequests.pendingLocalRequests;
            && r.requestId in local && local[r.requestId] == r
            && (id != r.requestId ==> (id in local <==> id in s.pendingRequests.pendingLocalRequests))
            && (id != r.requestId && id in local ==> local[id] == s.pendingRequests.pendingLocalRequests[id])
    ensures var remote := ApplyMutation(s, InsertRemotePendingRequest(r)).pendingRequests.pendingRemoteRequests;
            && r.requestId in remote && remote[r.requestId] == r
            && (id != r.requestId ==> (id in remote <==> id in s.pendingRequests.pendingRemoteRequests))
            && (id != r.requestId && id in remote ==> remote[id] == s.pendingRequests.pendingRemoteRequests[id])
  {
  }

  /** Removing a pending request deletes its id and nothing else; removing an
      absent id changes nothing. */
  lemma RemovePendingRequest(s: TokenChannelState, id: Uid, other: Uid)
    ensures var local := ApplyMutation(s, RemoveLocalPendingRequest(id)).pendingRequests.pendingLocalRequests;
            && id !in local
            && (other != id ==> (other in local <==> other in s.pendingRequests.pendingLocalRequests))
            && (other != id && other in local ==> local[other] == s.pendingRequests.pendingLocalRequests[other])
    ensures var remote := ApplyMutation(s, RemoveRemotePendingRequest(id)).pendingRequests.pendingRemoteRequests;
            && id !in remote
            && (other != id ==> (other in remote <==> other in s.pendingRequests.pendingRemoteRequests))
            && (other != id && other in remote ==> remote[other] == s.pendingRequests.pendingRemoteRequests[other])
    ensures id !in s.pendingRequests.pendingLocalRequests ==> ApplyMutation(s, RemoveLocalPendingRequest(id)) == s
    ensures id !in s.pendingRequests.pendingRemoteRequests ==> ApplyMutation(s, RemoveRemotePendingRequest(id)) == s
  {
    var local := s.pendingRequests.pendingLocalRequests;
    if id !in local {
      assert local - {id} == local;
    }
    var remote := s.pendingRequests.pendingRemoteRequests;
    if id !in remote {
      assert remote - {id} == remote;
    }
  }

  /** `balance_for_reset` panics unless the sum fits in i128. */
  predicate BalanceForResetFits(s: TokenChannelState) {
    s.balance.balance + s.balance.remotePendingDebt <= I128_MAX
  }

  // ---------------------------------------------------------------------
  // The ledger object

  class TokenChannel {
    var state: TokenChannelState

    /** `TokenChannel::new`: both keys and the balance stored, no pending
        debts or requests, both sides closed for requests. */
    constructor(localPublicKey: PublicKey, remotePublicKey: PublicKey, balance: i128)
      requires balance != I128_MIN
      ensures state == InitialState(localPublicKey, remotePublicKey, balance)
    {
      state := InitialState(localPublicKey, remotePublicKey, balance);
    }

    /** `balance_for_reset`: the current balance plus the credits the remote
        side has frozen, which it will pay on completion. */
    function BalanceForReset(): (r: i128)
      reads this
      requires BalanceForResetFits(state)
      ensures r - state.balance.remotePendingDebt == state.balance.balance
      ensures r >= state.balance.balance
    {
      state.balance.balance + state.balance.remotePendingDebt
    }

    /** A copy of the ledger that can be changed without touching this one. */
    method Clone() returns (c: TokenChannel)
      ensures fresh(c) && c.state == state
    {
      c := new TokenChannel.Copy(state);
    }

    constructor Copy(s: TokenChannelState)
      ensures state == s
    {
      state := s;
    }

    method Mutate(m: TcMutation)
      modifies this
      ensures state == ApplyMutation(old(state), m)
    {
      match m
      case SetLocalRequestsStatus(st) => SetLocalRequestsStatusField(st);
      case SetRemoteRequestsStatus(st) => SetRemoteRequestsStatusField(st);
      case SetLocalMaxDebt(d) => SetLocalMaxDebtField(d);
      case SetRemoteMaxDebt(d) => SetRemoteMaxDebtField(d);
      case SetBalance(b) => SetBalanceField(b);
      case InsertLocalPendingRequest(r) => InsertLocalPendingRequestEntry(r);
      case RemoveLocalPendingRequest(id) => RemoveLocalPendingRequestEntry(id);
      case InsertRemotePendingRequest(r) => InsertRemotePendingRequestEntry(r);
      case RemoveRemotePendingRequest(id) => RemoveRemotePendingRequestEntry(id);
      case SetLocalPendingDebt(d) => SetLocalPendingDebtField(d);
      case SetRemotePendingDebt(d) => SetRemotePendingDebtField(d);
    }

    method SetLocalRequestsStatusField(st: RequestsStatus)
      modifies this
      ensures state == old(state).(requestsStatus := old(state).requestsStatus.(local := st))
    {
      state := state.(requestsStatus := state.requestsStatus.(local := st));
    }

    method SetRemoteRequestsStatusField(st: RequestsStatus)
      modifies this
      ensures state == old(state).(requestsStatus := old(state).requestsStatus.(remote := st))
    {
      state := state.(requestsStatus := state.requestsStatus.(remote := st));
    }

    method SetRemoteMaxDebtField(proposedMaxDebt: u128)
      modifies this
      ensures state == old(state).(balance := old(state).balance.(remoteMaxDebt := proposedMaxDebt))
    {
      state := state.(balance := state.balance.(remoteMaxDebt := proposedMaxDebt));
    }

    method SetLocalMaxDebtField(proposedMaxDebt: u128)
      modifies this
      ensures state == old(state).(balance := old(state).balance.(localMaxDebt := proposedMaxDebt))
    {
      state := state.(balance := state.balance.(localMaxDebt := proposedMaxDebt));
    }

    method SetBalanceField(balance: i128)
      modifies this
      ensures state == old(state).(balance := old(state).balance.(balance := balance))
    {
      state := state.(balance := state.balance.(balance := balance));
    }

    method InsertRemotePendingRequestEntry(r: PendingFriendRequest)
      modifies this
      ensures state == old(state).(pendingRequests := old(state).pendingRequests.(pendingRemoteRequests :=
                         old(state).pendingRequests.pendingRemoteRequests[r.requestId := r]))
    {
      var requests := state.pendingRequests.pendingRemoteRequests;
      state := state.(pendingRequests := state.pendingRequests.(pendingRemoteRequests := requests[r.requestId := r]));
    }

    method RemoveRemotePendingRequestEntry(requestId: Uid)
      modifies this
      ensures state == old(state).(pendingRequests := old(state).pendingRequests.(pendingRemoteRequests :=
                         old(state).pendingRequests.pendingRemoteRequests - {requestId}))
    {
      var requests := state.pendingRequests.pendingRemoteRequests;
      state := state.(pendingRequests := state.pendingRequests.(pendingRemoteRequests := requests - {requestId}));
    }

    method InsertLocalPendingRequestEntry(r: PendingFriendRequest)
      modifies this
      ensures state == old(state).(pendingRequests := old(state).pendingRequests.(pendingLocalRequests :=
                         old(state).pendingRequests.pendingLocalRequests[r.requestId := r]))
    {
      var requests := state.pendingRequests.pendingLocalRequests;
      state := state.(pendingRequests := state.pendingRequests.(pendingLocalRequests := requests[r.requestId := r]));
    }

    method RemoveLocalPendingRequestEntry(requestId: Uid)
      modifies this
      ensures state == old(state).(pendingRequests := old(state).pendingRequests.(pendingLocalRequests :=
                         old(state).pendingRequests.pendingLocalRequests - {requestId}))
    {
      var requests := state.pendingRequests.pendingLocalRequests;
      state := state.(pendingRequests := state.pendingRequests.(pendingLocalRequests := requests - {requestId}));
    }

    method SetRemotePendingDebtField(remotePendingDebt: u128)
      modifies this
      ensures state == old(state).(balance := old(state).balance.(remotePendingDebt := remotePendingDebt))
    {
      state := state.(balance := state.balance.(remotePendingDebt := remotePendingDebt));
    }

    method SetLocalPendingDebtField(localPendingDebt: u128)
      modifies this
      ensures state == old(state).(balance := old(state).balance.(localPendingDebt := localPendingDebt))
    {
      state := state.(balance := state.balance.(localPendingDebt := localPendingDebt));
    }
  }
}
