/** apps/api/src/wallet/wallet.service.ts: one call of withdraw, from its checks to its answer, with anything that
  * the other processes do between its statements. */
module WalletService {
  import opened Domain
  import opened Pipeline
  import opened CellInvariant
  import opened RunInvariant
  import opened StepInvariant
  import opened ExecutionTheorems
  import opened Ownership
  import opened Backend
  import WithdrawTheorems
  import ApprovalTheorems

  /** What the client sends. `otp` is None without a code, else whether verifyUserTotp accepts it. */
  datatype Order = Order(caller: string, walletId: WalletId, to: Address, amount: Wei, otp: Option<bool>, signedTx: Option<Tx>, key: Option<string>)

  datatype Refusal = WalletNotFound | NotYourWallet | OtpRequired | OtpInvalid | ToItself | NotOnWhitelist | OverSingleTxLimit | BadSignedTx

  datatype WithdrawEnd = Refused(why: Refusal) | Failed | Answered(r: ReqId, duplicated: bool)

  datatype InsertEnd = Created(r: ReqId) | Conflict | InsertFailed

  /** From 0.01 ether on a right one-time code is needed. */
  predicate Confirmed(o: Order) { o.amount >= 10_000_000_000_000_000 ==> o.otp == Some(true) }

  predicate Owns(o: Order, wallet: Option<Wallet>) { wallet.Some? && wallet.value.ownerEmail == o.caller }

  /** The signed transaction of an SSS order is the one ordered, on Sepolia, with the nonce that the node names. */
  predicate Matches(signedTx: Option<Tx>, wallet: Wallet, to: Address, amount: Wei, rpcNonce: nat) {
    && signedTx.Some?
    && signedTx.value.from == wallet.address && signedTx.value.to == to && signedTx.value.value == amount
    && signedTx.value.chainId == 11155111 && signedTx.value.nonce == rpcNonce
  }

  /** The whole policy of the off-chain checks, in one condition. */
  predicate Permitted(o: Order, wallet: Wallet) {
    && o.caller == wallet.ownerEmail
    && Confirmed(o)
    && o.to != wallet.address
    && (wallet.whitelist == {} || o.to in wallet.whitelist)
    && (wallet.singleTxLimit.None? || o.amount <= wallet.singleTxLimit.value)
  }

  function IntentOf(o: Order, wallet: Wallet, rpcNonce: nat): Intent {
    Intent(o.caller, o.walletId, wallet, o.amount, o.to, o.otp, o.signedTx, rpcNonce, o.key)
  }

  /** Ownership, OTP and policy, in the order of the code. */
  method CheckOrder(o: Order, wallet: Option<Wallet>) returns (refusal: Option<Refusal>)
    ensures refusal.None? <==> wallet.Some? && Permitted(o, wallet.value)
    ensures refusal == Some(WalletNotFound) <==> wallet.None?
    ensures refusal == Some(NotYourWallet) <==> wallet.Some? && wallet.value.ownerEmail != o.caller
    ensures refusal == Some(OtpRequired) <==> Owns(o, wallet) && o.amount >= 10_000_000_000_000_000 && o.otp.None?
    ensures refusal == Some(OtpInvalid) <==> Owns(o, wallet) && o.amount >= 10_000_000_000_000_000 && o.otp == Some(false)
    ensures refusal == Some(ToItself) <==> Owns(o, wallet) && Confirmed(o) && o.to == wallet.value.address
    ensures refusal == Some(NotOnWhitelist) <==>
              && Owns(o, wallet) && Confirmed(o) && o.to != wallet.value.address
              && wallet.value.whitelist != {} && o.to !in wallet.value.whitelist
    ensures refusal == Some(OverSingleTxLimit) <==>
              && Owns(o, wallet) && Confirmed(o) && o.to != wallet.value.address
              && (wallet.value.whitelist == {} || o.to in wallet.value.whitelist)
              && wallet.value.singleTxLimit.Some? && wallet.value.singleTxLimit.value < o.amount
    ensures refusal != Some(BadSignedTx)
  {
    if wallet.None? { return Some(WalletNotFound); }
    var w := wallet.value;
    if w.ownerEmail != o.caller { return Some(NotYourWallet); }
    if o.amount >= OTP_REQUIRED_AMOUNT {
      if o.otp.None? { return Some(OtpRequired); }
      if !o.otp.value { return Some(OtpInvalid); }
    }
    match ValidateWithdrawPolicy(w, o.to, o.amount) {
      case SelfTransfer => refusal := Some(ToItself);
      case NotWhitelisted => refusal := Some(NotOnWhitelist);
      case OverLimit => refusal := Some(OverSingleTxLimit);
      case Allowed => refusal := None;
    }
  }

  /** The newest answer that names request r was given to this call. */
  predicate JustAnswered(s: State, r: ReqId, a: Answer) {
    && r < |s.cells| && s.cells[r].row.Some?
    && |s.cells[r].hist.answers| > 0
    && s.cells[r].hist.answers[|s.cells[r].hist.answers| - 1] == a
  }

  /** The request carries the order of the call. */
  predicate Carries(s: State, r: ReqId, o: Order) {
    && r < |s.cells| && s.cells[r].row.Some?
    && var q := s.cells[r].row.value.request;
       q.walletId == o.walletId && q.to == o.to && q.amount == o.amount && q.key == o.key
  }

  /** The audit log tells how the request came about. */
  predicate CreationLogged(s: State, r: ReqId, t: WalletType) {
    && r < |s.cells| && s.cells[r].row.Some?
    && (if t.SSS? then LogSssValidated else LogCreated) in s.cells[r].row.value.audit
    && (!t.MULTISIG? ==> LogQueued in s.cells[r].row.value.audit)
  }

  lemma CarriesIntent(acts: seq<Action>, r: ReqId, o: Order, wallet: Wallet, rpcNonce: nat)
    requires r < |Run(Initial, acts).cells| && Run(Initial, acts).cells[r].row.Some?
    requires Run(Initial, acts).cells[r].hist.intent == IntentOf(o, wallet, rpcNonce)
    ensures Carries(Run(Initial, acts), r, o)
  {
    hide Run;
    CellAt(acts, r);
  }

  lemma WithdrawSteps(s: State, p: Pid, op: Op)
    requires ProcOf(s, p).Looking? || ProcOf(s, p).Inserting? || ProcOf(s, p).Conflicted?
    ensures Step(s, Advance(p, op)) == WithdrawStep(s, p, ProcOf(s, p), op)
  {
  }

  lemma WithdrawBegins(s: State, p: Pid, o: Order, rpcNonce: nat)
    requires ProcOf(s, p).Idle? && o.walletId in s.wallets && Permitted(o, s.wallets[o.walletId])
    ensures
      var i := IntentOf(o, s.wallets[o.walletId], rpcNonce);
      Step(s, Withdraw(p, i)) == Become(s, p, Looking(i))
  {
  }

  /** The rows of a new request: MULTISIG waits ten minutes for its approvals, all others are queued at once. */
  function FreshRow(i: Intent, now: Time, ticket: nat): Row {
    var multisig := i.wallet.walletType.MULTISIG?;
    var q := Request(i.walletId, i.wallet.walletType, i.amount, i.to, if multisig then PENDING else QUEUED,
                     if multisig then Some(now + 600_000) else None, 0, i.key, Meta(if i.wallet.walletType.SSS? then i.signedTx else None, None));
    Row(q, if multisig then None else Some(Job(ticket, WAITING, 0, now, None)), [], multiset{})
  }

  /** Request r has this key, if it is one, and no other request does. */
  ghost predicate OnlyWithKey(s: State, r: ReqId, key: Option<string>) {
    r < |s.cells| && (key.Some? ==> forall r' :: 0 <= r' < |s.cells| ==> (HasKey(s.cells[r'], key.value) <==> r' == r))
  }

  lemma HolderIsOnly(acts: seq<Action>, r: ReqId, key: Option<string>)
    requires r < |Run(Initial, acts).cells| && (key.Some? ==> HasKey(Run(Initial, acts).cells[r], key.value))
    ensures OnlyWithKey(Run(Initial, acts), r, key)
  {
    hide Run, HasKey;
    if key.Some? {
      forall r' | 0 <= r' < |Run(Initial, acts).cells| && HasKey(Run(Initial, acts).cells[r'], key.value) ensures r' == r {
        WithdrawTheorems.OneRequestPerKey(acts, r', r, key.value);
      }
    }
  }

  predicate SomeHolder(s: State, key: Option<string>) {
    key.Some? && exists r :: 0 <= r < |s.cells| && HasKey(s.cells[r], key.value)
  }

  lemma HolderStays(acts: seq<Action>, more: seq<Action>, key: Option<string>)
    requires WithdrawTheorems.NoCleanup(more) && SomeHolder(Run(Initial, acts), key)
    ensures SomeHolder(Run(Initial, acts + more), key)
  {
    hide Run;
    var r :| 0 <= r < |Run(Initial, acts).cells| && HasKey(Run(Initial, acts).cells[r], key.value);
    WithdrawTheorems.RowsStay(acts, more);
    assert HasKey(Run(Initial, acts + more).cells[r], key.value);
  }

  /** Any key but the blank one, or none. */
  predicate Answerable(key: Option<string>) { key != Some("") }

  class WalletService {
    const db: Store
    const p: Pid

    constructor (db: Store, p: Pid)
      ensures this.db == db && this.p == p
    {
      this.db, this.p := db, p;
    }

    /** Loads the wallet and checks the order; an order that passes goes on to the key lookup. */
    method Accept(o: Order, rpcNonce: nat) returns (refusal: Option<Refusal>, ghost i: Intent)
      requires db.Valid() && ProcOf(db.View(), p).Idle?
      modifies db
      ensures db.Valid() && db.cells == old(db.cells) && db.wallets == old(db.wallets)
      ensures refusal.None? <==> o.walletId in db.wallets && Permitted(o, db.wallets[o.walletId])
      ensures refusal.Some? ==> db.View() == old(db.View()) && db.trace == old(db.trace) && !refusal.value.BadSignedTx?
      ensures refusal.None? ==> i == IntentOf(o, db.wallets[o.walletId], rpcNonce) && ProcOf(db.View(), p) == Looking(i) && db.trace == old(db.trace) + [Action.Withdraw(p, i)]
    {
      var wallet := if o.walletId in db.wallets then Some(db.wallets[o.walletId]) else None;
      refusal := CheckOrder(o, wallet);
      i := IntentOf(o, if wallet.Some? then wallet.value else Wallet("", KMS, 0, {}, None), rpcNonce);
      if refusal.None? {
        WithdrawBegins(db.View(), p, o, rpcNonce);
        Extended(db.trace, Action.Withdraw(p, i));
        hide Run, Step;
        db.procs := db.procs[p := Looking(IntentOf(o, wallet.value, rpcNonce))];
        db.trace := db.trace + [Action.Withdraw(p, i)];
      }
    }

    /** The answer with an existing request; the caller is told of the duplicate. */
    method Duplicate(r: ReqId, i: Intent, ghost proc: Proc)
      requires db.Valid() && ProcOf(db.View(), p) == proc && (proc.Looking? || proc.Inserting? || proc.Conflicted?)
      requires r < |db.cells| && WithdrawStep(db.View(), p, proc, Ok) == Reply(db.View(), p, r, i)
      modifies db
      ensures db.Valid() && db.trace == old(db.trace) + [Advance(p, Ok)] && ProcOf(db.View(), p).Idle?
      ensures |db.cells| == |old(db.cells)| && db.cells[r].row == old(db.cells)[r].row && db.wallets == old(db.wallets)
      ensures old(db.cells)[r].row.Some? ==> JustAnswered(db.View(), r, Answer(i.key, i.walletId))
    {
      hide Run, Step, WithdrawStep;
      WithdrawSteps(db.View(), p, Ok);
      Extended(db.trace, Advance(p, Ok));
      var c := db.cells[r];
      db.cells := db.cells[r := c.(hist := c.hist.(answers := c.hist.answers + [Answer(i.key, i.walletId)]))];
      db.procs := db.procs[p := Idle];
      db.trace := db.trace + [Advance(p, Ok)];
    }

    method Move(next: Proc, op: Op, ghost proc: Proc)
      requires db.Valid() && ProcOf(db.View(), p) == proc && (proc.Looking? || proc.Inserting? || proc.Conflicted?)
      requires WithdrawStep(db.View(), p, proc, op) == Become(db.View(), p, next)
      modifies db
      ensures db.Valid() && db.trace == old(db.trace) + [Advance(p, op)] && ProcOf(db.View(), p) == next && db.cells == old(db.cells) && db.wallets == old(db.wallets)
    {
      hide Run, Step, WithdrawStep;
      WithdrawSteps(db.View(), p, op);
      Extended(db.trace, Advance(p, op));
      db.procs := db.procs[p := next];
      db.trace := db.trace + [Advance(p, op)];
    }

    /** The lookup of a non-empty key among the wallet's own requests, and for SSS the checks of the signed transaction. */
    method LookUp(i: Intent, op: Op) returns (end: Option<WithdrawEnd>)
      requires db.Valid() && ProcOf(db.View(), p) == Looking(i)
      modifies db
      ensures db.Valid() && db.trace == old(db.trace) + [Advance(p, op)]
      ensures |db.cells| == |old(db.cells)| && db.wallets == old(db.wallets) && ProcOf(db.View(), p) == if end.None? then Inserting(i) else Idle
      ensures end.Some? ==> (end.value.Failed? <==> !op.Ok?) && (end.value.Refused? ==> end.value.why.BadSignedTx?)
      ensures end == Some(Refused(BadSignedTx)) ==> i.wallet.walletType.SSS? && !Matches(i.signedTx, i.wallet, i.to, i.amount, i.rpcNonce)
      ensures end.None? ==> (i.wallet.walletType.SSS? ==> Matches(i.signedTx, i.wallet, i.to, i.amount, i.rpcNonce))
      ensures end.None? ==> (i.wallet.walletType.SSS? ==> SssAccepted(i))
      ensures op.Ok? && !(end.Some? && end.value.Answered?) && i.key.Some? && i.key.value != "" ==>
                forall r :: 0 <= r < |db.cells| && HasKey(db.cells[r], i.key.value) ==> db.cells[r].row.value.request.walletId != i.walletId
      ensures end.Some? && end.value.Answered? ==>
                && end.value.duplicated && Keyed(i) && JustAnswered(db.View(), end.value.r, Answer(i.key, i.walletId)) && HasKey(db.cells[end.value.r], i.key.value)
                && db.cells[end.value.r].row.value.request.walletId == i.walletId
    {
      hide Run, Step;
      if !op.Ok? {
        Move(Idle, op, Looking(i));
        return Some(WithdrawEnd.Failed);
      }
      var existing := if Keyed(i) then FindKey(db.cells, i.key.value, Some(i.walletId)) else None;
      if existing.Some? {
        Duplicate(existing.value, i, Looking(i));
        return Some(Answered(existing.value, true));
      }
      if i.wallet.walletType.SSS? && !SssAccepted(i) {
        Move(Idle, op, Looking(i));
        return Some(Refused(BadSignedTx));
      }
      Move(Inserting(i), op, Looking(i));
      end := None;
    }

    /** The insert: one statement for MULTISIG, a transaction of two for the others. It fails on an unknown wallet and
      * on a key that any request has. */
    method Create(i: Intent, op: Op) returns (end: InsertEnd)
      requires db.Valid() && ProcOf(db.View(), p) == Inserting(i)
      modifies db
      ensures db.Valid() && db.trace == old(db.trace) + [Advance(p, op)]
      ensures end.Created? <==> op.Ok? && i.walletId in old(db.wallets) && (i.key.Some? ==> forall r :: 0 <= r < |old(db.cells)| ==> !HasKey(old(db.cells)[r], i.key.value))
      ensures end.Created? ==> end.r == |old(db.cells)| && db.cells == old(db.cells) + [NewCell(i, p, old(db.now), |old(db.tickets)|)]
      ensures end.Created? ==> db.cells[end.r].row == Some(FreshRow(i, old(db.now), |old(db.tickets)|))
      ensures end.Created? ==> db.cells[end.r].hist.intent == i && db.cells[end.r].row.Some? && ProcOf(db.View(), p) == CreatedNote(end.r, i)
      ensures end.Conflict? <==>
                && op.Ok? && i.walletId in old(db.wallets) && Keyed(i)
                && exists r :: 0 <= r < |old(db.cells)| && HasKey(old(db.cells)[r], i.key.value)
      ensures end.Conflict? ==> ProcOf(db.View(), p) == Conflicted(i) && SomeHolder(db.View(), i.key)
      ensures end.InsertFailed? ==> ProcOf(db.View(), p).Idle?
      ensures !end.Created? ==> db.cells == old(db.cells)
    {
      hide Run, Step;
      if !op.Ok? || i.walletId !in db.wallets {
        Move(Idle, op, Inserting(i));
        return InsertFailed;
      }
      if i.key.Some? && FindKey(db.cells, i.key.value, None).Some? {
        Move(if Keyed(i) then Conflicted(i) else Idle, op, Inserting(i));
        return if Keyed(i) then Conflict else InsertFailed;
      }
      WithdrawSteps(db.View(), p, op);
      Extended(db.trace, Advance(p, op));
      var r := |db.cells|;
      db.cells := db.cells + [NewCell(i, p, db.now, |db.tickets|)];
      if !i.wallet.walletType.MULTISIG? {
        db.tickets, db.resv := db.tickets + [r], db.resv + [0];
      }
      db.procs := db.procs[p := CreatedNote(r, i)];
      db.trace := db.trace + [Advance(p, op)];
      end := Created(r);
    }

    /** After a conflict: the request that has the key, on whatever wallet. */
    method FindConflicting(i: Intent, op: Op) returns (end: WithdrawEnd)
      requires db.Valid() && ProcOf(db.View(), p) == Conflicted(i) && Keyed(i)
      modifies db
      ensures db.Valid() && db.trace == old(db.trace) + [Advance(p, op)] && ProcOf(db.View(), p).Idle?
      ensures end.Failed? <==> !op.Ok? || !SomeHolder(old(db.View()), i.key)
      ensures !end.Refused?
      ensures end.Answered? ==> end.duplicated && JustAnswered(db.View(), end.r, Answer(i.key, i.walletId)) && HasKey(db.cells[end.r], i.key.value)
    {
      hide Run, Step;
      if !op.Ok? {
        Move(Idle, op, Conflicted(i));
        return WithdrawEnd.Failed;
      }
      var existing := FindKey(db.cells, i.key.value, None);
      if existing.None? {
        Move(Idle, op, Conflicted(i));
        return WithdrawEnd.Failed;
      }
      Duplicate(existing.value, i, Conflicted(i));
      end := Answered(existing.value, true);
    }

    /** The audit rows of a new request, and the answer. */
    method Announce(r: ReqId, i: Intent, m1: Moment, m2: Moment) returns (ok: bool)
      requires db.Valid() && ProcOf(db.View(), p) == CreatedNote(r, i) && NotBy(m1.others, p) && NotBy(m2.others, p)
      requires r < |db.cells|
      modifies db
      ensures db.Valid() && ProcOf(db.View(), p).Idle? && old(db.trace) <= db.trace
      ensures ok ==> JustAnswered(db.View(), r, Answer(i.key, i.walletId)) && CreationLogged(db.View(), r, i.wallet.walletType)
      ensures Calm(m1) && Calm(m2) && old(db.cells)[r].row.Some? ==> ok
    {
      hide Run, Step, JustAnswered;
      var reply := Answer(i.key, i.walletId);
      if i.wallet.walletType.MULTISIG? {
        ok := NoteOne(r, None, LogCreated, reply, m1);
        return;
      }
      var created := if i.wallet.walletType.SSS? then LogSssValidated else LogCreated;
      ok := NoteOne(r, Some(created), LogQueued, reply, m1);
      if ok {
        ghost var noted := db.trace;
        ok := NoteOne(r, None, LogQueued, reply, m2);
        ApprovalTheorems.AuditOnlyGrows(noted, db.trace[|noted|..], r);
        assert noted + db.trace[|noted|..] == db.trace;
      }
    }

    /** One of them; the last one comes with the answer. */
    method NoteOne(r: ReqId, before: Option<AuditEvent>, last: AuditEvent, reply: Answer, m: Moment) returns (ok: bool)
      requires db.Valid() && ProcOf(db.View(), p) == Noting(r, before, last, Some(reply)) && NotBy(m.others, p)
      requires r < |db.cells|
      modifies db
      ensures db.Valid() && old(db.trace) <= db.trace && r < |db.cells|
      ensures ProcOf(db.View(), p) == if ok && before.Some? then Noting(r, None, last, Some(reply)) else Idle
      ensures ok ==> db.cells[r].row.Some? && (if before.Some? then before.value else last) in db.cells[r].row.value.audit
      ensures ok && before.None? ==> JustAnswered(db.View(), r, reply)
      ensures Calm(m) && old(db.cells)[r].row.Some? ==> ok
    {
      hide Run, Step;
      if Calm(m) { AllStillThere(db.trace, m.others); }
      db.Others(p, m.others);
      ok := db.Note(p, r, before, last, Some(reply), m.op);
    }

    /** A call of withdraw. It is refused for its order exactly when the order is not permitted on the wallet as it is
      * read; an answer that is no duplicate names a request that carries this order; a duplicate answer names the
      * one request that has the call's key. */
    method Withdraw(o: Order, rpcNonce: nat, script: nat -> Moment) returns (end: WithdrawEnd, ghost read: seq<Action>)
      requires db.Valid() && ProcOf(db.View(), p).Idle? && forall k: nat :: NotBy(script(k).others, p)
      modifies db
      ensures db.Valid() && ProcOf(db.View(), p).Idle? && old(db.trace) <= read <= db.trace
      ensures
        var s := Run(Initial, read);
        var ok := o.walletId in s.wallets && Permitted(o, s.wallets[o.walletId]);
        && (script(0).op.Ok? && !ok <==> end.Refused? && !end.why.BadSignedTx?)
        && (end.Answered? ==> ok)
        && (end == Refused(BadSignedTx) ==> ok && s.wallets[o.walletId].walletType.SSS? && !Matches(o.signedTx, s.wallets[o.walletId], o.to, o.amount, rpcNonce))
      ensures end.Answered? ==> end.r < |db.cells| && JustAnswered(db.View(), end.r, Answer(o.key, o.walletId))
      ensures end.Answered? && !end.duplicated ==> Carries(db.View(), end.r, o) && end.r >= |old(db.cells)|
      ensures end.Answered? && !end.duplicated ==> CreationLogged(db.View(), end.r, Run(Initial, read).wallets[o.walletId].walletType)
      ensures end.Answered? && end.duplicated ==> o.key.Some? && HasKey(db.cells[end.r], o.key.value)
      ensures
        var s := Run(Initial, read);
        AllCalm(script) && Answerable(o.key) && o.walletId in s.wallets && Permitted(o, s.wallets[o.walletId])
        && (s.wallets[o.walletId].walletType.SSS? ==> Matches(o.signedTx, s.wallets[o.walletId], o.to, o.amount, rpcNonce))
        ==> end.Answered? && OnlyWithKey(db.View(), end.r, o.key)
    {
      hide Run, Step, Permitted, SssAccepted, Matches, Carries, OnlyWithKey, CreationLogged;
      db.Others(p, script(0).others);
      read := db.trace;
      if !script(0).op.Ok? { return WithdrawEnd.Failed, read; }
      ghost var i0;
      var wallet := if o.walletId in db.wallets then db.wallets[o.walletId] else Wallet("", KMS, 0, {}, None);
      var i := IntentOf(o, wallet, rpcNonce);
      var refusal;
      refusal, i0 := Accept(o, rpcNonce);
      if refusal.Some? { return Refused(refusal.value), read; }
      end := Proceed(o, i, wallet, rpcNonce, script);
    }

    /** From the key lookup on. */
    method Proceed(o: Order, i: Intent, wallet: Wallet, rpcNonce: nat, script: nat -> Moment) returns (end: WithdrawEnd)
      requires db.Valid() && ProcOf(db.View(), p) == Looking(i) && i == IntentOf(o, wallet, rpcNonce)
      requires forall k: nat :: NotBy(script(k).others, p)
      modifies db
      ensures db.Valid() && ProcOf(db.View(), p).Idle? && old(db.trace) <= db.trace
      ensures end.Refused? ==> end.why.BadSignedTx? && i.wallet.walletType.SSS? && !Matches(i.signedTx, i.wallet, i.to, i.amount, i.rpcNonce)
      ensures end.Answered? ==> JustAnswered(db.View(), end.r, Answer(i.key, i.walletId)) && OnlyWithKey(db.View(), end.r, i.key)
      ensures end.Answered? && !end.duplicated ==> Carries(db.View(), end.r, o) && end.r >= |old(db.cells)|
      ensures end.Answered? && !end.duplicated ==> CreationLogged(db.View(), end.r, i.wallet.walletType)
      ensures end.Answered? && end.duplicated ==> Keyed(i) && HasKey(db.cells[end.r], i.key.value)
      ensures AllCalm(script) && Answerable(i.key) && i.walletId in old(db.wallets) && (i.wallet.walletType.SSS? ==> Matches(i.signedTx, i.wallet, i.to, i.amount, i.rpcNonce)) ==>
                end.Answered?
    {
      hide Run, Step, SssAccepted, Matches, Carries, OnlyWithKey, CreationLogged;
      if Calm(script(1)) { WithdrawTheorems.RowsStay(db.trace, script(1).others); }
      db.Others(p, script(1).others);
      var found := LookUp(i, script(1).op);
      if found.Some? {
        if found.value.Answered? { HolderIsOnly(db.trace, found.value.r, i.key); }
        return found.value;
      }
      end := Save(o, i, wallet, rpcNonce, script);
    }

    /** After the insert: the audit rows of the new request, and the answer with it. */
    method AnswerNew(o: Order, i: Intent, wallet: Wallet, rpcNonce: nat, r: ReqId, m1: Moment, m2: Moment) returns (end: WithdrawEnd)
      requires db.Valid() && ProcOf(db.View(), p) == CreatedNote(r, i) && i == IntentOf(o, wallet, rpcNonce)
      requires r < |db.cells| && db.cells[r].row.Some? && db.cells[r].hist.intent == i && NotBy(m1.others, p) && NotBy(m2.others, p)
      modifies db
      ensures db.Valid() && ProcOf(db.View(), p).Idle? && old(db.trace) <= db.trace
      ensures end.Failed? || end == Answered(r, false)
      ensures end.Answered? ==> JustAnswered(db.View(), r, Answer(i.key, i.walletId)) && Carries(db.View(), r, o) && OnlyWithKey(db.View(), r, i.key)
      ensures end.Answered? ==> CreationLogged(db.View(), r, i.wallet.walletType)
      ensures Calm(m1) && Calm(m2) ==> end.Answered?
    {
      hide Run, Step, CreatedNote, OnlyWithKey, CreationLogged;
      ghost var before := db.trace;
      var ok := Announce(r, i, m1, m2);
      IntentStays(before, db.trace[|before|..], r);
      assert before + db.trace[|before|..] == db.trace;
      end := if ok then Answered(r, false) else WithdrawEnd.Failed;
      if ok {
        CarriesIntent(db.trace, r, o, wallet, rpcNonce);
        HolderIsOnly(db.trace, r, i.key);
      }
    }

    /** After a conflict: the answer with the request that has the key. */
    method AnswerConflict(i: Intent, m: Moment) returns (end: WithdrawEnd)
      requires db.Valid() && ProcOf(db.View(), p) == Conflicted(i) && Keyed(i) && NotBy(m.others, p)
      modifies db
      ensures db.Valid() && ProcOf(db.View(), p).Idle? && old(db.trace) <= db.trace
      ensures end.Failed? || (end.Answered? && end.duplicated)
      ensures end.Answered? ==>
                && JustAnswered(db.View(), end.r, Answer(i.key, i.walletId)) && HasKey(db.cells[end.r], i.key.value)
                && OnlyWithKey(db.View(), end.r, i.key)
      ensures Calm(m) && old(SomeHolder(db.View(), i.key)) ==> end.Answered?
    {
      hide Run, Step, SomeHolder, OnlyWithKey;
      if Calm(m) && SomeHolder(db.View(), i.key) { HolderStays(db.trace, m.others, i.key); }
      db.Others(p, m.others);
      end := FindConflicting(i, m.op);
      if end.Answered? { HolderIsOnly(db.trace, end.r, i.key); }
    }

    /** From the insert on. */
    method Save(o: Order, i: Intent, wallet: Wallet, rpcNonce: nat, script: nat -> Moment) returns (end: WithdrawEnd)
      requires db.Valid() && ProcOf(db.View(), p) == Inserting(i) && i == IntentOf(o, wallet, rpcNonce)
      requires forall k: nat :: NotBy(script(k).others, p)
      modifies db
      ensures db.Valid() && ProcOf(db.View(), p).Idle? && old(db.trace) <= db.trace
      ensures !end.Refused?
      ensures end.Answered? ==> JustAnswered(db.View(), end.r, Answer(i.key, i.walletId)) && OnlyWithKey(db.View(), end.r, i.key)
      ensures end.Answered? && !end.duplicated ==> Carries(db.View(), end.r, o) && end.r >= |old(db.cells)|
      ensures end.Answered? && !end.duplicated ==> CreationLogged(db.View(), end.r, i.wallet.walletType)
      ensures end.Answered? && end.duplicated ==> Keyed(i) && HasKey(db.cells[end.r], i.key.value)
      ensures AllCalm(script) && Answerable(i.key) && i.walletId in old(db.wallets) ==> end.Answered?
    {
      hide Run, Step, NewCell, Carries, HasKey, CreatedNote, OnlyWithKey, SomeHolder, CreationLogged;
      if Calm(script(2)) { WithdrawTheorems.RowsStay(db.trace, script(2).others); }
      db.Others(p, script(2).others);
      var made := Create(i, script(2).op);
      match made {
        case InsertFailed => end := WithdrawEnd.Failed;
        case Conflict => end := AnswerConflict(i, script(3));
        case Created(r) => end := AnswerNew(o, i, wallet, rpcNonce, r, script(3), script(4));
      }
    }
  }

  /** What a call that created a request still has to log. */
  function CreatedNote(r: ReqId, i: Intent): Proc {
    var reply := Some(Answer(i.key, i.walletId));
    if i.wallet.walletType.MULTISIG? then Noting(r, None, LogCreated, reply)
    else Noting(r, Some(if i.wallet.walletType.SSS? then LogSssValidated else LogCreated), LogQueued, reply)
  }
}
