/** Every call, on success, keeps the invariant and only ever adds: rows, nonces, batch balance, retirements. */
module Steps {
  import opened Machine
  import opened Chain
  import opened RegistrySpec
  import opened Effects
  import opened History
  import opened Invariants

  /** Owner, signer, batch, creation time, expiry and depth never change; only status and index position may. */
  predicate SameIdentity(v: Volume, v': Volume) {
    v' == v.(status := v'.status, activeIndex := v'.activeIndex)
  }

  ghost predicate RecordsKept(reg: Registry, reg': Registry) {
    && (forall id :: VolumeAt(reg, id).status != Absent ==>
          VolumeAt(reg', id).status != Absent && SameIdentity(VolumeAt(reg, id), VolumeAt(reg', id)))
    && (forall id :: VolumeAt(reg, id).status == Retired ==> VolumeAt(reg', id) == VolumeAt(reg, id))
    && (forall o :: AccountAt(reg, o).nonce <= AccountAt(reg', o).nonce)
  }

  /** PostageStamp's own parameters are untouched and an existing batch can only gain balance. */
  ghost predicate BatchesOnlyRise(p: Postage, p': Postage) {
    && p' == p.(batches := p'.batches)
    && forall b :: Exists(p, b) ==>
         && b in p'.batches
         && p'.batches[b].normalisedBalance >= p.batches[b].normalisedBalance
         && p'.batches[b] == p.batches[b].(normalisedBalance := p'.batches[b].normalisedBalance)
  }

  /** What a payer loses the log charges to it, PostageStamp gains every fee, and the registry keeps nothing. */
  ghost predicate MoneyKept(cfg: Config, env: Env, env': Env) {
    && (forall a :: Outsider(cfg, a) ==>
          BalanceOf(env'.token, a) + Charged(env'.log, a) == BalanceOf(env.token, a) + Charged(env.log, a))
    && BalanceOf(env'.token, cfg.registry) == BalanceOf(env.token, cfg.registry)
    && BalanceOf(env'.token, cfg.stamp) + Fees(env.log) == BalanceOf(env.token, cfg.stamp) + Fees(env'.log)
    && env'.token == env.token.(balances := env'.token.balances, allowances := env'.token.allowances)
  }

  /** The log only grows, at one place in the chain. */
  predicate LogGrows(env: Env, env': Env) {
    && env.log <= env'.log
    && (forall k :: |env.log| <= k < |env'.log| ==>
          env'.log[k].ts == env.clock.now && env'.log[k].tx == env.clock.tx && env'.log[k].block == env.clock.block)
    && env'.clock == env.clock.(logIndex := env'.clock.logIndex)
    && env.clock.logIndex <= env'.clock.logIndex
  }

  ghost predicate Keeps(cfg: Config, w: World, w': World) {
    && RecordsKept(w.reg, w'.reg)
    && BatchesOnlyRise(w.env.postage, w'.env.postage)
    && MoneyKept(cfg, w.env, w'.env)
    && LogGrows(w.env, w'.env)
  }

  lemma KeepsTransitive(cfg: Config, a: World, b: World, c: World)
    requires Keeps(cfg, a, b) && Keeps(cfg, b, c)
    ensures Keeps(cfg, a, c)
  {
    assert BatchesOnlyRise(a.env.postage, c.env.postage) by {
      assert forall id :: Exists(a.env.postage, id) ==> Exists(b.env.postage, id);
    }
    assert RecordsKept(a.reg, c.reg);
    assert MoneyKept(cfg, a.env, c.env);
  }

  ghost predicate Good(cfg: Config, w: World, w': World) {
    Inv(cfg, w') && Keeps(cfg, w, w')
  }

  lemma RecordsKeptReflexive(reg: Registry, reg': Registry)
    requires reg' == reg.(nextNonce := reg'.nextNonce)
    ensures RecordsKept(reg, reg')
  {
  }

  lemma RaisingOnlyRaises(p: Postage, batchId: Bytes32, perChunk: nat)
    requires batchId in p.batches
    ensures BatchesOnlyRise(p, RaisedBy(p, batchId, perChunk))
  {
  }

  lemma MintingOnlyRaises(p: Postage, batchId: Bytes32, batch: Batch)
    requires !Exists(p, batchId)
    ensures BatchesOnlyRise(p, p.(batches := p.batches[batchId := batch]))
  {
  }

  lemma GoodReflexive(cfg: Config, w: World)
    requires Inv(cfg, w)
    ensures Good(cfg, w, w)
  {
  }

  /** A row that moves no BZZ leaves the books, and the log's own order, as they were. */
  lemma QuietRow(cfg: Config, env: Env, e: Event)
    requires ClockInv(env) && LogInv(env.log) && NoAllowance(cfg, env.token)
    requires !e.FeeTransfer? && !IsPayment(e)
    requires e.AccountActivated? ==> e.payer != ZERO_ADDRESS && DesignatedIn(env.log, e.owner) == e.payer
    requires RevocationFits(env.log, e)
    requires IsAdmit(e) ==> OwnerIn(env.log, e.id).None?
    ensures ClockInv(EmitEnv(env, e)) && LogInv(EmitEnv(env, e).log)
    ensures MoneyKept(cfg, env, EmitEnv(env, e)) && LogGrows(env, EmitEnv(env, e))
  {
    hide ClockInv, LogInv, RevocationFits;
    EmitKeepsClock(env, e);
    LogKeepsOne(env.log, Stamped(env.clock, e));
    AppendReplays(env.log, Stamped(env.clock, e));
  }

  /** A call that moves no BZZ and logs one row is good once its registry fields are. */
  lemma QuietGood(cfg: Config, w: World, w': World, e: Event)
    requires Inv(cfg, w) && w'.env == EmitEnv(w.env, e) && !e.FeeTransfer? && !IsPayment(e)
    requires e.AccountActivated? ==> e.payer != ZERO_ADDRESS && DesignatedIn(w.env.log, e.owner) == e.payer
    requires RevocationFits(w.env.log, e)
    requires IsAdmit(e) ==> OwnerIn(w.env.log, e.id).None?
    requires RegInv(cfg, w'.reg) && AuthReplay(w'.reg, w'.env.log) && VolumeReplay(w'.reg, w'.env.log)
    requires RecordsKept(w.reg, w'.reg)
    ensures Good(cfg, w, w')
  {
    hide RegInv, AuthReplay, VolumeReplay, ClockInv, LogInv, NoAllowance, MoneyKept, RecordsKept, LogGrows;
    QuietRow(cfg, w.env, e);
  }

  /** Volumes and nonces untouched, and a row that is about no volume: everything about volumes stands. */
  lemma VolumesFrame(reg: Registry, reg': Registry, log: seq<Row>, r: Row)
    requires IndexInv(reg) && IdInv(reg) && VolumeReplay(reg, log)
    requires reg'.volumes == reg.volumes && reg'.active == reg.active
    requires forall o :: AccountAt(reg', o).nonce == AccountAt(reg, o).nonce
    requires !IsAdmit(r.event) && !r.event.VolumeRetired?
    ensures IndexInv(reg') && IdInv(reg') && VolumeReplay(reg', log + [r]) && RecordsKept(reg, reg')
  {
    AppendReplays(log, r);
    assert forall id :: VolumeAt(reg', id) == VolumeAt(reg, id);
  }

  /** Payers and designations untouched, and a row that is about no account: everything about accounts stands. */
  lemma AccountsFrame(reg: Registry, reg': Registry, log: seq<Row>, r: Row)
    requires AuthReplay(reg, log)
    requires reg'.designated == reg.designated
    requires forall o :: AccountAt(reg', o).payer == AccountAt(reg, o).payer
                         && AccountAt(reg', o).active == AccountAt(reg, o).active
    requires !r.event.PayerDesignated? && !r.event.AccountActivated? && !r.event.AccountRevoked?
    ensures AuthReplay(reg', log + [r])
  {
    AppendReplays(log, r);
    AppendAuth(log, r);
  }

  // ----- accounts -----------------------------------------------------------

  lemma DesignateGood(cfg: Config, w: World, caller: Addr, payer: Addr)
    requires Inv(cfg, w)
    ensures Good(cfg, w, Designate(w, caller, payer))
  {
    var e := PayerDesignated(caller, payer);
    var r := Stamped(w.env.clock, e);
    var w' := Designate(w, caller, payer);
    hide Inv, IndexInv, IdInv, RecordInv, RecordsKept, AuthReplay, VolumeReplay, ClockInv, LogInv, NoAllowance, Good;
    InvFields(cfg, w);
    InvRest(cfg, w);
    VolumesFrame(w.reg, w'.reg, w.env.log, r);
    DesignateReplay(w.reg, caller, payer, w.env.log, r);
    SameRecords(cfg, w.reg, w'.reg);
    QuietGood(cfg, w, w', e);
  }

  lemma SameRecords(cfg: Config, reg: Registry, reg': Registry)
    requires RecordInv(cfg, reg) && reg'.volumes == reg.volumes && reg'.accounts == reg.accounts
    ensures RecordInv(cfg, reg')
  {
    assert forall id :: VolumeAt(reg', id) == VolumeAt(reg, id);
    assert forall owner :: AccountAt(reg', owner) == AccountAt(reg, owner);
  }

  lemma DesignateReplay(reg: Registry, caller: Addr, payer: Addr, log: seq<Row>, r: Row)
    requires AuthReplay(reg, log) && r.event == PayerDesignated(caller, payer)
    ensures AuthReplay(reg.(designated := reg.designated[caller := payer]), log + [r])
  {
    AppendReplays(log, r);
    AppendAuth(log, r);
  }

  lemma SetAccountReplay(reg: Registry, owner: Addr, payer: Addr, active: bool, reg': Registry, log: seq<Row>, r: Row)
    requires AuthReplay(reg, log)
    requires reg' == reg.(accounts := reg.accounts[owner := AccountAt(reg, owner).(payer := payer, active := active)])
    requires active ==> r.event == AccountActivated(owner, payer)
    requires !active ==> r.event.AccountRevoked? && r.event.owner == owner && r.event.payer == payer
    ensures AuthReplay(reg', log + [r])
  {
    AppendReplays(log, r);
    AppendAuth(log, r);
  }

  lemma SetAccountRecords(cfg: Config, reg: Registry, owner: Addr, payer: Addr, active: bool)
    requires RecordInv(cfg, reg) && (active ==> Outsider(cfg, payer))
    ensures RecordInv(cfg, reg.(accounts := reg.accounts[owner := AccountAt(reg, owner).(payer := payer, active := active)]))
  {
    var reg' := reg.(accounts := reg.accounts[owner := AccountAt(reg, owner).(payer := payer, active := active)]);
    assert forall id :: VolumeAt(reg', id) == VolumeAt(reg, id);
    assert forall o :: o != owner ==> AccountAt(reg', o) == AccountAt(reg, o);
  }

  lemma SetAccountNonces(reg: Registry, owner: Addr, payer: Addr, active: bool, o: Addr)
    ensures var reg' := reg.(accounts := reg.accounts[owner := AccountAt(reg, owner).(payer := payer, active := active)]);
            AccountAt(reg', o).nonce == AccountAt(reg, o).nonce
  {
  }

  lemma DesignationOnLog(reg: Registry, log: seq<Row>, owner: Addr)
    requires AuthReplay(reg, log)
    ensures DesignatedIn(log, owner) == DesignatedAt(reg, owner)
  {
  }

  lemma PayerOnLog(reg: Registry, log: seq<Row>, owner: Addr)
    requires AuthReplay(reg, log)
    ensures AuthIn(log, owner).payer == AccountAt(reg, owner).payer
  {
  }

  /** The two account transitions: a new payer and active flag, the nonce untouched. */
  lemma AccountGood(cfg: Config, w: World, owner: Addr, payer: Addr, active: bool, e: Event)
    requires Inv(cfg, w)
    requires active ==> Outsider(cfg, payer) && DesignatedAt(w.reg, owner) == payer && e == AccountActivated(owner, payer)
    requires !active ==> e.AccountRevoked? && e.owner == owner && e.payer == payer
    requires !active ==> payer == AccountAt(w.reg, owner).payer && (e.revoker == owner || e.revoker == payer)
    ensures Good(cfg, w, Emit(SetAccount(w, owner, AccountAt(w.reg, owner).(payer := payer, active := active)), e))
  {
    var w' := Emit(SetAccount(w, owner, AccountAt(w.reg, owner).(payer := payer, active := active)), e);
    var r := Stamped(w.env.clock, e);
    hide Inv, IndexInv, IdInv, RecordInv, RecordsKept, AuthReplay, VolumeReplay, ClockInv, LogInv, NoAllowance, Good,
         AccountAt, DesignatedAt;
    InvFields(cfg, w);
    InvRest(cfg, w);
    forall o
      ensures AccountAt(w'.reg, o).nonce == AccountAt(w.reg, o).nonce
    {
      SetAccountNonces(w.reg, owner, payer, active, o);
    }
    VolumesFrame(w.reg, w'.reg, w.env.log, r);
    SetAccountReplay(w.reg, owner, payer, active, w'.reg, w.env.log, r);
    SetAccountRecords(cfg, w.reg, owner, payer, active);
    DesignationOnLog(w.reg, w.env.log, owner);
    PayerOnLog(w.reg, w.env.log, owner);
    QuietGood(cfg, w, w', e);
  }

  lemma ConfirmAuthGood(cfg: Config, w: World, caller: Addr, owner: Addr)
    requires Inv(cfg, w) && Outsider(cfg, caller) && ConfirmAuth(w, caller, owner).Ok?
    ensures Good(cfg, w, ConfirmAuth(w, caller, owner).value)
  {
    AccountGood(cfg, w, owner, caller, true, AccountActivated(owner, caller));
  }

  lemma RevokeGood(cfg: Config, w: World, caller: Addr, owner: Addr)
    requires Inv(cfg, w) && Revoke(w, caller, owner).Ok?
    ensures Good(cfg, w, Revoke(w, caller, owner).value)
  {
    var payer := AccountAt(w.reg, owner).payer;
    AccountGood(cfg, w, owner, payer, false, AccountRevoked(owner, payer, caller));
  }

  // ----- creation -----------------------------------------------------------

  lemma RecordKeepsRecords(cfg: Config, reg: Registry, now: nat, caller: Addr, batchId: Bytes32, chunkSigner: Addr,
                           depth: nat, ttlExpiry: nat, reg': Registry, id: Bytes32)
    requires RecordInv(cfg, reg) && AccountAt(reg, caller).nonce + 1 < U64
    requires caller != ZERO_ADDRESS && depth > cfg.minimumBucketDepth && chunkSigner != ZERO_ADDRESS
    requires Records(reg, now, caller, batchId, chunkSigner, depth, ttlExpiry, reg', id)
    ensures RecordInv(cfg, reg') && RecordsKept(reg, reg')
    ensures forall o :: AccountAt(reg', o).nonce == AccountAt(reg, o).nonce + if o == caller then 1 else 0
    ensures forall o :: AccountAt(reg', o).payer == AccountAt(reg, o).payer
                        && AccountAt(reg', o).active == AccountAt(reg, o).active
    ensures forall other :: other != id ==> VolumeAt(reg', other) == VolumeAt(reg, other)
  {
    var n := AccountAt(reg, caller).nonce;
    assert (n + 1) % U64 == n + 1;
    assert forall other :: other != id ==> VolumeAt(reg', other) == VolumeAt(reg, other);
    assert forall o :: o != caller ==> AccountAt(reg', o) == AccountAt(reg, o);
    assert AccountAt(reg', caller) == AccountAt(reg, caller).(nonce := n + 1);
  }

  /** Recording a volume keeps the registry's fields in order and matches appending its admit row. */
  lemma RecordGood(cfg: Config, reg: Registry, now: nat, caller: Addr, batchId: Bytes32, chunkSigner: Addr, depth: nat,
                   ttlExpiry: nat, reg': Registry, id: Bytes32, log: seq<Row>, r: Row)
    requires RegInv(cfg, reg) && AuthReplay(reg, log) && VolumeReplay(reg, log)
    requires |reg.active| < U32 && AccountAt(reg, caller).nonce + 1 < U64
    requires caller != ZERO_ADDRESS && depth > cfg.minimumBucketDepth && chunkSigner != ZERO_ADDRESS
    requires Records(reg, now, caller, batchId, chunkSigner, depth, ttlExpiry, reg', id)
    requires IsAdmit(r.event) && r.event.id == id && r.event.owner == caller && r.event.depth == depth
    ensures RegInv(cfg, reg') && AuthReplay(reg', log + [r]) && VolumeReplay(reg', log + [r])
    ensures RecordsKept(reg, reg')
  {
    hide IndexInv, IdInv, RecordInv, AuthReplay, VolumeReplay, Records, RecordsKept, AccountAt;
    RecordKeepsIndex(reg, now, caller, batchId, chunkSigner, depth, ttlExpiry, reg', id);
    RecordKeepsIds(reg, now, caller, batchId, chunkSigner, depth, ttlExpiry, reg', id);
    RecordKeepsRecords(cfg, reg, now, caller, batchId, chunkSigner, depth, ttlExpiry, reg', id);
    RecordKeepsDesignations(reg, now, caller, batchId, chunkSigner, depth, ttlExpiry, reg', id);
    AccountsFrame(reg, reg', log, r);
    RecordReplays(reg, now, caller, batchId, chunkSigner, depth, ttlExpiry, reg', id, log, r);
  }

  lemma RecordKeepsDesignations(reg: Registry, now: nat, caller: Addr, batchId: Bytes32, chunkSigner: Addr, depth: nat,
                                ttlExpiry: nat, reg': Registry, id: Bytes32)
    requires Records(reg, now, caller, batchId, chunkSigner, depth, ttlExpiry, reg', id)
    ensures reg'.designated == reg.designated
  {
  }

  lemma RecordReplays(reg: Registry, now: nat, caller: Addr, batchId: Bytes32, chunkSigner: Addr, depth: nat,
                      ttlExpiry: nat, reg': Registry, id: Bytes32, log: seq<Row>, r: Row)
    requires VolumeReplay(reg, log) && AccountAt(reg, caller).nonce + 1 < U64
    requires Records(reg, now, caller, batchId, chunkSigner, depth, ttlExpiry, reg', id)
    requires IsAdmit(r.event) && r.event.id == id && r.event.owner == caller && r.event.depth == depth
    ensures VolumeReplay(reg', log + [r])
  {
    AppendReplays(log, r);
    assert (AccountAt(reg, caller).nonce + 1) % U64 == AccountAt(reg, caller).nonce + 1;
  }

  lemma RegisterEffect(cfg: Config, w: World, caller: Addr, batchId: Bytes32, ttlExpiry: nat)
    requires RegisterVolume(cfg, w, caller, batchId, ttlExpiry).Ok?
    ensures Live(w.env.postage, batchId) && AccountAt(w.reg, caller).active
    ensures var (w', id) := RegisterVolume(cfg, w, caller, batchId, ttlExpiry).value;
            var b := w.env.postage.batches[batchId];
            && b.depth > cfg.minimumBucketDepth
            && Records(w.reg, w.env.clock.now, caller, batchId, b.owner, b.depth, ttlExpiry, w'.reg, id)
            && w'.env == EmitEnv(w.env, VolumeImported(id, caller, batchId, b.owner, b.depth, ttlExpiry,
                                                       b.normalisedBalance))
  {
  }

  lemma RegisterGood(cfg: Config, w: World, caller: Addr, batchId: Bytes32, ttlExpiry: nat)
    requires Inv(cfg, w) && Outsider(cfg, caller)
    requires |w.reg.active| < U32 && AccountAt(w.reg, caller).nonce + 1 < U64
    requires RegisterVolume(cfg, w, caller, batchId, ttlExpiry).Ok?
    ensures Good(cfg, w, RegisterVolume(cfg, w, caller, batchId, ttlExpiry).value.0)
  {
    hide Inv, RegInv, RegisterVolume, Records, AuthReplay, VolumeReplay, ClockInv, LogInv, NoAllowance, RecordsKept, Good;
    RegisterEffect(cfg, w, caller, batchId, ttlExpiry);
    var (w', id) := RegisterVolume(cfg, w, caller, batchId, ttlExpiry).value;
    var b := w.env.postage.batches[batchId];
    var e := VolumeImported(id, caller, batchId, b.owner, b.depth, ttlExpiry, b.normalisedBalance);
    InvRest(cfg, w);
    RecordGood(cfg, w.reg, w.env.clock.now, caller, batchId, b.owner, b.depth, ttlExpiry, w'.reg, id, w.env.log,
               Stamped(w.env.clock, e));
    NeverAdmitted(w.reg, w.env.clock.now, caller, batchId, b.owner, b.depth, ttlExpiry, w'.reg, id, w.env.log);
    QuietGood(cfg, w, w', e);
  }

  lemma NeverAdmitted(reg: Registry, now: nat, caller: Addr, batchId: Bytes32, chunkSigner: Addr, depth: nat,
                      ttlExpiry: nat, reg': Registry, id: Bytes32, log: seq<Row>)
    requires Records(reg, now, caller, batchId, chunkSigner, depth, ttlExpiry, reg', id) && VolumeReplay(reg, log)
    ensures OwnerIn(log, id).None?
  {
  }

  /** A fee row and its payment row charge the payer who is billed, and nobody else. */
  lemma PaymentKeepsMoney(cfg: Config, env: Env, paid: Env, payer: Addr, amount: nat, e: Event)
    requires ValidConfig(cfg) && Outsider(cfg, payer) && amount <= BalanceOf(env.token, payer)
    requires PaidThrough(cfg, env.token, paid.token, payer, amount)
    requires IsPayment(e) && paid.log == env.log + [Stamped(env.clock, FeeTransfer(amount))]
    requires e.Toppedup? ==>
               && OwnerIn(env.log, e.id).Some?
               && AuthIn(env.log, OwnerIn(env.log, e.id).value) == Auth(payer, true) && e.amount == amount
    requires e.VolumeCreated? ==> AuthIn(env.log, e.owner) == Auth(payer, true)
    ensures MoneyKept(cfg, env, EmitEnv(paid, e))
  {
    var fee := Stamped(env.clock, FeeTransfer(amount));
    AppendReplays(env.log, fee);
    AppendAuth(env.log, fee);
    AppendReplays(paid.log, Stamped(paid.clock, e));
    assert Last(paid.log) == fee;
    forall a | Outsider(cfg, a)
      ensures RowCharge(paid.log, e, a) == if a == payer then amount else 0
    {
    }
    assert EmitEnv(paid, e).token == env.token.(balances := paid.token.balances, allowances := paid.token.allowances);
  }

  /** A fee and its payment, appended together over a paid-through token, keep the log and the books in order. */
  lemma PaymentRows(cfg: Config, env: Env, raised: Env, payer: Addr, amount: nat, e: Event)
    requires ValidConfig(cfg) && ClockInv(env) && LogInv(env.log) && NoAllowance(cfg, env.token)
    requires Outsider(cfg, payer) && amount <= BalanceOf(env.token, payer)
    requires raised == env.(token := raised.token, postage := raised.postage)
    requires PaidThrough(cfg, env.token, raised.token, payer, amount)
    requires e.Toppedup? || e.VolumeCreated?
    requires e.Toppedup? ==>
               && OwnerIn(env.log, e.id).Some?
               && AuthIn(env.log, OwnerIn(env.log, e.id).value) == Auth(payer, true) && e.amount == amount
    requires e.VolumeCreated? ==> AuthIn(env.log, e.owner) == Auth(payer, true) && OwnerIn(env.log, e.id).None?
    ensures var env' := EmitTwo(raised, FeeTransfer(amount), e);
            && ClockInv(env') && LogInv(env'.log) && NoAllowance(cfg, env'.token)
            && MoneyKept(cfg, env, env') && LogGrows(env, env')
  {
    var paid := EmitEnv(raised, FeeTransfer(amount));
    hide Ordered, LogInv, MoneyKept;
    EmitKeepsClock(raised, FeeTransfer(amount));
    EmitKeepsClock(paid, e);
    LogKeepsPayment(env.log, Stamped(env.clock, FeeTransfer(amount)), Stamped(paid.clock, e));
    PaymentKeepsMoney(cfg, env, paid, payer, amount, e);
  }

  /** A row about payments alone changes no replay. */
  lemma PaymentRowKeepsReplays(reg: Registry, log: seq<Row>, r: Row)
    requires AuthReplay(reg, log) && VolumeReplay(reg, log) && (r.event.FeeTransfer? || r.event.Toppedup?)
    ensures AuthReplay(reg, log + [r]) && VolumeReplay(reg, log + [r])
  {
    AccountsFrame(reg, reg, log, r);
    AppendReplays(log, r);
  }

  lemma NextNonceFrame(cfg: Config, reg: Registry, reg': Registry, log: seq<Row>)
    requires RegInv(cfg, reg) && AuthReplay(reg, log) && VolumeReplay(reg, log)
    requires reg' == reg.(nextNonce := reg'.nextNonce)
    ensures RegInv(cfg, reg') && AuthReplay(reg', log) && VolumeReplay(reg', log)
  {
    assert forall id :: VolumeAt(reg', id) == VolumeAt(reg, id);
    assert forall o :: AccountAt(reg', o) == AccountAt(reg, o) && DesignatedAt(reg', o) == DesignatedAt(reg, o);
  }

  lemma CreateGood(cfg: Config, w: World, caller: Addr, chunkSigner: Addr, depth: nat, bucketDepth: nat, ttlExpiry: nat)
    requires Inv(cfg, w) && Outsider(cfg, caller)
    requires |w.reg.active| < U32 && AccountAt(w.reg, caller).nonce + 1 < U64
    requires CreateVolume(cfg, w, caller, chunkSigner, depth, bucketDepth, ttlExpiry).Ok?
    ensures Good(cfg, w, CreateVolume(cfg, w, caller, chunkSigner, depth, bucketDepth, ttlExpiry).value.0)
  {
    var (w', id) := CreateVolume(cfg, w, caller, chunkSigner, depth, bucketDepth, ttlExpiry).value;
    var minted, batchId := CreateVolumeEffect(cfg, w, caller, chunkSigner, depth, bucketDepth, ttlExpiry);
    CreationGood(cfg, w, caller, chunkSigner, depth, ttlExpiry, w', id, minted, batchId);
  }

  lemma CreationRecords(cfg: Config, w: World, caller: Addr, chunkSigner: Addr, depth: nat, ttlExpiry: nat, w': World,
                        id: Bytes32, minted: World, batchId: Bytes32)
    requires RegInv(cfg, w.reg) && AuthReplay(w.reg, w.env.log) && VolumeReplay(w.reg, w.env.log)
    requires caller != ZERO_ADDRESS && |w.reg.active| < U32 && AccountAt(w.reg, caller).nonce + 1 < U64
    requires CreateEffect(cfg, w, caller, chunkSigner, depth, ttlExpiry, w', id, minted, batchId)
    ensures RegInv(cfg, w'.reg) && AuthReplay(w'.reg, w'.env.log) && VolumeReplay(w'.reg, w'.env.log)
    ensures RecordsKept(w.reg, w'.reg)
    ensures OwnerIn(w.env.log, id).None? && AccountAt(w.reg, caller).active
  {
    hide IndexInv, IdInv, RecordInv, AuthReplay, PaidThrough;
    var e := VolumeCreated(id, caller, batchId, chunkSigner, depth, ttlExpiry);
    assert minted.env.log == w.env.log + [Last(minted.env.log)];
    PaymentRowKeepsReplays(w.reg, w.env.log, Last(minted.env.log));
    NextNonceFrame(cfg, w.reg, minted.reg, minted.env.log);
    RecordGood(cfg, minted.reg, w.env.clock.now, caller, batchId, chunkSigner, depth, ttlExpiry, w'.reg, id,
               minted.env.log, Stamped(minted.env.clock, e));
  }

  lemma CreationRows(cfg: Config, w: World, caller: Addr, chunkSigner: Addr, depth: nat, ttlExpiry: nat, w': World,
                     id: Bytes32, minted: World, batchId: Bytes32)
    requires ValidConfig(cfg) && ClockInv(w.env) && LogInv(w.env.log) && NoAllowance(cfg, w.env.token)
    requires CreateEffect(cfg, w, caller, chunkSigner, depth, ttlExpiry, w', id, minted, batchId)
    requires Outsider(cfg, AccountAt(w.reg, caller).payer) && OwnerIn(w.env.log, id).None?
    requires AuthIn(w.env.log, caller) == Auth(AccountAt(w.reg, caller).payer, true)
    ensures ClockInv(w'.env) && LogInv(w'.env.log) && NoAllowance(cfg, w'.env.token)
    ensures MoneyKept(cfg, w.env, w'.env) && LogGrows(w.env, w'.env)
    ensures BatchesOnlyRise(w.env.postage, w'.env.postage)
  {
    hide ClockInv, LogInv, PaidThrough, MoneyKept;
    var total := Target(cfg, w.env.postage) * Pow2(depth);
    var e := VolumeCreated(id, caller, batchId, chunkSigner, depth, ttlExpiry);
    PaymentRows(cfg, w.env, w.env.(token := w'.env.token, postage := w'.env.postage), AccountAt(w.reg, caller).payer,
                total, e);
    MintingOnlyRaises(w.env.postage, batchId, minted.env.postage.batches[batchId]);
  }

  lemma CreationGood(cfg: Config, w: World, caller: Addr, chunkSigner: Addr, depth: nat, ttlExpiry: nat, w': World,
                     id: Bytes32, minted: World, batchId: Bytes32)
    requires Inv(cfg, w) && Outsider(cfg, caller)
    requires |w.reg.active| < U32 && AccountAt(w.reg, caller).nonce + 1 < U64
    requires CreateEffect(cfg, w, caller, chunkSigner, depth, ttlExpiry, w', id, minted, batchId)
    ensures Good(cfg, w, w')
  {
    ActivePayer(cfg, w, caller);
    hide CreateEffect, RegInv, AuthReplay, VolumeReplay, ClockInv, LogInv, MoneyKept, RecordsKept, BatchesOnlyRise,
         NoAllowance, AuthIn, OwnerIn;
    CreationRecords(cfg, w, caller, chunkSigner, depth, ttlExpiry, w', id, minted, batchId);
    CreationRows(cfg, w, caller, chunkSigner, depth, ttlExpiry, w', id, minted, batchId);
  }

  lemma ActivePayer(cfg: Config, w: World, owner: Addr)
    requires Inv(cfg, w)
    ensures AccountAt(w.reg, owner).active ==>
              Outsider(cfg, AccountAt(w.reg, owner).payer)
              && AuthIn(w.env.log, owner) == Auth(AccountAt(w.reg, owner).payer, true)
  {
  }

  // ----- retirement and triggers -------------------------------------------

  lemma RetireKeepsRecords(cfg: Config, reg: Registry, id: Bytes32, reg': Registry)
    requires IdInv(reg) && RecordInv(cfg, reg)
    requires Retires(reg, id, reg') && VolumeAt(reg, id).status == Active
    ensures IdInv(reg') && RecordInv(cfg, reg') && RecordsKept(reg, reg')
  {
    assert forall o :: AccountAt(reg', o) == AccountAt(reg, o);
  }

  lemma RetireKeepsReplays(reg: Registry, id: Bytes32, reg': Registry, log: seq<Row>, r: Row)
    requires AuthReplay(reg, log) && VolumeReplay(reg, log)
    requires Retires(reg, id, reg') && VolumeAt(reg, id).status == Active
    requires r.event.VolumeRetired? && r.event.id == id
    ensures AuthReplay(reg', log + [r]) && VolumeReplay(reg', log + [r])
  {
    assert forall o :: AccountAt(reg', o) == AccountAt(reg, o);
    AccountsFrame(reg, reg', log, r);
    AppendReplays(log, r);
    assert forall other :: other != id ==> VolumeAt(reg', other).status == VolumeAt(reg, other).status;
  }

  lemma RetireGood(cfg: Config, w: World, id: Bytes32, reason: RetireReason)
    requires Inv(cfg, w) && VolumeAt(w.reg, id).status == Active
    ensures Retire(w, id, reason).Ok?
    ensures Good(cfg, w, Retire(w, id, reason).value)
  {
    RetireEffect(w, id, reason);
    RetireKeepsIndex(w, id, reason);
    RetirementGood(cfg, w, id, reason, Retire(w, id, reason).value);
  }

  lemma RetirementGood(cfg: Config, w: World, id: Bytes32, reason: RetireReason, w': World)
    requires Inv(cfg, w) && VolumeAt(w.reg, id).status == Active
    requires Retires(w.reg, id, w'.reg) && IndexInv(w'.reg) && w'.env == EmitEnv(w.env, VolumeRetired(id, reason))
    ensures Good(cfg, w, w')
  {
    RetireKeepsRecords(cfg, w.reg, id, w'.reg);
    RetireKeepsReplays(w.reg, id, w'.reg, w.env.log, Stamped(w.env.clock, VolumeRetired(id, reason)));
    QuietRow(cfg, w.env, VolumeRetired(id, reason));
  }

  lemma SkipGood(cfg: Config, w: World, e: Event)
    requires Inv(cfg, w) && e.TopupSkipped?
    ensures Good(cfg, w, Emit(w, e))
  {
    VolumesFrame(w.reg, w.reg, w.env.log, Stamped(w.env.clock, e));
    AccountsFrame(w.reg, w.reg, w.env.log, Stamped(w.env.clock, e));
    QuietRow(cfg, w.env, e);
  }

  lemma PayReplays(cfg: Config, w: World, id: Bytes32, payer: Addr, deficit: nat, amount: nat, w': World)
    requires AuthReplay(w.reg, w.env.log) && VolumeReplay(w.reg, w.env.log)
    requires PayEffect(cfg, w, id, payer, deficit, amount, w')
    ensures AuthReplay(w.reg, w'.env.log) && VolumeReplay(w.reg, w'.env.log)
  {
    hide AuthReplay, VolumeReplay, PaidThrough;
    var rows := w'.env.log[|w.env.log|..];
    assert w'.env.log == (w.env.log + [rows[0]]) + [rows[1]];
    PaymentRowKeepsReplays(w.reg, w.env.log, rows[0]);
    PaymentRowKeepsReplays(w.reg, w.env.log + [rows[0]], rows[1]);
  }

  lemma PayRows(cfg: Config, w: World, id: Bytes32, payer: Addr, deficit: nat, amount: nat, w': World)
    requires ValidConfig(cfg) && ClockInv(w.env) && LogInv(w.env.log) && NoAllowance(cfg, w.env.token)
    requires PayEffect(cfg, w, id, payer, deficit, amount, w') && Outsider(cfg, payer)
    requires OwnerIn(w.env.log, id).Some? && AuthIn(w.env.log, OwnerIn(w.env.log, id).value) == Auth(payer, true)
    ensures ClockInv(w'.env) && LogInv(w'.env.log) && NoAllowance(cfg, w'.env.token)
    ensures MoneyKept(cfg, w.env, w'.env) && LogGrows(w.env, w'.env)
    ensures BatchesOnlyRise(w.env.postage, w'.env.postage)
  {
    hide ClockInv, LogInv, PaidThrough, MoneyKept;
    var batchId := VolumeAt(w.reg, id).batchId;
    var e := Toppedup(id, amount, w.env.postage.batches[batchId].normalisedBalance + deficit);
    PaymentRows(cfg, w.env, w.env.(token := w'.env.token, postage := w'.env.postage), payer, amount, e);
    RaisingOnlyRaises(w.env.postage, batchId, deficit);
  }

  lemma PayGood(cfg: Config, w: World, id: Bytes32, payer: Addr, deficit: nat, amount: nat, w': World)
    requires Inv(cfg, w) && VolumeAt(w.reg, id).status == Active
    requires AccountAt(w.reg, VolumeAt(w.reg, id).owner).active
    requires AccountAt(w.reg, VolumeAt(w.reg, id).owner).payer == payer
    requires PayEffect(cfg, w, id, payer, deficit, amount, w')
    ensures Good(cfg, w, w')
  {
    PayReplays(cfg, w, id, payer, deficit, amount, w');
    PayRows(cfg, w, id, payer, deficit, amount, w');
    RecordsKeptReflexive(w.reg, w'.reg);
    hide IndexInv, IdInv, RecordInv, AuthReplay, VolumeReplay, ClockInv, LogInv, MoneyKept, RecordsKept, BatchesOnlyRise;
  }

  /** A decision to pay is a decision about an active account, a live batch at the recorded depth, and a real deficit. */
  lemma PayDecision(cfg: Config, w: World, id: Bytes32)
    requires RecordInv(cfg, w.reg) && Decide(cfg, w, id).Pay?
    ensures var v := VolumeAt(w.reg, id);
            var Pay(payer, deficit, amount) := Decide(cfg, w, id);
            && v.status == Active && Live(w.env.postage, v.batchId)
            && w.env.postage.batches[v.batchId].depth == v.depth
            && AccountAt(w.reg, v.owner).active && payer == AccountAt(w.reg, v.owner).payer && Outsider(cfg, payer)
            && deficit == Target(cfg, w.env.postage) - Remaining(w.env.postage, v.batchId) > 0
            && ShiftedOrLost(deficit, v.depth, amount) && amount == Shl(deficit, v.depth)
            && CanPull(cfg, w.env, payer, amount)
  {
  }

  lemma TriggerGood(cfg: Config, w: World, id: Bytes32)
    requires Inv(cfg, w) && TriggerOne(cfg, w, id).Ok?
    ensures Good(cfg, w, TriggerOne(cfg, w, id).value.0)
  {
    hide Good, Inv, Retire, PayDeficit, CanPull;
    match Decide(cfg, w, id)
    case Skip(reason) => SkipGood(cfg, w, TopupSkipped(id, reason));
    case Drop(reason) => RetireGood(cfg, w, id, reason);
    case Enough => GoodReflexive(cfg, w);
    case Pay(payer, deficit, amount) =>
      PaidGood(cfg, w, id);
  }

  lemma PaidGood(cfg: Config, w: World, id: Bytes32)
    requires Inv(cfg, w) && Decide(cfg, w, id).Pay?
    requires var Pay(payer, deficit, amount) := Decide(cfg, w, id); PayDeficit(cfg, w, id, payer, deficit, amount).Ok?
    ensures var Pay(payer, deficit, amount) := Decide(cfg, w, id);
            var w' := PayDeficit(cfg, w, id, payer, deficit, amount).value;
            PayEffect(cfg, w, id, payer, deficit, amount, w') && Good(cfg, w, w')
  {
    PayDecision(cfg, w, id);
    var Pay(payer, deficit, amount) := Decide(cfg, w, id);
    PayDeficitEffect(cfg, w, id, payer, deficit, amount);
    PayGood(cfg, w, id, payer, deficit, amount, PayDeficit(cfg, w, id, payer, deficit, amount).value);
  }

  lemma {:induction false} TriggerManyGood(cfg: Config, w: World, ids: seq<Bytes32>)
    requires Inv(cfg, w) && TriggerMany(cfg, w, ids).Ok?
    ensures Good(cfg, w, TriggerMany(cfg, w, ids).value)
    decreases |ids|
  {
    if ids != [] {
      var init := ids[..|ids| - 1];
      TriggerManyGood(cfg, w, init);
      var mid := TriggerMany(cfg, w, init).value;
      TriggerGood(cfg, mid, ids[|ids| - 1]);
      KeepsTransitive(cfg, w, mid, TriggerMany(cfg, w, ids).value);
    }
  }

  lemma ImportGood(cfg: Config, w: World, caller: Addr, batchId: Bytes32, ttlExpiry: nat)
    requires Inv(cfg, w) && Outsider(cfg, caller)
    requires |w.reg.active| < U32 && AccountAt(w.reg, caller).nonce + 1 < U64
    requires ImportVolume(cfg, w, caller, batchId, ttlExpiry).Ok?
    ensures Good(cfg, w, ImportVolume(cfg, w, caller, batchId, ttlExpiry).value.0)
  {
    RegisterGood(cfg, w, caller, batchId, ttlExpiry);
    var (registered, id) := RegisterVolume(cfg, w, caller, batchId, ttlExpiry).value;
    TriggerGood(cfg, registered, id);
    KeepsTransitive(cfg, w, registered, TriggerOne(cfg, registered, id).value.0);
  }

  /** The machine bounds a call relies on: room in the index and in the caller's nonce. */
  ghost predicate HasRoom(w: World, caller: Addr) {
    |w.reg.active| < U32 && AccountAt(w.reg, caller).nonce + 1 < U64
  }

  /** Every external call, successful or reverted, keeps the invariant and only adds. */
  lemma ApplyGood(cfg: Config, w: World, caller: Addr, call: Call)
    requires Inv(cfg, w) && Outsider(cfg, caller) && HasRoom(w, caller)
    ensures Good(cfg, w, Apply(cfg, w, caller, call))
  {
    hide Good, Inv, Designate, ConfirmAuth, Revoke, CreateVolume, RegisterVolume, ImportVolume, TriggerOne, TriggerMany,
         Retire;
    if Exec(cfg, w, caller, call).Ok? {
      match call
      case CallDesignate(payer) => DesignateGood(cfg, w, caller, payer);
      case CallConfirmAuth(owner) => ConfirmAuthGood(cfg, w, caller, owner);
      case CallRevoke(owner) => RevokeGood(cfg, w, caller, owner);
      case CallCreate(signer, depth, bucketDepth, ttl) => CreateGood(cfg, w, caller, signer, depth, bucketDepth, ttl);
      case CallRegister(batchId, ttl) => RegisterGood(cfg, w, caller, batchId, ttl);
      case CallImport(batchId, ttl) => ImportGood(cfg, w, caller, batchId, ttl);
      case CallDelete(id) => RetireGood(cfg, w, id, OwnerDeleted);
      case CallTrigger(id) => TriggerGood(cfg, w, id);
      case CallTriggerMany(ids) => TriggerManyGood(cfg, w, ids);
      case CallReap(id) =>
        if VolumeAt(w.reg, id).status == Active && TtlPassed(VolumeAt(w.reg, id), w.env.clock.now) {
          RetireGood(cfg, w, id, VolumeExpired);
        } else {
          GoodReflexive(cfg, w);
        }
    } else {
      GoodReflexive(cfg, w);
    }
  }
}
