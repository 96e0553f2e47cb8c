/** What a successful call does to the world outside its own registry fields: BZZ, batches and log rows. */
module Effects {
  import opened Machine
  import opened Chain
  import opened RegistrySpec

  /** Neither the registry nor PostageStamp ever calls the registry, so neither is ever an owner or a payer. */
  predicate Outsider(cfg: Config, who: Addr) {
    who != ZERO_ADDRESS && who != cfg.registry && who != cfg.stamp
  }

  /** `amount` moved from `payer` to PostageStamp through the registry, which keeps nothing of it. */
  ghost predicate PaidThrough(cfg: Config, t: Token, t': Token, payer: Addr, amount: nat) {
    && (forall a :: BalanceOf(t', a) == if a == payer then BalanceOf(t, a) - amount
                                        else if a == cfg.stamp then BalanceOf(t, a) + amount
                                        else BalanceOf(t, a))
    && (forall s :: Allowance(t', cfg.registry, s) ==
                    if s == cfg.stamp then 0 else Allowance(t, cfg.registry, s))
    && (forall h, s :: h != cfg.registry ==>
          Allowance(t', h, s) == if h == payer && s == cfg.registry && Allowance(t, h, s) != MAX_UINT256
                                 then Allowance(t, h, s) - amount else Allowance(t, h, s))
    && t'.expirations == t.expirations && t'.permittable == t.permittable && t'.paused == t.paused
  }

  lemma MoveEffect(t: Token, from: Addr, to: Addr, amount: nat)
    requires amount <= BalanceOf(t, from) && from != to
    ensures var t' := Move(t, from, to, amount);
            && (forall a :: BalanceOf(t', a) == if a == from then BalanceOf(t, a) - amount
                                                else if a == to then BalanceOf(t, a) + amount else BalanceOf(t, a))
            && t' == t.(balances := t'.balances)
  {
  }

  lemma TransferEffect(t: Token, now: nat, spender: Addr, from: Addr, to: Addr, amount: nat, t': Token)
    requires from != to
    requires TransferFrom(t, now, spender, from, to, amount) == Ok(t')
    ensures amount <= BalanceOf(t, from)
    ensures forall a :: BalanceOf(t', a) == if a == from then BalanceOf(t, a) - amount
                                            else if a == to then BalanceOf(t, a) + amount else BalanceOf(t, a)
    ensures forall h, s :: Allowance(t', h, s) ==
                           if h == from && s == spender && Allowance(t, h, s) != MAX_UINT256
                           then Allowance(t, h, s) - amount else Allowance(t, h, s)
    ensures t'.expirations == t.expirations && t'.permittable == t.permittable && t'.paused == t.paused
  {
    MoveEffect(t, from, to, amount);
  }

  lemma FeeRoute(cfg: Config, t: Token, now: nat, payer: Addr, amount: nat, pulled: Token, paid: Token)
    requires ValidConfig(cfg) && Outsider(cfg, payer) && amount != MAX_UINT256
    requires TransferFrom(t, now, cfg.registry, payer, cfg.registry, amount) == Ok(pulled)
    requires TransferFrom(Approve(pulled, cfg.registry, cfg.stamp, amount), now, cfg.stamp, cfg.registry, cfg.stamp, amount)
             == Ok(paid)
    ensures PaidThrough(cfg, t, paid, payer, amount)
    ensures amount <= BalanceOf(t, payer)
  {
    TransferEffect(t, now, cfg.registry, payer, cfg.registry, amount, pulled);
    TransferEffect(Approve(pulled, cfg.registry, cfg.stamp, amount), now, cfg.stamp, cfg.registry, cfg.stamp, amount, paid);
  }

  lemma FundedFee(cfg: Config, w: World, payer: Addr, amount: nat, funded: World, paid: Token)
    requires ValidConfig(cfg) && Outsider(cfg, payer) && amount != MAX_UINT256
    requires PullAndApprove(cfg, w, payer, amount) == Ok(funded)
    requires TransferFrom(funded.env.token, w.env.clock.now, cfg.stamp, cfg.registry, cfg.stamp, amount) == Ok(paid)
    ensures PaidThrough(cfg, w.env.token, paid, payer, amount)
    ensures amount <= BalanceOf(w.env.token, payer)
    ensures funded == w.(env := w.env.(token := funded.env.token))
  {
    var pulled := TransferFrom(w.env.token, w.env.clock.now, cfg.registry, payer, cfg.registry, amount).value;
    FeeRoute(cfg, w.env.token, w.env.clock.now, payer, amount, pulled, paid);
  }

  /** Short of an expired unlimited permit, the precheck implies the pull; and where the deployment reads expiries at
      all, as its constructor checked that it can, the pull succeeds exactly when the precheck passes. */
  lemma CanPullIsExact(cfg: Config, env: Env, payer: Addr, amount: nat)
    requires ValidConfig(cfg) && Outsider(cfg, payer) && !env.token.paused
    ensures var pull := TransferFrom(env.token, env.clock.now, cfg.registry, payer, cfg.registry, amount);
            var expired := PermitExpired(env.token, env.clock.now, payer, cfg.registry);
            && (CanPull(cfg, env, payer, amount) ==> (pull.Ok? <==> !expired))
            && ((cfg.bzzPermitExpiry ==> env.token.permittable) ==>
                  (pull.Ok? <==> CanPull(cfg, env, payer, amount) && !expired))
            && (cfg.bzzPermitExpiry && env.token.permittable ==> (pull.Ok? <==> CanPull(cfg, env, payer, amount)))
  {
  }

  /** The approved pull by PostageStamp cannot fail once the registry holds the amount. */
  lemma ForwardSucceeds(cfg: Config, t: Token, now: nat, payer: Addr, amount: nat)
    requires ValidConfig(cfg) && Outsider(cfg, payer) && amount < MAX_UINT256
    requires TransferFrom(t, now, cfg.registry, payer, cfg.registry, amount).Ok?
    ensures var pulled := TransferFrom(t, now, cfg.registry, payer, cfg.registry, amount).value;
            TransferFrom(Approve(pulled, cfg.registry, cfg.stamp, amount), now, cfg.stamp, cfg.registry, cfg.stamp, amount).Ok?
  {
    var pulled := TransferFrom(t, now, cfg.registry, payer, cfg.registry, amount).value;
    TransferEffect(t, now, cfg.registry, payer, cfg.registry, amount, pulled);
    assert BalanceOf(pulled, cfg.registry) >= amount;
  }

  function RaisedBy(p: Postage, batchId: Bytes32, perChunk: nat): Postage
    requires batchId in p.batches
  {
    var b := p.batches[batchId];
    p.(batches := p.batches[batchId := b.(normalisedBalance := b.normalisedBalance + perChunk)])
  }

  function EmitTwo(env: Env, first: Event, second: Event): Env {
    EmitEnv(EmitEnv(env, first), second)
  }

  /** A payment's whole effect: the exact charge, forwarded, the batch raised by exactly the deficit, two rows. */
  ghost predicate PayEffect(cfg: Config, w: World, id: Bytes32, payer: Addr, deficit: nat, amount: nat, w': World) {
    var batchId := VolumeAt(w.reg, id).batchId;
    && Live(w.env.postage, batchId)
    && amount == deficit * Pow2(w.env.postage.batches[batchId].depth) < MAX_UINT256
    && amount <= BalanceOf(w.env.token, payer)
    && PaidThrough(cfg, w.env.token, w'.env.token, payer, amount)
    && w'.reg == w.reg
    && w'.env == EmitTwo(w.env.(token := w'.env.token, postage := RaisedBy(w.env.postage, batchId, deficit)),
                         FeeTransfer(amount),
                         Toppedup(id, amount, w.env.postage.batches[batchId].normalisedBalance + deficit))
  }

  lemma TopUpEffect(cfg: Config, env: Env, batchId: Bytes32, perChunk: nat)
    requires TopUp(cfg, env, batchId, perChunk).Ok?
    ensures Live(env.postage, batchId)
    ensures var total := perChunk * Pow2(env.postage.batches[batchId].depth);
            var env' := TopUp(cfg, env, batchId, perChunk).value;
            && total < U256 && total != MAX_UINT256
            && TransferFrom(env.token, env.clock.now, cfg.stamp, cfg.registry, cfg.stamp, total) == Ok(env'.token)
            && env' == EmitEnv(env.(token := env'.token, postage := RaisedBy(env.postage, batchId, perChunk)),
                               FeeTransfer(total))
  {
    NeverUnlimited(perChunk, env.postage.batches[batchId].depth);
  }

  /** What the unchecked shift yields: the exact product, unless PostageStamp's checked product overflows. */
  predicate ShiftedOrLost(x: nat, bits: nat, shifted: nat) {
    x * Pow2(bits) < U256 ==> shifted == x * Pow2(bits)
  }

  lemma PayDeficitEffect(cfg: Config, w: World, id: Bytes32, payer: Addr, deficit: nat, amount: nat)
    requires ValidConfig(cfg) && Outsider(cfg, payer)
    requires Live(w.env.postage, VolumeAt(w.reg, id).batchId)
    requires ShiftedOrLost(deficit, w.env.postage.batches[VolumeAt(w.reg, id).batchId].depth, amount)
    requires PayDeficit(cfg, w, id, payer, deficit, amount).Ok?
    ensures PayEffect(cfg, w, id, payer, deficit, amount, PayDeficit(cfg, w, id, payer, deficit, amount).value)
  {
    var funded := PullAndApprove(cfg, w, payer, amount).value;
    var batchId := VolumeAt(w.reg, id).batchId;
    TopUpEffect(cfg, funded.env, batchId, deficit);
    FundedFee(cfg, w, payer, amount, funded, TopUp(cfg, funded.env, batchId, deficit).value.token);
  }

  /** The record-writing path on the registry alone. */
  ghost predicate Records(reg: Registry, now: nat, caller: Addr, batchId: Bytes32, chunkSigner: Addr, depth: nat,
                          ttlExpiry: nat, reg': Registry, id: Bytes32)
  {
    var account := AccountAt(reg, caller);
    && id == Keccak(caller, account.nonce)
    && VolumeAt(reg, id).status == Absent
    && reg' == reg.(accounts := reg.accounts[caller := account.(nonce := (account.nonce + 1) % U64)],
                    volumes := reg.volumes[id := Volume(caller, chunkSigner, batchId, now % U64, ttlExpiry, depth,
                                                        Active, |reg.active| % U32)],
                    active := reg.active + [id])
  }

  lemma MintEffect(cfg: Config, env: Env, owner: Addr, perChunk: nat, depth: nat, bucketDepth: nat, nonce: nat)
    requires CreateBatch(cfg, env, owner, perChunk, depth, bucketDepth, nonce).Ok?
    ensures owner != ZERO_ADDRESS && depth > cfg.minimumBucketDepth && !Exists(env.postage, Keccak(cfg.registry, nonce))
    ensures var total := perChunk * Pow2(depth);
            var (env', batchId) := CreateBatch(cfg, env, owner, perChunk, depth, bucketDepth, nonce).value;
            var batch := Batch(owner, depth, env.postage.outPayment + perChunk);
            && total < U256 && total != MAX_UINT256
            && batchId == Keccak(cfg.registry, nonce)
            && TransferFrom(env.token, env.clock.now, cfg.stamp, cfg.registry, cfg.stamp, total) == Ok(env'.token)
            && env' == EmitEnv(env.(token := env'.token,
                                    postage := env.postage.(batches := env.postage.batches[batchId := batch])),
                               FeeTransfer(total))
  {
    NeverUnlimited(perChunk, depth);
  }

  /** Minting's effect: the payer charged exactly, a batch of exactly `perChunk`, one row, one nonce. */
  ghost predicate Mints(cfg: Config, w: World, payer: Addr, chunkSigner: Addr, perChunk: nat, depth: nat, w': World,
                        batchId: Bytes32)
  {
    var total := perChunk * Pow2(depth);
    var batch := Batch(chunkSigner, depth, w.env.postage.outPayment + perChunk);
    && depth > cfg.minimumBucketDepth && total < MAX_UINT256 && total <= BalanceOf(w.env.token, payer)
    && batchId == Keccak(cfg.registry, w.reg.nextNonce)
    && !Exists(w.env.postage, batchId)
    && PaidThrough(cfg, w.env.token, w'.env.token, payer, total)
    && w'.env == EmitEnv(w.env.(token := w'.env.token,
                                postage := w.env.postage.(batches := w.env.postage.batches[batchId := batch])),
                         FeeTransfer(total))
    && w'.reg == w.reg.(nextNonce := (w.reg.nextNonce + 1) % U256)
  }

  lemma MintBatchEffect(cfg: Config, w: World, payer: Addr, chunkSigner: Addr, perChunk: nat, charge: nat, depth: nat,
                        bucketDepth: nat)
    requires ValidConfig(cfg) && Outsider(cfg, payer) && ShiftedOrLost(perChunk, depth, charge)
    requires MintBatch(cfg, w, payer, chunkSigner, perChunk, charge, depth, bucketDepth).Ok?
    ensures var (w', batchId) := MintBatch(cfg, w, payer, chunkSigner, perChunk, charge, depth, bucketDepth).value;
            Mints(cfg, w, payer, chunkSigner, perChunk, depth, w', batchId)
  {
    var funded := PullAndApprove(cfg, w, payer, charge).value;
    var (env', batchId) := CreateBatch(cfg, funded.env, chunkSigner, perChunk, depth, bucketDepth, w.reg.nextNonce).value;
    MintEffect(cfg, funded.env, chunkSigner, perChunk, depth, bucketDepth, w.reg.nextNonce);
    FundedFee(cfg, w, payer, charge, funded, env'.token);
  }

  /** A successful creation: an active account, a batch minted at the target, a record over it, and the two rows. */
  ghost predicate CreateEffect(cfg: Config, w: World, caller: Addr, chunkSigner: Addr, depth: nat, ttlExpiry: nat,
                               w': World, id: Bytes32, minted: World, batchId: Bytes32)
  {
    && AccountAt(w.reg, caller).active && chunkSigner != ZERO_ADDRESS
    && Mints(cfg, w, AccountAt(w.reg, caller).payer, chunkSigner, Target(cfg, w.env.postage), depth, minted, batchId)
    && Records(minted.reg, w.env.clock.now, caller, batchId, chunkSigner, depth, ttlExpiry, w'.reg, id)
    && w'.env == EmitEnv(minted.env, VolumeCreated(id, caller, batchId, chunkSigner, depth, ttlExpiry))
  }

  lemma CreateVolumeEffect(cfg: Config, w: World, caller: Addr, chunkSigner: Addr, depth: nat, bucketDepth: nat,
                           ttlExpiry: nat) returns (minted: World, batchId: Bytes32)
    requires ValidConfig(cfg) && (AccountAt(w.reg, caller).active ==> Outsider(cfg, AccountAt(w.reg, caller).payer))
    requires CreateVolume(cfg, w, caller, chunkSigner, depth, bucketDepth, ttlExpiry).Ok?
    ensures var (w', id) := CreateVolume(cfg, w, caller, chunkSigner, depth, bucketDepth, ttlExpiry).value;
            CreateEffect(cfg, w, caller, chunkSigner, depth, ttlExpiry, w', id, minted, batchId)
    ensures minted.reg == w.reg.(nextNonce := minted.reg.nextNonce)
  {
    hide MintBatch, Target, PaidThrough;
    var payer := AccountAt(w.reg, caller).payer;
    var perChunk := Target(cfg, w.env.postage);
    var charge := Shl(perChunk, depth);
    MintBatchEffect(cfg, w, payer, chunkSigner, perChunk, charge, depth, bucketDepth);
    minted := MintBatch(cfg, w, payer, chunkSigner, perChunk, charge, depth, bucketDepth).value.0;
    batchId := MintBatch(cfg, w, payer, chunkSigner, perChunk, charge, depth, bucketDepth).value.1;
  }
}
