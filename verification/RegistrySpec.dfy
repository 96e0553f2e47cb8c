/** The registry's calls as functions on the world: what each one reads, decides, writes and emits. */
module RegistrySpec {
  import opened Machine
  import opened Chain

  datatype Status = Absent | Active | Retired

  datatype Volume = Volume(owner: Addr, chunkSigner: Addr, batchId: Bytes32, createdAt: nat, ttlExpiry: nat,
                           depth: nat, status: Status, activeIndex: nat)

  datatype Account = Account(payer: Addr, active: bool, nonce: nat)

  const NO_VOLUME: Volume := Volume(ZERO_ADDRESS, ZERO_ADDRESS, Word(0), 0, 0, 0, Absent, 0)
  const NO_ACCOUNT: Account := Account(ZERO_ADDRESS, false, 0)

  datatype Registry = Registry(volumes: map<Bytes32, Volume>, designated: map<Addr, Addr>,
                               accounts: map<Addr, Account>, active: seq<Bytes32>, nextNonce: nat)

  datatype World = World(reg: Registry, env: Env)

  /** A mapping slot never written reads as the zero record. */
  function VolumeAt(reg: Registry, id: Bytes32): Volume {
    if id in reg.volumes then reg.volumes[id] else NO_VOLUME
  }

  function AccountAt(reg: Registry, owner: Addr): Account {
    if owner in reg.accounts then reg.accounts[owner] else NO_ACCOUNT
  }

  function DesignatedAt(reg: Registry, owner: Addr): Addr {
    if owner in reg.designated then reg.designated[owner] else ZERO_ADDRESS
  }

  function Emit(w: World, e: Event): World {
    w.(env := EmitEnv(w.env, e))
  }

  // ----- accounts -----------------------------------------------------------

  function Designate(w: World, caller: Addr, payer: Addr): World {
    Emit(w.(reg := w.reg.(designated := w.reg.designated[caller := payer])), PayerDesignated(caller, payer))
  }

  function SetAccount(w: World, owner: Addr, account: Account): World {
    w.(reg := w.reg.(accounts := w.reg.accounts[owner := account]))
  }

  function ConfirmAuth(w: World, caller: Addr, owner: Addr): Result<World> {
    if DesignatedAt(w.reg, owner) != caller then Revert(NotDesignated)
    else
      var account := AccountAt(w.reg, owner).(payer := caller, active := true);
      Ok(Emit(SetAccount(w, owner, account), AccountActivated(owner, caller)))
  }

  function Revoke(w: World, caller: Addr, owner: Addr): Result<World> {
    var account := AccountAt(w.reg, owner);
    if caller != owner && caller != account.payer then Revert(NotAuthorizedToRevoke)
    else Ok(Emit(SetAccount(w, owner, account.(active := false)), AccountRevoked(owner, account.payer, caller)))
  }

  // ----- records ------------------------------------------------------------

  /** The one record-writing path: derives the id from the caller's nonce, consumes it, appends to the index. */
  function RecordVolume(w: World, caller: Addr, batchId: Bytes32, chunkSigner: Addr, depth: nat, ttlExpiry: nat)
    : Result<(World, Bytes32)>
  {
    var account := AccountAt(w.reg, caller);
    var id := Keccak(caller, account.nonce);
    if VolumeAt(w.reg, id).status != Absent then Revert(VolumeIdCollision)
    else
      var record := Volume(caller, chunkSigner, batchId, w.env.clock.now % U64, ttlExpiry, depth, Active,
                           |w.reg.active| % U32);
      var reg := w.reg.(accounts := w.reg.accounts[caller := account.(nonce := (account.nonce + 1) % U64)],
                        volumes := w.reg.volumes[id := record],
                        active := w.reg.active + [id]);
      Ok((w.(reg := reg), id))
  }

  /** Swap-and-pop: the last id takes the retiring id's slot. */
  function Retire(w: World, id: Bytes32, reason: RetireReason): Result<World> {
    var v := VolumeAt(w.reg, id);
    var n := |w.reg.active|;
    if n == 0 || v.activeIndex >= n then Revert(Panic)
    else
      var lastId := w.reg.active[n - 1];
      var marked := w.reg.volumes[id := v.(status := Retired)];
      var moved := if v.activeIndex == n - 1 then marked
                   else marked[lastId := VolumeAt(w.reg.(volumes := marked), lastId).(activeIndex := v.activeIndex)];
      var swapped := w.reg.active[v.activeIndex := lastId];
      var reg := w.reg.(volumes := moved[id := VolumeAt(w.reg.(volumes := moved), id).(activeIndex := 0)],
                        active := swapped[..n - 1]);
      Ok(Emit(w.(reg := reg), VolumeRetired(id, reason)))
  }

  // ----- paying -------------------------------------------------------------

  /** The runway, per chunk, that a creation buys and a trigger restores. */
  function Target(cfg: Config, p: Postage): nat {
    p.lastPrice * cfg.graceBlocks
  }

  /** The world's BZZ after pulling `amount` from the payer and approving PostageStamp for it. */
  function PullAndApprove(cfg: Config, w: World, payer: Addr, amount: nat): Result<World> {
    var pulled :- TransferFrom(w.env.token, w.env.clock.now, cfg.registry, payer, cfg.registry, amount);
    Ok(w.(env := w.env.(token := Approve(pulled, cfg.registry, cfg.stamp, amount))))
  }

  /** A fresh batch of `perChunk` per chunk, paid for by `payer` and salted by the global nonce. */
  function MintBatch(cfg: Config, w: World, payer: Addr, chunkSigner: Addr, perChunk: nat, charge: nat, depth: nat,
                     bucketDepth: nat): Result<(World, Bytes32)>
  {
    var funded :- PullAndApprove(cfg, w, payer, charge);
    var (env, batchId) :- CreateBatch(cfg, funded.env, chunkSigner, perChunk, depth, bucketDepth, w.reg.nextNonce);
    Ok((World(w.reg.(nextNonce := (w.reg.nextNonce + 1) % U256), env), batchId))
  }

  function CreateVolume(cfg: Config, w: World, caller: Addr, chunkSigner: Addr, depth: nat, bucketDepth: nat,
                        ttlExpiry: nat): Result<(World, Bytes32)>
  {
    if !AccountAt(w.reg, caller).active then Revert(AccountNotActive)
    else if chunkSigner == ZERO_ADDRESS then Revert(ZeroAddress)
    else
      var perChunk := Target(cfg, w.env.postage);
      var (minted, batchId) :- MintBatch(cfg, w, AccountAt(w.reg, caller).payer, chunkSigner, perChunk,
                                         Shl(perChunk, depth), depth, bucketDepth);
      var (recorded, id) :- RecordVolume(minted, caller, batchId, chunkSigner, depth, ttlExpiry);
      Ok((Emit(recorded, VolumeCreated(id, caller, batchId, chunkSigner, depth, ttlExpiry)), id))
  }

  function RegisterVolume(cfg: Config, w: World, caller: Addr, batchId: Bytes32, ttlExpiry: nat)
    : Result<(World, Bytes32)>
  {
    if !AccountAt(w.reg, caller).active then Revert(AccountNotActive)
    else if !Live(w.env.postage, batchId) then Revert(BatchNotLive)
    else
      var b := w.env.postage.batches[batchId];
      if b.depth <= cfg.minimumBucketDepth then Revert(BatchDepthTooSmall)
      else
        var (recorded, id) :- RecordVolume(w, caller, batchId, b.owner, b.depth, ttlExpiry);
        Ok((Emit(recorded, VolumeImported(id, caller, batchId, b.owner, b.depth, ttlExpiry, b.normalisedBalance)), id))
  }

  function DeleteVolume(w: World, caller: Addr, id: Bytes32): Result<World> {
    var v := VolumeAt(w.reg, id);
    if v.owner != caller then Revert(NotVolumeOwner)
    else if v.status != Active then Revert(VolumeNotActive)
    else Retire(w, id, OwnerDeleted)
  }

  predicate TtlPassed(v: Volume, now: nat) {
    v.ttlExpiry != 0 && now >= v.ttlExpiry
  }

  function Reap(w: World, id: Bytes32): Result<World> {
    var v := VolumeAt(w.reg, id);
    if v.status == Active && TtlPassed(v, w.env.clock.now) then Retire(w, id, VolumeExpired) else Ok(w)
  }

  // ----- trigger ------------------------------------------------------------

  datatype TriggerOutcome = RetiredNow | Skipped | NoDeficit | ToppedUp

  /** What a trigger owes a volume, read off the world before anything is written. */
  datatype Decision =
    | Skip(skipReason: SkipReason)
    | Drop(retireReason: RetireReason)
    | Enough
    | Pay(payer: Addr, deficit: nat, amount: nat)

  predicate CanPull(cfg: Config, env: Env, payer: Addr, amount: nat) {
    var allowed := Allowance(env.token, payer, cfg.registry);
    && BalanceOf(env.token, payer) >= amount
    && allowed >= amount
    && !(cfg.bzzPermitExpiry && allowed == MAX_UINT256
         && Expiration(env.token, payer, cfg.registry) != 0
         && Expiration(env.token, payer, cfg.registry) < env.clock.now)
  }

  function Decide(cfg: Config, w: World, id: Bytes32): Decision {
    var v := VolumeAt(w.reg, id);
    var p := w.env.postage;
    if v.status != Active then Skip(if v.status == Absent then NotFound else NotActive)
    else if !Live(p, v.batchId) then Drop(BatchDied)
    else if p.batches[v.batchId].owner != v.chunkSigner then Drop(BatchOwnerMismatch)
    else if p.batches[v.batchId].depth != v.depth then Drop(DepthChanged)
    else if TtlPassed(v, w.env.clock.now) then Drop(VolumeExpired)
    else if !AccountAt(w.reg, v.owner).active then Skip(NoAuth)
    else if Remaining(p, v.batchId) >= Target(cfg, p) then Enough
    else
      var payer := AccountAt(w.reg, v.owner).payer;
      var deficit := Target(cfg, p) - Remaining(p, v.batchId);
      var amount := Shl(deficit, v.depth);
      if CanPull(cfg, w.env, payer, amount) then Pay(payer, deficit, amount) else Skip(PaymentFailed)
  }

  function PayDeficit(cfg: Config, w: World, id: Bytes32, payer: Addr, deficit: nat, amount: nat): Result<World> {
    var batchId := VolumeAt(w.reg, id).batchId;
    var before := if batchId in w.env.postage.batches then w.env.postage.batches[batchId].normalisedBalance else 0;
    var funded :- PullAndApprove(cfg, w, payer, amount);
    var env :- TopUp(cfg, funded.env, batchId, deficit);
    Ok(Emit(funded.(env := env), Toppedup(id, amount, before + deficit)))
  }

  function TriggerOne(cfg: Config, w: World, id: Bytes32): Result<(World, TriggerOutcome)> {
    match Decide(cfg, w, id)
    case Skip(reason) => Ok((Emit(w, TopupSkipped(id, reason)), Skipped))
    case Drop(reason) => var dropped :- Retire(w, id, reason); Ok((dropped, RetiredNow))
    case Enough => Ok((w, NoDeficit))
    case Pay(payer, deficit, amount) =>
      var paid :- PayDeficit(cfg, w, id, payer, deficit, amount); Ok((paid, ToppedUp))
  }

  /** The batched keeper call: any revert rolls back the whole list. */
  function TriggerMany(cfg: Config, w: World, ids: seq<Bytes32>): Result<World>
    decreases |ids|
  {
    if ids == [] then Ok(w)
    else
      var init :- TriggerMany(cfg, w, ids[..|ids| - 1]);
      var (last, _) :- TriggerOne(cfg, init, ids[|ids| - 1]);
      Ok(last)
  }

  function ImportVolume(cfg: Config, w: World, caller: Addr, batchId: Bytes32, ttlExpiry: nat)
    : Result<(World, Bytes32)>
  {
    var (registered, id) :- RegisterVolume(cfg, w, caller, batchId, ttlExpiry);
    var (triggered, outcome) :- TriggerOne(cfg, registered, id);
    if outcome == ToppedUp || outcome == NoDeficit then Ok((triggered, id)) else Revert(ImportTopupFailed)
  }

  // ----- views --------------------------------------------------------------

  /** A record joined with its owner's account, resolved when it is read. */
  datatype VolumeView = VolumeView(volumeId: Bytes32, batchId: Bytes32, owner: Addr, payer: Addr, chunkSigner: Addr,
                                   createdAt: nat, ttlExpiry: nat, depth: nat, status: Status, accountActive: bool)

  function ViewOf(reg: Registry, id: Bytes32): VolumeView {
    var v := VolumeAt(reg, id);
    var account := AccountAt(reg, v.owner);
    VolumeView(id, v.batchId, v.owner, account.payer, v.chunkSigner, v.createdAt, v.ttlExpiry, v.depth, v.status,
               account.active)
  }

  /** A page of the active index; `offset + limit` is checked arithmetic. */
  function ActivePage(reg: Registry, offset: nat, limit: nat): Result<seq<VolumeView>> {
    var n := |reg.active|;
    if offset >= n then Ok([])
    else if offset + limit >= U256 then Revert(Panic)
    else
      var end := if offset + limit > n then n else offset + limit;
      Ok(seq(end - offset, i requires 0 <= i < end - offset => ViewOf(reg, reg.active[offset + i])))
  }

  // ----- every external call ------------------------------------------------

  datatype Call =
    | CallDesignate(payer: Addr)
    | CallConfirmAuth(owner: Addr)
    | CallRevoke(owner: Addr)
    | CallCreate(chunkSigner: Addr, depth: nat, bucketDepth: nat, ttlExpiry: nat)
    | CallRegister(batchId: Bytes32, ttlExpiry: nat)
    | CallImport(batchId: Bytes32, ttlExpiry: nat)
    | CallDelete(id: Bytes32)
    | CallTrigger(id: Bytes32)
    | CallTriggerMany(ids: seq<Bytes32>)
    | CallReap(id: Bytes32)

  function Exec(cfg: Config, w: World, caller: Addr, call: Call): Result<World> {
    match call
    case CallDesignate(payer) => Ok(Designate(w, caller, payer))
    case CallConfirmAuth(owner) => ConfirmAuth(w, caller, owner)
    case CallRevoke(owner) => Revoke(w, caller, owner)
    case CallCreate(signer, depth, bucketDepth, ttl) =>
      var (next, _) :- CreateVolume(cfg, w, caller, signer, depth, bucketDepth, ttl); Ok(next)
    case CallRegister(batchId, ttl) => var (next, _) :- RegisterVolume(cfg, w, caller, batchId, ttl); Ok(next)
    case CallImport(batchId, ttl) => var (next, _) :- ImportVolume(cfg, w, caller, batchId, ttl); Ok(next)
    case CallDelete(id) => DeleteVolume(w, caller, id)
    case CallTrigger(id) => var (next, _) :- TriggerOne(cfg, w, id); Ok(next)
    case CallTriggerMany(ids) => TriggerMany(cfg, w, ids)
    case CallReap(id) => Reap(w, id)
  }

  /** A reverted call leaves no trace: not in the registry, not in the token or PostageStamp, not in the log. */
  function Apply(cfg: Config, w: World, caller: Addr, call: Call): World {
    match Exec(cfg, w, caller, call)
    case Ok(next) => next
    case Revert(_) => w
  }
}
