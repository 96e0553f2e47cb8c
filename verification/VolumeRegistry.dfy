/** The contract itself: fields mutated in place, each external call proved against its specification. */
module VolumeRegistryContract {
  import opened Machine
  import opened Chain
  import opened RegistrySpec

  class VolumeRegistry {
    const cfg: Config

    var volumes: map<Bytes32, Volume>
    var designated: map<Addr, Addr>
    var accounts: map<Addr, Account>
    var activeVolumeIds: seq<Bytes32>
    var nextNonce: nat

    /** The token, PostageStamp, the clock and the captured logs, all outside the contract. */
    var env: Env

    function State(): World
      reads this
    {
      World(Registry(volumes, designated, accounts, activeVolumeIds, nextNonce), env)
    }

    /** Refuses, in this order, a zero address, a runway below PostageStamp's floor, and a permit-expiry deployment on a
        token without expirations. */
    static method Deploy(cfg: Config, env: Env) returns (r: Result<VolumeRegistry>)
      ensures r.Revert? && r.error == ZeroAddress <==> cfg.stamp == ZERO_ADDRESS || cfg.bzz == ZERO_ADDRESS
      ensures r.Revert? && r.error == GraceBlocksBelowFloor(cfg.graceBlocks, env.postage.minimumValidityBlocks) <==>
              && cfg.stamp != ZERO_ADDRESS && cfg.bzz != ZERO_ADDRESS
              && cfg.graceBlocks < env.postage.minimumValidityBlocks
      ensures r.Ok? <==>
              && cfg.stamp != ZERO_ADDRESS && cfg.bzz != ZERO_ADDRESS
              && cfg.graceBlocks >= env.postage.minimumValidityBlocks
              && (cfg.bzzPermitExpiry ==> env.token.permittable)
      ensures r.Ok? ==> fresh(r.value) && r.value.cfg == cfg
      ensures r.Ok? ==> r.value.State() == World(Registry(map[], map[], map[], [], 0), env)
    {
      if cfg.stamp == ZERO_ADDRESS || cfg.bzz == ZERO_ADDRESS {
        return Revert(ZeroAddress);
      }
      if cfg.graceBlocks < env.postage.minimumValidityBlocks {
        return Revert(GraceBlocksBelowFloor(cfg.graceBlocks, env.postage.minimumValidityBlocks));
      }
      if cfg.bzzPermitExpiry && !env.token.permittable {
        return Revert(NoExpirations);
      }
      var registry := new VolumeRegistry(cfg, env);
      r := Ok(registry);
    }

    constructor (cfg: Config, env: Env)
      ensures this.cfg == cfg && State() == World(Registry(map[], map[], map[], [], 0), env)
    {
      this.cfg := cfg;
      this.env := env;
      volumes, designated, accounts, activeVolumeIds, nextNonce := map[], map[], map[], [], 0;
    }

    /** The EVM's rollback of a reverted call. */
    method Rollback(to: World)
      modifies this
      ensures State() == to
    {
      volumes, designated, accounts := to.reg.volumes, to.reg.designated, to.reg.accounts;
      activeVolumeIds, nextNonce, env := to.reg.active, to.reg.nextNonce, to.env;
    }

    function ReadVolume(id: Bytes32): Volume
      reads this
    {
      VolumeAt(State().reg, id)
    }

    function ReadAccount(owner: Addr): Account
      reads this
    {
      AccountAt(State().reg, owner)
    }

    method EmitEvent(e: Event)
      modifies this`env
      ensures env == EmitEnv(old(env), e)
    {
      env := EmitEnv(env, e);
    }

    // ----- account API ------------------------------------------------------

    method DesignateFundingWallet(caller: Addr, payer: Addr)
      modifies this
      ensures State() == Apply(cfg, old(State()), caller, CallDesignate(payer))
    {
      designated := designated[caller := payer];
      EmitEvent(PayerDesignated(caller, payer));
    }

    method ConfirmAuth(caller: Addr, owner: Addr) returns (r: Result<()>)
      modifies this
      ensures State() == Apply(cfg, old(State()), caller, CallConfirmAuth(owner))
      ensures r.Ok? == Exec(cfg, old(State()), caller, CallConfirmAuth(owner)).Ok?
    {
      if DesignatedAt(State().reg, owner) != caller {
        return Revert(NotDesignated);
      }
      accounts := accounts[owner := ReadAccount(owner).(payer := caller)];
      accounts := accounts[owner := ReadAccount(owner).(active := true)];
      EmitEvent(AccountActivated(owner, caller));
      assert accounts == old(accounts)[owner := old(ReadAccount(owner)).(payer := caller, active := true)];
      r := Ok(());
    }

    method RevokeAccount(caller: Addr, owner: Addr) returns (r: Result<()>)
      modifies this
      ensures State() == Apply(cfg, old(State()), caller, CallRevoke(owner))
      ensures r.Ok? == Exec(cfg, old(State()), caller, CallRevoke(owner)).Ok?
    {
      if caller != owner && caller != ReadAccount(owner).payer {
        return Revert(NotAuthorizedToRevoke);
      }
      var payer := ReadAccount(owner).payer;
      accounts := accounts[owner := ReadAccount(owner).(active := false)];
      EmitEvent(AccountRevoked(owner, payer, caller));
      r := Ok(());
    }

    // ----- volume lifecycle -------------------------------------------------

    method CreateVolume(caller: Addr, chunkSigner: Addr, depth: nat, bucketDepth: nat, ttlExpiry: nat)
      returns (r: Result<Bytes32>)
      modifies this
      ensures State() == Apply(cfg, old(State()), caller, CallCreate(chunkSigner, depth, bucketDepth, ttlExpiry))
      ensures match RegistrySpec.CreateVolume(cfg, old(State()), caller, chunkSigner, depth, bucketDepth, ttlExpiry)
              case Ok((_, id)) => r == Ok(id)
              case Revert(e) => r == Revert(e)
    {
      var saved := State();
      if !ReadAccount(caller).active {
        return Revert(AccountNotActive);
      }
      if chunkSigner == ZERO_ADDRESS {
        return Revert(ZeroAddress);
      }
      var perChunk := env.postage.lastPrice * cfg.graceBlocks;
      var totalCharge := Shl(perChunk, depth);
      var minted := Mint(ReadAccount(caller).payer, chunkSigner, perChunk, totalCharge, depth, bucketDepth);
      if minted.Revert? {
        Rollback(saved);
        return minted;
      }
      var batchId := minted.value;
      var recorded := Record(caller, batchId, chunkSigner, depth, ttlExpiry);
      if recorded.Revert? {
        Rollback(saved);
        return recorded;
      }
      EmitEvent(VolumeCreated(recorded.value, caller, batchId, chunkSigner, depth, ttlExpiry));
      r := recorded;
    }

    method RegisterVolume(caller: Addr, batchId: Bytes32, ttlExpiry: nat) returns (r: Result<Bytes32>)
      modifies this
      ensures State() == Apply(cfg, old(State()), caller, CallRegister(batchId, ttlExpiry))
      ensures match RegistrySpec.RegisterVolume(cfg, old(State()), caller, batchId, ttlExpiry)
              case Ok((_, id)) => r == Ok(id)
              case Revert(e) => r == Revert(e)
    {
      var saved := State();
      r := RegisterInternal(caller, batchId, ttlExpiry);
      if r.Revert? {
        Rollback(saved);
      }
    }

    method ImportVolume(caller: Addr, batchId: Bytes32, ttlExpiry: nat) returns (r: Result<Bytes32>)
      modifies this
      ensures State() == Apply(cfg, old(State()), caller, CallImport(batchId, ttlExpiry))
      ensures match RegistrySpec.ImportVolume(cfg, old(State()), caller, batchId, ttlExpiry)
              case Ok((_, id)) => r == Ok(id)
              case Revert(e) => r == Revert(e)
    {
      var saved := State();
      r := RegisterInternal(caller, batchId, ttlExpiry);
      if r.Revert? {
        Rollback(saved);
        return;
      }
      var outcome := TriggerInternal(r.value);
      if outcome.Revert? {
        Rollback(saved);
        return Revert(outcome.error);
      }
      if outcome.value != ToppedUp && outcome.value != NoDeficit {
        Rollback(saved);
        return Revert(ImportTopupFailed);
      }
    }

    method DeleteVolume(caller: Addr, id: Bytes32) returns (r: Result<()>)
      modifies this
      ensures State() == Apply(cfg, old(State()), caller, CallDelete(id))
      ensures r.Ok? == Exec(cfg, old(State()), caller, CallDelete(id)).Ok?
    {
      var saved := State();
      if ReadVolume(id).owner != caller {
        return Revert(NotVolumeOwner);
      }
      if ReadVolume(id).status != Active {
        return Revert(VolumeNotActive);
      }
      r := RetireInternal(id, OwnerDeleted);
      if r.Revert? {
        Rollback(saved);
      }
    }

    // ----- keeper API -------------------------------------------------------

    method Trigger(caller: Addr, id: Bytes32) returns (r: Result<TriggerOutcome>)
      modifies this
      ensures State() == Apply(cfg, old(State()), caller, CallTrigger(id))
      ensures match TriggerOne(cfg, old(State()), id)
              case Ok((_, outcome)) => r == Ok(outcome)
              case Revert(e) => r == Revert(e)
    {
      var saved := State();
      r := TriggerInternal(id);
      if r.Revert? {
        Rollback(saved);
      }
    }

    method TriggerBatch(caller: Addr, ids: seq<Bytes32>) returns (r: Result<()>)
      modifies this
      ensures State() == Apply(cfg, old(State()), caller, CallTriggerMany(ids))
      ensures r.Ok? == Exec(cfg, old(State()), caller, CallTriggerMany(ids)).Ok?
    {
      var saved := State();
      r := TriggerAll(ids);
      if r.Revert? {
        Rollback(saved);
      }
    }

    method TriggerAll(ids: seq<Bytes32>) returns (r: Result<()>)
      modifies this
      ensures match TriggerMany(cfg, old(State()), ids)
              case Ok(w) => r.Ok? && State() == w
              case Revert(_) => r.Revert?
    {
      ghost var saved := State();
      for i := 0 to |ids|
        invariant TriggerMany(cfg, saved, ids[..i]) == Ok(State())
      {
        assert ids[..i + 1][..i] == ids[..i];
        var outcome := TriggerInternal(ids[i]);
        if outcome.Revert? {
          RevertPropagates(saved, ids, i + 1);
          return Revert(outcome.error);
        }
      }
      assert ids[..|ids|] == ids;
      r := Ok(());
    }

    /** A revert at one item of a batch is a revert of the whole batch. */
    lemma {:induction false} RevertPropagates(w: World, ids: seq<Bytes32>, k: nat)
      requires k <= |ids| && TriggerMany(cfg, w, ids[..k]).Revert?
      ensures TriggerMany(cfg, w, ids).Revert?
      decreases |ids| - k
    {
      if k == |ids| {
        assert ids[..k] == ids;
      } else {
        assert ids[..k + 1][..k] == ids[..k];
        RevertPropagates(w, ids, k + 1);
      }
    }

    method ReapVolume(caller: Addr, id: Bytes32) returns (r: Result<()>)
      modifies this
      ensures State() == Apply(cfg, old(State()), caller, CallReap(id))
      ensures r.Ok? == Exec(cfg, old(State()), caller, CallReap(id)).Ok?
    {
      var saved := State();
      if ReadVolume(id).status != Active {
        return Ok(());
      }
      if ReadVolume(id).ttlExpiry != 0 && env.clock.now >= ReadVolume(id).ttlExpiry {
        r := RetireInternal(id, VolumeExpired);
        if r.Revert? {
          Rollback(saved);
        }
        return;
      }
      r := Ok(());
    }

    // ----- views ------------------------------------------------------------

    method GetActiveVolumes(offset: nat, limit: nat) returns (r: Result<seq<VolumeView>>)
      ensures r == ActivePage(State().reg, offset, limit)
    {
      var n := |activeVolumeIds|;
      if offset >= n {
        return Ok([]);
      }
      if offset + limit >= U256 {
        return Revert(Panic);
      }
      var end := offset + limit;
      if end > n {
        end := n;
      }
      var out := [];
      for i := 0 to end - offset
        invariant |out| == i
        invariant forall k :: 0 <= k < i ==> out[k] == ViewOf(State().reg, activeVolumeIds[offset + k])
      {
        out := out + [ViewOf(State().reg, activeVolumeIds[offset + i])];
      }
      assert out == ActivePage(State().reg, offset, limit).value;
      r := Ok(out);
    }

    // ----- internals: on a revert the caller rolls the state back -----------

    method Pull(payer: Addr, amount: nat) returns (r: Result<()>)
      modifies this`env
      ensures match PullAndApprove(cfg, old(State()), payer, amount)
              case Ok(w) => r.Ok? && State() == w
              case Revert(e) => r == Revert(e)
    {
      var moved := TransferFrom(env.token, env.clock.now, cfg.registry, payer, cfg.registry, amount);
      if moved.Revert? {
        return Revert(moved.error);
      }
      env := env.(token := moved.value);
      env := env.(token := Approve(env.token, cfg.registry, cfg.stamp, amount));
      r := Ok(());
    }

    method Mint(payer: Addr, chunkSigner: Addr, perChunk: nat, charge: nat, depth: nat, bucketDepth: nat)
      returns (r: Result<Bytes32>)
      modifies this
      ensures match MintBatch(cfg, old(State()), payer, chunkSigner, perChunk, charge, depth, bucketDepth)
              case Ok((w, batchId)) => r == Ok(batchId) && State() == w
              case Revert(e) => r == Revert(e)
    {
      var pulled := Pull(payer, charge);
      if pulled.Revert? {
        return Revert(pulled.error);
      }
      var nonce := nextNonce;
      nextNonce := (nextNonce + 1) % U256;
      var created := CreateBatch(cfg, env, chunkSigner, perChunk, depth, bucketDepth, nonce);
      if created.Revert? {
        return Revert(created.error);
      }
      env := created.value.0;
      if created.value.1 != Keccak(cfg.registry, nonce) {
        return Revert(BatchIdMismatch);
      }
      r := Ok(created.value.1);
    }

    method Record(caller: Addr, batchId: Bytes32, chunkSigner: Addr, depth: nat, ttlExpiry: nat)
      returns (r: Result<Bytes32>)
      modifies this
      ensures match RecordVolume(old(State()), caller, batchId, chunkSigner, depth, ttlExpiry)
              case Ok((w, id)) => r == Ok(id) && State() == w
              case Revert(e) => r == Revert(e)
    {
      var n := ReadAccount(caller).nonce;
      var id := Keccak(caller, n);
      accounts := accounts[caller := ReadAccount(caller).(nonce := (n + 1) % U64)];
      if ReadVolume(id).status != Absent {
        return Revert(VolumeIdCollision);
      }
      var idx := |activeVolumeIds| % U32;
      volumes := volumes[id := Volume(caller, chunkSigner, batchId, env.clock.now % U64, ttlExpiry, depth, Active, idx)];
      activeVolumeIds := activeVolumeIds + [id];
      r := Ok(id);
    }

    method RegisterInternal(caller: Addr, batchId: Bytes32, ttlExpiry: nat) returns (r: Result<Bytes32>)
      modifies this
      ensures match RegistrySpec.RegisterVolume(cfg, old(State()), caller, batchId, ttlExpiry)
              case Ok((w, id)) => r == Ok(id) && State() == w
              case Revert(e) => r == Revert(e)
    {
      if !ReadAccount(caller).active {
        return Revert(AccountNotActive);
      }
      if !Live(env.postage, batchId) {
        return Revert(BatchNotLive);
      }
      var b := env.postage.batches[batchId];
      if b.depth <= cfg.minimumBucketDepth {
        return Revert(BatchDepthTooSmall);
      }
      r := Record(caller, batchId, b.owner, b.depth, ttlExpiry);
      if r.Ok? {
        EmitEvent(VolumeImported(r.value, caller, batchId, b.owner, b.depth, ttlExpiry, b.normalisedBalance));
      }
    }

    method RetireInternal(id: Bytes32, reason: RetireReason) returns (r: Result<()>)
      modifies this
      ensures match Retire(old(State()), id, reason)
              case Ok(w) => r.Ok? && State() == w
              case Revert(e) => r == Revert(e)
    {
      var idx := ReadVolume(id).activeIndex;
      volumes := volumes[id := ReadVolume(id).(status := Retired)];
      if |activeVolumeIds| == 0 {
        return Revert(Panic);
      }
      var last := |activeVolumeIds| - 1;
      if idx != last {
        var lastId := activeVolumeIds[last];
        if idx >= |activeVolumeIds| {
          return Revert(Panic);
        }
        activeVolumeIds := activeVolumeIds[idx := lastId];
        volumes := volumes[lastId := ReadVolume(lastId).(activeIndex := idx)];
      }
      activeVolumeIds := activeVolumeIds[..last];
      volumes := volumes[id := ReadVolume(id).(activeIndex := 0)];
      EmitEvent(VolumeRetired(id, reason));
      r := Ok(());
    }

    method TriggerInternal(id: Bytes32) returns (r: Result<TriggerOutcome>)
      modifies this
      ensures match TriggerOne(cfg, old(State()), id)
              case Ok((w, outcome)) => r == Ok(outcome) && State() == w
              case Revert(e) => r == Revert(e)
    {
      var v := ReadVolume(id);
      if v.status != Active {
        EmitEvent(TopupSkipped(id, if v.status == Absent then NotFound else NotActive));
        return Ok(Skipped);
      }
      if !Exists(env.postage, v.batchId)
         || env.postage.batches[v.batchId].normalisedBalance <= env.postage.outPayment {
        r := RetireAs(id, BatchDied);
        return;
      }
      var b := env.postage.batches[v.batchId];
      if b.owner != v.chunkSigner {
        r := RetireAs(id, BatchOwnerMismatch);
        return;
      }
      if b.depth != v.depth {
        r := RetireAs(id, DepthChanged);
        return;
      }
      if v.ttlExpiry != 0 && env.clock.now >= v.ttlExpiry {
        r := RetireAs(id, VolumeExpired);
        return;
      }
      var account := ReadAccount(v.owner);
      if !account.active {
        EmitEvent(TopupSkipped(id, NoAuth));
        return Ok(Skipped);
      }
      var remaining := b.normalisedBalance - env.postage.outPayment;
      var target := env.postage.lastPrice * cfg.graceBlocks;
      if remaining >= target {
        return Ok(NoDeficit);
      }
      var deficit := target - remaining;
      var amount := Shl(deficit, v.depth);
      if !CanPull(cfg, env, account.payer, amount) {
        EmitEvent(TopupSkipped(id, PaymentFailed));
        return Ok(Skipped);
      }
      var paid := PayInternal(id, account.payer, deficit, amount);
      r := if paid.Ok? then Ok(ToppedUp) else Revert(paid.error);
    }

    method PayInternal(id: Bytes32, payer: Addr, deficit: nat, amount: nat) returns (r: Result<()>)
      requires ReadVolume(id).batchId in env.postage.batches
      modifies this
      ensures match PayDeficit(cfg, old(State()), id, payer, deficit, amount)
              case Ok(w) => r.Ok? && State() == w
              case Revert(e) => r == Revert(e)
    {
      var batchId := ReadVolume(id).batchId;
      var before := env.postage.batches[batchId].normalisedBalance;
      var pulled := Pull(payer, amount);
      if pulled.Revert? {
        return Revert(pulled.error);
      }
      var topped := TopUp(cfg, env, batchId, deficit);
      if topped.Revert? {
        return Revert(topped.error);
      }
      env := topped.value;
      EmitEvent(Toppedup(id, amount, before + deficit));
      r := Ok(());
    }

    method RetireAs(id: Bytes32, reason: RetireReason) returns (r: Result<TriggerOutcome>)
      modifies this
      ensures match Retire(old(State()), id, reason)
              case Ok(w) => r == Ok(RetiredNow) && State() == w
              case Revert(e) => r == Revert(e)
    {
      var retired := RetireInternal(id, reason);
      r := if retired.Ok? then Ok(RetiredNow) else Revert(retired.error);
    }
  }
}
