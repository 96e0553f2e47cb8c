/** What the registry stands on: addresses, hashes, events, the BZZ token and PostageStamp. */
module Chain {
  import opened Machine

  type Addr = nat
  const ZERO_ADDRESS: Addr := 0

  /** A 32-byte word: either a hash of (address, salt), injective by construction, or any other word. */
  datatype Bytes32 = Keccak(who: Addr, salt: nat) | Word(value: nat)

  datatype Error =
    | ZeroAddress | AccountNotActive | NotVolumeOwner | VolumeNotActive | NotDesignated
    | NotAuthorizedToRevoke | BatchNotLive | BatchDepthTooSmall | ImportTopupFailed
    | VolumeIdCollision | BatchIdMismatch | Panic
    | TokenRefused | TokenPaused
    | GraceBlocksBelowFloor(grace: nat, floor: nat) | NoExpirations
    | PostagePaused | InvalidDepth | BatchExists | BatchDoesNotExist | BatchExpired
    | BatchTooSmall | InsufficientBalance | ZeroBalance

  datatype Result<+T> = Ok(value: T) | Revert(error: Error) {
    predicate IsFailure() {
      Revert?
    }

    function PropagateFailure<U>(): Result<U>
      requires Revert?
    {
      Revert(error)
    }

    function Extract(): T
      requires Ok?
    {
      value
    }
  }

  datatype RetireReason = OwnerDeleted | VolumeExpired | BatchDied | DepthChanged | BatchOwnerMismatch
  datatype SkipReason = NoAuth | PaymentFailed | NotFound | NotActive

  /** The registry's events, and `FeeTransfer`: a BZZ `Transfer` from the registry to PostageStamp. */
  datatype Event =
    | PayerDesignated(owner: Addr, payer: Addr)
    | AccountActivated(owner: Addr, payer: Addr)
    | AccountRevoked(owner: Addr, payer: Addr, revoker: Addr)
    | VolumeCreated(id: Bytes32, owner: Addr, batchId: Bytes32, chunkSigner: Addr, depth: nat, ttlExpiry: nat)
    | VolumeImported(id: Bytes32, owner: Addr, batchId: Bytes32, chunkSigner: Addr, depth: nat, ttlExpiry: nat,
                     normalisedBalance: nat)
    | VolumeRetired(id: Bytes32, retireReason: RetireReason)
    | Toppedup(id: Bytes32, amount: nat, newNormalisedBalance: nat)
    | TopupSkipped(id: Bytes32, skipReason: SkipReason)
    | FeeTransfer(value: nat)

  /** One captured log, stamped with its place in the chain. */
  datatype Row = Row(block: nat, ts: nat, tx: nat, logIndex: nat, event: Event)

  datatype Clock = Clock(block: nat, now: nat, tx: nat, logIndex: nat)

  /** The constants of one deployment. */
  datatype Config = Config(registry: Addr, stamp: Addr, bzz: Addr, graceBlocks: nat, bzzPermitExpiry: bool,
                           minimumBucketDepth: nat)

  ghost predicate ValidConfig(cfg: Config) {
    && cfg.registry != ZERO_ADDRESS && cfg.stamp != ZERO_ADDRESS && cfg.registry != cfg.stamp
    && cfg.graceBlocks < U64
  }

  // ----- the BZZ token ------------------------------------------------------

  /** An ERC-20 whose unlimited allowances may, when `permittable`, carry an expiry. */
  datatype Token = Token(balances: map<Addr, nat>, allowances: map<(Addr, Addr), nat>,
                         expirations: map<(Addr, Addr), nat>, permittable: bool, paused: bool)

  function BalanceOf(t: Token, who: Addr): nat {
    if who in t.balances then t.balances[who] else 0
  }

  function Allowance(t: Token, holder: Addr, spender: Addr): nat {
    if (holder, spender) in t.allowances then t.allowances[(holder, spender)] else 0
  }

  function Expiration(t: Token, holder: Addr, spender: Addr): nat {
    if (holder, spender) in t.expirations then t.expirations[(holder, spender)] else 0
  }

  predicate PermitExpired(t: Token, now: nat, holder: Addr, spender: Addr) {
    && t.permittable
    && Allowance(t, holder, spender) == MAX_UINT256
    && Expiration(t, holder, spender) != 0
    && Expiration(t, holder, spender) < now
  }

  function Approve(t: Token, holder: Addr, spender: Addr, amount: nat): Token {
    t.(allowances := t.allowances[(holder, spender) := amount])
  }

  function Move(t: Token, from: Addr, to: Addr, amount: nat): Token
    requires amount <= BalanceOf(t, from)
  {
    var debited := t.(balances := t.balances[from := BalanceOf(t, from) - amount]);
    debited.(balances := debited.balances[to := BalanceOf(debited, to) + amount])
  }

  function TransferFrom(t: Token, now: nat, spender: Addr, from: Addr, to: Addr, amount: nat): Result<Token> {
    var allowed := Allowance(t, from, spender);
    if t.paused then Revert(TokenPaused)
    else if from == ZERO_ADDRESS || to == ZERO_ADDRESS then Revert(TokenRefused)
    else if BalanceOf(t, from) < amount || allowed < amount then Revert(TokenRefused)
    else if PermitExpired(t, now, from, spender) then Revert(TokenRefused)
    else
      var moved := Move(t, from, to, amount);
      Ok(if allowed == MAX_UINT256 then moved else Approve(moved, from, spender, allowed - amount))
  }

  // ----- PostageStamp -------------------------------------------------------

  datatype Batch = Batch(owner: Addr, depth: nat, normalisedBalance: nat)

  /** `outPayment` is `currentTotalOutPayment()`: every block adds `lastPrice` to it. */
  datatype Postage = Postage(batches: map<Bytes32, Batch>, outPayment: nat, lastPrice: nat,
                             minimumValidityBlocks: nat, paused: bool)

  predicate Exists(p: Postage, batchId: Bytes32) {
    batchId in p.batches && p.batches[batchId].owner != ZERO_ADDRESS
  }

  /** Liveness is strict: a balance equal to the total out-payment is already dead. */
  predicate Live(p: Postage, batchId: Bytes32) {
    Exists(p, batchId) && p.batches[batchId].normalisedBalance > p.outPayment
  }

  function Remaining(p: Postage, batchId: Bytes32): nat
    requires Live(p, batchId)
  {
    p.batches[batchId].normalisedBalance - p.outPayment
  }

  // ----- the environment of one call ---------------------------------------

  datatype Env = Env(token: Token, postage: Postage, clock: Clock, log: seq<Row>)

  function Stamped(clock: Clock, e: Event): Row {
    Row(clock.block, clock.now, clock.tx, clock.logIndex, e)
  }

  function EmitEnv(env: Env, e: Event): Env {
    env.(log := env.log + [Stamped(env.clock, e)], clock := env.clock.(logIndex := env.clock.logIndex + 1))
  }

  /** PostageStamp pulling its fee from the registry; the token's `Transfer` log is captured. */
  function PullFee(cfg: Config, env: Env, total: nat): Result<Env> {
    var token :- TransferFrom(env.token, env.clock.now, cfg.stamp, cfg.registry, cfg.stamp, total);
    Ok(EmitEnv(env.(token := token), FeeTransfer(total)))
  }

  /** `PostageStamp.topUp`, called by the registry. */
  function TopUp(cfg: Config, env: Env, batchId: Bytes32, perChunk: nat): Result<Env> {
    var p := env.postage;
    if p.paused then Revert(PostagePaused)
    else if !Exists(p, batchId) then Revert(BatchDoesNotExist)
    else if !Live(p, batchId) then Revert(BatchExpired)
    else
      var b := p.batches[batchId];
      var total := perChunk * Pow2(b.depth);
      if b.depth <= cfg.minimumBucketDepth then Revert(BatchTooSmall)
      else if Remaining(p, batchId) + perChunk < p.minimumValidityBlocks * p.lastPrice then
        Revert(InsufficientBalance)
      else if total >= U256 || b.normalisedBalance + perChunk >= U256 then Revert(Panic)
      else
        var paid :- PullFee(cfg, env, total);
        var raised := b.(normalisedBalance := b.normalisedBalance + perChunk);
        Ok(paid.(postage := p.(batches := p.batches[batchId := raised])))
  }

  /** `PostageStamp.createBatch`, called by the registry. */
  function CreateBatch(cfg: Config, env: Env, owner: Addr, perChunk: nat, depth: nat, bucketDepth: nat,
                       nonce: nat): Result<(Env, Bytes32)>
  {
    var p := env.postage;
    var batchId := Keccak(cfg.registry, nonce);
    var total := perChunk * Pow2(depth);
    if p.paused then Revert(PostagePaused)
    else if owner == ZERO_ADDRESS then Revert(ZeroAddress)
    else if bucketDepth < cfg.minimumBucketDepth || bucketDepth >= depth then Revert(InvalidDepth)
    else if Exists(p, batchId) then Revert(BatchExists)
    else if perChunk < p.minimumValidityBlocks * p.lastPrice then Revert(InsufficientBalance)
    else if total >= U256 || p.outPayment + perChunk >= U256 then Revert(Panic)
    else if p.outPayment + perChunk == 0 then Revert(ZeroBalance)
    else
      var paid :- PullFee(cfg, env, total);
      var batch := Batch(owner, depth, p.outPayment + perChunk);
      Ok((paid.(postage := p.(batches := p.batches[batchId := batch])), batchId))
  }
}
