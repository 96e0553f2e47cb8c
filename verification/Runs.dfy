/** Whole runs: any interleaving of registry calls with an environment that may do nearly anything in between. */
module Runs {
  import opened Machine
  import opened Chain
  import opened RegistrySpec
  import opened Effects
  import opened History
  import opened Invariants
  import opened Steps

  // ----- the runs -----------------------------------------------------------

  predicate ClockMoves(c: Clock, c': Clock) {
    && c.block <= c'.block && c.now <= c'.now && c.tx <= c'.tx
    && (c.block == c'.block ==> c.now == c'.now && c.logIndex <= c'.logIndex)
    && (c.tx == c'.tx ==> c.block == c'.block)
  }

  /** Between calls: blocks pass, prices move, signers deepen or others mint, top up and expire batches, holders
      transfer, approve, permit and revoke. Only the registry's own fields, log and allowances are out of reach. */
  ghost predicate EnvironmentMoves(cfg: Config, w: World, w': World) {
    && w'.reg == w.reg && w'.env.log == w.env.log
    && ClockMoves(w.env.clock, w'.env.clock)
    && (forall s :: Allowance(w'.env.token, cfg.registry, s) == Allowance(w.env.token, cfg.registry, s))
  }

  datatype Label = Environment | Invoke(caller: Addr, call: Call)

  ghost predicate StepOf(cfg: Config, w: World, l: Label, w': World) {
    match l
    case Environment => EnvironmentMoves(cfg, w, w')
    case Invoke(caller, call) => Outsider(cfg, caller) && HasRoom(w, caller) && w' == Apply(cfg, w, caller, call)
  }

  ghost predicate Initial(cfg: Config, w: World) {
    && ValidConfig(cfg) && NoAllowance(cfg, w.env.token)
    && w.reg == Registry(map[], map[], map[], [], 0) && w.env.log == []
  }

  ghost predicate Run(cfg: Config, ws: seq<World>, ls: seq<Label>) {
    && |ws| == |ls| + 1
    && Initial(cfg, ws[0])
    && forall i :: 0 <= i < |ls| ==> StepOf(cfg, ws[i], ls[i], ws[i + 1])
  }

  lemma EnvironmentKeepsInv(cfg: Config, w: World, w': World)
    requires Inv(cfg, w) && EnvironmentMoves(cfg, w, w')
    ensures Inv(cfg, w')
  {
    hide RegInv, AuthReplay, VolumeReplay, LogInv, Ordered;
    var next, next' := Stamped(w.env.clock, FeeTransfer(0)), Stamped(w'.env.clock, FeeTransfer(0));
    forall i | 0 <= i < |w'.env.log|
      ensures Precedes(w'.env.log[i], next') && Consistent(w'.env.log[i], next')
    {
      assert Precedes(w.env.log[i], next) && Consistent(w.env.log[i], next);
    }
  }

  lemma StepKeepsInv(cfg: Config, w: World, l: Label, w': World)
    requires Inv(cfg, w) && StepOf(cfg, w, l, w')
    ensures Inv(cfg, w')
    ensures RecordsKept(w.reg, w'.reg) && w.env.log <= w'.env.log && ClockMoves(w.env.clock, w'.env.clock)
    ensures if l.Invoke? then MoneyKept(cfg, w.env, w'.env) else w'.env.log == w.env.log
  {
    hide Apply, RecordsKept, MoneyKept;
    match l
    case Environment =>
      EnvironmentKeepsInv(cfg, w, w');
      RecordsKeptReflexive(w.reg, w'.reg);
    case Invoke(caller, call) => ApplyGood(cfg, w, caller, call);
  }

  lemma InitialInv(cfg: Config, w: World)
    requires Initial(cfg, w)
    ensures Inv(cfg, w)
  {
  }

  lemma {:induction false} InvAlways(cfg: Config, ws: seq<World>, ls: seq<Label>, i: nat)
    requires Run(cfg, ws, ls) && i < |ws|
    ensures Inv(cfg, ws[i])
  {
    hide StepOf, Inv;
    if i == 0 {
      InitialInv(cfg, ws[0]);
    } else {
      InvAlways(cfg, ws, ls, i - 1);
      assert StepOf(cfg, ws[i - 1], ls[i - 1], ws[i]);
      StepKeepsInv(cfg, ws[i - 1], ls[i - 1], ws[i]);
    }
  }

  // ----- finality -----------------------------------------------------------

  /** From any moment on: identities never change, a Retired record never changes at all, ids and log only grow. */
  lemma {:induction false} RetirementIsFinal(cfg: Config, ws: seq<World>, ls: seq<Label>, i: nat, j: nat)
    requires Run(cfg, ws, ls) && i <= j < |ws|
    ensures RecordsKept(ws[i].reg, ws[j].reg)
    ensures ws[i].env.log <= ws[j].env.log && ws[i].env.clock.now <= ws[j].env.clock.now
    decreases j
  {
    hide StepOf, Inv;
    if i == j {
      RecordsKeptReflexive(ws[i].reg, ws[j].reg);
    } else {
      RetirementIsFinal(cfg, ws, ls, i, j - 1);
      InvAlways(cfg, ws, ls, j - 1);
      assert StepOf(cfg, ws[j - 1], ls[j - 1], ws[j]);
      StepKeepsInv(cfg, ws[j - 1], ls[j - 1], ws[j]);
    }
  }

  // ----- money --------------------------------------------------------------

  /** What registry calls have taken from `a` in the first i steps, read off the token alone. */
  ghost function PulledFrom(ws: seq<World>, ls: seq<Label>, a: Addr, i: nat): int
    requires i <= |ls| && |ws| == |ls| + 1
  {
    if i == 0 then 0
    else PulledFrom(ws, ls, a, i - 1)
         + (if ls[i - 1].Invoke? then BalanceOf(ws[i - 1].env.token, a) - BalanceOf(ws[i].env.token, a) else 0)
  }

  /** Over every run the registry takes from an outsider exactly what the log charges to it as the confirmed payer of
      an active account; PostageStamp receives exactly the logged fees; the registry keeps nothing. */
  lemma {:induction false} EveryPullIsCharged(cfg: Config, ws: seq<World>, ls: seq<Label>, i: nat, a: Addr)
    requires Run(cfg, ws, ls) && i <= |ls|
    ensures Outsider(cfg, a) ==> PulledFrom(ws, ls, a, i) == Charged(ws[i].env.log, a)
    ensures a == cfg.stamp ==> PulledFrom(ws, ls, a, i) + Fees(ws[i].env.log) == 0
    ensures a == cfg.registry ==> PulledFrom(ws, ls, a, i) == 0
  {
    hide StepOf, Inv, RecordsKept, Outsider;
    if i > 0 {
      EveryPullIsCharged(cfg, ws, ls, i - 1, a);
      InvAlways(cfg, ws, ls, i - 1);
      assert StepOf(cfg, ws[i - 1], ls[i - 1], ws[i]);
      StepKeepsInv(cfg, ws[i - 1], ls[i - 1], ws[i]);
    }
  }

  /** Between calls nobody, PostageStamp included, holds an allowance from the registry. */
  lemma NoResidualAllowance(cfg: Config, ws: seq<World>, ls: seq<Label>, i: nat, spender: Addr)
    requires Run(cfg, ws, ls) && i < |ws|
    ensures Allowance(ws[i].env.token, cfg.registry, spender) == 0
  {
    InvAlways(cfg, ws, ls, i);
  }

  // ----- consent ------------------------------------------------------------

  /** No account row of `owner` follows position k. */
  ghost predicate LastWord(log: seq<Row>, k: nat, owner: Addr) {
    forall m :: k < m < |log| ==>
      !(log[m].event.AccountActivated? && log[m].event.owner == owner)
      && !(log[m].event.AccountRevoked? && log[m].event.owner == owner)
  }

  lemma {:induction false} ActivationRow(log: seq<Row>, owner: Addr) returns (k: nat)
    requires AuthIn(log, owner).active
    ensures k < |log| && log[k].event == AccountActivated(owner, AuthIn(log, owner).payer)
    ensures LastWord(log, k, owner)
  {
    if Last(log).event.AccountActivated? && Last(log).event.owner == owner {
      k := |log| - 1;
    } else {
      k := ActivationRow(Init(log), owner);
      forall m | k < m < |log|
        ensures !(log[m].event.AccountActivated? && log[m].event.owner == owner)
        ensures !(log[m].event.AccountRevoked? && log[m].event.owner == owner)
      {
        if m < |log| - 1 {
          assert log[m] == Init(log)[m];
        }
      }
    }
  }

  /** An account is active only on both sides' word: its payer confirmed while being the owner's current designation,
      and neither side has revoked since. */
  lemma ActiveNeedsBothSides(cfg: Config, ws: seq<World>, ls: seq<Label>, i: nat, owner: Addr) returns (k: nat)
    requires Run(cfg, ws, ls) && i < |ws| && AccountAt(ws[i].reg, owner).active
    ensures var log := ws[i].env.log;
            var payer := AccountAt(ws[i].reg, owner).payer;
            && k < |log| && log[k].event == AccountActivated(owner, payer)
            && DesignatedIn(log[..k], owner) == payer
            && LastWord(log, k, owner)
  {
    InvAlways(cfg, ws, ls, i);
    k := ActivationRow(ws[i].env.log, owner);
  }

  /** No payment for `owner` follows a revocation unless a confirmation comes in between. */
  lemma RevocationStopsPayments(cfg: Config, ws: seq<World>, ls: seq<Label>, i: nat, j: nat, k: nat) returns (m: nat)
    requires Run(cfg, ws, ls) && i < |ws| && j < k < |ws[i].env.log|
    requires ws[i].env.log[j].event.AccountRevoked? && IsPayment(ws[i].env.log[k].event)
    requires BilledIn(ws[i].env.log[..k], ws[i].env.log[k].event) == Some(ws[i].env.log[j].event.owner)
    ensures j < m < k && ws[i].env.log[m].event.AccountActivated?
    ensures ws[i].env.log[m].event.owner == ws[i].env.log[j].event.owner
  {
    InvAlways(cfg, ws, ls, i);
    var log, owner := ws[i].env.log, ws[i].env.log[j].event.owner;
    m := ActivationRow(log[..k], owner);
    assert log[..k][j] == log[j] && log[..k][m] == log[m];
  }
}
