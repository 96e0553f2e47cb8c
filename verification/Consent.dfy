/** Who may pay for whom, read off the log alone: which designations, confirmations and revocations go through. */
module Consent {
  import opened Machine
  import opened Chain
  import opened RegistrySpec
  import opened Effects
  import opened History
  import opened Invariants
  import opened Steps
  import opened Runs

  // ----- the last row about an account ---------------------------------------

  ghost predicate LastDesignation(log: seq<Row>, k: nat, owner: Addr) {
    && k < |log| && log[k].event.PayerDesignated? && log[k].event.owner == owner
    && forall m :: k < m < |log| ==> !(log[m].event.PayerDesignated? && log[m].event.owner == owner)
  }

  /** Row k is the last confirmation for `owner`; revocations may follow it. */
  ghost predicate LastActivation(log: seq<Row>, k: nat, owner: Addr) {
    && k < |log| && log[k].event.AccountActivated? && log[k].event.owner == owner
    && forall m :: k < m < |log| ==> !(log[m].event.AccountActivated? && log[m].event.owner == owner)
  }

  lemma {:induction false} DesignatedByLast(log: seq<Row>, k: nat, owner: Addr)
    requires LastDesignation(log, k, owner)
    ensures DesignatedIn(log, owner) == log[k].event.payer
  {
    if k < |log| - 1 {
      assert !(log[|log| - 1].event.PayerDesignated? && log[|log| - 1].event.owner == owner);
      assert forall m :: k < m < |Init(log)| ==> Init(log)[m] == log[m];
      DesignatedByLast(Init(log), k, owner);
    }
  }

  lemma {:induction false} DesignationRow(log: seq<Row>, owner: Addr) returns (k: nat)
    requires DesignatedIn(log, owner) != ZERO_ADDRESS
    ensures LastDesignation(log, k, owner)
  {
    if Last(log).event.PayerDesignated? && Last(log).event.owner == owner {
      k := |log| - 1;
    } else {
      k := DesignationRow(Init(log), owner);
      forall m | k < m < |log|
        ensures !(log[m].event.PayerDesignated? && log[m].event.owner == owner)
      {
        if m < |log| - 1 {
          assert log[m] == Init(log)[m];
        }
      }
    }
  }

  lemma RevokedBefore(log: seq<Row>)
    requires log != [] && RevokedBySides(log)
    ensures RevokedBySides(Init(log)) && RevocationFits(Init(log), Last(log).event)
  {
    assert forall k :: 0 <= k < |Init(log)| ==> Init(log)[k] == log[k] && Init(log)[..k] == log[..k];
  }

  /** Revocations keep the payer: it is the last confirmation's, and the account is active when no revocation follows. */
  lemma {:induction false} PayerByLast(log: seq<Row>, k: nat, owner: Addr)
    requires LastActivation(log, k, owner) && RevokedBySides(log)
    ensures AuthIn(log, owner).payer == log[k].event.payer
    ensures AuthIn(log, owner).active <==> LastWord(log, k, owner)
  {
    hide RevokedBySides;
    if k < |log| - 1 {
      assert !(log[|log| - 1].event.AccountActivated? && log[|log| - 1].event.owner == owner);
      assert forall m :: k < m < |Init(log)| ==> Init(log)[m] == log[m];
      RevokedBefore(log);
      PayerByLast(Init(log), k, owner);
    }
  }

  lemma {:induction false} PayerRow(log: seq<Row>, owner: Addr) returns (k: nat)
    requires AuthIn(log, owner) != Auth(ZERO_ADDRESS, false) && RevokedBySides(log)
    ensures LastActivation(log, k, owner)
  {
    hide RevokedBySides;
    if Last(log).event.AccountActivated? && Last(log).event.owner == owner {
      k := |log| - 1;
    } else {
      RevokedBefore(log);
      k := PayerRow(Init(log), owner);
      forall m | k < m < |log|
        ensures !(log[m].event.AccountActivated? && log[m].event.owner == owner)
      {
        if m < |log| - 1 {
          assert log[m] == Init(log)[m];
        }
      }
    }
  }

  /** What a reachable registry holds about one owner, row by row. */
  lemma AccountOnRecord(cfg: Config, ws: seq<World>, ls: seq<Label>, i: nat, owner: Addr)
    requires Run(cfg, ws, ls) && i < |ws|
    ensures var log := ws[i].env.log;
            && (forall k: nat :: LastDesignation(log, k, owner) ==> DesignatedAt(ws[i].reg, owner) == log[k].event.payer)
            && (DesignatedAt(ws[i].reg, owner) != ZERO_ADDRESS ==> exists k: nat :: LastDesignation(log, k, owner))
            && (forall k: nat :: LastActivation(log, k, owner) ==>
                  AccountAt(ws[i].reg, owner).payer == log[k].event.payer
                  && (AccountAt(ws[i].reg, owner).active <==> LastWord(log, k, owner)))
            && (AccountAt(ws[i].reg, owner).payer != ZERO_ADDRESS || AccountAt(ws[i].reg, owner).active ==>
                  exists k: nat :: LastActivation(log, k, owner))
  {
    InvAlways(cfg, ws, ls, i);
    var w := ws[i];
    hide Run, Inv, RegInv, VolumeReplay, ClockInv, NoAllowance, LastWord, LastDesignation, LastActivation;
    InvRest(cfg, w);
    LogIsBilateral(w.env.log);
    hide AuthReplay, LogInv, RevokedBySides;
    AccountReplayed(w.reg, w.env.log, owner);
    forall k: nat | LastDesignation(w.env.log, k, owner)
      ensures DesignatedAt(w.reg, owner) == w.env.log[k].event.payer
    {
      DesignatedByLast(w.env.log, k, owner);
    }
    forall k: nat | LastActivation(w.env.log, k, owner)
      ensures AccountAt(w.reg, owner).payer == w.env.log[k].event.payer
      ensures AccountAt(w.reg, owner).active <==> LastWord(w.env.log, k, owner)
    {
      PayerByLast(w.env.log, k, owner);
    }
    if DesignatedAt(w.reg, owner) != ZERO_ADDRESS {
      var k := DesignationRow(w.env.log, owner);
    }
    if AccountAt(w.reg, owner).payer != ZERO_ADDRESS || AccountAt(w.reg, owner).active {
      var k := PayerRow(w.env.log, owner);
    }
  }

  lemma LogIsBilateral(log: seq<Row>)
    requires LogInv(log)
    ensures RevokedBySides(log)
  {
  }

  lemma AccountReplayed(reg: Registry, log: seq<Row>, owner: Addr)
    requires AuthReplay(reg, log)
    ensures DesignatedIn(log, owner) == DesignatedAt(reg, owner)
    ensures AuthIn(log, owner) == Auth(AccountAt(reg, owner).payer, AccountAt(reg, owner).active)
  {
  }

  // ----- the account calls --------------------------------------------------

  /** Only `owner`'s account may differ; every other account, the volumes and the designations are as they were. */
  ghost predicate AccountAlone(reg: Registry, reg': Registry, owner: Addr) {
    && reg' == reg.(accounts := reg'.accounts)
    && forall other :: other != owner ==> AccountAt(reg', other) == AccountAt(reg, other)
  }

  /** The owner itself, or the payer of its last confirmation. */
  ghost predicate MayRevoke(log: seq<Row>, caller: Addr, owner: Addr) {
    caller == owner || exists k: nat :: LastActivation(log, k, owner) && log[k].event.payer == caller
  }

  /** The payer the owner's last designation names. */
  ghost predicate MayConfirm(log: seq<Row>, caller: Addr, owner: Addr) {
    exists k: nat :: LastDesignation(log, k, owner) && log[k].event.payer == caller
  }

  /** A revocation goes through exactly for the owner and for the payer of the owner's last confirmation. It leaves the
      account inactive, its payer and nonce kept, logs who revoked whom, and touches nothing else. */
  lemma RevokesExactlyWhen(cfg: Config, ws: seq<World>, ls: seq<Label>, i: nat, caller: Addr, owner: Addr)
    requires Run(cfg, ws, ls) && i < |ws| && Outsider(cfg, caller)
    ensures var w := ws[i];
            var r := Exec(cfg, w, caller, CallRevoke(owner));
            var account := AccountAt(w.reg, owner);
            if !MayRevoke(w.env.log, caller, owner) then r == Revert(NotAuthorizedToRevoke)
            else
              && r.Ok? && AccountAlone(w.reg, r.value.reg, owner)
              && AccountAt(r.value.reg, owner) == Account(account.payer, false, account.nonce)
              && r.value.env == EmitEnv(w.env, AccountRevoked(owner, account.payer, caller))
  {
    AccountOnRecord(cfg, ws, ls, i, owner);
    hide Run, LastActivation, LastDesignation, LastWord;
  }

  /** A confirmation goes through exactly for the payer named by the owner's last designation. It makes that payer the
      active one, keeps the nonce, and touches nothing else. */
  lemma ConfirmsExactlyWhen(cfg: Config, ws: seq<World>, ls: seq<Label>, i: nat, caller: Addr, owner: Addr)
    requires Run(cfg, ws, ls) && i < |ws| && Outsider(cfg, caller)
    ensures var w := ws[i];
            var r := Exec(cfg, w, caller, CallConfirmAuth(owner));
            if !MayConfirm(w.env.log, caller, owner) then r == Revert(NotDesignated)
            else
              && r.Ok? && AccountAlone(w.reg, r.value.reg, owner)
              && AccountAt(r.value.reg, owner) == Account(caller, true, AccountAt(w.reg, owner).nonce)
              && r.value.env == EmitEnv(w.env, AccountActivated(owner, caller))
  {
    AccountOnRecord(cfg, ws, ls, i, owner);
    hide Run, LastActivation, LastDesignation, LastWord;
  }

  /** A designation always goes through and replaces the caller's earlier one: from then on its new payer alone can
      confirm. It grants and takes away nothing by itself, and no other owner's designation moves. */
  lemma DesignationReplaces(cfg: Config, w: World, caller: Addr, payer: Addr, other: Addr)
    ensures var r := Exec(cfg, w, caller, CallDesignate(payer));
            && r.Ok?
            && r.value.reg == w.reg.(designated := r.value.reg.designated)
            && r.value.env == EmitEnv(w.env, PayerDesignated(caller, payer))
            && LastDesignation(r.value.env.log, |w.env.log|, caller)
            && (Exec(cfg, r.value, other, CallConfirmAuth(caller)).Ok? <==> other == payer)
            && forall owner, confirmer :: owner != caller ==>
                 (Exec(cfg, r.value, confirmer, CallConfirmAuth(owner)).Ok? <==>
                  Exec(cfg, w, confirmer, CallConfirmAuth(owner)).Ok?)
  {
  }
}
