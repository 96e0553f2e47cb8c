/** The log tells each record in full: every recorded field, and every field of a view, can be read off its rows. */
module OnRecord {
  import opened Machine
  import opened Chain
  import opened RegistrySpec
  import opened Effects
  import opened History
  import opened Invariants
  import opened Steps
  import opened Runs
  import opened Trigger
  import opened Outcomes

  /** The row admits `id` with exactly the fields its record holds, the creation time included. */
  predicate Admits(r: Row, id: Bytes32, v: Volume) {
    && IsAdmit(r.event) && r.event.id == id
    && v == Volume(r.event.owner, r.event.chunkSigner, r.event.batchId, r.ts % U64, r.event.ttlExpiry, r.event.depth,
                   v.status, v.activeIndex)
  }

  predicate OnLog(log: seq<Row>, k: nat, id: Bytes32, v: Volume) {
    k < |log| && Admits(log[k], id, v)
  }

  /** Only a successful creating call records a volume, and only the one its caller's nonce names. */
  lemma NewRecordIsTheCallers(cfg: Config, w: World, caller: Addr, call: Call, id: Bytes32)
    requires Inv(cfg, w) && Outsider(cfg, caller) && HasRoom(w, caller)
    requires VolumeAt(w.reg, id).status == Absent && VolumeAt(Apply(cfg, w, caller, call).reg, id).status != Absent
    ensures IsCreating(call) && Exec(cfg, w, caller, call).Ok? && id == Keccak(caller, AccountAt(w.reg, caller).nonce)
  {
    hide Inv, Apply, Exec, IsCreating, HasRoom, Outsider, IndexInv, RecordInv;
    ApplyGood(cfg, w, caller, call);
    InvFields(cfg, w);
    InvFields(cfg, Apply(cfg, w, caller, call));
    NonceCountsCreatingCalls(cfg, w, caller, call, id.who);
  }

  lemma CreationOnLog(cfg: Config, w: World, caller: Addr, chunkSigner: Addr, depth: nat, bucketDepth: nat, ttlExpiry: nat)
    returns (k: nat)
    requires Inv(cfg, w) && CreateVolume(cfg, w, caller, chunkSigner, depth, bucketDepth, ttlExpiry).Ok?
    ensures var w' := CreateVolume(cfg, w, caller, chunkSigner, depth, bucketDepth, ttlExpiry).value.0;
            var id := Keccak(caller, AccountAt(w.reg, caller).nonce);
            OnLog(w'.env.log, k, id, VolumeAt(w'.reg, id))
  {
    PayersAreOutsiders(cfg, w, caller);
    hide Inv, CreateVolume, PaidThrough, Outsider, ValidConfig;
    var minted, batchId := CreateVolumeEffect(cfg, w, caller, chunkSigner, depth, bucketDepth, ttlExpiry);
    k := |minted.env.log|;
  }

  lemma RegistrationOnLog(cfg: Config, w: World, caller: Addr, batchId: Bytes32, ttlExpiry: nat) returns (k: nat)
    requires Inv(cfg, w) && RegisterVolume(cfg, w, caller, batchId, ttlExpiry).Ok?
    ensures var (w', id) := RegisterVolume(cfg, w, caller, batchId, ttlExpiry).value;
            id == Keccak(caller, AccountAt(w.reg, caller).nonce) && OnLog(w'.env.log, k, id, VolumeAt(w'.reg, id))
  {
    RegisterSucceedsExactlyWhen(cfg, w, caller, batchId, ttlExpiry);
    hide Inv, RegisterVolume;
    k := |w.env.log|;
  }

  lemma StaysOnLog(w: World, w': World, k: nat, id: Bytes32)
    requires OnLog(w.env.log, k, id, VolumeAt(w.reg, id)) && w.env.log <= w'.env.log
    requires SameIdentity(VolumeAt(w.reg, id), VolumeAt(w'.reg, id))
    ensures OnLog(w'.env.log, k, id, VolumeAt(w'.reg, id))
  {
  }

  lemma ImportOnLog(cfg: Config, w: World, caller: Addr, batchId: Bytes32, ttlExpiry: nat) returns (k: nat)
    requires Inv(cfg, w) && Outsider(cfg, caller) && HasRoom(w, caller)
    requires ImportVolume(cfg, w, caller, batchId, ttlExpiry).Ok?
    ensures var w' := ImportVolume(cfg, w, caller, batchId, ttlExpiry).value.0;
            var id := Keccak(caller, AccountAt(w.reg, caller).nonce);
            OnLog(w'.env.log, k, id, VolumeAt(w'.reg, id))
  {
    hide Inv, RegisterVolume, ImportVolume, TriggerOne, OnLog, TriggerRows, Retires, RecordsKept, MoneyKept, Outsider;
    var registered, id := ImportParts(cfg, w, caller, batchId, ttlExpiry);
    k := RegistrationOnLog(cfg, w, caller, batchId, ttlExpiry);
    RegisterGood(cfg, w, caller, batchId, ttlExpiry);
    TriggerWrites(cfg, registered, id);
    TriggerGood(cfg, registered, id);
    StaysOnLog(registered, TriggerOne(cfg, registered, id).value.0, k, id);
  }

  lemma CallOnLog(cfg: Config, w: World, caller: Addr, call: Call, id: Bytes32) returns (k: nat)
    requires Inv(cfg, w) && Outsider(cfg, caller) && HasRoom(w, caller)
    requires VolumeAt(w.reg, id).status == Absent && VolumeAt(Apply(cfg, w, caller, call).reg, id).status != Absent
    ensures var w' := Apply(cfg, w, caller, call); OnLog(w'.env.log, k, id, VolumeAt(w'.reg, id))
  {
    NewRecordIsTheCallers(cfg, w, caller, call, id);
    hide Inv, CreateVolume, RegisterVolume, ImportVolume, OnLog, HasRoom, Outsider;
    match call
    case CallCreate(signer, depth, bucketDepth, ttl) => k := CreationOnLog(cfg, w, caller, signer, depth, bucketDepth, ttl);
    case CallRegister(batchId, ttl) => k := RegistrationOnLog(cfg, w, caller, batchId, ttl);
    case CallImport(batchId, ttl) => k := ImportOnLog(cfg, w, caller, batchId, ttl);
  }

  /** Every record of a reachable state was admitted by one row of the log, which names all that the record holds. */
  lemma {:induction false} RecordIsOnLog(cfg: Config, ws: seq<World>, ls: seq<Label>, i: nat, id: Bytes32)
    returns (k: nat)
    requires Run(cfg, ws, ls) && i < |ws| && VolumeAt(ws[i].reg, id).status != Absent
    ensures OnLog(ws[i].env.log, k, id, VolumeAt(ws[i].reg, id))
  {
    hide Inv, Apply, OnLog, MoneyKept, HasRoom, Outsider;
    var w, l := ws[i - 1], ls[i - 1];
    InvAlways(cfg, ws, ls, i - 1);
    assert StepOf(cfg, w, l, ws[i]);
    if VolumeAt(w.reg, id).status != Absent {
      k := RecordIsOnLog(cfg, ws, ls, i - 1, id);
      StepKeepsInv(cfg, w, l, ws[i]);
      StaysOnLog(w, ws[i], k, id);
    } else {
      k := CallOnLog(cfg, w, l.caller, l.call, id);
    }
  }

  /** Every field of a recorded volume's view is what the log says: the admitting row's own fields, the status its
      retirement row leaves, and the payer and activity of its owner's last account row. */
  lemma ViewIsOnLog(cfg: Config, ws: seq<World>, ls: seq<Label>, i: nat, id: Bytes32) returns (k: nat)
    requires Run(cfg, ws, ls) && i < |ws| && VolumeAt(ws[i].reg, id).status != Absent
    ensures k < |ws[i].env.log| && IsAdmit(ws[i].env.log[k].event) && ws[i].env.log[k].event.id == id
    ensures var log := ws[i].env.log;
            var e, auth := log[k].event, AuthIn(log, log[k].event.owner);
            ViewOf(ws[i].reg, id) ==
            VolumeView(id, e.batchId, e.owner, auth.payer, e.chunkSigner, log[k].ts % U64, e.ttlExpiry, e.depth,
                       if id in VolumesIn(log) then Active else Retired, auth.active)
  {
    hide Run, StepOf, Inv, RegInv, ClockInv, LogInv, NoAllowance;
    k := RecordIsOnLog(cfg, ws, ls, i, id);
    InvAlways(cfg, ws, ls, i);
    InvRest(cfg, ws[i]);
  }
}
