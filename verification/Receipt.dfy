/** The keeper reading a trigger's receipt: the contract's own outcome, whatever else the transaction logged. */
module Receipt {
  import opened Chain
  import opened RegistrySpec
  import opened Effects
  import opened Invariants
  import opened Trigger
  import opened Idempotence
  import Steps

  /** One log of a receipt, with the contract that emitted it. */
  datatype Log = Log(emitter: Addr, event: Event)

  // ----- reason names -------------------------------------------------------

  const RETIRE_REASONS: map<nat, string> := map[1 := "OwnerDeleted", 2 := "VolumeExpired", 3 := "BatchDied",
                                                4 := "DepthChanged", 5 := "BatchOwnerMismatch"]
  const SKIP_REASONS: map<nat, string> := map[1 := "NoAuth", 2 := "PaymentFailed"]

  function RetireCode(reason: RetireReason): nat {
    match reason
    case OwnerDeleted => 1
    case VolumeExpired => 2
    case BatchDied => 3
    case DepthChanged => 4
    case BatchOwnerMismatch => 5
  }

  function SkipCode(reason: SkipReason): nat {
    match reason
    case NoAuth => 1
    case PaymentFailed => 2
    case NotFound => 3
    case NotActive => 4
  }

  function Decimal(n: nat): string {
    if n < 10 then ["0123456789"[n]] else Decimal(n / 10) + ["0123456789"[n % 10]]
  }

  function NameIn(table: map<nat, string>, code: nat): string {
    if code in table then table[code] else "Unknown(" + Decimal(code) + ")"
  }

  /** The contract's own names. */
  function RetireName(reason: RetireReason): string {
    match reason
    case OwnerDeleted => "OwnerDeleted"
    case VolumeExpired => "VolumeExpired"
    case BatchDied => "BatchDied"
    case DepthChanged => "DepthChanged"
    case BatchOwnerMismatch => "BatchOwnerMismatch"
  }

  function SkipName(reason: SkipReason): string {
    match reason
    case NoAuth => "NoAuth"
    case PaymentFailed => "PaymentFailed"
    case NotFound => "NotFound"
    case NotActive => "NotActive"
  }

  /** Every retirement is reported under the contract's name, and a skip exactly when its volume exists and is Active. */
  lemma NamesAgreeExactlyWhen(retire: RetireReason, skip: SkipReason)
    ensures NameIn(RETIRE_REASONS, RetireCode(retire)) == RetireName(retire)
    ensures NameIn(SKIP_REASONS, SkipCode(skip)) == SkipName(skip) <==> skip != NotFound && skip != NotActive
    ensures skip == NotFound ==> NameIn(SKIP_REASONS, SkipCode(skip)) == "Unknown(3)"
    ensures skip == NotActive ==> NameIn(SKIP_REASONS, SkipCode(skip)) == "Unknown(4)"
  {
    assert "Unknown(3)"[0] == 'U' && SkipName(NotFound)[0] == 'N' && SkipName(NotActive)[0] == 'N';
    assert "Unknown(" + ["0123456789"[3]] + ")" == "Unknown(3)";
    assert "Unknown(" + ["0123456789"[4]] + ")" == "Unknown(4)";
  }

  // ----- decoding -----------------------------------------------------------

  datatype TopUp = TopUp(id: Bytes32, amount: nat)
  datatype Outcome = Outcome(id: Bytes32, reason: string)
  datatype Decoded = Decoded(toppedUp: seq<TopUp>, retired: seq<Outcome>, topupSkipped: seq<Outcome>)

  /** The events one contract emitted, in order. */
  function EmittedBy(logs: seq<Log>, emitter: Addr): seq<Event> {
    if logs == [] then []
    else
      var before := EmittedBy(logs[..|logs| - 1], emitter);
      if logs[|logs| - 1].emitter == emitter then before + [logs[|logs| - 1].event] else before
  }

  function AddEvent(d: Decoded, e: Event): Decoded {
    match e
    case Toppedup(id, amount, _) => d.(toppedUp := d.toppedUp + [TopUp(id, amount)])
    case VolumeRetired(id, reason) =>
      d.(retired := d.retired + [Outcome(id, NameIn(RETIRE_REASONS, RetireCode(reason)))])
    case TopupSkipped(id, reason) =>
      d.(topupSkipped := d.topupSkipped + [Outcome(id, NameIn(SKIP_REASONS, SkipCode(reason)))])
    case _ => d
  }

  function Decode(events: seq<Event>): Decoded {
    if events == [] then Decoded([], [], [])
    else AddEvent(Decode(events[..|events| - 1]), events[|events| - 1])
  }

  lemma DecodeOneMore(events: seq<Event>, e: Event)
    ensures Decode(events + [e]) == AddEvent(Decode(events), e)
  {
    assert (events + [e])[..|events|] == events;
  }

  lemma EmittedOneMore(logs: seq<Log>, log: Log, emitter: Addr)
    ensures EmittedBy(logs + [log], emitter) ==
            if log.emitter == emitter then EmittedBy(logs, emitter) + [log.event] else EmittedBy(logs, emitter)
  {
    assert (logs + [log])[..|logs|] == logs;
  }

  lemma NothingEmitted(emitter: Addr)
    ensures Decode(EmittedBy([], emitter)) == Decoded([], [], [])
  {
  }

  /** `decodeCycleEvents`. */
  method DecodeCycleEvents(logs: seq<Log>, registry: Addr) returns (decoded: Decoded)
    ensures decoded == Decode(EmittedBy(logs, registry))
  {
    hide EmittedBy, Decode, NameIn, RetireCode, SkipCode;
    var toppedUp, retired, topupSkipped := [], [], [];
    NothingEmitted(registry);
    assert logs[..0] == [];
    for i := 0 to |logs|
      invariant Decoded(toppedUp, retired, topupSkipped) == Decode(EmittedBy(logs[..i], registry))
    {
      assert logs[..i + 1] == logs[..i] + [logs[i]];
      EmittedOneMore(logs[..i], logs[i], registry);
      if logs[i].emitter == registry {
        DecodeOneMore(EmittedBy(logs[..i], registry), logs[i].event);
        match logs[i].event
        case Toppedup(id, amount, _) => toppedUp := toppedUp + [TopUp(id, amount)];
        case VolumeRetired(id, reason) =>
          retired := retired + [Outcome(id, NameIn(RETIRE_REASONS, RetireCode(reason)))];
        case TopupSkipped(id, reason) =>
          topupSkipped := topupSkipped + [Outcome(id, NameIn(SKIP_REASONS, SkipCode(reason)))];
        case _ =>
      }
    }
    assert logs[..|logs|] == logs;
    decoded := Decoded(toppedUp, retired, topupSkipped);
  }

  // ----- one outcome --------------------------------------------------------

  datatype Summary = SummaryToppedUp(amount: nat) | SummaryRetired(reason: string) | SummarySkipped(reason: string) | Noop

  function FindTopUp(found: seq<TopUp>, id: Bytes32): seq<TopUp> {
    if found == [] then [] else if found[0].id == id then [found[0]] else FindTopUp(found[1..], id)
  }

  function FindOutcome(found: seq<Outcome>, id: Bytes32): seq<Outcome> {
    if found == [] then [] else if found[0].id == id then [found[0]] else FindOutcome(found[1..], id)
  }

  /** `summarizeVolume`: the first top-up, else the first retirement, else the first skip of this volume, else nothing. */
  function Summarize(d: Decoded, id: Bytes32): Summary {
    var toppedUp := FindTopUp(d.toppedUp, id);
    var retired := FindOutcome(d.retired, id);
    var skipped := FindOutcome(d.topupSkipped, id);
    if toppedUp != [] then SummaryToppedUp(toppedUp[0].amount)
    else if retired != [] then SummaryRetired(retired[0].reason)
    else if skipped != [] then SummarySkipped(skipped[0].reason)
    else Noop
  }

  // ----- agreement with the contract ----------------------------------------

  /** What the registry itself emitted among some rows; the fee transfer is the token's log. */
  function OwnEvents(rows: seq<Row>): seq<Event> {
    if rows == [] then []
    else
      var before := OwnEvents(rows[..|rows| - 1]);
      if rows[|rows| - 1].event.FeeTransfer? then before else before + [rows[|rows| - 1].event]
  }

  /** The receipt of a trigger, among the logs of any other contracts the transaction touched. */
  ghost predicate ReceiptOf(cfg: Config, w: World, w': World, logs: seq<Log>) {
    |w.env.log| <= |w'.env.log| && EmittedBy(logs, cfg.registry) == OwnEvents(NewRows(w, w'))
  }

  /** The summary each outcome should read as. */
  ghost function SummaryOf(d: Decision): Summary {
    match d
    case Skip(reason) => SummarySkipped(NameIn(SKIP_REASONS, SkipCode(reason)))
    case Drop(reason) => SummaryRetired(NameIn(RETIRE_REASONS, RetireCode(reason)))
    case Enough => Noop
    case Pay(_, _, amount) => SummaryToppedUp(amount)
  }

  lemma OwnOneMore(rows: seq<Row>, r: Row)
    ensures OwnEvents(rows + [r]) == if r.event.FeeTransfer? then OwnEvents(rows) else OwnEvents(rows) + [r.event]
  {
    assert (rows + [r])[..|rows|] == rows;
  }

  lemma NoOwnEvents()
    ensures OwnEvents([]) == []
  {
  }

  lemma OneOwnEvent(env: Env, e: Event)
    requires !e.FeeTransfer?
    ensures OwnEvents(EmitEnv(env, e).log[|env.log|..]) == [e]
  {
    hide OwnEvents;
    assert EmitEnv(env, e).log[|env.log|..] == [] + [Stamped(env.clock, e)];
    NoOwnEvents();
    OwnOneMore([], Stamped(env.clock, e));
  }

  lemma FeeThenOwnEvent(env: Env, fee: Event, e: Event)
    requires fee.FeeTransfer? && !e.FeeTransfer?
    ensures |env.log| <= |EmitTwo(env, fee, e).log| && OwnEvents(EmitTwo(env, fee, e).log[|env.log|..]) == [e]
  {
    hide OwnEvents;
    var mid := EmitEnv(env, fee);
    assert EmitTwo(env, fee, e).log[|env.log|..] == [] + [Stamped(env.clock, fee)] + [Stamped(mid.clock, e)];
    NoOwnEvents();
    OwnOneMore([], Stamped(env.clock, fee));
    OwnOneMore([] + [Stamped(env.clock, fee)], Stamped(mid.clock, e));
  }

  /** The event a decision is announced by: at most one, about its own volume. */
  function Announced(d: Decision, id: Bytes32, newBalance: nat): seq<Event> {
    match d
    case Skip(reason) => [TopupSkipped(id, reason)]
    case Drop(reason) => [VolumeRetired(id, reason)]
    case Enough => []
    case Pay(_, _, amount) => [Toppedup(id, amount, newBalance)]
  }

  lemma RowsAnnounce(cfg: Config, w: World, id: Bytes32, w': World, outcome: TriggerOutcome) returns (newBalance: nat)
    requires TriggerRows(cfg, w, id, w', outcome)
    ensures |w.env.log| <= |w'.env.log|
    ensures OwnEvents(NewRows(w, w')) == Announced(Decide(cfg, w, id), id, newBalance)
  {
    hide Decide, PaidThrough, OwnEvents;
    var d := Decide(cfg, w, id);
    newBalance := 0;
    match outcome
    case RetiredNow => OneOwnEvent(w.env, VolumeRetired(id, d.retireReason));
    case Skipped => OneOwnEvent(w.env, TopupSkipped(id, d.skipReason));
    case NoDeficit =>
      assert NewRows(w, w') == [];
      NoOwnEvents();
    case ToppedUp =>
      var batchId := VolumeAt(w.reg, id).batchId;
      newBalance := w.env.postage.batches[batchId].normalisedBalance + d.deficit;
      FeeThenOwnEvent(w.env.(token := w'.env.token, postage := RaisedBy(w.env.postage, batchId, d.deficit)),
                      FeeTransfer(d.amount), Toppedup(id, d.amount, newBalance));
  }

  /** A trigger emits at most one event of its own, decided by its outcome, and that one is about its own volume. */
  lemma TriggerEmitsAtMostOne(cfg: Config, w: World, id: Bytes32) returns (newBalance: nat)
    requires Inv(cfg, w) && TriggerOne(cfg, w, id).Ok?
    ensures var w' := TriggerOne(cfg, w, id).value.0;
            && |w.env.log| <= |w'.env.log|
            && OwnEvents(NewRows(w, w')) == Announced(Decide(cfg, w, id), id, newBalance)
  {
    TriggerWrites(cfg, w, id);
    hide Inv, TriggerOne, TriggerFrame, TriggerRows, Retires, OwnEvents, Decide;
    newBalance := RowsAnnounce(cfg, w, id, TriggerOne(cfg, w, id).value.0, TriggerOne(cfg, w, id).value.1);
  }

  lemma DecodeOne(e: Event)
    ensures Decode([e]) == AddEvent(Decoded([], [], []), e)
  {
    hide NameIn;
    DecodeNothing();
    hide Decode;
    DecodeOneMore([], e);
    assert [] + [e] == [e];
  }

  lemma DecodeNothing()
    ensures Decode([]) == Decoded([], [], [])
  {
  }

  /** The summary of a receipt that holds one event. */
  lemma SummarizeOne(e: Event, id: Bytes32)
    ensures e.Toppedup? && e.id == id ==> Summarize(Decode([e]), id) == SummaryToppedUp(e.amount)
    ensures e.VolumeRetired? && e.id == id ==>
              Summarize(Decode([e]), id) == SummaryRetired(NameIn(RETIRE_REASONS, RetireCode(e.retireReason)))
    ensures e.TopupSkipped? && e.id == id ==>
              Summarize(Decode([e]), id) == SummarySkipped(NameIn(SKIP_REASONS, SkipCode(e.skipReason)))
  {
    hide NameIn, Decode, RetireCode, SkipCode;
    DecodeOne(e);
    SingleFinds(Decode([e]), id);
  }

  /** Whatever is announced is read back as the decision it announces. */
  lemma AnnouncedReadsBack(d: Decision, id: Bytes32, newBalance: nat)
    ensures Summarize(Decode(Announced(d, id, newBalance)), id) == SummaryOf(d)
  {
    hide NameIn, Decode, Summarize, RetireCode, SkipCode;
    match d
    case Skip(reason) => SummarizeOne(TopupSkipped(id, reason), id);
    case Drop(reason) => SummarizeOne(VolumeRetired(id, reason), id);
    case Enough => SummarizeNothing(id);
    case Pay(_, _, amount) => SummarizeOne(Toppedup(id, amount, newBalance), id);
  }

  lemma SummarizeNothing(id: Bytes32)
    ensures Summarize(Decode([]), id) == Noop
  {
    DecodeNothing();
    hide Decode, NameIn;
  }

  lemma OutcomeIsDecision(cfg: Config, w: World, id: Bytes32)
    requires Inv(cfg, w) && TriggerOne(cfg, w, id).Ok?
    ensures match TriggerOne(cfg, w, id).value.1
            case RetiredNow => Decide(cfg, w, id).Drop?
            case Skipped => Decide(cfg, w, id).Skip?
            case NoDeficit => Decide(cfg, w, id).Enough?
            case ToppedUp => Decide(cfg, w, id).Pay?
  {
    TriggerWrites(cfg, w, id);
    hide Inv, TriggerOne, TriggerFrame, PayEffect, Retires, Decide;
  }

  /** The keeper's reading of a receipt is the contract's own outcome, reason and amount included. */
  lemma SummaryAgrees(cfg: Config, w: World, id: Bytes32, logs: seq<Log>)
    requires Inv(cfg, w) && TriggerOne(cfg, w, id).Ok?
    requires ReceiptOf(cfg, w, TriggerOne(cfg, w, id).value.0, logs)
    ensures Summarize(Decode(EmittedBy(logs, cfg.registry)), id) == SummaryOf(Decide(cfg, w, id))
    ensures var outcome := TriggerOne(cfg, w, id).value.1;
            match Summarize(Decode(EmittedBy(logs, cfg.registry)), id)
            case SummaryToppedUp(_) => outcome == ToppedUp
            case SummaryRetired(_) => outcome == RetiredNow
            case SummarySkipped(_) => outcome == Skipped
            case Noop => outcome == NoDeficit
  {
    var newBalance := TriggerEmitsAtMostOne(cfg, w, id);
    OutcomeIsDecision(cfg, w, id);
    hide Inv, TriggerOne, OwnEvents, EmittedBy, Decide, NameIn, Decode, Announced, Summarize;
    AnnouncedReadsBack(Decide(cfg, w, id), id, newBalance);
  }

  lemma SingleFinds(d: Decoded, id: Bytes32)
    ensures |d.toppedUp| == 1 && d.toppedUp[0].id == id ==> FindTopUp(d.toppedUp, id) == [d.toppedUp[0]]
    ensures |d.retired| == 1 && d.retired[0].id == id ==> FindOutcome(d.retired, id) == [d.retired[0]]
    ensures |d.topupSkipped| == 1 && d.topupSkipped[0].id == id ==>
              FindOutcome(d.topupSkipped, id) == [d.topupSkipped[0]]
  {
  }

  /** A reported top-up is the formula's charge, taken from the owner's payer of that moment. */
  lemma ReportedAmountIsCharged(cfg: Config, w: World, id: Bytes32, logs: seq<Log>)
    requires Inv(cfg, w) && TriggerOne(cfg, w, id).Ok?
    requires ReceiptOf(cfg, w, TriggerOne(cfg, w, id).value.0, logs)
    requires Summarize(Decode(EmittedBy(logs, cfg.registry)), id).SummaryToppedUp?
    ensures var v := VolumeAt(w.reg, id);
            && Live(w.env.postage, v.batchId) && AccountAt(w.reg, v.owner).active
            && Summarize(Decode(EmittedBy(logs, cfg.registry)), id).amount == FormulaCharge(cfg, w.env.postage, v)
            && PaidThrough(cfg, w.env.token, TriggerOne(cfg, w, id).value.0.env.token, AccountAt(w.reg, v.owner).payer,
                           FormulaCharge(cfg, w.env.postage, v))
  {
    SummaryAgrees(cfg, w, id, logs);
    ChargeIsTheFormula(cfg, w, id);
    AmountIsTheFormula(cfg, w, id);
    hide Inv, TriggerOne, Decide, PaidThrough, FormulaCharge, EmittedBy, Decode, Summarize, ReceiptOf;
  }

  lemma AmountIsTheFormula(cfg: Config, w: World, id: Bytes32)
    requires Inv(cfg, w) && TriggerOne(cfg, w, id).Ok? && Decide(cfg, w, id).Pay?
    ensures var v := VolumeAt(w.reg, id);
            Live(w.env.postage, v.batchId) && Decide(cfg, w, id).amount == FormulaCharge(cfg, w.env.postage, v)
  {
    TriggerWrites(cfg, w, id);
    OutcomeFollowsDecision(cfg, w, id);
    assert RecordInv(cfg, w.reg);
    hide Inv, RecordInv, TriggerOne, TriggerFrame, PayEffect, Retires, Decide, FormulaCharge, Live, PaidThrough, RaisedBy;
    PaymentIsTheFormula(cfg, w, id, TriggerOne(cfg, w, id).value.0);
  }
}
