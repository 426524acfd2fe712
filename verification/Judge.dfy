/** The paid judge call as a crash-tolerant machine: a reservation in two journals, a one-use
    permit, one transport request, two protected files, and a cost settlement in three writes.
    Every invocation first repairs what the last one left, and may itself die before any durable
    step. */
module Judge {
  import opened Prelude

  type Digest = nat
  type Time = int

  datatype Action = Absent | Reserved | Unknown | Succeeded | Failed

  datatype Permit = Permit(request: Digest, observation: Digest, consumedAt: Time)

  datatype Receipt = Receipt(observation: Digest, request: Digest, rawSha: Digest, cost: real, judgedAt: Time)

  datatype Settlement = Settlement(cost: real, at: Time)

  /** What the judge's reply amounts to: a decision and its price. */
  datatype Reply = Reply(decision: nat, cost: real)

  /** The call: the request an observation leads to, the parser that checks a raw reply against
      it, the digest of raw bytes, and the authorized maximum. */
  datatype Ctx = Ctx(
    requestFor: Digest -> Digest, parse: (nat, Digest) -> Option<Reply>, sha: nat -> Digest, maxCost: real)
  {
    /** A reply only parses if its price is within the authorized maximum. */
    ghost predicate Valid() {
      forall raw, observation :: parse(raw, observation).Some? ==> 0.0 <= parse(raw, observation).value.cost <= maxCost
    }
  }

  /** Everything durable about the action, and how often its request was sent. */
  datatype State = State(
    ledgerReserved: bool, action: Action, request: Option<Digest>, permit: Option<Permit>, sent: nat,
    raw: Option<nat>, receipt: Option<Receipt>, reconciled: Option<real>,
    intent: Option<Settlement>, ledgerSettled: Option<Settlement>, settled: Option<Settlement>)

  const INITIAL: State := State(false, Absent, None, None, 0, None, None, None, None, None, None)

  /** What the world offers one invocation: the observation judged, whether a transport and a
      valid authorization are at hand, the reply or none, the clock at each reading, and the
      number of durable steps before the process dies. */
  datatype World = World(
    observation: Digest, transport: bool, authorized: bool, reply: Option<nat>,
    consumedAt: Time, judgedAt: Time, settledAt: Time, steps: nat)

  datatype Result = Judged(decision: nat, rawSha: Digest, judgedAt: Time) | Refused | Died

  /** A process under way with `left` durable steps to live, stopped by an error, or dead. */
  datatype Flow = Live(s: State, left: nat) | Stopped(s: State) | Dead(s: State)

  /** One durable step. */
  function Durable(f: Flow, next: State): Flow
    requires f.Live?
  {
    if f.left == 0 then Dead(f.s) else Live(next, f.left - 1)
  }

  // ----- cost settlement -----

  /** Carries an intent into the authorization ledger and back into the journal. */
  function CommitSettlement(f: Flow): Flow
    requires f.Live? && f.s.intent.Some?
  {
    var f1 := if f.s.ledgerSettled.None? then Durable(f, f.s.(ledgerSettled := f.s.intent))
              else if f.s.ledgerSettled != f.s.intent then Stopped(f.s)
              else f;
    if f1.Live? then Durable(f1, f1.s.(settled := f1.s.intent)) else f1
  }

  function Settle(x: Ctx, f: Flow, cost: real, at: Time): Flow
    requires f.Live?
  {
    var s := f.s;
    if s.action !in {Succeeded, Failed} || s.settled.Some? then Stopped(s)
    else if s.intent.None? then
      if s.ledgerSettled.Some? || cost < 0.0 || cost > x.maxCost then Stopped(s)
      else
        var f1 := Durable(f, s.(intent := Some(Settlement(cost, at))));
        if f1.Live? then CommitSettlement(f1) else f1
    else if s.intent.value.cost != cost then Stopped(s)
    else CommitSettlement(f)
  }

  /** What opening the journal repairs: a reservation the journal lost, and a settlement stopped
      after its intent. */
  function Open(f: Flow): Flow
    requires f.Live?
  {
    var f1 := RecoverReservation(f);
    if f1.Live? then RecoverSettlement(f1) else f1
  }

  function RecoverReservation(f: Flow): Flow
    requires f.Live?
  {
    if f.s.ledgerReserved && f.s.action == Absent then Durable(f, f.s.(action := Reserved)) else f
  }

  function RecoverSettlement(f: Flow): Flow
    requires f.Live?
  {
    if f.s.intent.None? || f.s.settled.Some? then f
    else if f.s.action in {Succeeded, Failed} then CommitSettlement(f)
    else Stopped(f.s)
  }

  // ----- the call -----

  /** Marks the action as succeeded on the strength of its receipt, then settles its cost. */
  function Complete(x: Ctx, f: Flow, w: World): Flow
    requires f.Live?
  {
    var s := f.s;
    if s.action != Unknown || s.permit.None? || s.receipt.None? || s.raw.None? then Stopped(s)
    else
      var r := s.receipt.value;
      if || r.observation != s.permit.value.observation || r.request != s.permit.value.request
         || r.rawSha != x.sha(s.raw.value) || r.cost > x.maxCost || r.judgedAt < s.permit.value.consumedAt
      then Stopped(s)
      else
        var f1 := Durable(f, s.(action := Succeeded));
        if f1.Live? then Settle(x, f1, r.cost, w.settledAt) else f1
  }

  /** The receipt belongs to the permit and the raw reply, and the reply still parses. */
  predicate ReceiptOk(x: Ctx, s: State, observation: Digest) {
    && s.receipt.Some? && s.raw.Some? && s.permit.Some?
    && var r := s.receipt.value;
       var reply := x.parse(s.raw.value, observation);
       && reply.Some? && r.observation == observation && r.request == s.permit.value.request
       && r.rawSha == x.sha(s.raw.value) && r.cost == reply.value.cost
  }

  /** Replays a call whose receipt is on file: completes or settles what is still open. */
  function Replay(x: Ctx, f: Flow, w: World): Flow
    requires f.Live?
  {
    var s := f.s;
    if !ReceiptOk(x, s, w.observation) then Stopped(s)
    else
      var cost := s.receipt.value.cost;
      var f1 := if s.action == Unknown then Complete(x, f, w)
                else if s.settled.None? then Settle(x, f, cost, w.settledAt)
                else f;
      if f1.Live? && (f1.s.settled.None? || f1.s.settled.value.cost != cost) then Stopped(f1.s) else f1
  }

  /** Reserves the action in the authorization ledger, then in the journal. */
  function Reserve(f: Flow, w: World): Flow
    requires f.Live?
  {
    if f.s.action == Reserved then f
    else if !w.authorized then Stopped(f.s)
    else
      var f1 := Durable(f, f.s.(ledgerReserved := true));
      if f1.Live? then Durable(f1, f1.s.(action := Reserved)) else f1
  }

  /** Writes the request file and consumes the permit: from here on the outcome is unknown. */
  function ConsumePermit(x: Ctx, f: Flow, w: World): Flow
    requires f.Live?
  {
    var request := x.requestFor(w.observation);
    var f1 := if f.s.request.None? then Durable(f, f.s.(request := Some(request)))
              else if f.s.request != Some(request) then Stopped(f.s)
              else f;
    if !f1.Live? then f1
    else if f1.s.action != Reserved || f1.s.permit.Some? || !w.authorized then Stopped(f1.s)
    else Durable(f1, f1.s.(action := Unknown, permit := Some(Permit(request, w.observation, w.consumedAt))))
  }

  /** Sends the one request and files the raw reply. */
  function Send(f: Flow, w: World): Flow
    requires f.Live?
  {
    var f1 := Durable(f, f.s.(sent := f.s.sent + 1));
    if !f1.Live? then f1
    else if w.reply.None? then Stopped(f1.s)
    else if f1.s.raw.None? then Durable(f1, f1.s.(raw := w.reply))
    else if f1.s.raw != w.reply then Stopped(f1.s)
    else f1
  }

  /** Parses the reply and files the receipt. */
  function WriteReceipt(x: Ctx, f: Flow, w: World): Flow
    requires f.Live? && f.s.raw.Some? && f.s.permit.Some?
  {
    var raw := f.s.raw.value;
    var reply := x.parse(raw, w.observation);
    if reply.None? then Stopped(f.s)
    else
      var r := Receipt(w.observation, f.s.permit.value.request, x.sha(raw), reply.value.cost, w.judgedAt);
      if f.s.receipt.None? then Durable(f, f.s.(receipt := Some(r)))
      else if f.s.receipt != Some(r) then Stopped(f.s)
      else f
  }

  /** A first call, from reservation to settlement. */
  function Call(x: Ctx, f: Flow, w: World): Flow
    requires f.Live?
  {
    if !w.transport then Stopped(f.s)
    else
      var f1 := Reserve(f, w);
      if !f1.Live? then f1
      else
        var f2 := ConsumePermit(x, f1, w);
        if !f2.Live? then f2
        else
          var f3 := Send(f2, w);
          if !f3.Live? || f3.s.raw.None? || f3.s.permit.None? then f3
          else
            var f4 := WriteReceipt(x, f3, w);
            if f4.Live? then Complete(x, f4, w) else f4
  }

  /** Run or replay, depending on what is on file. */
  function RunOrReplay(x: Ctx, f: Flow, w: World): Flow
    requires f.Live?
  {
    var s := f.s;
    if s.action in {Unknown, Succeeded} && s.receipt.Some? then Replay(x, f, w)
    else if s.action in {Unknown, Succeeded, Failed} || s.receipt.Some? then Stopped(s)
    else Call(x, f, w)
  }

  function ResultOf(x: Ctx, f: Flow, observation: Digest): Result {
    match f
    case Dead(_) => Died
    case Stopped(_) => Refused
    case Live(s, _) =>
      if s.raw.None? || s.receipt.None? then Refused
      else
        var reply := x.parse(s.raw.value, observation);
        if reply.None? then Refused else Judged(reply.value.decision, x.sha(s.raw.value), s.receipt.value.judgedAt)
  }

  /** One invocation of the judge. */
  function Invoke(x: Ctx, s: State, w: World): (State, Result) {
    var f := Open(Live(s, w.steps));
    var f1 := if f.Live? then RunOrReplay(x, f, w) else f;
    (f1.s, ResultOf(x, f1, w.observation))
  }

  // ----- independent reconciliation -----

  /** An operator's reconciliation of an unknown action: its resolved state and its cost. */
  datatype Finding = Finding(succeeded: bool, cost: real, at: Time, steps: nat)

  function Reconcile(x: Ctx, s: State, d: Finding): State {
    var f := Open(Live(s, d.steps));
    if !f.Live? then f.s
    else if f.s.action == Unknown then
      var f1 := Durable(f, f.s.(action := if d.succeeded then Succeeded else Failed, reconciled := Some(d.cost)));
      if f1.Live? then Settle(x, f1, d.cost, d.at).s else f1.s
    else if f.s.reconciled != Some(d.cost) || (f.s.action == Succeeded) != d.succeeded || f.s.settled.Some? then f.s
    else Settle(x, f, d.cost, d.at).s
  }

  datatype Op = Judge(world: World) | Resolve(finding: Finding)

  function Step(x: Ctx, s: State, op: Op): State {
    match op
    case Judge(w) => Invoke(x, s, w).0
    case Resolve(d) => Reconcile(x, s, d)
  }

  function Run(x: Ctx, s: State, ops: seq<Op>): State
    decreases |ops|
  {
    if ops == [] then s else Run(x, Step(x, s, ops[0]), ops[1..])
  }
}
