/** Conversation audio under a byte ceiling (apps/realtime-gateway/src/media-store.ts).
    Realtime callbacks reserve bytes synchronously; one serialized queue consumes, checks,
    commits and releases them later. A state here is the store between two atomic segments,
    that is, between two awaits. */
module MediaStore {
  import opened Prelude

  // ----- the store's data -----

  datatype Session = Session(owner: string, id: string)
  datatype Direction = InputAudio | OutputAudio
  datatype Key = Key(session: Session, turn: string, revision: nat, direction: Direction)

  /** The state column of a row, or no row. */
  datatype Row = Absent | Pending | Ready | Missing | Truncated

  datatype Kind = AtRest | Input | Output

  /** One asset: its row, and for an asset still being retained the locals of its closure.
      `released` and `checked` are bookkeeping: whether its reservation was given back, and
      what it held when it last passed a capacity check. */
  datatype Asset = Asset(
    kind: Kind, key: Key, row: Row, rowBytes: nat,
    failed: bool, initialized: bool, header: bool, sampleRate: int, accepted: nat, finalized: bool,
    released: bool, checked: nat)

  datatype Op =
    | InputOp(id: nat, bytes: nat, reserved: bool)
    | InitOp(id: nat, bytes: nat)
    | FrameOp(id: nat, bytes: nat)
    | FailOp(id: nat)
    | FinalizeOp(id: nat)
    | RemoveOp(session: Session)

  /** Where the operation at the head of the queue is suspended. */
  datatype Phase =
    | Idle
    | Evicting(victim: Session, bytes: nat, rest: seq<Session>)
    | Answered(ok: bool)
    | Writing
    | Discarding
    | Unwinding
    | Removing(bytes: nat)

  datatype Config = Config(maxBytes: Option<nat>, maxPendingBytes: nat)

  datatype State = State(
    queuedBytes: nat, reservedBytes: nat, readyBytes: nat, closing: bool,
    assets: seq<Asset>, work: seq<Op>, phase: Phase)

  datatype Outcome = Done | Failed | FinishFailed

  const HEADER_BYTES := 44

  /** What an asset still has reserved. */
  function HeldBytes(a: Asset): nat {
    if a.released then 0 else a.accepted + if a.header then HEADER_BYTES else 0
  }

  function CheckedBytes(a: Asset): nat {
    if a.released then 0 else a.checked
  }

  function ReadyBytes(a: Asset): nat {
    if a.row == Ready then a.rowBytes else 0
  }

  function ReadyIn(session: Session): Asset -> nat {
    (a: Asset) => if a.key.session == session then ReadyBytes(a) else 0
  }

  /** What an operation will subtract from the queue's bytes when it ends. */
  function Charge(op: Op): nat {
    match op
    case InputOp(_, bytes, reserved) => if reserved then bytes else 0
    case InitOp(_, bytes) => bytes
    case FrameOp(_, bytes) => bytes
    case _ => 0
  }

  /** `Math.max(0, x - y)`. */
  function Minus(x: nat, y: nat): nat {
    if x < y then 0 else x - y
  }

  // ----- SQL statements on the table -----

  /** UPDATE ... SET state = `row` WHERE id = ?: no effect on an absent row. */
  function SetRow(a: Asset, row: Row): Asset {
    if a.row == Absent then a else a.(row := row)
  }

  /** INSERT OR IGNORE: a row with the same key wins. */
  function Insert(assets: seq<Asset>, id: nat, row: Row): (r: seq<Asset>)
    requires id < |assets|
    ensures |r| == |assets|
  {
    if assets[id].row != Absent
      || exists k :: 0 <= k < |assets| && assets[k].row != Absent && assets[k].key == assets[id].key
    then assets
    else assets[id := assets[id].(row := row, rowBytes := 0)]
  }

  /** DELETE ... WHERE session. */
  function DeleteRows(assets: seq<Asset>, session: Session): (r: seq<Asset>)
    ensures |r| == |assets|
  {
    seq(|assets|, k requires 0 <= k < |assets| =>
      if assets[k].key.session == session then assets[k].(row := Absent, rowBytes := 0) else assets[k])
  }

  // ----- the synchronous callbacks -----

  predicate CanReserve(c: Config, s: State, bytes: nat) {
    s.queuedBytes + bytes <= c.maxPendingBytes
  }

  function Reserved(s: State, bytes: nat): State {
    s.(queuedBytes := s.queuedBytes + bytes, reservedBytes := s.reservedBytes + bytes)
  }

  function Enqueued(s: State, op: Op): State {
    s.(work := s.work + [op])
  }

  function WithAsset(s: State, id: nat, a: Asset): State
    requires id < |s.assets|
  {
    s.(assets := s.assets[id := a])
  }

  /** `fail`: the recording is truncated now; its row says so later. */
  function FailedNow(s: State, id: nat): State
    requires id < |s.assets|
  {
    if s.assets[id].failed then s
    else Enqueued(WithAsset(s, id, s.assets[id].(failed := true)), FailOp(id))
  }

  /** An input to be retained holds its bytes only if they could be reserved. */
  function InputAsset(key: Key, bytes: nat, reserved: bool): Asset {
    Asset(Input, key, Absent, 0, false, true, false, 0, if reserved then bytes else 0, true, !reserved, 0)
  }

  function RetainInput(c: Config, s: State, key: Key, bytes: nat): State {
    if s.closing then s else
      var reserved := CanReserve(c, s, bytes);
      var t := if reserved then Reserved(s, bytes) else s;
      Enqueued(t.(assets := t.assets + [InputAsset(key, bytes, reserved)]), InputOp(|s.assets|, bytes, reserved))
  }

  function NewRecorder(s: State, key: Key): State {
    s.(assets := s.assets + [Asset(Output, key, Absent, 0, false, false, false, 0, 0, false, false, 0)])
  }

  predicate IsRecorder(s: State, id: nat) {
    id < |s.assets| && s.assets[id].kind == Output
  }

  function EnsureRow(c: Config, s: State, id: nat, rate: int): (t: State)
    requires id < |s.assets|
    ensures |t.assets| == |s.assets|
  {
    var a := s.assets[id];
    if a.initialized then s
    else if CanReserve(c, s, HEADER_BYTES) then
      Enqueued(WithAsset(Reserved(s, HEADER_BYTES), id, a.(initialized := true, sampleRate := rate, header := true)),
               InitOp(id, HEADER_BYTES))
    else
      Enqueued(WithAsset(s, id, a.(initialized := true, sampleRate := rate, header := false, failed := true)),
               InitOp(id, 0))
  }

  /** Accepts one frame, after the row exists. */
  function AcceptFrame(c: Config, s: State, id: nat, bytes: nat): State
    requires id < |s.assets|
  {
    if !CanReserve(c, s, bytes) then FailedNow(s, id)
    else
      var a := s.assets[id];
      Enqueued(WithAsset(Reserved(s, bytes), id, a.(accepted := a.accepted + bytes)), FrameOp(id, bytes))
  }

  function Write(c: Config, s: State, id: nat, samples: nat, rate: int): State
    requires IsRecorder(s, id)
  {
    var a := s.assets[id];
    if s.closing || a.finalized || samples == 0 || a.failed then s
    else if rate <= 0 then FailedNow(s, id)
    else
      var t := EnsureRow(c, s, id, rate);
      if t.assets[id].sampleRate != rate then FailedNow(t, id)
      else AcceptFrame(c, t, id, 2 * samples)
  }

  function Finalize(s: State, id: nat): State
    requires IsRecorder(s, id)
  {
    var a := s.assets[id];
    if a.finalized then s
    else
      var t := WithAsset(s, id, a.(finalized := true));
      if a.initialized then Enqueued(t, FinalizeOp(id)) else t
  }

  /** `file` when the row is ready but its bytes are gone from disk. */
  function LookUpMissing(s: State, id: nat): State {
    if id < |s.assets| && s.assets[id].row == Ready
    then WithAsset(s, id, SetRow(s.assets[id], Missing)).(readyBytes := Minus(s.readyBytes, s.assets[id].rowBytes))
    else s
  }

  // ----- the serialized queue -----

  /** The operation at the head ends: its bytes leave the queue. */
  function Finished(s: State): State
    requires s.work != []
  {
    s.(queuedBytes := Minus(s.queuedBytes, Charge(s.work[0])), work := s.work[1..], phase := Idle)
  }

  /** The head's reservation is given back as it ends. */
  function Released(s: State, id: nat): State
    requires id < |s.assets|
  {
    WithAsset(s, id, s.assets[id].(released := true)).(reservedBytes := Minus(s.reservedBytes, HeldBytes(s.assets[id])))
  }

  predicate UnderCeiling(c: Config, s: State) {
    c.maxBytes.None? || s.readyBytes + s.reservedBytes <= c.maxBytes.value
  }

  /** `ensureCapacity` from one await to the next, over the candidates still to try; `begin`
      holds the sessions whose eviction the conversation store agrees to begin. */
  function Scan(c: Config, s: State, candidates: seq<Session>, begin: set<Session>): Phase
    decreases |candidates|
  {
    if UnderCeiling(c, s) then Answered(true)
    else if candidates == [] then Answered(false)
    else
      var bytes := Sum(ReadyIn(candidates[0]), s.assets);
      if bytes == 0 || candidates[0] !in begin then Scan(c, s, candidates[1..], begin)
      else Evicting(candidates[0], bytes, candidates[1..])
  }

  /** Suspends the head where the scan stopped; a passed check is recorded. */
  function Suspended(s: State, id: nat, phase: Phase): State
    requires id < |s.assets|
  {
    var t := s.(phase := phase);
    if phase == Answered(true) then WithAsset(t, id, s.assets[id].(checked := HeldBytes(s.assets[id]))) else t
  }

  function CheckFor(c: Config, s: State, id: nat, candidates: seq<Session>, begin: set<Session>): State
    requires id < |s.assets|
  {
    Suspended(s, id, Scan(c, s, candidates, begin))
  }

  predicate Applies(assets: seq<Asset>, op: Op) {
    op.RemoveOp? || op.id < |assets|
  }

  /** The head's first segment. */
  function Start(c: Config, s: State, candidates: seq<Session>, begin: set<Session>): State
    requires s.phase == Idle && s.work != [] && Applies(s.assets, s.work[0])
  {
    match s.work[0]
    case InputOp(id, _, reserved) =>
      var t := s.(assets := Insert(s.assets, id, if reserved then Pending else Missing));
      if !reserved then Finished(t) else CheckFor(c, t, id, candidates, begin)
    case InitOp(id, bytes) =>
      var t := s.(assets := Insert(s.assets, id, if s.assets[id].failed then Truncated else Pending));
      if !s.assets[id].header || s.assets[id].failed then Finished(t) else CheckFor(c, t, id, candidates, begin)
    case FrameOp(id, _) =>
      if s.assets[id].failed then Finished(s) else CheckFor(c, s, id, candidates, begin)
    case FailOp(id) =>
      Finished(WithAsset(s, id, SetRow(s.assets[id], Truncated)))
    case FinalizeOp(id) =>
      if s.assets[id].failed
      then WithAsset(s, id, SetRow(s.assets[id], Truncated)).(phase := Discarding)
      else s.(phase := Writing)
    case RemoveOp(session) =>
      s.(phase := Removing(Sum(ReadyIn(session), s.assets)))
  }

  /** The rows of a session and their snapshotted bytes go. */
  function RowsRemoved(s: State, session: Session, bytes: nat): State {
    s.(assets := DeleteRows(s.assets, session), readyBytes := Minus(s.readyBytes, bytes))
  }

  /** The capacity check failed: the asset is given up. */
  function Refused(s: State): State
    requires s.work != [] && Applies(s.assets, s.work[0]) && !s.work[0].RemoveOp?
  {
    var id := s.work[0].id;
    if s.work[0].InputOp?
    then Finished(Released(WithAsset(s, id, SetRow(s.assets[id], Missing)), id))
    else Finished(FailedNow(s, id))
  }

  /** The bytes are on disk: the row turns ready, if it is still pending. */
  function Committed(s: State): State
    requires s.work != [] && Applies(s.assets, s.work[0]) && !s.work[0].RemoveOp?
  {
    var id := s.work[0].id;
    var a := s.assets[id];
    var bytes := if s.work[0].InputOp? then s.work[0].bytes else a.accepted + HEADER_BYTES;
    if a.row == Pending
    then Finished(Released(WithAsset(s, id, a.(row := Ready, rowBytes := bytes)).(readyBytes := s.readyBytes + bytes),
                           id))
    else s.(phase := Discarding)
  }

  /** A write went wrong before anything was committed. */
  function WriteFailed(s: State): State
    requires s.work != [] && Applies(s.assets, s.work[0]) && !s.work[0].RemoveOp?
  {
    var op := s.work[0];
    if op.InputOp? || op.FinalizeOp? then s.(phase := Unwinding)
    else if op.InitOp? then
      var t := FailedNow(s, op.id);
      Finished(WithAsset(t, op.id, SetRow(t.assets[op.id], Truncated)))
    else Finished(FailedNow(s, op.id))
  }

  /** The head's next segment, once what it awaited settled with `outcome`. */
  function Resume(c: Config, s: State, outcome: Outcome, begin: set<Session>): State
    requires s.phase != Idle && s.work != [] && Applies(s.assets, s.work[0])
    requires s.phase.Removing? <==> s.work[0].RemoveOp?
  {
    var op := s.work[0];
    match s.phase
    case Evicting(victim, bytes, rest) =>
      if outcome == Failed then s.(phase := Answered(false))
      else
        var t := RowsRemoved(s, victim, bytes);
        if outcome == FinishFailed then t.(phase := Answered(false)) else CheckFor(c, t, op.id, rest, begin)
    case Answered(ok) =>
      if ok then s.(phase := Writing) else Refused(s)
    case Writing =>
      if outcome != Done then WriteFailed(s)
      else if op.InputOp? || op.FinalizeOp? then Committed(s)
      else Finished(s)
    case Discarding =>
      if outcome == Done then Finished(Released(s, op.id)) else s.(phase := Unwinding)
    case Unwinding =>
      Finished(Released(WithAsset(s, op.id, SetRow(s.assets[op.id], Missing)), op.id))
    case Removing(bytes) =>
      if outcome == Done then Finished(RowsRemoved(s, op.session, bytes)) else Finished(s)
  }

  // ----- runs -----

  datatype Event =
    | ToRetainInput(key: Key, bytes: nat)
    | ToNewRecorder(key: Key)
    | ToWrite(id: nat, samples: nat, rate: int)
    | ToFinalize(id: nat)
    | ToLookUpMissing(id: nat)
    | ToRemoveSession(session: Session)
    | ToClose
    | ToStart(candidates: seq<Session>, begin: set<Session>)
    | ToResume(outcome: Outcome, begin: set<Session>)

  /** One atomic segment; an event that cannot happen in `s` leaves it alone. */
  function Step(c: Config, s: State, e: Event): State {
    match e
    case ToRetainInput(key, bytes) => RetainInput(c, s, key, bytes)
    case ToNewRecorder(key) => NewRecorder(s, key)
    case ToWrite(id, samples, rate) => if IsRecorder(s, id) then Write(c, s, id, samples, rate) else s
    case ToFinalize(id) => if IsRecorder(s, id) then Finalize(s, id) else s
    case ToLookUpMissing(id) => LookUpMissing(s, id)
    case ToRemoveSession(session) => Enqueued(s, RemoveOp(session))
    case ToClose => s.(closing := true)
    case ToStart(candidates, begin) =>
      if s.phase == Idle && s.work != [] && Applies(s.assets, s.work[0]) then Start(c, s, candidates, begin) else s
    case ToResume(outcome, begin) =>
      if s.phase != Idle && s.work != [] && Applies(s.assets, s.work[0]) && (s.phase.Removing? <==> s.work[0].RemoveOp?)
      then Resume(c, s, outcome, begin) else s
  }

  function Run(c: Config, s: State, events: seq<Event>): State {
    if events == [] then s else Step(c, Run(c, s, events[..|events| - 1]), events[|events| - 1])
  }

  // ----- the invariant -----

  /** `op` is the one that ends an asset's retention, and its reservation with it. */
  predicate Ends(op: Op) {
    op.InputOp? || op.FinalizeOp?
  }

  /** `op` works on the bytes of asset `id`. */
  predicate WorksOn(op: Op, id: nat) {
    !op.RemoveOp? && !op.FailOp? && op.id == id
  }

  /** `op` makes a capacity check for asset `id`. */
  predicate Checks(op: Op, id: nat) {
    (op.InitOp? || op.FrameOp?) && op.id == id
  }

  ghost predicate OpOk(assets: seq<Asset>, op: Op) {
    Applies(assets, op) &&
    match op
    case InputOp(id, bytes, reserved) =>
      var a := assets[id];
      a.kind == Input && a.released == !reserved && !a.header && a.accepted == if reserved then bytes else 0
    case InitOp(id, bytes) =>
      var a := assets[id];
      a.kind == Output && a.initialized && !a.released && bytes == if a.header then HEADER_BYTES else 0
    case FrameOp(id, _) => assets[id].kind == Output && assets[id].initialized && !assets[id].released
    case FailOp(id) => assets[id].kind == Output && assets[id].failed
    case FinalizeOp(id) =>
      var a := assets[id];
      a.kind == Output && a.initialized && a.finalized && !a.released
    case RemoveOp(_) => true
  }

  /** The head has not passed its capacity check. */
  predicate HeadUnchecked(phase: Phase) {
    phase == Idle || phase.Evicting? || phase == Answered(false)
  }

  /** A capacity check for `id` is still to come. */
  ghost predicate Owes(work: seq<Op>, phase: Phase, id: nat) {
    exists i :: 0 <= i < |work| && Checks(work[i], id) && (i > 0 || HeadUnchecked(phase))
  }

  /** The operation that will end `id` is in the queue. */
  ghost predicate Awaited(work: seq<Op>, id: nat) {
    exists i :: 0 <= i < |work| && Ends(work[i]) && work[i].id == id
  }

  /** What an asset's own fields promise. */
  predicate FieldsOk(a: Asset) {
    && CheckedBytes(a) <= HeldBytes(a)
    && (a.kind == AtRest ==> a.released)
    && (a.kind == Output && a.released ==> a.finalized)
    && (a.kind == Output && !a.initialized ==> !a.header && a.accepted == 0)
    && (a.kind == Output && a.initialized && !a.failed ==> a.header)
    && (a.row == Ready ==> a.released)
    && (a.kind == Output && a.row == Ready ==> !a.failed)
  }

  ghost predicate AssetOk(a: Asset, id: nat, work: seq<Op>, phase: Phase) {
    && FieldsOk(a)
    && (!a.released && (a.kind == Input || (a.initialized && a.finalized)) ==> Awaited(work, id))
    && (a.kind == Output && a.initialized && !a.failed && !a.released ==>
          a.checked == HeldBytes(a) || Owes(work, phase, id))
  }

  /** After the operation that ends an asset, nothing works on it. */
  ghost predicate Ordered(work: seq<Op>) {
    forall i, j :: 0 <= i < j < |work| && Ends(work[i]) ==> !WorksOn(work[j], work[i].id)
  }

  ghost predicate PhaseOk(s: State) {
    s.phase != Idle ==>
      && s.work != [] && OpOk(s.assets, s.work[0])
      && (s.phase.Removing? <==> s.work[0].RemoveOp?)
      && (s.work[0].InputOp? ==> s.work[0].reserved)
      && var op := s.work[0];
         match s.phase
         case Discarding => Ends(op)
         case Unwinding => Ends(op)
         case Writing =>
           && !op.FailOp?
           && (Ends(op) ==> s.assets[op.id].checked == HeldBytes(s.assets[op.id]))
           && (op.FinalizeOp? ==> !s.assets[op.id].failed)
         case Answered(ok) =>
           && !op.FailOp? && !op.FinalizeOp?
           && (ok && op.InputOp? ==> s.assets[op.id].checked == HeldBytes(s.assets[op.id]))
         case Evicting(_, _, _) => !op.FailOp? && !op.FinalizeOp?
         case _ => true
  }

  /** The three counters. `bound` is the ceiling in force. */
  ghost predicate Ledger(c: Config, bound: nat, s: State) {
    && s.queuedBytes == Sum(Charge, s.work) <= c.maxPendingBytes
    && s.reservedBytes == Sum(HeldBytes, s.assets)
    && (c.maxBytes.Some? ==> c.maxBytes.value <= bound && s.readyBytes + Sum(CheckedBytes, s.assets) <= bound)
  }

  ghost predicate AssetsOk(s: State) {
    forall id {:trigger s.assets[id]} :: 0 <= id < |s.assets| ==> AssetOk(s.assets[id], id, s.work, s.phase)
  }

  ghost predicate WorkOk(s: State) {
    (forall i {:trigger s.work[i]} :: 0 <= i < |s.work| ==> OpOk(s.assets, s.work[i])) && Ordered(s.work)
  }

  ghost predicate Inv(c: Config, bound: nat, s: State) {
    Ledger(c, bound, s) && AssetsOk(s) && WorkOk(s) && PhaseOk(s)
  }

  // ----- callbacks keep it -----

  /** Asset `id` becomes `a` and, at the same time, `op` joins the queue. */
  ghost predicate Extends(s: State, t: State, id: nat, a: Asset, op: Op)
    requires id < |s.assets|
  {
    && t.assets == s.assets[id := a] && t.work == s.work + [op] && t.phase == s.phase && t.readyBytes == s.readyBytes
    && t.queuedBytes == s.queuedBytes + Charge(op)
    && t.reservedBytes + HeldBytes(s.assets[id]) == s.reservedBytes + HeldBytes(a)
  }

  /** The change a callback makes to a recorder's asset: it can be written to, failed or finalized. */
  ghost predicate Advances(a: Asset, b: Asset) {
    && b == a.(failed := b.failed, initialized := b.initialized, header := b.header, sampleRate := b.sampleRate,
               accepted := b.accepted, finalized := b.finalized)
    && a.kind == Output && FieldsOk(b) && HeldBytes(a) <= HeldBytes(b)
    && (a.failed ==> b.failed) && (a.initialized ==> b.initialized && a.header == b.header)
  }

  lemma OwesMore(work: seq<Op>, phase: Phase, id: nat, op: Op)
    ensures Owes(work, phase, id) ==> Owes(work + [op], phase, id)
    ensures Awaited(work, id) ==> Awaited(work + [op], id)
    ensures Ends(op) && op.id == id ==> Awaited(work + [op], id)
    ensures Checks(op, id) && (work == [] ==> phase == Idle) ==> Owes(work + [op], phase, id)
  {
    if Owes(work, phase, id) {
      var i :| 0 <= i < |work| && Checks(work[i], id) && (i > 0 || HeadUnchecked(phase));
      assert (work + [op])[i] == work[i];
    }
    if Awaited(work, id) {
      var i :| 0 <= i < |work| && Ends(work[i]) && work[i].id == id;
      assert (work + [op])[i] == work[i];
    }
    assert (work + [op])[|work|] == op;
  }

  lemma AssetStaysOk(a: Asset, id: nat, work: seq<Op>, phase: Phase, op: Op)
    requires AssetOk(a, id, work, phase)
    ensures AssetOk(a, id, work + [op], phase)
  {
    OwesMore(work, phase, id, op);
  }

  /** The head is at work on a capacity check, not on ending an asset. */
  predicate HeadIsCheck(s: State) {
    s.work != [] && (s.work[0].InitOp? || s.work[0].FrameOp?)
  }

  predicate HeadChecks(s: State, id: nat) {
    s.work != [] && Checks(s.work[0], id)
  }

  /** An extension whose new operation fits the asset: a check for newly reserved bytes, the
      end of a finalized asset, or the news of a failure. */
  ghost predicate MayExtend(c: Config, s: State, t: State, id: nat, a: Asset, op: Op) {
    && id < |s.assets| && Extends(s, t, id, a, op) && Advances(s.assets[id], a)
    && t.queuedBytes <= c.maxPendingBytes
    && !op.RemoveOp? && !op.InputOp? && op.id == id && OpOk(t.assets, op)
    && (s.assets[id].finalized ==> op.FailOp? && HeadIsCheck(s) && a == s.assets[id].(failed := a.failed))
    && (op.FinalizeOp? || a.finalized == s.assets[id].finalized)
    && (op.FinalizeOp? ==>
        HeldBytes(a) == HeldBytes(s.assets[id]) && a.failed == s.assets[id].failed && s.assets[id].initialized)
  }

  lemma ExtendKeepsLedger(c: Config, bound: nat, s: State, t: State, id: nat, a: Asset, op: Op)
    requires Inv(c, bound, s) && MayExtend(c, s, t, id, a, op)
    ensures Ledger(c, bound, t)
  {
    SumAppend(Charge, s.work, op);
    SumUpdate(HeldBytes, s.assets, id, a);
    SumUpdate(CheckedBytes, s.assets, id, a);
  }

  lemma ExtendKeepsAssets(c: Config, bound: nat, s: State, t: State, id: nat, a: Asset, op: Op)
    requires Inv(c, bound, s) && MayExtend(c, s, t, id, a, op)
    ensures AssetsOk(t)
  {
    OwesMore(s.work, s.phase, id, op);
    forall k | 0 <= k < |t.assets| ensures AssetOk(t.assets[k], k, t.work, t.phase) {
      AssetStaysOk(s.assets[k], k, s.work, s.phase, op);
    }
  }

  lemma ExtendKeepsWork(c: Config, bound: nat, s: State, t: State, id: nat, a: Asset, op: Op)
    requires Inv(c, bound, s) && MayExtend(c, s, t, id, a, op)
    ensures WorkOk(t)
  {
    forall i | 0 <= i < |t.work| ensures OpOk(t.assets, t.work[i]) {
      if i < |s.work| { assert OpOk(s.assets, s.work[i]); }
    }
    forall i, j | 0 <= i < j < |t.work| && Ends(t.work[i]) ensures !WorksOn(t.work[j], t.work[i].id) {
      assert OpOk(s.assets, s.work[i]);
    }
  }

  lemma ExtendKeepsPhase(c: Config, bound: nat, s: State, t: State, id: nat, a: Asset, op: Op)
    requires Inv(c, bound, s) && MayExtend(c, s, t, id, a, op)
    ensures PhaseOk(t)
  {
    if s.work != [] { assert OpOk(s.assets, s.work[0]); }
  }

  lemma ExtendKeeps(c: Config, bound: nat, s: State, t: State, id: nat, a: Asset, op: Op)
    requires Inv(c, bound, s) && MayExtend(c, s, t, id, a, op)
    ensures Inv(c, bound, t)
  {
    ExtendKeepsLedger(c, bound, s, t, id, a, op);
    ExtendKeepsAssets(c, bound, s, t, id, a, op);
    ExtendKeepsWork(c, bound, s, t, id, a, op);
    ExtendKeepsPhase(c, bound, s, t, id, a, op);
  }

  lemma FailedNowKeeps(c: Config, bound: nat, s: State, id: nat)
    requires Inv(c, bound, s) && IsRecorder(s, id) && (s.assets[id].finalized ==> HeadChecks(s, id))
    ensures Inv(c, bound, FailedNow(s, id))
  {
    if !s.assets[id].failed {
      assert AssetOk(s.assets[id], id, s.work, s.phase);
      if s.work != [] { assert OpOk(s.assets, s.work[0]); }
      ExtendKeeps(c, bound, s, FailedNow(s, id), id, s.assets[id].(failed := true), FailOp(id));
    }
  }

  lemma EnsureRowKeeps(c: Config, bound: nat, s: State, id: nat, rate: int)
    requires Inv(c, bound, s) && IsRecorder(s, id) && !s.assets[id].finalized
    ensures Inv(c, bound, EnsureRow(c, s, id, rate))
  {
    var a := s.assets[id];
    assert AssetOk(a, id, s.work, s.phase);
    if !a.initialized {
      var t := EnsureRow(c, s, id, rate);
      EnsureRowExtends(c, s, t, id, rate);
      ExtendKeeps(c, bound, s, t, id, t.assets[id], InitOp(id, HeaderBytes(c, s)));
    }
  }

  function HeaderBytes(c: Config, s: State): nat {
    if CanReserve(c, s, HEADER_BYTES) then HEADER_BYTES else 0
  }

  lemma EnsureRowExtends(c: Config, s: State, t: State, id: nat, rate: int)
    requires IsRecorder(s, id) && !s.assets[id].finalized && !s.assets[id].initialized
    requires FieldsOk(s.assets[id]) && s.queuedBytes <= c.maxPendingBytes && t == EnsureRow(c, s, id, rate)
    ensures id < |t.assets| && MayExtend(c, s, t, id, t.assets[id], InitOp(id, HeaderBytes(c, s)))
  {
  }

  lemma EnsureRowInitializes(c: Config, s: State, id: nat, rate: int)
    requires IsRecorder(s, id) && !s.assets[id].finalized
    ensures var t := EnsureRow(c, s, id, rate);
      IsRecorder(t, id) && !t.assets[id].finalized && t.assets[id].initialized
  {
  }

  lemma AcceptFrameKeeps(c: Config, bound: nat, s: State, id: nat, bytes: nat)
    requires Inv(c, bound, s) && IsRecorder(s, id) && !s.assets[id].finalized && s.assets[id].initialized
    ensures Inv(c, bound, AcceptFrame(c, s, id, bytes))
  {
    var a := s.assets[id];
    assert AssetOk(a, id, s.work, s.phase);
    if CanReserve(c, s, bytes) {
      ExtendKeeps(c, bound, s, AcceptFrame(c, s, id, bytes), id, a.(accepted := a.accepted + bytes),
                  FrameOp(id, bytes));
    } else {
      FailedNowKeeps(c, bound, s, id);
    }
  }

  lemma WriteKeeps(c: Config, bound: nat, s: State, id: nat, samples: nat, rate: int)
    requires Inv(c, bound, s) && IsRecorder(s, id)
    ensures Inv(c, bound, Write(c, s, id, samples, rate))
  {
    var a := s.assets[id];
    if s.closing || a.finalized || samples == 0 || a.failed {
    } else if rate <= 0 {
      FailedNowKeeps(c, bound, s, id);
    } else {
      EnsureRowKeeps(c, bound, s, id, rate);
      EnsureRowInitializes(c, s, id, rate);
      var t := EnsureRow(c, s, id, rate);
      if t.assets[id].sampleRate != rate {
        FailedNowKeeps(c, bound, t, id);
      } else {
        AcceptFrameKeeps(c, bound, t, id, 2 * samples);
      }
    }
  }

  /** Only asset `id` changes, in ways no queued operation depends on. */
  lemma TouchKeeps(c: Config, bound: nat, s: State, t: State, id: nat, a: Asset)
    requires Inv(c, bound, s) && id < |s.assets|
    requires t == s.(assets := s.assets[id := a], readyBytes := t.readyBytes, closing := t.closing)
      && t.readyBytes <= s.readyBytes
    requires a == s.assets[id].(row := a.row, rowBytes := a.rowBytes, finalized := a.finalized)
    requires a.row == Ready ==> s.assets[id].row == Ready
    requires a.finalized == s.assets[id].finalized || (a.finalized && a.kind == Output && !a.initialized)
    ensures Inv(c, bound, t)
  {
    SumUpdate(HeldBytes, s.assets, id, a);
    SumUpdate(CheckedBytes, s.assets, id, a);
    forall k | 0 <= k < |t.assets| ensures AssetOk(t.assets[k], k, t.work, t.phase) {
      assert AssetOk(s.assets[k], k, s.work, s.phase);
    }
    forall i | 0 <= i < |t.work| ensures OpOk(t.assets, t.work[i]) {
      assert OpOk(s.assets, s.work[i]);
    }
  }

  lemma FinalizeKeeps(c: Config, bound: nat, s: State, id: nat)
    requires Inv(c, bound, s) && IsRecorder(s, id)
    ensures Inv(c, bound, Finalize(s, id))
  {
    var a := s.assets[id];
    assert AssetOk(a, id, s.work, s.phase);
    if !a.finalized {
      if a.initialized {
        ExtendKeeps(c, bound, s, Finalize(s, id), id, a.(finalized := true), FinalizeOp(id));
      } else {
        TouchKeeps(c, bound, s, Finalize(s, id), id, a.(finalized := true));
      }
    }
  }

  lemma LookUpMissingKeeps(c: Config, bound: nat, s: State, id: nat)
    requires Inv(c, bound, s)
    ensures Inv(c, bound, LookUpMissing(s, id))
  {
    if id < |s.assets| && s.assets[id].row == Ready {
      TouchKeeps(c, bound, s, LookUpMissing(s, id), id, s.assets[id].(row := Missing));
    }
  }

  /** A new asset, with the operation that retains it if it has one. */
  lemma NewAssetKeeps(c: Config, bound: nat, s: State, t: State, a: Asset, ops: seq<Op>)
    requires Inv(c, bound, s) && IsNewAsset(c, s, t, a, ops)
    ensures Inv(c, bound, t)
  {
    LedgerTakesAsset(c, bound, s, t, a, ops);
    NewAssetKeepsAssets(c, bound, s, t, a, ops);
    NewAssetKeepsWork(c, bound, s, t, a, ops);
  }

  /** The state after it, and what the asset and its operation must be. */
  ghost predicate IsNewAsset(c: Config, s: State, t: State, a: Asset, ops: seq<Op>) {
    && FieldsOk(a) && a.checked == 0 && a.kind != AtRest
    && t == s.(assets := s.assets + [a], work := s.work + ops, queuedBytes := t.queuedBytes,
               reservedBytes := s.reservedBytes + HeldBytes(a))
    && (a.kind == Output ==> ops == [] && !a.initialized && !a.released)
    && (a.kind == Input ==> |ops| == 1 && ops[0].InputOp? && ops[0].id == |s.assets| && OpOk(t.assets, ops[0]))
    && t.queuedBytes == s.queuedBytes + (if ops == [] then 0 else Charge(ops[0])) <= c.maxPendingBytes
  }

  lemma LedgerTakesAsset(c: Config, bound: nat, s: State, t: State, a: Asset, ops: seq<Op>)
    requires Ledger(c, bound, s) && CheckedBytes(a) == 0 && |ops| <= 1
    requires t.assets == s.assets + [a] && t.work == s.work + ops && t.readyBytes == s.readyBytes
    requires t.reservedBytes == s.reservedBytes + HeldBytes(a)
    requires t.queuedBytes == s.queuedBytes + (if ops == [] then 0 else Charge(ops[0])) <= c.maxPendingBytes
    ensures Ledger(c, bound, t)
  {
    SumAppend(HeldBytes, s.assets, a);
    SumAppend(CheckedBytes, s.assets, a);
    ChargeMore(s.work, ops);
  }

  /** At most one more operation in the queue. */
  lemma ChargeMore(work: seq<Op>, ops: seq<Op>)
    requires |ops| <= 1
    ensures Sum(Charge, work + ops) == Sum(Charge, work) + if ops == [] then 0 else Charge(ops[0])
  {
    if ops == [] {
      assert work + ops == work;
    } else {
      assert ops == [ops[0]];
      SumAppend(Charge, work, ops[0]);
    }
  }

  lemma NewAssetKeepsAssets(c: Config, bound: nat, s: State, t: State, a: Asset, ops: seq<Op>)
    requires Inv(c, bound, s) && IsNewAsset(c, s, t, a, ops)
    ensures AssetsOk(t)
  {
    forall k | 0 <= k < |t.assets| ensures AssetOk(t.assets[k], k, t.work, t.phase) {
      if k < |s.assets| {
        OldAssetStaysOk(c, bound, s, t, a, ops, k);
      } else {
        NewAssetIsOk(c, bound, s, t, a, ops);
      }
    }
  }

  lemma OldAssetStaysOk(c: Config, bound: nat, s: State, t: State, a: Asset, ops: seq<Op>, k: nat)
    requires Inv(c, bound, s) && IsNewAsset(c, s, t, a, ops) && k < |s.assets|
    ensures AssetOk(t.assets[k], k, t.work, t.phase)
  {
    assert AssetOk(s.assets[k], k, s.work, s.phase);
    if ops != [] {
      AssetStaysOk(s.assets[k], k, s.work, s.phase, ops[0]);
      assert t.work == s.work + [ops[0]];
    } else {
      assert t.work == s.work;
    }
  }

  lemma NewAssetIsOk(c: Config, bound: nat, s: State, t: State, a: Asset, ops: seq<Op>)
    requires Inv(c, bound, s) && IsNewAsset(c, s, t, a, ops)
    ensures AssetOk(a, |s.assets|, t.work, t.phase)
  {
    if ops != [] { assert t.work[|s.work|] == ops[0]; }
  }

  lemma NewAssetKeepsWork(c: Config, bound: nat, s: State, t: State, a: Asset, ops: seq<Op>)
    requires Inv(c, bound, s) && IsNewAsset(c, s, t, a, ops)
    ensures WorkOk(t) && PhaseOk(t)
  {
    forall i | 0 <= i < |t.work| ensures OpOk(t.assets, t.work[i]) {
      if i < |s.work| { assert OpOk(s.assets, s.work[i]); }
    }
    forall i, j | 0 <= i < j < |t.work| && Ends(t.work[i]) ensures !WorksOn(t.work[j], t.work[i].id) {
      assert OpOk(s.assets, s.work[i]);
    }
  }

  lemma RemoveSessionKeeps(c: Config, bound: nat, s: State, session: Session)
    requires Inv(c, bound, s)
    ensures Inv(c, bound, Enqueued(s, RemoveOp(session)))
  {
    SumAppend(Charge, s.work, RemoveOp(session));
    RemovalKeepsAssets(c, bound, s, session);
    RemovalKeepsWork(c, bound, s, session);
  }

  lemma RemovalKeepsAssets(c: Config, bound: nat, s: State, session: Session)
    requires Inv(c, bound, s)
    ensures AssetsOk(Enqueued(s, RemoveOp(session)))
  {
    var t := Enqueued(s, RemoveOp(session));
    forall k | 0 <= k < |t.assets| ensures AssetOk(t.assets[k], k, t.work, t.phase) {
      AssetStaysOk(s.assets[k], k, s.work, s.phase, RemoveOp(session));
    }
  }

  lemma RemovalKeepsWork(c: Config, bound: nat, s: State, session: Session)
    requires Inv(c, bound, s)
    ensures WorkOk(Enqueued(s, RemoveOp(session)))
  {
    var t := Enqueued(s, RemoveOp(session));
    forall i | 0 <= i < |t.work| ensures OpOk(t.assets, t.work[i]) {
      if i < |s.work| { assert OpOk(s.assets, s.work[i]); }
    }
  }

  lemma RetainInputKeeps(c: Config, bound: nat, s: State, key: Key, bytes: nat)
    requires Inv(c, bound, s)
    ensures Inv(c, bound, RetainInput(c, s, key, bytes))
  {
    if !s.closing {
      var reserved := CanReserve(c, s, bytes);
      InputIsNewAsset(c, s, key, bytes);
      NewAssetKeeps(c, bound, s, RetainInput(c, s, key, bytes), InputAsset(key, bytes, reserved),
                    [InputOp(|s.assets|, bytes, reserved)]);
    }
  }

  lemma InputIsNewAsset(c: Config, s: State, key: Key, bytes: nat)
    requires !s.closing && s.queuedBytes <= c.maxPendingBytes
    ensures var reserved := CanReserve(c, s, bytes);
      IsNewAsset(c, s, RetainInput(c, s, key, bytes), InputAsset(key, bytes, reserved),
                 [InputOp(|s.assets|, bytes, reserved)])
  {
  }

  lemma NewRecorderKeeps(c: Config, bound: nat, s: State, key: Key)
    requires Inv(c, bound, s)
    ensures Inv(c, bound, NewRecorder(s, key))
  {
    var t := NewRecorder(s, key);
    assert t.work == s.work + [];
    NewAssetKeeps(c, bound, s, t, t.assets[|s.assets|], []);
  }

  lemma CallbackKeeps(c: Config, bound: nat, s: State, e: Event)
    requires Inv(c, bound, s) && !e.ToStart? && !e.ToResume?
    ensures Inv(c, bound, Step(c, s, e))
  {
    match e
    case ToRetainInput(key, bytes) => RetainInputKeeps(c, bound, s, key, bytes);
    case ToNewRecorder(key) => NewRecorderKeeps(c, bound, s, key);
    case ToWrite(id, samples, rate) =>
      if IsRecorder(s, id) { WriteKeeps(c, bound, s, id, samples, rate); }
    case ToFinalize(id) =>
      if IsRecorder(s, id) { FinalizeKeeps(c, bound, s, id); }
    case ToLookUpMissing(id) => LookUpMissingKeeps(c, bound, s, id);
    case ToRemoveSession(session) => RemoveSessionKeeps(c, bound, s, session);
    case ToClose =>
  }

  // ----- the queue keeps it -----

  /** A session's rows go; no reservation does. */
  lemma RowsRemovedKeeps(c: Config, bound: nat, s: State, session: Session, bytes: nat)
    requires Inv(c, bound, s)
    ensures Inv(c, bound, RowsRemoved(s, session, bytes))
  {
    DeleteKeepsSums(s.assets, session);
    RowsRemovedKeepAssets(c, bound, s, session, bytes);
    RowsRemovedKeepWork(c, bound, s, session, bytes);
  }

  lemma RowsRemovedKeepAssets(c: Config, bound: nat, s: State, session: Session, bytes: nat)
    requires Inv(c, bound, s)
    ensures AssetsOk(RowsRemoved(s, session, bytes))
  {
    var t := RowsRemoved(s, session, bytes);
    forall k | 0 <= k < |t.assets| ensures AssetOk(t.assets[k], k, t.work, t.phase) {
      assert AssetOk(s.assets[k], k, s.work, s.phase);
    }
  }

  lemma RowsRemovedKeepWork(c: Config, bound: nat, s: State, session: Session, bytes: nat)
    requires Inv(c, bound, s)
    ensures WorkOk(RowsRemoved(s, session, bytes))
  {
    var t := RowsRemoved(s, session, bytes);
    forall i | 0 <= i < |t.work| ensures OpOk(t.assets, t.work[i]) {
      assert OpOk(s.assets, s.work[i]);
    }
  }

  lemma {:induction false} DeleteKeepsSums(assets: seq<Asset>, session: Session)
    ensures Sum(HeldBytes, DeleteRows(assets, session)) == Sum(HeldBytes, assets)
    ensures Sum(CheckedBytes, DeleteRows(assets, session)) == Sum(CheckedBytes, assets)
    ensures Sum(ReadyBytes, DeleteRows(assets, session)) + Sum(ReadyIn(session), assets) == Sum(ReadyBytes, assets)
    decreases |assets|
  {
    if assets != [] {
      var n := |assets| - 1;
      DeleteKeepsSums(assets[..n], session);
      assert DeleteRows(assets, session)[..n] == DeleteRows(assets[..n], session);
    }
  }

  lemma InsertKeeps(c: Config, bound: nat, s: State, id: nat, row: Row)
    requires Inv(c, bound, s) && id < |s.assets| && row != Ready
    ensures Inv(c, bound, s.(assets := Insert(s.assets, id, row)))
  {
    var t := s.(assets := Insert(s.assets, id, row));
    assert t == s.(assets := s.assets[id := t.assets[id]]);
    TouchKeeps(c, bound, s, t, id, t.assets[id]);
  }

  lemma PhaseKeeps(c: Config, bound: nat, s: State, phase: Phase)
    requires Inv(c, bound, s) && s.work != [] && PhaseOk(s.(phase := phase))
    requires HeadUnchecked(s.phase) && HeadIsCheck(s) ==> HeadUnchecked(phase)
    ensures Inv(c, bound, s.(phase := phase))
  {
    forall k | 0 <= k < |s.assets| ensures AssetOk(s.assets[k], k, s.work, phase) {
      assert AssetOk(s.assets[k], k, s.work, s.phase);
      if Owes(s.work, s.phase, k) {
        var i :| 0 <= i < |s.work| && Checks(s.work[i], k) && (i > 0 || HeadUnchecked(s.phase));
        assert Owes(s.work, phase, k);
      }
    }
  }

  lemma {:induction false} ScanStops(c: Config, s: State, candidates: seq<Session>, begin: set<Session>)
    ensures var phase := Scan(c, s, candidates, begin);
      phase.Evicting? || phase == Answered(false) || (phase == Answered(true) && UnderCeiling(c, s))
    ensures var phase := Scan(c, s, candidates, begin);
      phase.Evicting? ==>
        phase.victim in candidates && phase.victim in begin && phase.bytes == Sum(ReadyIn(phase.victim), s.assets)
    decreases |candidates|
  {
    if candidates != [] {
      ScanStops(c, s, candidates[1..], begin);
    }
  }

  /** The session holds ready bytes, and the conversation store agrees to its eviction. */
  predicate MayEvict(s: State, session: Session, begin: set<Session>) {
    Sum(ReadyIn(session), s.assets) > 0 && session in begin
  }

  /** Candidate `k` is the first whose eviction can begin. */
  predicate IsFirst(s: State, candidates: seq<Session>, begin: set<Session>, k: nat) {
    && k < |candidates| && MayEvict(s, candidates[k], begin)
    && forall j :: 0 <= j < k ==> !MayEvict(s, candidates[j], begin)
  }

  /** The scan answers yes exactly when everything fits; otherwise it evicts the first candidate it
      can, and answers no exactly when there is none. */
  lemma {:induction false} ScanAnswers(c: Config, s: State, candidates: seq<Session>, begin: set<Session>)
    ensures var phase, fits :=
        Scan(c, s, candidates, begin), c.maxBytes.None? || s.readyBytes + s.reservedBytes <= c.maxBytes.value;
      && (phase == Answered(true) <==> fits)
      && (phase == Answered(false) <==>
            !fits && forall k :: 0 <= k < |candidates| ==> !MayEvict(s, candidates[k], begin))
      && (!phase.Answered? ==> exists k: nat ::
            && IsFirst(s, candidates, begin, k)
            && phase == Evicting(candidates[k], Sum(ReadyIn(candidates[k]), s.assets), candidates[k + 1..]))
    decreases |candidates|
  {
    if !UnderCeiling(c, s) && candidates != [] {
      var rest := candidates[1..];
      if MayEvict(s, candidates[0], begin) {
        assert IsFirst(s, candidates, begin, 0);
      } else {
        ScanAnswers(c, s, rest, begin);
        var phase := Scan(c, s, rest, begin);
        if !phase.Answered? {
          var k: nat :| IsFirst(s, rest, begin, k)
            && phase == Evicting(rest[k], Sum(ReadyIn(rest[k]), s.assets), rest[k + 1..]);
          FirstFurtherOn(s, candidates, begin, k);
        }
      }
    }
  }

  lemma FirstFurtherOn(s: State, candidates: seq<Session>, begin: set<Session>, k: nat)
    requires candidates != [] && !MayEvict(s, candidates[0], begin) && IsFirst(s, candidates[1..], begin, k)
    ensures IsFirst(s, candidates, begin, k + 1)
    ensures candidates[1..][k] == candidates[k + 1] && candidates[1..][k + 1..] == candidates[k + 2..]
  {
    forall j | 0 <= j < k + 1 ensures !MayEvict(s, candidates[j], begin) {
      if j > 0 { assert candidates[1..][j - 1] == candidates[j]; }
    }
  }

  /** The head's asset `id` may pass its check now. */
  ghost predicate MayPass(c: Config, s: State, id: nat) {
    && s.work != [] && UnderCeiling(c, s) && HeadUnchecked(s.phase) && id < |s.assets|
    && (s.work[0] == InputOp(id, HeldBytes(s.assets[id]), true) || Checks(s.work[0], id))
  }

  /** The heart of the ceiling: a check passes only when everything reserved would fit, so
      whatever each asset held at its last check fits as well. */
  lemma PassKeepsLedger(c: Config, bound: nat, s: State, id: nat)
    requires Inv(c, bound, s) && MayPass(c, s, id)
    ensures Ledger(c, bound, Suspended(s, id, Answered(true)))
  {
    var a := s.assets[id].(checked := HeldBytes(s.assets[id]));
    var t := Suspended(s, id, Answered(true));
    SumUpdate(HeldBytes, s.assets, id, a);
    forall k | 0 <= k < |t.assets| ensures CheckedBytes(t.assets[k]) <= HeldBytes(t.assets[k]) {
      assert AssetOk(s.assets[k], k, s.work, s.phase);
    }
    SumAtMost(CheckedBytes, HeldBytes, t.assets);
  }

  lemma PassKeeps(c: Config, bound: nat, s: State, id: nat)
    requires Inv(c, bound, s) && MayPass(c, s, id)
    ensures Inv(c, bound, Suspended(s, id, Answered(true)))
  {
    PassKeepsLedger(c, bound, s, id);
    var t := Suspended(s, id, Answered(true));
    forall k | 0 <= k < |t.assets| ensures AssetOk(t.assets[k], k, t.work, t.phase) {
      assert AssetOk(s.assets[k], k, s.work, s.phase);
      if k != id && Owes(s.work, s.phase, k) {
        var i :| 0 <= i < |s.work| && Checks(s.work[i], k) && (i > 0 || HeadUnchecked(s.phase));
        assert i > 0;
        assert Owes(t.work, t.phase, k);
      }
    }
    forall i | 0 <= i < |t.work| ensures OpOk(t.assets, t.work[i]) {
      assert OpOk(s.assets, s.work[i]);
    }
  }

  lemma CheckKeeps(c: Config, bound: nat, s: State, id: nat, candidates: seq<Session>, begin: set<Session>)
    requires Inv(c, bound, s) && s.work != [] && HeadUnchecked(s.phase) && id < |s.assets|
    requires s.work[0] == InputOp(id, HeldBytes(s.assets[id]), true) || Checks(s.work[0], id)
    ensures Inv(c, bound, CheckFor(c, s, id, candidates, begin))
  {
    ScanStops(c, s, candidates, begin);
    var phase := Scan(c, s, candidates, begin);
    if phase == Answered(true) {
      PassKeeps(c, bound, s, id);
    } else {
      assert OpOk(s.assets, s.work[0]);
      PhaseKeeps(c, bound, s, phase);
    }
  }

  /** The head leaves the queue: its check has passed or its asset failed, and an asset it ends
      has nothing left to give back. */
  lemma PopKeeps(c: Config, bound: nat, s: State)
    requires Inv(c, bound, s) && s.work != []
    requires HeadIsCheck(s) && HeadUnchecked(s.phase) ==> s.assets[s.work[0].id].failed
    requires Ends(s.work[0]) ==> s.work[0].InputOp? && !s.work[0].reserved
    ensures Inv(c, bound, Finished(s))
  {
    var t := Finished(s);
    SumTail(Charge, s.work);
    assert OpOk(s.assets, s.work[0]);
    forall k | 0 <= k < |t.assets| ensures AssetOk(t.assets[k], k, t.work, t.phase) {
      assert AssetOk(s.assets[k], k, s.work, s.phase);
      TailDuties(s, k);
    }
    forall i | 0 <= i < |t.work| ensures OpOk(t.assets, t.work[i]) {
      assert OpOk(s.assets, s.work[i + 1]);
    }
  }

  /** What an asset is owed by the queue, and is not owed by its head, the tail still owes. */
  lemma TailDuties(s: State, k: nat)
    requires s.work != []
    ensures Owes(s.work, s.phase, k) ==>
      Owes(s.work[1..], Idle, k) || (Checks(s.work[0], k) && HeadUnchecked(s.phase))
    ensures Awaited(s.work, k) ==> Awaited(s.work[1..], k) || (Ends(s.work[0]) && s.work[0].id == k)
  {
    if Owes(s.work, s.phase, k) {
      var i :| 0 <= i < |s.work| && Checks(s.work[i], k) && (i > 0 || HeadUnchecked(s.phase));
      if i > 0 { assert Checks(s.work[1..][i - 1], k); }
    }
    if Awaited(s.work, k) {
      var i :| 0 <= i < |s.work| && Ends(s.work[i]) && s.work[i].id == k;
      if i > 0 { assert s.work[1..][i - 1] == s.work[i]; }
    }
  }

  /** The head ends asset `a`, which comes out as `b` with its reservation given back; what
      turned ready is at most what it held when it last passed a check. */
  ghost predicate EndsHead(s: State, t: State, b: Asset) {
    && s.work != [] && Ends(s.work[0]) && s.work[0].id < |s.assets|
    && var id := s.work[0].id; var a := s.assets[id];
       && b == a.(row := b.row, rowBytes := b.rowBytes, released := true)
       && t.assets == s.assets[id := b] && t.work == s.work[1..] && t.phase == Idle
       && t.queuedBytes == Minus(s.queuedBytes, Charge(s.work[0]))
       && t.reservedBytes == Minus(s.reservedBytes, HeldBytes(a))
       && t.readyBytes <= s.readyBytes + CheckedBytes(a)
       && (b.kind == Output && b.row == Ready ==> !b.failed)
  }

  lemma EndKeepsLedger(c: Config, bound: nat, s: State, t: State, b: Asset)
    requires Inv(c, bound, s) && EndsHead(s, t, b)
    ensures Ledger(c, bound, t)
  {
    var id := s.work[0].id;
    SumTail(Charge, s.work);
    SumUpdate(HeldBytes, s.assets, id, b);
    SumUpdate(CheckedBytes, s.assets, id, b);
  }

  lemma EndKeepsAssets(c: Config, bound: nat, s: State, t: State, b: Asset)
    requires Inv(c, bound, s) && EndsHead(s, t, b) && !s.assets[s.work[0].id].released
    ensures AssetsOk(t)
  {
    var id := s.work[0].id;
    assert OpOk(s.assets, s.work[0]) && AssetOk(s.assets[id], id, s.work, s.phase);
    forall k | 0 <= k < |t.assets| ensures AssetOk(t.assets[k], k, t.work, t.phase) {
      assert AssetOk(s.assets[k], k, s.work, s.phase);
      TailDuties(s, k);
    }
  }

  lemma EndKeepsWork(c: Config, bound: nat, s: State, t: State, b: Asset)
    requires Inv(c, bound, s) && EndsHead(s, t, b)
    ensures WorkOk(t)
  {
    var id := s.work[0].id;
    forall i | 0 <= i < |t.work| ensures OpOk(t.assets, t.work[i]) {
      assert OpOk(s.assets, s.work[i + 1]);
      assert Ends(s.work[0]) && !WorksOn(s.work[i + 1], id);
    }
  }

  lemma EndKeeps(c: Config, bound: nat, s: State, t: State, b: Asset)
    requires Inv(c, bound, s) && EndsHead(s, t, b) && !s.assets[s.work[0].id].released
    ensures Inv(c, bound, t)
  {
    EndKeepsLedger(c, bound, s, t, b);
    EndKeepsAssets(c, bound, s, t, b);
    EndKeepsWork(c, bound, s, t, b);
  }

  lemma StartKeeps(c: Config, bound: nat, s: State, candidates: seq<Session>, begin: set<Session>)
    requires Inv(c, bound, s) && s.phase == Idle && s.work != [] && Applies(s.assets, s.work[0])
    ensures Inv(c, bound, Start(c, s, candidates, begin))
  {
    assert OpOk(s.assets, s.work[0]);
    match s.work[0]
    case InputOp(id, _, reserved) =>
      var row := if reserved then Pending else Missing;
      InsertKeeps(c, bound, s, id, row);
      var t := s.(assets := Insert(s.assets, id, row));
      if reserved { CheckKeeps(c, bound, t, id, candidates, begin); } else { PopKeeps(c, bound, t); }
    case InitOp(id, _) =>
      var row := if s.assets[id].failed then Truncated else Pending;
      InsertKeeps(c, bound, s, id, row);
      var t := s.(assets := Insert(s.assets, id, row));
      assert AssetOk(s.assets[id], id, s.work, s.phase);
      if s.assets[id].failed { PopKeeps(c, bound, t); } else { CheckKeeps(c, bound, t, id, candidates, begin); }
    case FrameOp(id, _) =>
      if s.assets[id].failed { PopKeeps(c, bound, s); } else { CheckKeeps(c, bound, s, id, candidates, begin); }
    case FailOp(id) =>
      var t := WithAsset(s, id, SetRow(s.assets[id], Truncated));
      TouchKeeps(c, bound, s, t, id, t.assets[id]);
      PopKeeps(c, bound, t);
    case FinalizeOp(id) => StartFinalizeKeeps(c, bound, s, id);
    case RemoveOp(session) =>
      PhaseKeeps(c, bound, s, Removing(Sum(ReadyIn(session), s.assets)));
  }

  /** A recording that reaches its end unfailed passed its last check with all it will commit. */
  lemma StartFinalizeKeeps(c: Config, bound: nat, s: State, id: nat)
    requires Inv(c, bound, s) && s.phase == Idle && s.work != [] && s.work[0] == FinalizeOp(id) && id < |s.assets|
    ensures !s.assets[id].failed ==> s.assets[id].checked == HeldBytes(s.assets[id])
    ensures Inv(c, bound, Start(c, s, [], {}))
  {
    assert OpOk(s.assets, s.work[0]);
    assert AssetOk(s.assets[id], id, s.work, s.phase);
    assert Ends(s.work[0]);
    assert !Owes(s.work, s.phase, id);
    if s.assets[id].failed {
      var t := WithAsset(s, id, SetRow(s.assets[id], Truncated));
      TouchKeeps(c, bound, s, t, id, t.assets[id]);
      PhaseKeeps(c, bound, t, Discarding);
    } else {
      PhaseKeeps(c, bound, s, Writing);
    }
  }

  lemma RefusedKeeps(c: Config, bound: nat, s: State)
    requires Inv(c, bound, s) && s.phase == Answered(false) && Applies(s.assets, s.work[0]) && !s.work[0].RemoveOp?
    ensures Inv(c, bound, Refused(s))
  {
    var id := s.work[0].id;
    assert OpOk(s.assets, s.work[0]);
    if s.work[0].InputOp? {
      HeadIsReserved(c, bound, s);
      EndKeeps(c, bound, s, Refused(s), SetRow(s.assets[id], Missing).(released := true));
    } else {
      FailedNowKeeps(c, bound, s, id);
      PopKeeps(c, bound, FailedNow(s, id));
    }
  }

  /** An input whose bytes were never reserved does not get past its first segment. */
  lemma HeadIsReserved(c: Config, bound: nat, s: State)
    requires Inv(c, bound, s) && s.phase != Idle && s.work[0].InputOp?
    ensures s.work[0].reserved && !s.assets[s.work[0].id].released
  {
    assert OpOk(s.assets, s.work[0]);
  }

  lemma CommittedKeeps(c: Config, bound: nat, s: State)
    requires Inv(c, bound, s) && s.phase == Writing && Applies(s.assets, s.work[0]) && Ends(s.work[0])
    ensures Inv(c, bound, Committed(s))
  {
    var id := s.work[0].id;
    var a := s.assets[id];
    assert OpOk(s.assets, s.work[0]) && AssetOk(a, id, s.work, s.phase);
    var bytes := if s.work[0].InputOp? then s.work[0].bytes else a.accepted + HEADER_BYTES;
    assert bytes == HeldBytes(a) == CheckedBytes(a);
    if a.row == Pending {
      EndKeeps(c, bound, s, Committed(s), a.(row := Ready, rowBytes := bytes, released := true));
    } else {
      PhaseKeeps(c, bound, s, Discarding);
    }
  }

  lemma WriteFailedKeeps(c: Config, bound: nat, s: State)
    requires Inv(c, bound, s) && s.phase == Writing && Applies(s.assets, s.work[0]) && !s.work[0].RemoveOp?
    ensures Inv(c, bound, WriteFailed(s))
  {
    var id := s.work[0].id;
    assert OpOk(s.assets, s.work[0]);
    if Ends(s.work[0]) {
      PhaseKeeps(c, bound, s, Unwinding);
    } else {
      FailedNowKeeps(c, bound, s, id);
      FailedHeadKeeps(c, bound, FailedNow(s, id), id);
    }
  }

  /** The head's recording has failed: its row is given up, or there is nothing more to do. */
  lemma FailedHeadKeeps(c: Config, bound: nat, s: State, id: nat)
    requires Inv(c, bound, s) && HeadIsCheck(s) && id == s.work[0].id < |s.assets| && s.assets[id].failed
    ensures Inv(c, bound, Finished(s))
    ensures s.work[0].InitOp? ==> Inv(c, bound, Finished(WithAsset(s, id, SetRow(s.assets[id], Truncated))))
  {
    PopKeeps(c, bound, s);
    if s.work[0].InitOp? {
      var u := WithAsset(s, id, SetRow(s.assets[id], Truncated));
      assert OpOk(s.assets, s.work[0]);
      TouchKeeps(c, bound, s, u, id, u.assets[id]);
      PopKeeps(c, bound, u);
    }
  }

  lemma GivenUpKeeps(c: Config, bound: nat, s: State)
    requires Inv(c, bound, s) && (s.phase == Discarding || s.phase == Unwinding) && Applies(s.assets, s.work[0])
    ensures Inv(c, bound, Finished(Released(s, s.work[0].id)))
  {
    var id := s.work[0].id;
    assert OpOk(s.assets, s.work[0]);
    EndKeeps(c, bound, s, Finished(Released(s, id)), s.assets[id].(released := true));
  }

  lemma GivenUpAsMissingKeeps(c: Config, bound: nat, s: State)
    requires Inv(c, bound, s) && (s.phase == Discarding || s.phase == Unwinding) && Applies(s.assets, s.work[0])
    ensures Inv(c, bound,
                Finished(Released(WithAsset(s, s.work[0].id, SetRow(s.assets[s.work[0].id], Missing)), s.work[0].id)))
  {
    var id := s.work[0].id;
    var a := s.assets[id];
    assert OpOk(s.assets, s.work[0]);
    EndKeeps(c, bound, s, Finished(Released(WithAsset(s, id, SetRow(a, Missing)), id)),
             SetRow(a, Missing).(released := true));
  }

  lemma EvictedKeeps(c: Config, bound: nat, s: State, outcome: Outcome, begin: set<Session>)
    requires Inv(c, bound, s) && s.phase.Evicting? && Applies(s.assets, s.work[0])
    ensures Inv(c, bound, Resume(c, s, outcome, begin))
  {
    assert OpOk(s.assets, s.work[0]);
    if outcome == Failed {
      PhaseKeeps(c, bound, s, Answered(false));
    } else {
      RowsRemovedKeeps(c, bound, s, s.phase.victim, s.phase.bytes);
      var t := RowsRemoved(s, s.phase.victim, s.phase.bytes);
      if outcome == FinishFailed {
        PhaseKeeps(c, bound, t, Answered(false));
      } else {
        CheckKeeps(c, bound, t, s.work[0].id, s.phase.rest, begin);
      }
    }
  }

  lemma ResumeKeeps(c: Config, bound: nat, s: State, outcome: Outcome, begin: set<Session>)
    requires Inv(c, bound, s) && s.phase != Idle && s.work != [] && Applies(s.assets, s.work[0])
    requires s.phase.Removing? <==> s.work[0].RemoveOp?
    ensures Inv(c, bound, Resume(c, s, outcome, begin))
  {
    var op := s.work[0];
    match s.phase
    case Evicting(_, _, _) => EvictedKeeps(c, bound, s, outcome, begin);
    case Answered(ok) =>
      if ok { PhaseKeeps(c, bound, s, Writing); } else { RefusedKeeps(c, bound, s); }
    case Writing =>
      if outcome != Done { WriteFailedKeeps(c, bound, s); }
      else if Ends(op) { CommittedKeeps(c, bound, s); }
      else { PopKeeps(c, bound, s); }
    case Discarding =>
      GivenUpKeeps(c, bound, s);
      if outcome != Done { PhaseKeeps(c, bound, s, Unwinding); }
    case Unwinding => GivenUpAsMissingKeeps(c, bound, s);
    case Removing(bytes) =>
      if outcome == Done {
        RowsRemovedKeeps(c, bound, s, op.session, bytes);
        PopKeeps(c, bound, RowsRemoved(s, op.session, bytes));
      } else {
        PopKeeps(c, bound, s);
      }
  }

  lemma StepKeeps(c: Config, bound: nat, s: State, e: Event)
    requires Inv(c, bound, s)
    ensures Inv(c, bound, Step(c, s, e))
  {
    match e
    case ToStart(candidates, begin) =>
      if s.phase == Idle && s.work != [] && Applies(s.assets, s.work[0]) { StartKeeps(c, bound, s, candidates, begin); }
    case ToResume(outcome, begin) =>
      if s.phase != Idle && s.work != [] && Applies(s.assets, s.work[0])
        && (s.phase.Removing? <==> s.work[0].RemoveOp?) {
        ResumeKeeps(c, bound, s, outcome, begin);
      }
    case _ => CallbackKeeps(c, bound, s, e);
  }

  // ----- whole runs -----

  /** A store just opened: rows at rest, nothing queued or promised, the ready bytes counted. */
  ghost predicate Opened(s: State) {
    && s.queuedBytes == 0 && s.reservedBytes == 0 && s.work == [] && s.phase == Idle
    && s.readyBytes == Sum(ReadyBytes, s.assets)
    && forall k {:trigger s.assets[k]} :: 0 <= k < |s.assets| ==> s.assets[k].kind == AtRest && s.assets[k].released
  }

  function Ceiling(c: Config, initial: State): nat {
    if c.maxBytes.Some? && initial.readyBytes < c.maxBytes.value then c.maxBytes.value else initial.readyBytes
  }

  lemma OpenedHasInv(c: Config, s: State)
    requires Opened(s)
    ensures Inv(c, Ceiling(c, s), s)
  {
    SumZero(HeldBytes, s.assets);
    SumZero(CheckedBytes, s.assets);
  }

  lemma {:induction false} RunKeeps(c: Config, initial: State, events: seq<Event>)
    requires Opened(initial)
    ensures Inv(c, Ceiling(c, initial), Run(c, initial, events))
    decreases |events|
  {
    if events == [] {
      OpenedHasInv(c, initial);
    } else {
      RunKeeps(c, initial, events[..|events| - 1]);
      StepKeeps(c, Ceiling(c, initial), Run(c, initial, events[..|events| - 1]), events[|events| - 1]);
    }
  }

  /** However callbacks and queue segments interleave, the ready bytes stay under the ceiling —
      or under what was already there when the store opened — and the queue under its own. */
  lemma ByteCeiling(c: Config, initial: State, events: seq<Event>)
    requires Opened(initial) && c.maxBytes.Some?
    ensures Run(c, initial, events).readyBytes <= Max(c.maxBytes.value, initial.readyBytes)
    ensures Run(c, initial, events).queuedBytes <= c.maxPendingBytes
  {
    RunKeeps(c, initial, events);
  }

  /** At every moment the reservation counter is exactly the sum of the promises still open,
      and the queue counter exactly what the queued operations carry: so no `Math.max(0, ...)`
      ever hides a second release. */
  lemma Conservation(c: Config, initial: State, events: seq<Event>)
    requires Opened(initial)
    ensures var s := Run(c, initial, events);
      && s.reservedBytes == Sum(HeldBytes, s.assets) && s.queuedBytes == Sum(Charge, s.work)
      && (s.work != [] ==> Charge(s.work[0]) <= s.queuedBytes)
      && forall id {:trigger s.assets[id]} :: 0 <= id < |s.assets| ==> HeldBytes(s.assets[id]) <= s.reservedBytes
  {
    RunKeeps(c, initial, events);
    var s := Run(c, initial, events);
    if s.work != [] { SumTail(Charge, s.work); }
    forall id | 0 <= id < |s.assets| ensures HeldBytes(s.assets[id]) <= s.reservedBytes {
      SumUpdate(HeldBytes, s.assets, id, s.assets[id]);
    }
  }

  /** Once the queue is empty and every recorder that wrote was finalized, nothing is promised. */
  lemma DrainedIsZero(c: Config, initial: State, events: seq<Event>)
    requires Opened(initial)
    requires var s := Run(c, initial, events);
      && s.work == []
      && forall id {:trigger s.assets[id]} ::
        0 <= id < |s.assets| && s.assets[id].kind == Output && s.assets[id].initialized ==>
           s.assets[id].finalized
    ensures Run(c, initial, events).reservedBytes == 0 && Run(c, initial, events).queuedBytes == 0
  {
    RunKeeps(c, initial, events);
    var s := Run(c, initial, events);
    forall id | 0 <= id < |s.assets| ensures HeldBytes(s.assets[id]) == 0 {
      assert AssetOk(s.assets[id], id, s.work, s.phase);
    }
    SumZero(HeldBytes, s.assets);
  }

  // ----- the cached counter and the table -----

  /** The bytes a removal in flight will subtract, and the session it removes. */
  function InFlight(s: State): Option<(Session, nat)> {
    if s.phase.Evicting? then Some((s.phase.victim, s.phase.bytes))
    else if s.phase.Removing? && s.work != [] && s.work[0].RemoveOp? then Some((s.work[0].session, s.phase.bytes))
    else None
  }

  /** The cached ready bytes are the table's, and a removal in flight counted what is there. */
  ghost predicate Exact(s: State) {
    && s.readyBytes == Sum(ReadyBytes, s.assets)
    && (InFlight(s).Some? ==> InFlight(s).value.1 == Sum(ReadyIn(InFlight(s).value.0), s.assets))
  }

  /** A lookup that finds audio missing hits the very session being removed. */
  predicate LookUpRacesRemoval(s: State, e: Event) {
    && e.ToLookUpMissing? && e.id < |s.assets| && InFlight(s).Some?
    && s.assets[e.id].key.session == InFlight(s).value.0
  }

  /** The ready rows are the same, apart from new assets without one. */
  ghost predicate SameReady(xs: seq<Asset>, ys: seq<Asset>) {
    && |xs| <= |ys|
    && (forall k {:trigger ys[k]} {:trigger xs[k]} :: 0 <= k < |xs| ==>
        ys[k].key == xs[k].key && ReadyBytes(ys[k]) == ReadyBytes(xs[k]))
    && (forall k {:trigger ys[k]} :: |xs| <= k < |ys| ==> ReadyBytes(ys[k]) == 0)
  }

  lemma {:induction false} SameReadySums(xs: seq<Asset>, ys: seq<Asset>, session: Session)
    requires SameReady(xs, ys)
    ensures Sum(ReadyBytes, xs) == Sum(ReadyBytes, ys)
    ensures Sum(ReadyIn(session), xs) == Sum(ReadyIn(session), ys)
    decreases |ys|
  {
    if |ys| > |xs| {
      SameReadySums(xs, ys[..|ys| - 1], session);
    } else if ys != [] {
      SameReadySums(xs[..|xs| - 1], ys[..|ys| - 1], session);
    }
  }

  lemma SameReadyKeepsExact(s: State, t: State)
    requires Exact(s) && SameReady(s.assets, t.assets) && t.readyBytes == s.readyBytes
    requires InFlight(t) == InFlight(s) || InFlight(t).None?
      || InFlight(t).value.1 == Sum(ReadyIn(InFlight(t).value.0), t.assets)
    ensures Exact(t)
  {
    var session := if InFlight(t).Some? then InFlight(t).value.0 else Session("", "");
    SameReadySums(s.assets, t.assets, session);
  }

  /** A callback that leaves the ready rows, the cache and the head of the queue alone. */
  ghost predicate Quiet(s: State, t: State) {
    && SameReady(s.assets, t.assets) && t.readyBytes == s.readyBytes && t.phase == s.phase
    && |s.work| <= |t.work| && t.work[..|s.work|] == s.work
  }

  lemma QuietKeepsExact(s: State, t: State)
    requires Exact(s) && Quiet(s, t) && (s.work == [] ==> s.phase == Idle)
    ensures Exact(t)
  {
    if s.work != [] { assert t.work[0] == t.work[..|s.work|][0]; }
    SameReadyKeepsExact(s, t);
  }

  lemma QuietTwice(s: State, t: State, v: State)
    requires Quiet(s, t) && Quiet(t, v) && |s.assets| == |t.assets|
    ensures Quiet(s, v)
  {
    assert v.work[..|s.work|] == v.work[..|t.work|][..|s.work|];
    forall k | 0 <= k < |s.assets|
      ensures v.assets[k].key == s.assets[k].key && ReadyBytes(v.assets[k]) == ReadyBytes(s.assets[k])
    {
      assert t.assets[k].key == s.assets[k].key;
    }
  }

  lemma FailedNowIsQuiet(s: State, id: nat)
    requires id < |s.assets|
    ensures Quiet(s, FailedNow(s, id))
  {
  }

  lemma EnsureRowIsQuiet(c: Config, s: State, id: nat, rate: int)
    requires id < |s.assets|
    ensures Quiet(s, EnsureRow(c, s, id, rate))
  {
  }

  lemma AcceptFrameIsQuiet(c: Config, s: State, id: nat, bytes: nat)
    requires id < |s.assets|
    ensures Quiet(s, AcceptFrame(c, s, id, bytes))
  {
  }

  lemma WriteIsQuiet(c: Config, s: State, id: nat, samples: nat, rate: int)
    requires IsRecorder(s, id)
    ensures Quiet(s, Write(c, s, id, samples, rate))
  {
    FailedNowIsQuiet(s, id);
    EnsureRowIsQuiet(c, s, id, rate);
    var t := EnsureRow(c, s, id, rate);
    FailedNowIsQuiet(t, id);
    AcceptFrameIsQuiet(c, t, id, 2 * samples);
    QuietTwice(s, t, FailedNow(t, id));
    QuietTwice(s, t, AcceptFrame(c, t, id, 2 * samples));
  }

  lemma LookUpKeepsExact(s: State, id: nat)
    requires Exact(s) && !LookUpRacesRemoval(s, ToLookUpMissing(id))
    ensures Exact(LookUpMissing(s, id))
  {
    if id < |s.assets| && s.assets[id].row == Ready {
      var a := SetRow(s.assets[id], Missing);
      SumUpdate(ReadyBytes, s.assets, id, a);
      if InFlight(s).Some? { SumUpdate(ReadyIn(InFlight(s).value.0), s.assets, id, a); }
    }
  }

  lemma CallbackKeepsExact(c: Config, bound: nat, s: State, e: Event)
    requires Inv(c, bound, s) && Exact(s) && !e.ToStart? && !e.ToResume? && !LookUpRacesRemoval(s, e)
    ensures Exact(Step(c, s, e))
  {
    if e.ToLookUpMissing? {
      LookUpKeepsExact(s, e.id);
    } else {
      if e.ToWrite? && IsRecorder(s, e.id) { WriteIsQuiet(c, s, e.id, e.samples, e.rate); }
      QuietKeepsExact(s, Step(c, s, e));
    }
  }

  lemma CheckKeepsExact(c: Config, s: State, id: nat, candidates: seq<Session>, begin: set<Session>)
    requires id < |s.assets| && s.readyBytes == Sum(ReadyBytes, s.assets) && HeadNotRemoving(s)
    ensures Exact(CheckFor(c, s, id, candidates, begin))
  {
    ScanStops(c, s, candidates, begin);
    var t := CheckFor(c, s, id, candidates, begin);
    SameReadySums(s.assets, t.assets, if t.phase.Evicting? then t.phase.victim else Session("", ""));
  }

  predicate HeadNotRemoving(s: State) {
    s.work != [] && !s.work[0].RemoveOp?
  }

  lemma InsertKeepsReady(assets: seq<Asset>, id: nat, row: Row)
    requires id < |assets| && row != Ready
    ensures SameReady(assets, Insert(assets, id, row))
  {
  }

  /** The head's own row is not ready while the head is at work on it. */
  lemma HeadNotReady(c: Config, bound: nat, s: State)
    requires Inv(c, bound, s) && s.work != [] && !s.work[0].RemoveOp?
    ensures s.work[0].id < |s.assets|
      && (s.assets[s.work[0].id].row == Ready ==> s.work[0].InputOp? && !s.work[0].reserved)
  {
    assert OpOk(s.assets, s.work[0]);
    assert AssetOk(s.assets[s.work[0].id], s.work[0].id, s.work, s.phase);
  }

  lemma StartKeepsExact(c: Config, bound: nat, s: State, candidates: seq<Session>, begin: set<Session>)
    requires Inv(c, bound, s) && Exact(s) && s.phase == Idle && s.work != [] && Applies(s.assets, s.work[0])
    ensures Exact(Start(c, s, candidates, begin))
  {
    match s.work[0]
    case InputOp(id, _, reserved) =>
      InsertedKeepsExact(c, s, id, if reserved then Pending else Missing, candidates, begin);
    case InitOp(id, _) =>
      InsertedKeepsExact(c, s, id, if s.assets[id].failed then Truncated else Pending, candidates, begin);
    case FrameOp(id, _) =>
      CheckKeepsExact(c, s, id, candidates, begin);
    case _ => StartOtherKeepsExact(c, bound, s, candidates, begin);
  }

  lemma StartOtherKeepsExact(c: Config, bound: nat, s: State, candidates: seq<Session>, begin: set<Session>)
    requires Inv(c, bound, s) && Exact(s) && s.phase == Idle && s.work != [] && Applies(s.assets, s.work[0])
    requires s.work[0].RemoveOp? || s.work[0].FailOp? || s.work[0].FinalizeOp?
    ensures Exact(Start(c, s, candidates, begin))
  {
    if !s.work[0].RemoveOp? { HeadNotReady(c, bound, s); }
    SameReadyKeepsExact(s, Start(c, s, candidates, begin));
  }

  lemma InsertedKeepsExact(c: Config, s: State, id: nat, row: Row, candidates: seq<Session>, begin: set<Session>)
    requires Exact(s) && s.phase == Idle && HeadNotRemoving(s) && id < |s.assets| && row != Ready
    ensures var t := s.(assets := Insert(s.assets, id, row));
      Exact(Finished(t)) && Exact(CheckFor(c, t, id, candidates, begin))
  {
    var t := s.(assets := Insert(s.assets, id, row));
    InsertKeepsReady(s.assets, id, row);
    SameReadyKeepsExact(s, t);
    CheckKeepsExact(c, t, id, candidates, begin);
  }

  lemma RowsRemovedKeepsExact(s: State, session: Session, bytes: nat)
    requires s.readyBytes == Sum(ReadyBytes, s.assets) && bytes == Sum(ReadyIn(session), s.assets)
    ensures RowsRemoved(s, session, bytes).readyBytes == Sum(ReadyBytes, RowsRemoved(s, session, bytes).assets)
  {
    DeleteKeepsSums(s.assets, session);
  }

  lemma CommittedKeepsExact(c: Config, bound: nat, s: State)
    requires Inv(c, bound, s) && Exact(s) && s.phase == Writing && HeadNotRemoving(s) && Applies(s.assets, s.work[0])
    ensures Exact(Committed(s))
  {
    var id := s.work[0].id;
    if s.assets[id].row == Pending {
      var t := Committed(s);
      assert t.assets == s.assets[id := t.assets[id]];
      SumUpdate(ReadyBytes, s.assets, id, t.assets[id]);
    } else {
      SameReadyKeepsExact(s, Committed(s));
    }
  }

  lemma EvictedKeepsExact(c: Config, s: State, outcome: Outcome, begin: set<Session>)
    requires Exact(s) && s.phase.Evicting? && HeadNotRemoving(s) && Applies(s.assets, s.work[0])
    ensures Exact(Resume(c, s, outcome, begin))
  {
    if outcome != Failed {
      RowsRemovedKeepsExact(s, s.phase.victim, s.phase.bytes);
      CheckKeepsExact(c, RowsRemoved(s, s.phase.victim, s.phase.bytes), s.work[0].id, s.phase.rest, begin);
    }
  }

  lemma RefusedKeepsExact(c: Config, bound: nat, s: State)
    requires Inv(c, bound, s) && Exact(s) && s.phase == Answered(false) && HeadNotRemoving(s)
      && Applies(s.assets, s.work[0])
    ensures Exact(Refused(s))
  {
    HeadNotReady(c, bound, s);
    HeadReserved(c, bound, s);
    SameReadyKeepsExact(s, Refused(s));
  }

  lemma WriteFailedKeepsExact(c: Config, bound: nat, s: State)
    requires Inv(c, bound, s) && Exact(s) && s.phase == Writing && HeadNotRemoving(s) && Applies(s.assets, s.work[0])
    ensures Exact(WriteFailed(s))
  {
    HeadNotReady(c, bound, s);
    HeadReserved(c, bound, s);
    var t := WriteFailed(s);
    FailedTableIsIt(s, t);
    FailedTableKeepsReady(s);
    SameReadyKeepsExact(s, t);
  }

  /** The table once a write has failed. */
  function FailedTable(s: State): seq<Asset>
    requires s.work != [] && Applies(s.assets, s.work[0]) && !s.work[0].RemoveOp?
  {
    var op := s.work[0];
    if Ends(op) then s.assets
    else
      var table := FailedNow(s, op.id).assets;
      if op.InitOp? then table[op.id := SetRow(table[op.id], Truncated)] else table
  }

  lemma FailedTableIsIt(s: State, t: State)
    requires s.phase == Writing && HeadNotRemoving(s) && Applies(s.assets, s.work[0]) && t == WriteFailed(s)
    ensures t.assets == FailedTable(s) && t.readyBytes == s.readyBytes && InFlight(t).None?
  {
  }

  lemma FailedTableKeepsReady(s: State)
    requires HeadNotRemoving(s) && Applies(s.assets, s.work[0])
    requires s.assets[s.work[0].id].row == Ready ==> s.work[0].InputOp?
    ensures SameReady(s.assets, FailedTable(s))
  {
    var id := s.work[0].id;
    if !Ends(s.work[0]) {
      FailedNowKeepsReady(s, id);
      var table := FailedNow(s, id).assets;
      UpdateKeepsReady(table, id, SetRow(table[id], Truncated));
      SameReadyChains(s.assets, table, table[id := SetRow(table[id], Truncated)]);
    }
  }

  lemma SameReadyChains(xs: seq<Asset>, ys: seq<Asset>, zs: seq<Asset>)
    requires SameReady(xs, ys) && SameReady(ys, zs)
    ensures SameReady(xs, zs)
  {
  }

  lemma UpdateKeepsReady(assets: seq<Asset>, id: nat, a: Asset)
    requires id < |assets| && a.key == assets[id].key && ReadyBytes(a) == ReadyBytes(assets[id])
    ensures SameReady(assets, assets[id := a])
  {
  }

  lemma FailedNowKeepsReady(s: State, id: nat)
    requires id < |s.assets|
    ensures SameReady(s.assets, FailedNow(s, id).assets)
  {
    UpdateKeepsReady(s.assets, id, s.assets[id].(failed := true));
  }

  /** `a` is the head's asset as it is given up: its row is not ready. */
  lemma GivenUpKeepsExact(c: Config, bound: nat, s: State, a: Asset)
    requires Inv(c, bound, s) && Exact(s) && (s.phase == Discarding || s.phase == Unwinding)
    requires HeadNotRemoving(s) && Applies(s.assets, s.work[0])
    requires a == s.assets[s.work[0].id] || a == SetRow(s.assets[s.work[0].id], Missing)
    ensures Exact(Finished(Released(WithAsset(s, s.work[0].id, a), s.work[0].id)))
  {
    HeadNotReady(c, bound, s);
    HeadReserved(c, bound, s);
    SameReadyKeepsExact(s, Finished(Released(WithAsset(s, s.work[0].id, a), s.work[0].id)));
  }

  lemma HeadReserved(c: Config, bound: nat, s: State)
    requires Inv(c, bound, s) && s.phase != Idle && s.work != []
    ensures s.work[0].InputOp? ==> s.work[0].reserved
  {
  }

  lemma ResumeKeepsExact(c: Config, bound: nat, s: State, outcome: Outcome, begin: set<Session>)
    requires Inv(c, bound, s) && Exact(s) && s.phase != Idle && s.work != [] && Applies(s.assets, s.work[0])
    requires s.phase.Removing? <==> s.work[0].RemoveOp?
    ensures Exact(Resume(c, s, outcome, begin))
  {
    match s.phase
    case Evicting(_, _, _) => EvictedKeepsExact(c, s, outcome, begin);
    case Answered(ok) => if !ok { RefusedKeepsExact(c, bound, s); }
    case Writing => WriteFailedKeepsExact(c, bound, s); CommittedKeepsExact(c, bound, s);
    case Removing(bytes) => RowsRemovedKeepsExact(s, s.work[0].session, bytes);
    case Discarding =>
      assert WithAsset(s, s.work[0].id, s.assets[s.work[0].id]) == s;
      GivenUpKeepsExact(c, bound, s, s.assets[s.work[0].id]);
    case Unwinding =>
      GivenUpKeepsExact(c, bound, s, SetRow(s.assets[s.work[0].id], Missing));
  }

  lemma StepKeepsExact(c: Config, bound: nat, s: State, e: Event)
    requires Inv(c, bound, s) && Exact(s) && !LookUpRacesRemoval(s, e)
    ensures Exact(Step(c, s, e))
  {
    match e
    case ToStart(candidates, begin) =>
      if s.phase == Idle && s.work != [] && Applies(s.assets, s.work[0]) {
        StartKeepsExact(c, bound, s, candidates, begin);
      }
    case ToResume(outcome, begin) =>
      if s.phase != Idle && s.work != [] && Applies(s.assets, s.work[0])
        && (s.phase.Removing? <==> s.work[0].RemoveOp?) {
        ResumeKeepsExact(c, bound, s, outcome, begin);
      }
    case _ => CallbackKeepsExact(c, bound, s, e);
  }

  /** No lookup of the run finds audio missing in a session while it is being removed. */
  ghost predicate RaceFree(c: Config, initial: State, events: seq<Event>) {
    events != [] ==>
      var before := events[..|events| - 1];
      RaceFree(c, initial, before) && !LookUpRacesRemoval(Run(c, initial, before), events[|events| - 1])
  }

  lemma {:induction false} RunIsExact(c: Config, initial: State, events: seq<Event>)
    requires Opened(initial) && RaceFree(c, initial, events)
    ensures Exact(Run(c, initial, events))
    decreases |events|
  {
    if events != [] {
      var before, e := events[..|events| - 1], events[|events| - 1];
      RunIsExact(c, initial, before);
      RunKeeps(c, initial, before);
      StepKeepsExact(c, Ceiling(c, initial), Run(c, initial, before), e);
    }
  }

  /** Then the bytes of the ready rows themselves are under the ceiling, not just the cache. */
  lemma TableCeiling(c: Config, initial: State, events: seq<Event>)
    requires Opened(initial) && c.maxBytes.Some? && RaceFree(c, initial, events)
    ensures Sum(ReadyBytes, Run(c, initial, events).assets) <= Max(c.maxBytes.value, initial.readyBytes)
  {
    RunIsExact(c, initial, events);
    ByteCeiling(c, initial, events);
  }

  /** A lookup during the removal of session `session`: the cache still matches the table after
      the removal exactly when the lookup was elsewhere, or of nothing, or nothing else is ready. */
  lemma RaceIsExactIff(s: State, session: Session, id: nat)
    requires s.readyBytes == Sum(ReadyBytes, s.assets) && id < |s.assets|
    ensures var bytes := Sum(ReadyIn(session), s.assets);
      var t := RowsRemoved(LookUpMissing(s, id), session, bytes);
      t.readyBytes == Sum(ReadyBytes, t.assets)
      <==> s.assets[id].key.session != session || ReadyBytes(s.assets[id]) == 0 || bytes == s.readyBytes
  {
    var t := LookUpMissing(s, id);
    SumUpdate(ReadyBytes, s.assets, id, t.assets[id]);
    SumUpdate(ReadyIn(session), s.assets, id, t.assets[id]);
    assert t.assets == s.assets[id := t.assets[id]];
    DeleteKeepsSums(s.assets, session);
    DeleteKeepsSums(t.assets, session);
  }

  // ----- the race, concretely -----

  const CFG := Config(Some(100), 1000)
  const X := Session("o", "x")
  const FIRST := Asset(AtRest, Key(X, "t", 0, InputAudio), Ready, 60, false, true, false, 0, 0, true, true, 0)
  const SECOND := Asset(AtRest, Key(Session("o", "y"), "t", 0, InputAudio), Ready, 40, false, true, false, 0, 0, true,
                        true, 0)
  const THIRD := Asset(Input, Key(Session("o", "z"), "t", 0, InputAudio), Absent, 0, false, true, false, 0, 100, true,
                       false, 0)
  const GONE := FIRST.(row := Absent, rowBytes := 0)
  const KEPT := THIRD.(row := Ready, rowBytes := 100, released := true, checked := 100)

  const BEFORE := State(0, 0, 100, false, [FIRST, SECOND], [], Idle)
  const REMOVED := State(0, 0, 0, false, [GONE, SECOND], [], Idle)
  const AFTER := State(0, 0, 100, false, [GONE, SECOND, KEPT], [], Idle)

  lemma SumOfTwo<T>(f: T -> nat, x: T, y: T)
    ensures Sum(f, [x, y]) == f(x) + f(y)
  {
    assert [x, y] == [x] + [y] && [x] == [] + [x];
    SumAppend(f, [x], y);
    SumAppend(f, [], x);
  }

  const REMOVING := BEFORE.(work := [RemoveOp(X)], phase := Removing(60))
  const LOST := REMOVING.(assets := [FIRST.(row := Missing), SECOND], readyBytes := 40)

  lemma RemovalBegins()
    ensures Step(CFG, Step(CFG, BEFORE, ToRemoveSession(X)), ToStart([], {})) == REMOVING
  {
    SumOfTwo(ReadyIn(X), FIRST, SECOND);
    assert Step(CFG, BEFORE, ToRemoveSession(X)) == BEFORE.(work := [RemoveOp(X)]);
  }

  lemma RemovalEnds()
    ensures Step(CFG, Step(CFG, REMOVING, ToLookUpMissing(0)), ToResume(Done, {})) == REMOVED
  {
    assert Step(CFG, REMOVING, ToLookUpMissing(0)) == LOST;
    assert DeleteRows(LOST.assets, X) == [GONE, SECOND];
  }

  lemma RemovalCountsTwice()
    ensures Step(CFG, Step(CFG, Step(CFG, Step(CFG, BEFORE,
              ToRemoveSession(X)), ToStart([], {})), ToLookUpMissing(0)), ToResume(Done, {})) == REMOVED
  {
    RemovalBegins();
    RemovalEnds();
  }

  lemma RecordingStillFits()
    ensures Step(CFG, Step(CFG, Step(CFG, Step(CFG, REMOVED,
              ToRetainInput(THIRD.key, 100)), ToStart([], {})), ToResume(Done, {})), ToResume(Done, {})) == AFTER
  {
    var queued := State(100, 100, 0, false, [GONE, SECOND, THIRD], [InputOp(2, 100, true)], Idle);
    assert Step(CFG, REMOVED, ToRetainInput(THIRD.key, 100)) == queued;
    var pending := THIRD.(row := Pending);
    assert Insert(queued.assets, 2, Pending) == [GONE, SECOND, pending];
    var passed := queued.(assets := [GONE, SECOND, pending.(checked := 100)], phase := Answered(true));
    assert Step(CFG, queued, ToStart([], {})) == passed;
    assert Step(CFG, passed, ToResume(Done, {})) == passed.(phase := Writing);
  }

  lemma RunStep(c: Config, initial: State, events: seq<Event>, e: Event)
    ensures Run(c, initial, events + [e]) == Step(c, Run(c, initial, events), e)
  {
    assert (events + [e])[..|events|] == events;
  }

  lemma RunOfFour(c: Config, initial: State, events: seq<Event>, e1: Event, e2: Event, e3: Event, e4: Event)
    ensures Run(c, initial, events + [e1] + [e2] + [e3] + [e4])
         == Step(c, Step(c, Step(c, Step(c, Run(c, initial, events), e1), e2), e3), e4)
  {
    RunStep(c, initial, events, e1);
    RunStep(c, initial, events + [e1], e2);
    RunStep(c, initial, events + [e1] + [e2], e3);
    RunStep(c, initial, events + [e1] + [e2] + [e3], e4);
  }

  lemma FirstIsRemoved() returns (events: seq<Event>)
    ensures Run(CFG, BEFORE, events) == REMOVED
  {
    RunOfFour(CFG, BEFORE, [], ToRemoveSession(X), ToStart([], {}), ToLookUpMissing(0), ToResume(Done, {}));
    RemovalCountsTwice();
    events := [] + [ToRemoveSession(X)] + [ToStart([], {})] + [ToLookUpMissing(0)] + [ToResume(Done, {})];
  }

  lemma ThirdIsKept() returns (events: seq<Event>)
    ensures Run(CFG, BEFORE, events) == AFTER
  {
    var before := FirstIsRemoved();
    RunOfFour(CFG, BEFORE, before, ToRetainInput(THIRD.key, 100), ToStart([], {}), ToResume(Done, {}),
              ToResume(Done, {}));
    RecordingStillFits();
    events := before + [ToRetainInput(THIRD.key, 100)] + [ToStart([], {})]
      + [ToResume(Done, {})] + [ToResume(Done, {})];
  }

  lemma AfterHolds140()
    ensures Opened(BEFORE) && Sum(ReadyBytes, AFTER.assets) == 140
  {
    SumOfTwo(ReadyBytes, FIRST, SECOND);
    SumOfTwo(ReadyBytes, GONE, SECOND);
    SumAppend(ReadyBytes, [GONE, SECOND], KEPT);
    assert AFTER.assets == [GONE, SECOND] + [KEPT];
  }

  /** Two sessions hold 60 and 40 of 100 bytes. While the first is removed, a lookup notices its
      file is gone and subtracts its bytes; the removal subtracts them again; a new recording
      then finds the cache empty and the table ends at 140. */
  lemma RaceBreaksTheTableCeiling()
    ensures exists c: Config, initial: State, events: seq<Event> ::
      Opened(initial) && c.maxBytes == Some(100) && initial.readyBytes == 100
      && Sum(ReadyBytes, Run(c, initial, events).assets) == 140
  {
    var events := ThirdIsKept();
    AfterHolds140();
    assert Sum(ReadyBytes, Run(CFG, BEFORE, events).assets) == 140;
  }
}
