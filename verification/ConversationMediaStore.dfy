/** The media store as an object (apps/realtime-gateway/src/media-store.ts): its methods update
    the counters, the table and the queue in place, one atomic segment per call, and each is
    proved to take the step the model of MediaStore.dfy describes. */
module ConversationMediaStores {
  import opened Prelude
  import opened MediaStore

  class ConversationMediaStore {
    const config: Config
    var queuedBytes: nat
    var reservedBytes: nat
    var readyBytes: nat
    var closing: bool
    var assets: seq<Asset>
    var work: seq<Op>
    var phase: Phase

    ghost function Now(): State
      reads this
    {
      State(queuedBytes, reservedBytes, readyBytes, closing, assets, work, phase)
    }

    /** The ceiling `bound` is in force and every promise is accounted for. */
    ghost predicate Valid(bound: nat)
      reads this
    {
      Inv(config, bound, Now())
    }

    /** Opens over the rows found on disk. */
    constructor (config: Config, rows: seq<Asset>)
      requires forall k :: 0 <= k < |rows| ==> rows[k].kind == AtRest && rows[k].released
      ensures this.config == config && assets == rows
      ensures Opened(Now()) && Valid(Ceiling(config, Now()))
    {
      this.config := config;
      queuedBytes, reservedBytes, closing := 0, 0, false;
      assets, work, phase := rows, [], Idle;
      new;
      readyBytes := TotalBytes();
      OpenedHasInv(config, Now());
    }

    /** SELECT SUM(bytes) WHERE state = 'ready'. */
    method TotalBytes() returns (total: nat)
      ensures total == Sum(ReadyBytes, assets)
    {
      total := 0;
      for k := 0 to |assets|
        invariant total == Sum(ReadyBytes, assets[..k])
      {
        assert assets[..k + 1][..k] == assets[..k];
        total := total + ReadyBytes(assets[k]);
      }
      assert assets[..|assets|] == assets;
    }

    /** SELECT SUM(bytes) WHERE session AND state = 'ready'. */
    method SessionBytes(session: Session) returns (total: nat)
      ensures total == Sum(ReadyIn(session), assets)
    {
      total := 0;
      for k := 0 to |assets|
        invariant total == Sum(ReadyIn(session), assets[..k])
      {
        assert assets[..k + 1][..k] == assets[..k];
        if assets[k].key.session == session {
          total := total + ReadyBytes(assets[k]);
        }
      }
      assert assets[..|assets|] == assets;
    }

    method Reserve(bytes: nat) returns (reserved: bool)
      modifies this`queuedBytes, this`reservedBytes
      ensures reserved == CanReserve(config, old(Now()), bytes)
      ensures Now() == if reserved then Reserved(old(Now()), bytes) else old(Now())
    {
      if queuedBytes + bytes > config.maxPendingBytes {
        return false;
      }
      queuedBytes := queuedBytes + bytes;
      reservedBytes := reservedBytes + bytes;
      reserved := true;
    }

    method Enqueue(op: Op)
      modifies this`work
      ensures Now() == Enqueued(old(Now()), op)
    {
      work := work + [op];
    }

    method UpdateRow(id: nat, row: Row)
      requires id < |assets|
      modifies this`assets
      ensures Now() == WithAsset(old(Now()), id, SetRow(old(assets)[id], row))
    {
      assets := assets[id := SetRow(assets[id], row)];
    }

    // ----- realtime callbacks -----

    method RetainInput(key: Key, bytes: nat, ghost bound: nat)
      requires Valid(bound)
      modifies this
      ensures Valid(bound) && Now() == MediaStore.RetainInput(config, old(Now()), key, bytes)
    {
      CallbackKeeps(config, bound, Now(), ToRetainInput(key, bytes));
      if closing {
        return;
      }
      var id := |assets|;
      var reserved := Reserve(bytes);
      var held := if reserved then bytes else 0;
      assets := assets + [Asset(Input, key, Absent, 0, false, true, false, 0, held, true, !reserved, 0)];
      Enqueue(InputOp(id, bytes, reserved));
    }

    method CreateOutputRecorder(key: Key, ghost bound: nat) returns (id: nat)
      requires Valid(bound)
      modifies this
      ensures Valid(bound) && Now() == NewRecorder(old(Now()), key) && IsRecorder(Now(), id)
    {
      CallbackKeeps(config, bound, Now(), ToNewRecorder(key));
      id := |assets|;
      assets := assets + [Asset(Output, key, Absent, 0, false, false, false, 0, 0, false, false, 0)];
    }

    method Fail(id: nat)
      requires id < |assets|
      modifies this`assets, this`work
      ensures Now() == FailedNow(old(Now()), id)
    {
      if assets[id].failed {
        return;
      }
      assets := assets[id := assets[id].(failed := true)];
      Enqueue(FailOp(id));
    }

    method EnsureRow(id: nat, rate: int)
      requires id < |assets|
      modifies this
      ensures Now() == MediaStore.EnsureRow(config, old(Now()), id, rate)
    {
      if assets[id].initialized {
        return;
      }
      var header := Reserve(HEADER_BYTES);
      assets := assets[id := assets[id].(initialized := true, sampleRate := rate, header := header)];
      if !header {
        assets := assets[id := assets[id].(failed := true)];
      }
      Enqueue(InitOp(id, if header then HEADER_BYTES else 0));
    }

    method AcceptFrame(id: nat, pcmBytes: nat)
      requires id < |assets|
      modifies this
      ensures Now() == MediaStore.AcceptFrame(config, old(Now()), id, pcmBytes)
    {
      var reserved := Reserve(pcmBytes);
      if !reserved {
        Fail(id);
        return;
      }
      assets := assets[id := assets[id].(accepted := assets[id].accepted + pcmBytes)];
      Enqueue(FrameOp(id, pcmBytes));
    }

    method WriteFrame(id: nat, samples: nat, rate: int, ghost bound: nat)
      requires Valid(bound) && IsRecorder(Now(), id)
      modifies this
      ensures Valid(bound) && Now() == Write(config, old(Now()), id, samples, rate)
    {
      CallbackKeeps(config, bound, Now(), ToWrite(id, samples, rate));
      WriteSamples(id, samples, rate);
    }

    method WriteSamples(id: nat, samples: nat, rate: int)
      requires IsRecorder(Now(), id)
      modifies this
      ensures Now() == Write(config, old(Now()), id, samples, rate)
    {
      if closing || assets[id].finalized || samples == 0 || assets[id].failed {
        return;
      }
      if rate <= 0 {
        Fail(id);
        return;
      }
      EnsureRow(id, rate);
      if assets[id].sampleRate != rate {
        Fail(id);
        return;
      }
      AcceptFrame(id, 2 * samples);
    }

    method FinalizeRecorder(id: nat, ghost bound: nat)
      requires Valid(bound) && IsRecorder(Now(), id)
      modifies this
      ensures Valid(bound) && Now() == Finalize(old(Now()), id)
    {
      CallbackKeeps(config, bound, Now(), ToFinalize(id));
      if assets[id].finalized {
        return;
      }
      assets := assets[id := assets[id].(finalized := true)];
      if assets[id].initialized {
        Enqueue(FinalizeOp(id));
      }
    }

    /** `file`: whether the asset's audio can be served. */
    method File(id: nat, onDisk: bool, ghost bound: nat) returns (found: bool)
      requires Valid(bound)
      modifies this
      ensures Valid(bound) && Now() == if onDisk then old(Now()) else LookUpMissing(old(Now()), id)
      ensures found ==> onDisk && id < |assets| && assets[id].row == Ready
    {
      CallbackKeeps(config, bound, Now(), ToLookUpMissing(id));
      if id >= |assets| || assets[id].row != Ready {
        return false;
      }
      if !onDisk {
        readyBytes := Minus(readyBytes, assets[id].rowBytes);
        UpdateRow(id, Missing);
        return false;
      }
      found := true;
    }

    method RemoveSession(session: Session, ghost bound: nat)
      requires Valid(bound)
      modifies this
      ensures Valid(bound) && Now() == Enqueued(old(Now()), RemoveOp(session))
    {
      ghost var next := Enqueued(Now(), RemoveOp(session));
      RemoveSessionKeeps(config, bound, Now(), session);
      Enqueue(RemoveOp(session));
      assert Now() == next;
    }

    // ----- the observer queue -----

    /** The head operation ends and consumes its queued bytes. */
    method Finish()
      requires work != []
      modifies this`queuedBytes, this`work, this`phase
      ensures Now() == Finished(old(Now()))
    {
      queuedBytes := Minus(queuedBytes, Charge(work[0]));
      work := work[1..];
      phase := Idle;
    }

    method ReleaseReservation(id: nat)
      requires id < |assets|
      modifies this`reservedBytes, this`assets
      ensures Now() == Released(old(Now()), id)
    {
      reservedBytes := Minus(reservedBytes, HeldBytes(assets[id]));
      assets := assets[id := assets[id].(released := true)];
    }

    /** `ensureCapacity`, up to its next await. */
    method EnsureCapacity(id: nat, candidates: seq<Session>, begin: set<Session>)
      requires id < |assets|
      modifies this`assets, this`phase
      ensures Now() == CheckFor(config, old(Now()), id, candidates, begin)
    {
      var k := 0;
      var fits := config.maxBytes.None? || readyBytes + reservedBytes <= config.maxBytes.value;
      while !fits && k < |candidates|
        invariant k <= |candidates| && fits == UnderCeiling(config, Now()) && Now() == old(Now())
        invariant Scan(config, Now(), candidates, begin) == Scan(config, Now(), candidates[k..], begin)
      {
        var bytes := SessionBytes(candidates[k]);
        if bytes != 0 && candidates[k] in begin {
          phase := Evicting(candidates[k], bytes, candidates[k + 1..]);
          assert candidates[k..][1..] == candidates[k + 1..];
          return;
        }
        assert candidates[k..][1..] == candidates[k + 1..];
        k := k + 1;
      }
      phase := Answered(fits);
      if fits {
        assets := assets[id := assets[id].(checked := HeldBytes(assets[id]))];
      }
    }

    /** The head's first segment. */
    method StartHead(candidates: seq<Session>, begin: set<Session>, ghost bound: nat)
      requires Valid(bound) && phase == Idle && work != []
      modifies this
      ensures Valid(bound) && Now() == Start(config, old(Now()), candidates, begin)
    {
      assert OpOk(assets, work[0]);
      StartKeeps(config, bound, Now(), candidates, begin);
      match work[0]
      case InputOp(id, _, reserved) =>
        assets := Insert(assets, id, if reserved then Pending else Missing);
        if reserved { EnsureCapacity(id, candidates, begin); } else { Finish(); }
      case InitOp(id, _) =>
        assets := Insert(assets, id, if assets[id].failed then Truncated else Pending);
        if assets[id].header && !assets[id].failed { EnsureCapacity(id, candidates, begin); } else { Finish(); }
      case FrameOp(id, _) =>
        if assets[id].failed { Finish(); } else { EnsureCapacity(id, candidates, begin); }
      case FailOp(id) =>
        UpdateRow(id, Truncated);
        Finish();
      case FinalizeOp(id) =>
        if assets[id].failed {
          UpdateRow(id, Truncated);
          phase := Discarding;
        } else {
          phase := Writing;
        }
      case RemoveOp(session) =>
        var bytes := SessionBytes(session);
        phase := Removing(bytes);
    }

    /** The rows of a session are deleted and their snapshotted bytes subtracted. */
    method DeleteSessionRows(session: Session, bytes: nat)
      modifies this`assets, this`readyBytes
      ensures Now() == RowsRemoved(old(Now()), session, bytes)
    {
      assets := DeleteRows(assets, session);
      readyBytes := Minus(readyBytes, bytes);
    }

    /** The asset's bytes are on disk: its row turns ready if it is still pending. */
    method Commit()
      requires work != [] && Applies(assets, work[0]) && !work[0].RemoveOp?
      modifies this
      ensures Now() == Committed(old(Now()))
    {
      var id := work[0].id;
      var bytes := if work[0].InputOp? then work[0].bytes else assets[id].accepted + HEADER_BYTES;
      if assets[id].row == Pending {
        assets := assets[id := assets[id].(row := Ready, rowBytes := bytes)];
        readyBytes := readyBytes + bytes;
        ReleaseReservation(id);
        Finish();
      } else {
        phase := Discarding;
      }
    }

    /** The asset is given up for lack of room, or because a write failed. */
    method GiveUp(refused: bool)
      requires work != [] && Applies(assets, work[0]) && !work[0].RemoveOp?
      modifies this
      ensures Now() == if refused then Refused(old(Now())) else WriteFailed(old(Now()))
    {
      var op := work[0];
      if refused && op.InputOp? {
        UpdateRow(op.id, Missing);
        ReleaseReservation(op.id);
        Finish();
      } else if !refused && Ends(op) {
        phase := Unwinding;
      } else {
        Fail(op.id);
        if !refused && op.InitOp? {
          UpdateRow(op.id, Truncated);
        }
        Finish();
      }
    }

    /** The head's next segment, once what it awaited settled. */
    method ResumeHead(outcome: Outcome, begin: set<Session>, ghost bound: nat)
      requires Valid(bound) && phase != Idle
      modifies this
      ensures Valid(bound) && Now() == Resume(config, old(Now()), outcome, begin)
    {
      assert OpOk(assets, work[0]);
      ResumeKeeps(config, bound, Now(), outcome, begin);
      var op := work[0];
      match phase
      case Evicting(victim, bytes, rest) =>
        if outcome == Failed {
          phase := Answered(false);
        } else {
          DeleteSessionRows(victim, bytes);
          if outcome == FinishFailed { phase := Answered(false); } else { EnsureCapacity(op.id, rest, begin); }
        }
      case Answered(ok) =>
        if ok { phase := Writing; } else { GiveUp(true); }
      case Writing =>
        if outcome != Done { GiveUp(false); }
        else if Ends(op) { Commit(); }
        else { Finish(); }
      case Discarding =>
        if outcome == Done {
          ReleaseReservation(op.id);
          Finish();
        } else {
          phase := Unwinding;
        }
      case Unwinding =>
        UpdateRow(op.id, Missing);
        ReleaseReservation(op.id);
        Finish();
      case Removing(bytes) =>
        if outcome == Done { DeleteSessionRows(op.session, bytes); }
        Finish();
    }
  }
}
