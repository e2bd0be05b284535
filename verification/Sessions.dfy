/** What the HTTP handlers, the live runner and the store share about one live session name: the durable
    record, the cache entry in front of it, and the runner's table entry; and the critical sections in
    which they are read and written. Any number of handlers and runs interleave between these sections. */
module Sessions {
  import opened LiveTypes

  type Name = string

  /** What a start request fixes for its session. */
  datatype Identity = Identity(workId: Name, workerId: Name, sender: Name)
  {
    predicate Paid() {
      workId != "" && sender != ""
    }
  }

  /** A broadcaster who connects without a start has none, and pays nobody. */
  const NoIdentity := Identity("", "", "")

  /** The identity part of a stream record, and its phase. */
  datatype StreamRec = StreamRec(
    workId: Name, gatewayId: Name, workerId: Name, paymentWorkId: Name, sender: Name, phase: Phase)

  /** An entry of the cache; also the answer of a lookup. */
  datatype Info = Info(gatewayId: Name, workerId: Name, workId: Name, streamId: Name, sender: Name)

  /** An entry of the runner's table. `number` tells the sessions of one name apart. */
  datatype Ctl = Ctl(number: nat, id: Identity, stream: StreamRec, running: bool)

  function RecordFor(name: Name, id: Identity, phase: Phase): StreamRec {
    StreamRec(name, name, id.workerId, id.workId, id.sender, phase)
  }

  /** What the start handler puts in the cache. */
  function InfoFor(name: Name, id: Identity): Info {
    Info(name, id.workerId, id.workId, name, id.sender)
  }

  function FirstNonEmpty(a: Name, b: Name): Name {
    if a != "" then a else b
  }

  /** What a lookup makes of a record when there is no cache entry. */
  function InfoOf(r: StreamRec): Info {
    Info(FirstNonEmpty(r.gatewayId, r.workId), r.workerId, FirstNonEmpty(r.paymentWorkId, r.workId), r.workId, r.sender)
  }

  /** The record of a session tells its identity as the cache entry does. */
  lemma RecordTellsIdentity(name: Name, id: Identity, phase: Phase)
    ensures InfoOf(RecordFor(name, id, phase)) == InfoFor(name, id) <==> id.workId != "" || name == ""
  {
  }

  // ---- The critical sections, for one name ----

  datatype Shared = Shared(record: Option<StreamRec>, entry: Option<Info>, ctl: Option<Ctl>)

  const Nobody := Shared(None, None, None)

  /** The runner's `Start`: refused if the name is taken or the record cannot be written. */
  predicate Admits(sh: Shared, saveOk: bool) {
    sh.ctl.None? && saveOk
  }

  function Register(name: Name, sh: Shared, number: nat, id: Identity, saveOk: bool): Shared {
    if Admits(sh, saveOk) then
      var r := RecordFor(name, id, Starting);
      sh.(record := Some(r), ctl := Some(Ctl(number, id, r, false)))
    else sh
  }

  function Upsert(sh: Shared, info: Info): Shared {
    sh.(entry := Some(info))
  }

  predicate Active(sh: Shared) {
    sh.record.Some? && !sh.record.value.phase.IsTerminal() && !sh.record.value.phase.Closing?
  }

  /** The first part of a lookup: a session that is over is dropped from the cache. */
  function Check(sh: Shared): Shared {
    if sh.record.Some? && !Active(sh) then sh.(entry := None) else sh
  }

  function DropEntry(sh: Shared): Shared {
    sh.(entry := None)
  }

  /** `Accept` writes the record before it asks for a lease, and goes on if the write fails. */
  function FileConnect(name: Name, sh: Shared, id: Identity, ok: bool): Shared {
    if ok then sh.(record := Some(RecordFor(name, id, Streaming))) else sh
  }

  /** `Accept` puts the control block it read, or a new one, in the table, whatever is there by now. */
  function Publish(name: Name, sh: Shared, number: nat, id: Identity): Shared {
    sh.(ctl := Some(Ctl(number, id, RecordFor(name, id, Streaming), true)))
  }

  /** A run reads the record, changes the phase and writes it back. */
  function Rephase(sh: Shared, phase: Phase, ok: bool): Shared {
    if ok && sh.record.Some? then sh.(record := Some(sh.record.value.(phase := phase))) else sh
  }

  /** A run that is over leaves the table. */
  function Leave(sh: Shared): Shared {
    sh.(ctl := None)
  }

  /** The part of `Stop` under the lock: a session nobody has connected to is removed. */
  function Remove(sh: Shared, saveOk: bool): Shared {
    if sh.ctl.None? || sh.ctl.value.running then sh
    else sh.(record := if saveOk then Some(sh.ctl.value.stream.(phase := Closed)) else sh.record, ctl := None)
  }

  // ---- The same sections as the worker has them, over maps ----

  class SessionServer {
    var repo: map<Name, StreamRec>
    var cache: map<Name, Info>
    var streams: map<Name, Ctl>

    /** The part of the state that belongs to one name. */
    function At(g: Name): Shared
      reads this
    {
      Shared(if g in repo then Some(repo[g]) else None,
             if g in cache then Some(cache[g]) else None,
             if g in streams then Some(streams[g]) else None)
    }

    constructor ()
      ensures forall g :: At(g) == Nobody
    {
      repo, cache, streams := map[], map[], map[];
    }

    method StartSession(g: Name, number: nat, id: Identity, saveOk: bool) returns (ok: bool)
      modifies this
      ensures At(g) == Register(g, old(At(g)), number, id, saveOk)
      ensures ok == Admits(old(At(g)), saveOk)
      ensures forall h | h != g :: At(h) == old(At(h))
    {
      if g in streams || !saveOk {
        return false;
      }
      var r := RecordFor(g, id, Starting);
      repo := repo[g := r];
      streams := streams[g := Ctl(number, id, r, false)];
      ok := true;
    }

    method AnswerStart(g: Name, id: Identity)
      modifies this`cache
      ensures At(g) == Upsert(old(At(g)), InfoFor(g, id))
      ensures forall h | h != g :: At(h) == old(At(h))
    {
      cache := cache[g := Info(g, id.workerId, id.workId, g, id.sender)];
    }

    /** `activeSessionInfoForGatewaySession` up to the lookup. */
    method CheckActive(g: Name) returns (active: bool)
      modifies this`cache
      ensures At(g) == Check(old(At(g)))
      ensures active == Active(old(At(g)))
      ensures active <==>
        && g in old(repo) && old(repo[g].phase) != Phase.Closed && old(repo[g].phase) != Phase.EncoderFailed
        && old(repo[g].phase) != Phase.BalanceExhausted && old(repo[g].phase) != Phase.Closing
      ensures forall h | h != g :: At(h) == old(At(h))
    {
      if g !in repo {
        return false;
      }
      if repo[g].phase.IsTerminal() || repo[g].phase.Closing? {
        cache := cache - {g};
        return false;
      }
      active := true;
    }

    /** `sessionInfoForGatewaySession`: the cache, else the record. */
    method Lookup(g: Name) returns (info: Option<Info>)
      ensures info == if At(g).entry.Some? then At(g).entry else if At(g).record.Some? then Some(InfoOf(At(g).record.value)) else None
    {
      if g in cache {
        return Some(cache[g]);
      }
      if g !in repo {
        return None;
      }
      var r := repo[g];
      if r.gatewayId == "" {
        r := r.(gatewayId := r.workId);
      }
      info := Some(Info(r.gatewayId, r.workerId, FirstNonEmpty(r.paymentWorkId, r.workId), r.workId, r.sender));
    }

    method DropCached(g: Name)
      modifies this`cache
      ensures At(g) == DropEntry(old(At(g)))
      ensures forall h | h != g :: At(h) == old(At(h))
    {
      cache := cache - {g};
    }

    /** The record a connect writes; `pending` is what it read from the table. */
    method SaveConnect(g: Name, pending: Option<Ctl>, saveOk: bool)
      modifies this`repo
      ensures At(g) == FileConnect(g, old(At(g)), if pending.Some? then pending.value.id else NoIdentity, saveOk)
      ensures forall h | h != g :: At(h) == old(At(h))
    {
      var r := StreamRec(g, g, "", "", "", Streaming);
      if pending.Some? {
        r := r.(workerId := pending.value.id.workerId, paymentWorkId := pending.value.id.workId, sender := pending.value.id.sender);
      }
      if saveOk {
        repo := repo[g := r];
      }
    }

    method PublishConnect(g: Name, number: nat, id: Identity)
      modifies this`streams
      ensures At(g) == Publish(g, old(At(g)), number, id)
      ensures forall h | h != g :: At(h) == old(At(h))
    {
      streams := streams[g := Ctl(number, id, RecordFor(g, id, Streaming), true)];
    }

    method SavePhase(g: Name, phase: Phase, ok: bool)
      modifies this`repo
      ensures At(g) == Rephase(old(At(g)), phase, ok)
      ensures forall h | h != g :: At(h) == old(At(h))
    {
      if g in repo && ok {
        repo := repo[g := repo[g].(phase := phase)];
      }
    }

    method LeaveTable(g: Name)
      modifies this`streams
      ensures At(g) == Leave(old(At(g)))
      ensures forall h | h != g :: At(h) == old(At(h))
    {
      streams := streams - {g};
    }

    /** The part of `Stop` under the lock. The result is the run to cancel and wait for, if there is one. */
    method StopStream(g: Name, saveOk: bool) returns (wait: Option<nat>)
      modifies this
      ensures At(g) == Remove(old(At(g)), saveOk)
      ensures wait == if old(At(g)).ctl.Some? && old(At(g)).ctl.value.running then Some(old(At(g)).ctl.value.number) else None
      ensures forall h | h != g :: At(h) == old(At(h))
    {
      wait := None;
      if g in streams {
        var c := streams[g];
        if c.running {
          wait := Some(c.number);
        } else {
          if saveOk {
            repo := repo[g := c.stream.(phase := Closed)];
          }
          streams := streams - {g};
        }
      }
    }
  }
}
