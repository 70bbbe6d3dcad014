// The resumable block upload (images/data-exporter/internal/import_block/handler.go): concurrent PUTs, bodies that
// break off, lost responses and pod restarts.
module BlockUpload {
  import opened Bytes
  import opened Options

  // A PUT: X-Offset (0 when absent), X-Content-Length, Content-Length and the bytes that reach the server.
  datatype Put = Put(offset: int, total: Option<int>, length: Option<nat>, body: seq<Byte>)

  datatype Reply =
    | Busy                        // 409, somebody is writing
    | BadRequest                  // 400
    | WrongOffset(expected: nat)  // 409 with X-Expected-Offset
    | OutOfRange                  // 416
    | Failed                      // 403 or 500
    | TooLong                     // 422
    | Accepted(next: nat)         // 204 with X-Next-Offset
    | Created(next: nat)          // 201

  /** Everything HandlePutMethod checks before it copies, in its order; None lets the copy begin. */
  function Refusal(size: nat, written: nat, p: Put, opens: bool): Option<Reply> {
    if p.offset < 0 || (p.total.Some? && p.total.value < 0) then Some(BadRequest)
    else if !opens || size == 0 then Some(Failed)
    else if p.offset != written then Some(WrongOffset(written))
    else if p.offset > size then Some(OutOfRange)
    else if p.length.Some? && p.length.value > size - p.offset then Some(OutOfRange)
    else None
  }

  /** What is answered, and whether it is committed, once `newOffset` bytes are on the device. */
  function Verdict(p: Put, newOffset: nat): Reply {
    if p.total.Some? && newOffset > p.total.value then TooLong
    else if p.total == Some(newOffset) then Created(newOffset)
    else Accepted(newOffset)
  }

  predicate IsCommit(r: Reply) {
    r.Accepted? || r.Created?
  }

  /** The device after `bytes` have been written at `at`. */
  function Overwrite(device: seq<Byte>, at: nat, bytes: seq<Byte>): (r: seq<Byte>)
    requires at + |bytes| <= |device|
    ensures |r| == |device|
    ensures forall i | 0 <= i < |r| :: r[i] == if at <= i < at + |bytes| then bytes[i - at] else device[i]
  {
    device[..at] + bytes + device[at + |bytes|..]
  }

  /** Writing a body in two pieces is writing it at once. */
  lemma OverwriteInPieces(device: seq<Byte>, at: nat, a: seq<Byte>, b: seq<Byte>)
    requires at + |a| + |b| <= |device|
    ensures Overwrite(Overwrite(device, at, a), at + |a|, b) == Overwrite(device, at, a + b)
  {}

  // ---- the server ----

  datatype Pc =
    | Arrived
    | Holding               // owns isWriting, has not checked the offset yet
    | Copying(done: nat)
    | Leaving(reply: Reply) // answered, about to give isWriting back
    | Answered(reply: Reply)

  datatype Request = Request(put: Put, pc: Pc)

  // `committed` are the bodies committed since the last restart.
  datatype World = World(
    device: seq<Byte>, written: nat, isWriting: bool, requests: map<nat, Request>, committed: seq<seq<Byte>>)

  datatype Event =
    | Arrive(id: nat, put: Put)
    | Acquire(id: nat)
    | Check(id: nat, opens: bool)
    | Write(id: nat, n: nat)       // io.Copy moves up to n bytes
    | Break(id: nat)               // the body breaks off or the device fails
    | Eof(id: nat)
    | Release(id: nat)
    | Restart

  function At(w: World, id: nat, pc: Pc): World
    requires id in w.requests
  {
    w.(requests := w.requests[id := w.requests[id].(pc := pc)])
  }

  function StepAcquire(w: World, id: nat): World
    requires id in w.requests
  {
    if w.requests[id].pc != Arrived then w
    else if w.isWriting then At(w, id, Answered(Busy))
    else At(w, id, Holding).(isWriting := true)
  }

  function StepCheck(w: World, id: nat, opens: bool): World
    requires id in w.requests
  {
    if w.requests[id].pc != Holding then w
    else
      match Refusal(|w.device|, w.written, w.requests[id].put, opens)
      case Some(reply) => At(w, id, Leaving(reply))
      case None => At(w, id, Copying(0))
  }

  /** A write that meets the end of the device fails with what fitted already on it. */
  function StepWrite(w: World, id: nat, n: nat): World
    requires id in w.requests
  {
    var r := w.requests[id];
    if !r.pc.Copying? || r.pc.done >= |r.put.body| then w
    else
      var at := r.put.offset + r.pc.done;
      if at < 0 || at >= |w.device| then At(w, id, Leaving(Failed))
      else
        var m := Min(n, Min(|r.put.body| - r.pc.done, |w.device| - at));
        At(w, id, Copying(r.pc.done + m)).(device := Overwrite(w.device, at, r.put.body[r.pc.done..r.pc.done + m]))
  }

  function StepEof(w: World, id: nat): World
    requires id in w.requests
  {
    var r := w.requests[id];
    if !r.pc.Copying? || r.pc.done < |r.put.body| || r.put.offset < 0 then w
    else
      var reply := Verdict(r.put, r.put.offset + r.pc.done);
      if IsCommit(reply) then
        At(w, id, Leaving(reply)).(written := r.put.offset + r.pc.done, committed := w.committed + [r.put.body])
      else At(w, id, Leaving(reply))
  }

  function Next(w: World, ev: Event): World {
    match ev
    case Arrive(id, put) => if id in w.requests then w else w.(requests := w.requests[id := Request(put, Arrived)])
    case Acquire(id) => if id in w.requests then StepAcquire(w, id) else w
    case Check(id, opens) => if id in w.requests then StepCheck(w, id, opens) else w
    case Write(id, n) => if id in w.requests then StepWrite(w, id, n) else w
    case Break(id) => if id in w.requests && w.requests[id].pc.Copying? then At(w, id, Leaving(Failed)) else w
    case Eof(id) => if id in w.requests then StepEof(w, id) else w
    case Release(id) =>
      if id in w.requests && w.requests[id].pc.Leaving? then
        At(w, id, Answered(w.requests[id].pc.reply)).(isWriting := false)
      else w
    case Restart => World(w.device, 0, false, map[], [])
  }

  function Run(w: World, evs: seq<Event>): World {
    if evs == [] then w else Next(Run(w, evs[..|evs| - 1]), evs[|evs| - 1])
  }

  predicate Initial(w: World) {
    w.written == 0 && !w.isWriting && w.requests == map[] && w.committed == []
  }

  // ---- the invariant ----

  function Concat(bodies: seq<seq<Byte>>): seq<Byte> {
    if bodies == [] then [] else Concat(bodies[..|bodies| - 1]) + bodies[|bodies| - 1]
  }

  predicate Holds(pc: Pc) {
    pc.Holding? || pc.Copying? || pc.Leaving?
  }

  predicate HolderOk(w: World) {
    && (forall i, j | i in w.requests && j in w.requests && Holds(w.requests[i].pc) && Holds(w.requests[j].pc) :: i == j)
    && (forall i | i in w.requests && Holds(w.requests[i].pc) :: w.isWriting)
    && (w.isWriting ==> exists i :: i in w.requests && Holds(w.requests[i].pc))
  }

  // The copy in progress starts at the committed offset and what it has moved so far is on the device.
  predicate CopyOk(w: World, r: Request) {
    r.pc.Copying? ==>
      && r.put.offset == w.written
      && r.pc.done <= |r.put.body| && w.written + r.pc.done <= |w.device|
      && w.device[w.written..w.written + r.pc.done] == r.put.body[..r.pc.done]
  }

  predicate Inv(w: World) {
    && w.written <= |w.device|
    && w.device[..w.written] == Concat(w.committed)
    && HolderOk(w)
    && forall i | i in w.requests :: CopyOk(w, w.requests[i])
  }

  /** The next bytes of a body, behind those already there. */
  lemma CopyGrows(device: seq<Byte>, written: nat, body: seq<Byte>, done: nat, m: nat)
    requires done + m <= |body| && written + done + m <= |device|
    requires device[written..written + done] == body[..done]
    ensures var d := Overwrite(device, written + done, body[done..done + m]);
            d[..written] == device[..written] && d[written..written + done + m] == body[..done + m]
  {
    var d := Overwrite(device, written + done, body[done..done + m]);
    assert d[written..written + done] == device[written..written + done];
    assert d[written + done..written + done + m] == body[done..done + m];
    assert d[written..written + done + m] == d[written..written + done] + d[written + done..written + done + m];
    assert body[..done + m] == body[..done] + body[done..done + m];
  }

  /** The holder's own write: nobody else is copying. */
  lemma HolderWrites(w: World, id: nat, pc: Pc, device: seq<Byte>)
    requires Inv(w) && id in w.requests && w.requests[id].pc.Copying? && Holds(pc)
    requires |device| == |w.device| && device[..w.written] == w.device[..w.written]
    requires CopyOk(w.(device := device), w.requests[id].(pc := pc))
    ensures Inv(At(w, id, pc).(device := device))
  {
    var w' := At(w, id, pc).(device := device);
    assert Holds(w'.requests[id].pc);
    forall i | i in w'.requests ensures CopyOk(w', w'.requests[i]) {
      if i != id {
        assert Holds(w.requests[id].pc) && !Holds(w.requests[i].pc);
      }
    }
  }

  // The device after the holder of `r` has moved `m` more bytes.
  function Moving(w: World, r: Request, m: nat): seq<Byte>
    requires r.pc.Copying? && r.pc.done + m <= |r.put.body| && w.written + r.pc.done + m <= |w.device|
  {
    Overwrite(w.device, w.written + r.pc.done, r.put.body[r.pc.done..r.pc.done + m])
  }

  lemma MovingOk(w: World, r: Request, m: nat)
    requires r.pc.Copying? && r.pc.done + m <= |r.put.body| && w.written + r.pc.done + m <= |w.device|
    requires CopyOk(w, r)
    ensures CopyOk(w.(device := Moving(w, r, m)), r.(pc := Copying(r.pc.done + m)))
    ensures Moving(w, r, m)[..w.written] == w.device[..w.written]
  {
    CopyGrows(w.device, w.written, r.put.body, r.pc.done, m);
  }

  /** A write is such a move, or it meets the end of the device. */
  lemma WriteIsMove(w: World, id: nat, n: nat)
    requires id in w.requests && CopyOk(w, w.requests[id])
    requires w.requests[id].pc.Copying? && w.requests[id].pc.done < |w.requests[id].put.body|
    ensures var r := w.requests[id];
            var at := w.written + r.pc.done;
            if at >= |w.device| then StepWrite(w, id, n) == At(w, id, Leaving(Failed))
            else
              var m := Min(n, Min(|r.put.body| - r.pc.done, |w.device| - at));
              StepWrite(w, id, n) == At(w, id, Copying(r.pc.done + m)).(device := Moving(w, r, m))
  {}

  lemma WriteKeeps(w: World, id: nat, n: nat)
    requires Inv(w) && id in w.requests
    ensures Inv(StepWrite(w, id, n))
  {
    var r := w.requests[id];
    if r.pc.Copying? && r.pc.done < |r.put.body| {
      assert CopyOk(w, r);
      WriteIsMove(w, id, n);
      var at := w.written + r.pc.done;
      if at >= |w.device| {
        AtKeeps(w, id, Leaving(Failed));
      } else {
        var m := Min(n, Min(|r.put.body| - r.pc.done, |w.device| - at));
        MovingOk(w, r, m);
        HolderWrites(w, id, Copying(r.pc.done + m), Moving(w, r, m));
      }
    }
  }

  lemma EofKeeps(w: World, id: nat)
    requires Inv(w) && id in w.requests
    ensures Inv(StepEof(w, id))
  {
    var r, w' := w.requests[id], StepEof(w, id);
    if w' != w {
      assert r.put.body[..r.pc.done] == r.put.body;
      assert w.device[..w.written + r.pc.done] == w.device[..w.written] + r.put.body;
      assert Concat(w.committed + [r.put.body]) == Concat(w.committed) + r.put.body by {
        assert (w.committed + [r.put.body])[..|w.committed|] == w.committed;
      }
      assert Holds(w'.requests[id].pc);
    }
  }

  /** A request that holds the flag before and after, or neither before nor after. */
  lemma AtKeeps(w: World, id: nat, pc: Pc)
    requires Inv(w) && id in w.requests
    requires Holds(pc) == Holds(w.requests[id].pc)
    requires CopyOk(w, w.requests[id].(pc := pc))
    ensures Inv(At(w, id, pc))
  {
    var w' := At(w, id, pc);
    if w.isWriting {
      var i :| i in w.requests && Holds(w.requests[i].pc);
      assert i in w'.requests && Holds(w'.requests[i].pc);
    }
  }

  lemma ArriveKeeps(w: World, id: nat, put: Put)
    requires Inv(w) && id !in w.requests
    ensures Inv(Next(w, Arrive(id, put)))
  {
    var w' := Next(w, Arrive(id, put));
    if w.isWriting {
      var i :| i in w.requests && Holds(w.requests[i].pc);
      assert i in w'.requests && Holds(w'.requests[i].pc);
    }
  }

  lemma AcquireKeeps(w: World, id: nat)
    requires Inv(w) && id in w.requests && w.requests[id].pc == Arrived
    ensures Inv(StepAcquire(w, id))
  {
    if w.isWriting {
      AtKeeps(w, id, Answered(Busy));
    } else {
      assert Holds(StepAcquire(w, id).requests[id].pc);
    }
  }

  lemma ReleaseKeeps(w: World, id: nat)
    requires Inv(w) && id in w.requests && w.requests[id].pc.Leaving?
    ensures Inv(Next(w, Release(id)))
  {
    assert Holds(w.requests[id].pc);
  }

  lemma HandOverKeeps(w: World, ev: Event)
    requires Inv(w)
    requires ev.Acquire? || ev.Check? || ev.Break? || ev.Release? || ev.Arrive?
    ensures Inv(Next(w, ev))
  {
    match ev
    case Arrive(id, put) => if id !in w.requests { ArriveKeeps(w, id, put); }
    case Acquire(id) => if id in w.requests && w.requests[id].pc == Arrived { AcquireKeeps(w, id); }
    case Check(id, opens) =>
      if id in w.requests && w.requests[id].pc == Holding {
        match Refusal(|w.device|, w.written, w.requests[id].put, opens)
        case Some(reply) => AtKeeps(w, id, Leaving(reply));
        case None =>
          assert w.device[w.written..w.written] == w.requests[id].put.body[..0];
          AtKeeps(w, id, Copying(0));
      }
    case Break(id) => if id in w.requests && w.requests[id].pc.Copying? { AtKeeps(w, id, Leaving(Failed)); }
    case Release(id) => if id in w.requests && w.requests[id].pc.Leaving? { ReleaseKeeps(w, id); }
  }

  lemma NextKeeps(w: World, ev: Event)
    requires Inv(w)
    ensures Inv(Next(w, ev))
  {
    match ev
    case Write(id, n) => if id in w.requests { WriteKeeps(w, id, n); }
    case Eof(id) => if id in w.requests { EofKeeps(w, id); }
    case Restart =>
    case _ => HandOverKeeps(w, ev);
  }

  lemma {:induction false} RunKeeps(w: World, evs: seq<Event>)
    requires Initial(w)
    ensures Inv(Run(w, evs))
  {
    if evs != [] {
      RunKeeps(w, evs[..|evs| - 1]);
      NextKeeps(Run(w, evs[..|evs| - 1]), evs[|evs| - 1]);
    }
  }

  // ---- the theorems ----

  /** device[0..written) is the committed bodies in order, at every moment of every run. */
  lemma DeviceHoldsCommits(w: World, evs: seq<Event>)
    requires Initial(w)
    ensures var r := Run(w, evs); r.written <= |r.device| && r.device[..r.written] == Concat(r.committed)
  {
    RunKeeps(w, evs);
  }

  /** At most one request is between acquire and release. */
  lemma OneWriter(w: World, evs: seq<Event>, i: nat, j: nat)
    requires Initial(w)
    requires var q := Run(w, evs).requests; i in q && j in q && Holds(q[i].pc) && Holds(q[j].pc)
    ensures i == j && Run(w, evs).isWriting
  {
    RunKeeps(w, evs);
  }

  /** written moves only by a commit, to the end of the committed body, or back to 0 by a restart. */
  lemma OnlyCommitsMove(w: World, evs: seq<Event>, ev: Event)
    requires Initial(w)
    ensures var r, r' := Run(w, evs), Next(Run(w, evs), ev);
            || (r'.written == r.written && r'.committed == r.committed)
            || (ev.Restart? && r'.written == 0 && r'.committed == [])
            || (ev.Eof? && ev.id in r.requests && r'.committed == r.committed + [r.requests[ev.id].put.body]
                && r'.written == r.written + |r.requests[ev.id].put.body|)
  {
    RunKeeps(w, evs);
  }

  // A request of a client that uploads `source`: whatever offset it believes in, it sends the bytes from there.
  predicate Honest(p: Put, source: seq<Byte>) {
    p.offset < 0 || (p.offset + |p.body| <= |source| && p.body == source[p.offset..p.offset + |p.body|])
  }

  predicate HonestRun(evs: seq<Event>, source: seq<Byte>) {
    forall i | 0 <= i < |evs| && evs[i].Arrive? :: Honest(evs[i].put, source)
  }

  predicate AllHonest(w: World, source: seq<Byte>) {
    forall i | i in w.requests :: Honest(w.requests[i].put, source)
  }

  predicate Faithful(w: World, source: seq<Byte>) {
    && AllHonest(w, source)
    && w.written <= |source| && w.written <= |w.device|
    && w.device[..w.written] == source[..w.written]
  }

  lemma EofFaithful(w: World, id: nat, source: seq<Byte>)
    requires Inv(w) && Faithful(w, source) && id in w.requests
    ensures Faithful(StepEof(w, id), source)
  {
    var w' := StepEof(w, id);
    if w' != w {
      var r := w.requests[id];
      assert r.put.body[..r.pc.done] == r.put.body;
      assert w.device[..w.written + r.pc.done] == w.device[..w.written] + r.put.body;
      assert source[..w.written + r.pc.done] == source[..w.written] + r.put.body;
    }
  }

  lemma WriteFaithful(w: World, id: nat, n: nat, source: seq<Byte>)
    requires Inv(w) && Faithful(w, source) && id in w.requests
    ensures Faithful(StepWrite(w, id, n), source)
  {
    assert StepWrite(w, id, n).device[..w.written] == w.device[..w.written];
  }

  lemma NextFaithful(w: World, ev: Event, source: seq<Byte>)
    requires Inv(w) && Faithful(w, source)
    requires ev.Arrive? ==> Honest(ev.put, source)
    ensures Faithful(Next(w, ev), source)
  {
    match ev
    case Write(id, n) => if id in w.requests { WriteFaithful(w, id, n, source); }
    case Eof(id) => if id in w.requests { EofFaithful(w, id, source); }
    case Restart => assert w.device[..0] == source[..0];
    case _ =>
  }

  /** Resuming at any reported offset, after any failure or restart, leaves only source[0..written) behind. */
  lemma {:induction false} ResumeIsFaithful(w: World, evs: seq<Event>, source: seq<Byte>)
    requires Initial(w) && HonestRun(evs, source)
    ensures Faithful(Run(w, evs), source)
  {
    if evs == [] {
      assert w.device[..0] == source[..0];
    } else {
      var before := evs[..|evs| - 1];
      assert HonestRun(before, source) by {
        assert forall i | 0 <= i < |before| :: before[i] == evs[i];
      }
      ResumeIsFaithful(w, before, source);
      RunKeeps(w, before);
      NextFaithful(Run(w, before), evs[|evs| - 1], source);
    }
  }

  predicate Uploaded(w: World, source: seq<Byte>) {
    |source| <= |w.device| && w.device[..|source|] == source
  }

  /** A 201 for the whole source means the whole source is on the device. */
  lemma CreatedMeansUploaded(w: World, evs: seq<Event>, source: seq<Byte>, id: nat)
    requires Initial(w) && HonestRun(evs, source)
    requires id in Run(w, evs).requests && Run(w, evs).requests[id].put.total == Some(|source|)
    requires var r' := Next(Run(w, evs), Eof(id)); r'.requests[id].pc == Leaving(Created(|source|)) && r' != Run(w, evs)
    ensures Uploaded(Next(Run(w, evs), Eof(id)), source)
  {
    ResumeIsFaithful(w, evs, source);
    RunKeeps(w, evs);
    CommitIsUpload(Run(w, evs), source, id);
  }

  lemma CommitIsUpload(w: World, source: seq<Byte>, id: nat)
    requires Inv(w) && Faithful(w, source) && id in w.requests
    requires StepEof(w, id) != w && StepEof(w, id).requests[id].pc == Leaving(Created(|source|))
    ensures Uploaded(StepEof(w, id), source)
  {
    EofFaithful(w, id, source);
    assert StepEof(w, id).written == |source|;
    assert source[..|source|] == source;
  }

  /** Writing source bytes where they belong keeps the source. */
  lemma OverwriteKeepsSource(device: seq<Byte>, at: nat, bytes: seq<Byte>, source: seq<Byte>)
    requires |source| <= |device| && device[..|source|] == source
    requires at + |bytes| <= |source| && bytes == source[at..at + |bytes|]
    ensures Overwrite(device, at, bytes)[..|source|] == source
  {
    var d := Overwrite(device, at, bytes);
    forall i | 0 <= i < |source| ensures d[i] == source[i] {
      if at <= i < at + |bytes| {
        assert d[i] == bytes[i - at] == source[at..at + |bytes|][i - at];
      } else {
        assert d[i] == device[i] == device[..|source|][i];
      }
    }
  }

  lemma BodyIsSource(offset: nat, body: seq<Byte>, done: nat, m: nat, source: seq<Byte>)
    requires offset + |body| <= |source| && body == source[offset..offset + |body|] && done + m <= |body|
    ensures body[done..done + m] == source[offset + done..offset + done + m]
  {
    var part, there := body[done..done + m], source[offset + done..offset + done + m];
    forall i | 0 <= i < m ensures part[i] == there[i] {
      assert body[done + i] == source[offset..offset + |body|][done + i];
    }
  }

  lemma MovingKeepsSource(w: World, r: Request, m: nat, source: seq<Byte>)
    requires r.pc.Copying? && r.pc.done + m <= |r.put.body| && w.written + r.pc.done + m <= |w.device|
    requires r.put.offset == w.written && Honest(r.put, source) && Uploaded(w, source)
    ensures Moving(w, r, m)[..|source|] == source
  {
    BodyIsSource(w.written, r.put.body, r.pc.done, m, source);
    OverwriteKeepsSource(w.device, w.written + r.pc.done, r.put.body[r.pc.done..r.pc.done + m], source);
  }

  lemma WriteStaysUploaded(w: World, id: nat, n: nat, source: seq<Byte>)
    requires id in w.requests && CopyOk(w, w.requests[id]) && Honest(w.requests[id].put, source) && Uploaded(w, source)
    ensures Uploaded(StepWrite(w, id, n), source)
  {
    var r := w.requests[id];
    if r.pc.Copying? && r.pc.done < |r.put.body| {
      WriteIsMove(w, id, n);
      var at := w.written + r.pc.done;
      if at < |w.device| {
        MovingKeepsSource(w, r, Min(n, Min(|r.put.body| - r.pc.done, |w.device| - at)), source);
      }
    }
  }

  lemma NextStaysUploaded(w: World, ev: Event, source: seq<Byte>)
    requires Inv(w) && Faithful(w, source) && Uploaded(w, source)
    ensures Uploaded(Next(w, ev), source)
  {
    if ev.Write? && ev.id in w.requests {
      WriteStaysUploaded(w, ev.id, ev.n, source);
    }
  }

  /** Once there, it stays: late duplicates, broken retries and restarts only rewrite the same bytes. */
  lemma {:induction false} UploadStays(w: World, evs: seq<Event>, source: seq<Byte>)
    requires Inv(w) && Faithful(w, source) && Uploaded(w, source) && HonestRun(evs, source)
    ensures Inv(Run(w, evs)) && Faithful(Run(w, evs), source) && Uploaded(Run(w, evs), source)
  {
    if evs != [] {
      var before, last := evs[..|evs| - 1], evs[|evs| - 1];
      assert HonestRun(before, source) by {
        assert forall i | 0 <= i < |before| :: before[i] == evs[i];
      }
      UploadStays(w, before, source);
      NextKeeps(Run(w, before), last);
      NextFaithful(Run(w, before), last, source);
      NextStaysUploaded(Run(w, before), last, source);
    }
  }

  // ---- one request with nobody in its way ----

  datatype Outcome = Outcome(device: seq<Byte>, written: nat, reply: Reply)

  /** How many bytes of the body reach the device: up to where the body breaks off and the device ends. */
  function Moved(size: nat, p: Put, breaksAt: Option<nat>): nat
    requires 0 <= p.offset <= size
  {
    Min(size - p.offset, if breaksAt.Some? then Min(breaksAt.value, |p.body|) else |p.body|)
  }

  function PutAlone(device: seq<Byte>, written: nat, p: Put, opens: bool, breaksAt: Option<nat>): Outcome {
    match Refusal(|device|, written, p, opens)
    case Some(reply) => Outcome(device, written, reply)
    case None =>
      var moved := Moved(|device|, p, breaksAt);
      var device' := Overwrite(device, p.offset, p.body[..moved]);
      if breaksAt.Some? || moved < |p.body| then Outcome(device', written, Failed)
      else
        var reply := Verdict(p, p.offset + moved);
        Outcome(device', if IsCommit(reply) then p.offset + moved else written, reply)
  }

  // The events of that request: its copy in one piece, then the end of the body, its break or the device's end.
  function CopyEvents(size: nat, id: nat, p: Put, breaksAt: Option<nat>): seq<Event>
    requires 0 <= p.offset <= size
  {
    var moved := Moved(size, p, breaksAt);
    (if moved == 0 then [] else [Write(id, moved)])
    + [LastEvent(id, p, moved, breaksAt)]
  }

  function AloneEvents(size: nat, written: nat, id: nat, p: Put, opens: bool, breaksAt: Option<nat>): seq<Event> {
    [Arrive(id, p)] + [Acquire(id)] + [Check(id, opens)]
    + (if Refusal(size, written, p, opens).Some? then [] else CopyEvents(size, id, p, breaksAt))
    + [Release(id)]
  }

  lemma {:induction false} RunConcat(w: World, a: seq<Event>, b: seq<Event>)
    ensures Run(w, a + b) == Run(Run(w, a), b)
  {
    if b == [] {
      assert a + b == a;
    } else {
      var front := b[..|b| - 1];
      RunConcat(w, a, front);
      assert (a + b)[..|a + b| - 1] == a + front;
    }
  }

  lemma RunOne(w: World, ev: Event)
    ensures Run(w, [ev]) == Next(w, ev)
  {
    assert [ev][..0] == [];
    assert Run(w, [ev][..0]) == w;
  }

  predicate Leaves(w: World, id: nat, o: Outcome) {
    w.device == o.device && w.written == o.written && id in w.requests && w.requests[id].pc == Leaving(o.reply)
  }

  function LastEvent(id: nat, p: Put, moved: nat, breaksAt: Option<nat>): Event {
    if breaksAt.Some? then Break(id) else if moved < |p.body| then Write(id, 1) else Eof(id)
  }

  /** The event that ends a copy, on the device as the copy left it. */
  lemma LastAlone(w: World, id: nat, moved: nat, breaksAt: Option<nat>)
    requires id in w.requests && w.requests[id].pc == Copying(moved) && w.requests[id].put.offset == w.written
    requires w.written <= |w.device| && moved == Moved(|w.device|, w.requests[id].put, breaksAt)
    ensures var p := w.requests[id].put;
            var r := Next(w, LastEvent(id, p, moved, breaksAt));
            var fails := breaksAt.Some? || moved < |p.body|;
            var reply := if fails then Failed else Verdict(p, p.offset + moved);
            && r.device == w.device && id in r.requests && r.requests[id].pc == Leaving(reply)
            && r.written == if !fails && IsCommit(reply) then p.offset + moved else w.written
  {}

  lemma WriteAlone(w: World, id: nat, moved: nat)
    requires id in w.requests && w.requests[id].pc == Copying(0) && w.requests[id].put.offset == w.written
    requires 0 < moved <= |w.requests[id].put.body| && w.written + moved <= |w.device|
    ensures var p := w.requests[id].put;
            Next(w, Write(id, moved)) == At(w, id, Copying(moved)).(device := Overwrite(w.device, w.written, p.body[..moved]))
  {}

  lemma CopyNothing(w: World, id: nat, opens: bool, breaksAt: Option<nat>)
    requires id in w.requests && w.requests[id].pc == Copying(0)
    requires Refusal(|w.device|, w.written, w.requests[id].put, opens).None?
    requires Moved(|w.device|, w.requests[id].put, breaksAt) == 0
    ensures var p := w.requests[id].put;
            Leaves(Next(w, LastEvent(id, p, 0, breaksAt)), id, PutAlone(w.device, w.written, p, opens, breaksAt))
  {
    var p := w.requests[id].put;
    LastAlone(w, id, 0, breaksAt);
    assert Overwrite(w.device, p.offset, p.body[..0]) == w.device;
  }

  lemma CopySome(w: World, id: nat, opens: bool, breaksAt: Option<nat>)
    requires id in w.requests && w.requests[id].pc == Copying(0)
    requires Refusal(|w.device|, w.written, w.requests[id].put, opens).None?
    requires Moved(|w.device|, w.requests[id].put, breaksAt) > 0
    ensures var p := w.requests[id].put;
            var moved := Moved(|w.device|, p, breaksAt);
            Leaves(Next(Next(w, Write(id, moved)), LastEvent(id, p, moved, breaksAt)), id,
                   PutAlone(w.device, w.written, p, opens, breaksAt))
  {
    var p := w.requests[id].put;
    var moved := Moved(|w.device|, p, breaksAt);
    WriteAlone(w, id, moved);
    LastAlone(Next(w, Write(id, moved)), id, moved, breaksAt);
  }

  lemma CopyAlone(w: World, id: nat, opens: bool, breaksAt: Option<nat>)
    requires id in w.requests && w.requests[id].pc == Copying(0)
    requires Refusal(|w.device|, w.written, w.requests[id].put, opens).None?
    ensures var p := w.requests[id].put;
            Leaves(Run(w, CopyEvents(|w.device|, id, p, breaksAt)), id, PutAlone(w.device, w.written, p, opens, breaksAt))
  {
    var p := w.requests[id].put;
    var moved := Moved(|w.device|, p, breaksAt);
    var last := LastEvent(id, p, moved, breaksAt);
    if moved == 0 {
      assert CopyEvents(|w.device|, id, p, breaksAt) == [last];
      RunOne(w, last);
      CopyNothing(w, id, opens, breaksAt);
    } else {
      assert CopyEvents(|w.device|, id, p, breaksAt) == [Write(id, moved)] + [last];
      RunConcat(w, [Write(id, moved)], [last]);
      RunOne(w, Write(id, moved));
      RunOne(Next(w, Write(id, moved)), last);
      CopySome(w, id, opens, breaksAt);
    }
  }

  /** PutAlone is what the concurrent server does with a request that meets no other. */
  lemma AloneIsMachine(w: World, id: nat, p: Put, opens: bool, breaksAt: Option<nat>)
    requires !w.isWriting && id !in w.requests
    ensures var r := Run(w, AloneEvents(|w.device|, w.written, id, p, opens, breaksAt));
            var o := PutAlone(w.device, w.written, p, opens, breaksAt);
            && r.device == o.device && r.written == o.written && !r.isWriting
            && id in r.requests && r.requests[id].pc == Answered(o.reply)
  {
    var copy := if Refusal(|w.device|, w.written, p, opens).Some? then [] else CopyEvents(|w.device|, id, p, breaksAt);
    var w3 := Checked(w, id, p, opens);
    RunConcat(w, [Arrive(id, p)] + [Acquire(id)] + [Check(id, opens)] + copy, [Release(id)]);
    RunConcat(w, [Arrive(id, p)] + [Acquire(id)] + [Check(id, opens)], copy);
    if copy != [] {
      CopyAlone(w3, id, opens, breaksAt);
    }
    RunOne(Run(w3, copy), Release(id));
  }

  lemma Checked(w: World, id: nat, p: Put, opens: bool) returns (w3: World)
    requires !w.isWriting && id !in w.requests
    ensures w3 == Run(w, [Arrive(id, p)] + [Acquire(id)] + [Check(id, opens)])
    ensures w3.device == w.device && w3.written == w.written
    ensures id in w3.requests && w3.requests[id].put == p
    ensures var refusal := Refusal(|w.device|, w.written, p, opens);
            w3.requests[id].pc == if refusal.Some? then Leaving(refusal.value) else Copying(0)
  {
    var w1 := Next(w, Arrive(id, p));
    var w2 := Next(w1, Acquire(id));
    RunOne(w, Arrive(id, p));
    RunConcat(w, [Arrive(id, p)], [Acquire(id)]);
    RunOne(w1, Acquire(id));
    RunConcat(w, [Arrive(id, p)] + [Acquire(id)], [Check(id, opens)]);
    RunOne(w2, Check(id, opens));
    assert w2.requests[id] == Request(p, Holding);
    w3 := Next(w2, Check(id, opens));
  }

  // ---- the answers, said of the request and the server alone ----

  predicate ValidHeaders(p: Put) {
    p.offset >= 0 && (p.total.Some? ==> p.total.value >= 0)
  }

  predicate Fits(size: nat, written: nat, p: Put) {
    written <= size && (p.length.Some? ==> p.length.value <= size - written)
  }

  /** Every PUT that meets nobody else: why it is refused, or what of it is taken. */
  lemma PutAnswers(device: seq<Byte>, written: nat, p: Put, opens: bool, breaksAt: Option<nat>)
    ensures var o := PutAlone(device, written, p, opens, breaksAt);
            var copies := ValidHeaders(p) && opens && device != [] && p.offset == written && Fits(|device|, written, p);
            && (!ValidHeaders(p) ==> o.reply == BadRequest)
            && (ValidHeaders(p) && (!opens || device == []) ==> o.reply == Failed)
            && (ValidHeaders(p) && opens && device != [] && p.offset != written ==> o.reply == WrongOffset(written))
            && (ValidHeaders(p) && opens && device != [] && p.offset == written && !Fits(|device|, written, p) ==>
                  o.reply == OutOfRange)
            && (!copies ==> o.device == device && o.written == written)
            && (copies && (breaksAt.Some? || |p.body| > |device| - written) ==> o.reply == Failed && o.written == written)
            && (copies && breaksAt.None? && |p.body| <= |device| - written ==>
                  var end := written + |p.body|;
                  && o.device == device[..written] + p.body + device[end..]
                  && if p.total.Some? && end > p.total.value then o.reply == TooLong && o.written == written
                     else o.written == end && o.reply == if p.total == Some(end) then Created(end) else Accepted(end))
  {
    assert p.body[..|p.body|] == p.body;
  }

  /** A request that arrives while another one writes is told so, and nothing else happens. */
  lemma BusyIsTold(w: World, evs: seq<Event>, id: nat)
    requires Initial(w)
    requires var r := Run(w, evs); r.isWriting && id in r.requests && r.requests[id].pc == Arrived
    ensures var r, r' := Run(w, evs), Next(Run(w, evs), Acquire(id));
            r' == r.(requests := r.requests[id := r.requests[id].(pc := Answered(Busy))])
  {}

  /** A client that is told the offset and sends the rest of the source from there has the whole source uploaded. */
  lemma ToldOffsetCompletes(device: seq<Byte>, written: nat, source: seq<Byte>, p: Put)
    requires written <= |source| <= |device| && device != [] && device[..written] == source[..written]
    requires ValidHeaders(p) && p.offset != written
    ensures var told := PutAlone(device, written, p, true, None);
            && told == Outcome(device, written, WrongOffset(written))
            && var done := PutAlone(told.device, told.written,
                                    Put(told.reply.expected, Some(|source|), None, source[told.reply.expected..]), true, None);
               done.reply == Created(|source|) && done.written == |source| && done.device[..|source|] == source
  {
    var rest := Put(written, Some(|source|), None, source[written..]);
    PutAnswers(device, written, p, true, None);
    PutAnswers(device, written, rest, true, None);
    assert source == source[..written] + source[written..];
    var done := PutAlone(device, written, rest, true, None);
    assert done.device[..|source|] == device[..written] + source[written..];
  }

  class ImportBlockHandler {
    const device: array<Byte>
    var written: nat
    var isWriting: bool

    constructor (device: array<Byte>)
      ensures this.device == device && written == 0 && !isWriting
    {
      this.device, written, isWriting := device, 0, false;
    }

    /** io.Copy onto the device from `at`, until the body ends, breaks off or meets the end of the device. */
    method Copy(at: nat, body: seq<Byte>, breaksAt: Option<nat>) returns (n: nat, failed: bool)
      requires at <= device.Length
      modifies device
      ensures n == Min(device.Length - at, if breaksAt.Some? then Min(breaksAt.value, |body|) else |body|)
      ensures device[..] == Overwrite(old(device[..]), at, body[..n])
      ensures failed <==> breaksAt.Some? || n < |body|
    {
      n := 0;
      var stop := if breaksAt.Some? then Min(breaksAt.value, |body|) else |body|;
      assert device[..] == Overwrite(old(device[..]), at, body[..0]);
      while n < stop && at + n < device.Length
        invariant n <= stop && at + n <= device.Length
        invariant device[..] == Overwrite(old(device[..]), at, body[..n])
      {
        ghost var was := device[..];
        device[at + n] := body[n];
        assert device[..] == Overwrite(was, at + n, [body[n]]);
        assert body[..n + 1] == body[..n] + [body[n]];
        OverwriteInPieces(old(device[..]), at, body[..n], [body[n]]);
        n := n + 1;
      }
      failed := breaksAt.Some? || n < |body|;
    }

    /**
     * A busy server answers Busy and touches nothing, and the writer flag is given back on every path. A wrong offset is
     * answered with the right one; a body is taken exactly if it is whole, fits and keeps to the announced total.
     */
    method HandlePutMethod(p: Put, opens: bool, breaksAt: Option<nat>) returns (reply: Reply)
      modifies this, device
      ensures isWriting == old(isWriting)
      ensures Outcome(device[..], written, reply) ==
              if old(isWriting) then Outcome(old(device[..]), old(written), Busy)
              else PutAlone(old(device[..]), old(written), p, opens, breaksAt)
      ensures old(isWriting) ==> reply == Busy && written == old(written) && device[..] == old(device[..])
      ensures !old(isWriting) && ValidHeaders(p) && opens && device.Length > 0 && p.offset != old(written) ==>
                reply == WrongOffset(old(written)) && written == old(written) && device[..] == old(device[..])
      ensures reply.Accepted? || reply.Created? ==>
                reply.next == written && p.offset == old(written) && written == old(written) + |p.body|
      ensures reply.Created? ==> p.total == Some(written)
      ensures reply.Accepted? ==> p.total.None? || written < p.total.value
      ensures !(reply.Accepted? || reply.Created?) ==> written == old(written)
      ensures !old(isWriting) && ValidHeaders(p) && opens && device.Length > 0 && p.offset == old(written)
              && Fits(device.Length, old(written), p) && breaksAt.None? && old(written) + |p.body| <= device.Length
              && (p.total.Some? ==> old(written) + |p.body| <= p.total.value) ==>
                && written == old(written) + |p.body| && device[old(written)..written] == p.body
                && reply == if p.total == Some(written) then Created(written) else Accepted(written)
    {
      if isWriting {
        return Busy;
      }
      isWriting := true;
      reply := PutHolding(p, opens, breaksAt);
      isWriting := false;
      PutAnswers(old(device[..]), old(written), p, opens, breaksAt);
    }

    method PutHolding(p: Put, opens: bool, breaksAt: Option<nat>) returns (reply: Reply)
      modifies this`written, device
      ensures Outcome(device[..], written, reply) == PutAlone(old(device[..]), old(written), p, opens, breaksAt)
    {
      if p.offset < 0 || (p.total.Some? && p.total.value < 0) {
        return BadRequest;
      }
      if !opens || device.Length == 0 {
        return Failed;
      }
      var current := written;
      if p.offset != current {
        return WrongOffset(current);
      }
      if p.offset > device.Length {
        return OutOfRange;
      }
      var remain := device.Length - p.offset;
      if p.length.Some? && p.length.value > remain {
        return OutOfRange;
      }
      var n, failed := Copy(p.offset, p.body, breaksAt);
      if failed {
        return Failed;
      }
      var newOffset := p.offset + n;
      if p.total.Some? && newOffset > p.total.value {
        return TooLong;
      }
      written := newOffset;
      reply := if p.total == Some(newOffset) then Created(newOffset) else Accepted(newOffset);
    }
  }
}
