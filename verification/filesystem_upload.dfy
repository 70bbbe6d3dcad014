// The resumable file upload (images/data-exporter/internal/import_filesystem/handler.go): a temp file that grows by
// appends and becomes the target by one rename. One PUT at a time holds isWriting; the others are refused at once.
module FilesystemUpload {
  import opened Bytes
  import opened Options

  const SUFFIX := ".tempupload"

  type Path = string

  function Temp(p: Path): Path {
    p + SUFFIX
  }

  lemma TempIsInjective(p: Path, q: Path)
    ensures Temp(p) == Temp(q) ==> p == q
    ensures Temp(p) != p
  {
    if Temp(p) == Temp(q) {
      assert |p| == |q|;
      assert p == Temp(p)[..|p|] == Temp(q)[..|q|] == q;
    }
  }

  // A PUT with valid headers: X-Offset, X-Content-Length and the bytes that reach the server.
  datatype FilePut = FilePut(path: Path, offset: nat, total: Option<nat>, body: seq<Byte>)

  datatype Pc =
    | Holding
    | Copying(currentSize: nat, done: nat) // currentSize as the handler keeps it
    | Renaming                             // 201 is already on its way
    | Leaving

  datatype Active = Active(put: FilePut, pc: Pc)

  datatype World = World(files: map<Path, seq<Byte>>, holder: Option<Active>)

  datatype Event =
    | Begin(put: FilePut)
    | Check(opens: bool)
    | Write(n: nat)
    | Break
    | Eof(closes: bool)
    | Rename(succeeds: bool)
    | Leave
    | Restart

  function To(w: World, pc: Pc): World
    requires w.holder.Some?
  {
    w.(holder := Some(w.holder.value.(pc := pc)))
  }

  /** The stats, the offset check and the open; currentSize starts from the target and is replaced by a temp file's size. */
  function StepCheck(w: World, opens: bool): World
    requires w.holder.Some?
  {
    var put := w.holder.value.put;
    var temp := Temp(put.path);
    var present := put.path in w.files;
    if w.holder.value.pc != Holding then w
    else if present && put.total == Some(|w.files[put.path]|) then To(w, Leaving)
    else if temp !in w.files then
      if put.offset != 0 || !opens then To(w, Leaving)
      else To(w, Copying(if present then |w.files[put.path]| else 0, 0)).(files := w.files[temp := []])
    else if put.offset != |w.files[temp]| || !opens then To(w, Leaving)
    else To(w, Copying(|w.files[temp]|, 0))
  }

  /** A write into an open file at a position inside it or at its end. */
  function WriteAt(content: seq<Byte>, at: nat, bytes: seq<Byte>): seq<Byte>
    requires at <= |content|
  {
    content[..at] + bytes + if at + |bytes| < |content| then content[at + |bytes|..] else []
  }

  function StepWrite(w: World, n: nat): World
    requires w.holder.Some?
  {
    var Active(put, pc) := w.holder.value;
    if !pc.Copying? || pc.done > |put.body| then w
    else
      var temp, m := Temp(put.path), Min(n, |put.body| - pc.done);
      if temp !in w.files || put.offset + pc.done > |w.files[temp]| then w
      else
        var content := WriteAt(w.files[temp], put.offset + pc.done, put.body[pc.done..pc.done + m]);
        To(w, Copying(pc.currentSize, pc.done + m)).(files := w.files[temp := content])
  }

  function StepEof(w: World, closes: bool): World
    requires w.holder.Some?
  {
    var Active(put, pc) := w.holder.value;
    if !pc.Copying? || pc.done != |put.body| then w
    else if !closes then To(w, Leaving)
    else if put.total == Some(pc.currentSize + pc.done) then To(w, Renaming)
    else To(w, Leaving)
  }

  function StepRename(w: World, succeeds: bool): World
    requires w.holder.Some?
  {
    var Active(put, pc) := w.holder.value;
    if pc != Renaming then w
    else if !succeeds || Temp(put.path) !in w.files then To(w, Leaving)
    else To(w, Leaving).(files := w.files[put.path := w.files[Temp(put.path)]] - {Temp(put.path)})
  }

  function Next(w: World, ev: Event): World {
    match ev
    case Begin(put) => if w.holder.Some? then w else w.(holder := Some(Active(put, Holding)))
    case Check(opens) => if w.holder.Some? then StepCheck(w, opens) else w
    case Write(n) => if w.holder.Some? then StepWrite(w, n) else w
    case Break => if w.holder.Some? && w.holder.value.pc.Copying? then To(w, Leaving) else w
    case Eof(closes) => if w.holder.Some? then StepEof(w, closes) else w
    case Rename(succeeds) => if w.holder.Some? then StepRename(w, succeeds) else w
    case Leave => if w.holder.Some? && w.holder.value.pc == Leaving then w.(holder := None) else w
    case Restart => w.(holder := None)
  }

  function Run(w: World, evs: seq<Event>): World {
    if evs == [] then w else Next(Run(w, evs[..|evs| - 1]), evs[|evs| - 1])
  }

  // ---- what every step keeps, for every mixture of paths ----

  /** The handler's size is the temp file's own, except when it began a temp file beside an existing target. */
  predicate CopyOk(w: World) {
    w.holder.Some? ==>
      var Active(put, pc) := w.holder.value;
      var temp := Temp(put.path);
      && (pc.Copying? ==>
            && pc.done <= |put.body|
            && temp in w.files && |w.files[temp]| == put.offset + pc.done
            && w.files[temp][put.offset..] == put.body[..pc.done]
            && (pc.currentSize == put.offset ||
                (put.offset == 0 && put.path in w.files && pc.currentSize == |w.files[put.path]|)))
      && (pc == Renaming ==> temp in w.files)
  }

  lemma CheckKeeps(w: World, opens: bool)
    requires CopyOk(w) && w.holder.Some?
    ensures CopyOk(StepCheck(w, opens))
  {
    TempIsInjective(w.holder.value.put.path, w.holder.value.put.path);
  }

  /** A write at the end of a file appends, and the part since `offset` grows by the same bytes. */
  lemma WriteAppends(content: seq<Byte>, offset: nat, body: seq<Byte>, done: nat, m: nat)
    requires |content| == offset + done && done + m <= |body| && content[offset..] == body[..done]
    ensures WriteAt(content, offset + done, body[done..done + m]) == content + body[done..done + m]
    ensures (content + body[done..done + m])[offset..] == body[..done + m]
  {
    assert content[..offset + done] == content;
    assert body[..done + m] == body[..done] + body[done..done + m];
    assert (content + body[done..done + m])[offset..] == content[offset..] + body[done..done + m];
  }

  lemma WriteKeeps(w: World, n: nat)
    requires CopyOk(w) && w.holder.Some?
    ensures CopyOk(StepWrite(w, n))
    ensures w.holder.value.pc.Copying? ==>
              var Active(put, pc) := w.holder.value;
              var m := Min(n, |put.body| - pc.done);
              StepWrite(w, n) ==
                To(w, Copying(pc.currentSize, pc.done + m)).(
                  files := w.files[Temp(put.path) := w.files[Temp(put.path)] + put.body[pc.done..pc.done + m]])
  {
    var Active(put, pc) := w.holder.value;
    if pc.Copying? {
      var temp, m := Temp(put.path), Min(n, |put.body| - pc.done);
      TempIsInjective(put.path, put.path);
      WriteAppends(w.files[temp], put.offset, put.body, pc.done, m);
      var grown := w.files[temp] + put.body[pc.done..pc.done + m];
      assert StepWrite(w, n) == To(w, Copying(pc.currentSize, pc.done + m)).(files := w.files[temp := grown]);
    }
  }

  lemma NextKeeps(w: World, ev: Event)
    requires CopyOk(w)
    ensures CopyOk(Next(w, ev))
  {
    match ev
    case Check(opens) => if w.holder.Some? { CheckKeeps(w, opens); }
    case Write(n) => if w.holder.Some? { WriteKeeps(w, n); }
    case _ =>
  }

  lemma {:induction false} RunKeeps(w: World, evs: seq<Event>)
    requires w.holder.None?
    ensures CopyOk(Run(w, evs))
  {
    if evs != [] {
      RunKeeps(w, evs[..|evs| - 1]);
      NextKeeps(Run(w, evs[..|evs| - 1]), evs[|evs| - 1]);
    }
  }

  // The three ways in which one event may change the files under a holder's PUT.
  predicate FileChange(files: map<Path, seq<Byte>>, files': map<Path, seq<Byte>>, a: Active, ev: Event) {
    var temp := Temp(a.put.path);
    match ev
    case Check(_) => temp !in files && a.put.offset == 0 && files' == files[temp := []]
    case Write(n) =>
      && a.pc.Copying? && temp in files && a.pc.done <= |a.put.body|
      && var m := Min(n, |a.put.body| - a.pc.done);
         files' == files[temp := files[temp] + a.put.body[a.pc.done..a.pc.done + m]]
    case Rename(_) => a.pc == Renaming && temp in files && files' == files[a.put.path := files[temp]] - {temp}
    case _ => false
  }

  /** Files change in three ways only: a temp file appears empty, grows by the next bytes of the body, or is renamed. */
  lemma FilesChange(w: World, evs: seq<Event>, ev: Event)
    requires w.holder.None?
    ensures var r, r' := Run(w, evs), Next(Run(w, evs), ev);
            r'.files == r.files || (r.holder.Some? && FileChange(r.files, r'.files, r.holder.value, ev))
  {
    RunKeeps(w, evs);
    OneFileChange(Run(w, evs), ev);
  }

  lemma OneFileChange(w: World, ev: Event)
    requires CopyOk(w)
    ensures Next(w, ev).files == w.files || (w.holder.Some? && FileChange(w.files, Next(w, ev).files, w.holder.value, ev))
  {
    if w.holder.Some? {
      match ev
      case Write(n) => WriteKeeps(w, n);
      case _ =>
    }
  }

  // ---- how long a renamed file is ----

  /** The PUT is about to begin a temp file beside a target that has bytes in it: the handler will count them in. */
  predicate BeginsBesideTarget(files: map<Path, seq<Byte>>, path: Path) {
    Temp(path) !in files && path in files && files[path] != []
  }

  // Nothing ends the copy; events of other requests are refused meanwhile.
  predicate Uninterrupted(evs: seq<Event>) {
    forall i | 0 <= i < |evs| :: !evs[i].Break? && !evs[i].Eof? && !evs[i].Restart?
  }

  /** Through an uninterrupted copy the request, its size and every file but the temp file stay. */
  lemma {:induction false} CopyGoesOn(w: World, evs: seq<Event>)
    requires CopyOk(w) && w.holder.Some? && w.holder.value.pc.Copying? && Uninterrupted(evs)
    ensures var r := Run(w, evs);
            && CopyOk(r) && r.holder.Some? && r.holder.value.put == w.holder.value.put
            && r.holder.value.pc.Copying? && r.holder.value.pc.currentSize == w.holder.value.pc.currentSize
  {
    if evs != [] {
      var before, last := evs[..|evs| - 1], evs[|evs| - 1];
      assert Uninterrupted(before) by {
        assert forall i | 0 <= i < |before| :: before[i] == evs[i];
      }
      CopyGoesOn(w, before);
      if last.Write? {
        WriteKeeps(Run(w, before), last.n);
      }
    }
  }

  /**
   * A PUT that passes its checks, copies uninterrupted and is about to rename: the file has the announced length if
   * and only if, at its checks, it did not begin a temp file beside a non-empty target. Otherwise it is short by
   * exactly the size of that target.
   */
  lemma RenamedLength(w: World, evs: seq<Event>)
    requires CopyOk(w) && w.holder.Some? && w.holder.value.pc == Holding
    requires StepCheck(w, true).holder.value.pc.Copying? && Uninterrupted(evs)
    requires var end := Next(Run(StepCheck(w, true), evs), Eof(true)); end.holder.Some? && end.holder.value.pc == Renaming
    ensures var put := w.holder.value.put;
            var files := Run(StepCheck(w, true), evs).files;
            && put.total.Some? && Temp(put.path) in files
            && (|files[Temp(put.path)]| == put.total.value <==> !BeginsBesideTarget(w.files, put.path))
            && (BeginsBesideTarget(w.files, put.path) ==>
                  |files[Temp(put.path)]| + |w.files[put.path]| == put.total.value)
  {
    CheckKeeps(w, true);
    CopyGoesOn(StepCheck(w, true), evs);
  }

  lemma RunAppend(w: World, evs: seq<Event>, ev: Event)
    ensures Run(w, evs + [ev]) == Next(Run(w, evs), ev)
  {
    assert (evs + [ev])[..|evs|] == evs;
  }

  lemma ShortCopy(w: World, p: Path) returns (evs: seq<Event>)
    requires w == World(map[p := [1, 2, 3]], None)
    ensures var put := FilePut(p, 0, Some(5), [4, 5]);
            Run(w, evs) == World(map[p := [1, 2, 3], Temp(p) := [4, 5]], Some(Active(put, Copying(3, 2))))
  {
    TempIsInjective(p, p);
    var put := FilePut(p, 0, Some(5), [4, 5]);
    RunAppend(w, [], Begin(put));
    RunAppend(w, [] + [Begin(put)], Check(true));
    evs := [] + [Begin(put)] + [Check(true)];
    var checked := Run(w, evs);
    assert checked == World(map[p := [1, 2, 3], Temp(p) := []], Some(Active(put, Copying(3, 0))));
    RunAppend(w, evs, Write(2));
    evs := evs + [Write(2)];
    WriteKeeps(checked, 2);
    assert [] + put.body[0..2] == [4, 5];
  }

  /** Two bytes sent over a file of three, announced as five, replace it by a file of two. */
  lemma ShortRename(p: Path) returns (w: World, evs: seq<Event>)
    ensures w.holder.None? && p in w.files && |w.files[p]| == 3
    ensures p in Run(w, evs).files && Run(w, evs).files[p] == [4, 5]
  {
    w := World(map[p := [1, 2, 3]], None);
    evs := ShortCopy(w, p);
    RunAppend(w, evs, Eof(true));
    evs := evs + [Eof(true)];
    RunAppend(w, evs, Rename(true));
    evs := evs + [Rename(true)];
    TempIsInjective(p, p);
  }

  // ---- a client that uploads `source` to a path that does not exist yet ----

  // Nobody uploads to this path's temp file, and this path is nobody's temp file.
  predicate Apart(q: Path, p: Path) {
    q != Temp(p) && Temp(q) != p
  }

  predicate Honest(put: FilePut, p: Path, source: seq<Byte>) {
    && Apart(put.path, p)
    && (put.path == p ==>
          && put.offset + |put.body| <= |source|
          && put.body == source[put.offset..put.offset + |put.body|]
          && (put.total.Some? ==> put.total.value == |source|))
  }

  predicate HonestRun(evs: seq<Event>, p: Path, source: seq<Byte>) {
    forall i | 0 <= i < |evs| && evs[i].Begin? :: Honest(evs[i].put, p, source)
  }

  predicate FilesFaithful(files: map<Path, seq<Byte>>, p: Path, source: seq<Byte>) {
    && (Temp(p) in files ==> files[Temp(p)] <= source)
    && (p in files ==> files[p] == source)
  }

  predicate Faithful(w: World, p: Path, source: seq<Byte>) {
    && FilesFaithful(w.files, p, source)
    && (w.holder.Some? ==>
          var Active(put, pc) := w.holder.value;
          && Honest(put, p, source)
          && (put.path == p ==>
                && (pc.Copying? && put.total.Some? ==> pc.currentSize == put.offset && p !in w.files)
                && (pc == Renaming ==> p !in w.files && Temp(p) in w.files && w.files[Temp(p)] == source)))
  }

  lemma CheckFaithful(w: World, opens: bool, p: Path, source: seq<Byte>)
    requires CopyOk(w) && Faithful(w, p, source) && w.holder.Some?
    ensures Faithful(StepCheck(w, opens), p, source)
  {
    TempIsInjective(w.holder.value.put.path, p);
    assert [] <= source;
  }

  /** A prefix of the source grows to a longer prefix by the next bytes of an honest body. */
  lemma PrefixGrows(source: seq<Byte>, content: seq<Byte>, offset: nat, body: seq<Byte>, done: nat, m: nat)
    requires offset + |body| <= |source| && body == source[offset..offset + |body|]
    requires done + m <= |body| && |content| == offset + done && content <= source
    ensures content + body[done..done + m] <= source
  {
    assert content == source[..offset + done];
    var next, there := body[done..done + m], source[offset + done..offset + done + m];
    forall i | 0 <= i < m ensures next[i] == there[i] {
      assert body[done + i] == source[offset..offset + |body|][done + i];
    }
    assert next == there;
    assert content + body[done..done + m] == source[..offset + done + m];
  }

  lemma WriteFaithful(w: World, n: nat, p: Path, source: seq<Byte>)
    requires CopyOk(w) && Faithful(w, p, source) && w.holder.Some?
    ensures Faithful(StepWrite(w, n), p, source)
  {
    var Active(put, pc) := w.holder.value;
    if pc.Copying? {
      TempIsInjective(put.path, p);
      WriteKeeps(w, n);
      if put.path == p {
        PrefixGrows(source, w.files[Temp(p)], put.offset, put.body, pc.done, Min(n, |put.body| - pc.done));
      }
    }
  }

  lemma EofFaithful(w: World, closes: bool, p: Path, source: seq<Byte>)
    requires CopyOk(w) && Faithful(w, p, source) && w.holder.Some?
    ensures Faithful(StepEof(w, closes), p, source)
  {
    var Active(put, pc) := w.holder.value;
    if put.path == p && pc.Copying? && StepEof(w, closes).holder.value.pc == Renaming {
      assert |w.files[Temp(p)]| == |source|;
    }
  }

  lemma RenameFaithful(w: World, succeeds: bool, p: Path, source: seq<Byte>)
    requires CopyOk(w) && Faithful(w, p, source) && w.holder.Some?
    ensures Faithful(StepRename(w, succeeds), p, source)
  {
    TempIsInjective(w.holder.value.put.path, p);
    TempIsInjective(p, w.holder.value.put.path);
  }

  lemma NextFaithful(w: World, ev: Event, p: Path, source: seq<Byte>)
    requires CopyOk(w) && Faithful(w, p, source)
    requires ev.Begin? ==> Honest(ev.put, p, source)
    ensures Faithful(Next(w, ev), p, source)
  {
    if w.holder.Some? {
      match ev
      case Check(opens) => CheckFaithful(w, opens, p, source);
      case Write(n) => WriteFaithful(w, n, p, source);
      case Eof(closes) => EofFaithful(w, closes, p, source);
      case Rename(succeeds) => RenameFaithful(w, succeeds, p, source);
      case _ =>
    }
  }

  /**
   * Over every run with broken bodies, refused PUTs, failed renames and restarts, the temp file is a prefix of the
   * source and the target, if it is there, is the whole source.
   */
  lemma {:induction false} UploadIsFaithful(w: World, evs: seq<Event>, p: Path, source: seq<Byte>)
    requires w.holder.None? && p !in w.files && Temp(p) !in w.files
    requires HonestRun(evs, p, source)
    ensures Faithful(Run(w, evs), p, source)
  {
    if evs != [] {
      var before := evs[..|evs| - 1];
      assert HonestRun(before, p, source) by {
        assert forall i | 0 <= i < |before| :: before[i] == evs[i];
      }
      UploadIsFaithful(w, before, p, source);
      RunKeeps(w, before);
      NextFaithful(Run(w, before), evs[|evs| - 1], p, source);
    }
  }

  /** A finished target is never lost or replaced again. */
  lemma TargetStays(w: World, evs: seq<Event>, ev: Event, p: Path, source: seq<Byte>)
    requires w.holder.None? && p !in w.files && Temp(p) !in w.files
    requires HonestRun(evs + [ev], p, source)
    requires p in Run(w, evs).files
    ensures p in Next(Run(w, evs), ev).files && Next(Run(w, evs), ev).files[p] == source
  {
    assert HonestRun(evs, p, source) by {
      assert forall i | 0 <= i < |evs| :: (evs + [ev])[i] == evs[i];
    }
    UploadIsFaithful(w, evs, p, source);
    RunKeeps(w, evs);
    assert (evs + [ev])[|evs|] == ev;
    NextFaithful(Run(w, evs), ev, p, source);
    var r := Run(w, evs);
    if r.holder.Some? {
      TempIsInjective(r.holder.value.put.path, p);
      if ev.Write? && r.holder.value.pc.Copying? {
        WriteKeeps(r, ev.n);
      }
    }
  }

  /**
   * 201 is answered before the rename. At that moment the target is not there and the whole source is in the temp file.
   * Whatever happens next, the target is there exactly after a rename that goes through, and is then the source; a
   * rename that fails, and a restart of the server, leave the files as they are with nobody to rename them.
   */
  lemma CreatedBeforeRename(w: World, evs: seq<Event>, p: Path, source: seq<Byte>, ev: Event)
    requires w.holder.None? && p !in w.files && Temp(p) !in w.files
    requires HonestRun(evs, p, source)
    requires Run(w, evs).holder.Some? && Run(w, evs).holder.value.put.path == p
    requires Run(w, evs).holder.value.pc == Renaming
    ensures var r, r' := Run(w, evs), Next(Run(w, evs), ev);
            && p !in r.files && Temp(p) in r.files && r.files[Temp(p)] == source
            && (p in r'.files <==> ev == Rename(true)) && (p in r'.files ==> r'.files[p] == source)
            && (ev == Rename(false) || ev == Restart ==>
                  r'.files == r.files && (r'.holder.Some? ==> r'.holder.value.pc == Leaving))
  {
    UploadIsFaithful(w, evs, p, source);
    TempIsInjective(p, p);
  }

  lemma CopyOkAtStart(w: World, put: FilePut)
    requires w.holder == Some(Active(put, Copying(0, 0))) && put.offset == 0
    requires Temp(put.path) in w.files && w.files[Temp(put.path)] == []
    ensures CopyOk(w)
  {}

  lemma WholeWrite(w: World, put: FilePut)
    requires w.holder == Some(Active(put, Copying(0, 0))) && put.offset == 0
    requires Temp(put.path) in w.files && w.files[Temp(put.path)] == []
    ensures Next(w, Write(|put.body|)) ==
              World(w.files[Temp(put.path) := put.body], Some(Active(put, Copying(0, |put.body|))))
  {
    CopyOkAtStart(w, put);
    WriteKeeps(w, |put.body|);
    assert [] + put.body[0..0 + |put.body|] == put.body;
  }

  lemma CopyRun(w: World, p: Path, source: seq<Byte>) returns (evs: seq<Event>)
    requires w.holder.None? && p !in w.files && Temp(p) !in w.files
    ensures HonestRun(evs, p, source)
    ensures var put := FilePut(p, 0, Some(|source|), source);
            Run(w, evs) == World(w.files[Temp(p) := []], Some(Active(put, Copying(0, 0))))
  {
    var put := FilePut(p, 0, Some(|source|), source);
    RunAppend(w, [], Begin(put));
    evs := [Begin(put)];
    assert [] + evs == evs;
    assert Run(w, evs) == World(w.files, Some(Active(put, Holding)));
    RunAppend(w, evs, Check(true));
    evs := evs + [Check(true)];
    TempIsInjective(p, p);
  }

  /** The upload of a whole source in one PUT gets to its 201 with the target absent. */
  lemma CreatedRun(w: World, p: Path, source: seq<Byte>) returns (evs: seq<Event>)
    requires w.holder.None? && p !in w.files && Temp(p) !in w.files
    ensures HonestRun(evs, p, source) && p !in Run(w, evs).files
    ensures var put := FilePut(p, 0, Some(|source|), source);
            Run(w, evs) == World(w.files[Temp(p) := source], Some(Active(put, Renaming)))
  {
    TempIsInjective(p, p);
    evs := CopyRun(w, p, source);
    var copying := Run(w, evs);
    RunAppend(w, evs, Write(|source|));
    evs := evs + [Write(|source|)];
    WholeWrite(copying, copying.holder.value.put);
    assert copying.files[Temp(p) := source] == w.files[Temp(p) := source];
    RunAppend(w, evs, Eof(true));
    evs := evs + [Eof(true)];
  }

  // ---- one request, as the handler runs it ----

  /** The rest of a PUT that has passed its checks, up to its release. */
  function Finish(w: World, moved: nat, breaks: bool, closes: bool, renames: bool): World {
    Next(Next(Next(Next(w, Write(moved)), if breaks then Break else Eof(closes)), Rename(renames)), Leave)
  }

  /** The file system after one PUT that nobody interrupts. */
  function CreateAlone(files: map<Path, seq<Byte>>, put: FilePut, opens: bool, moved: nat, breaks: bool, closes: bool, renames: bool)
    : World
  {
    Finish(Next(Next(World(files, None), Begin(put)), Check(opens)), moved, breaks, closes, renames)
  }

  lemma FinishRefused(w: World, moved: nat, breaks: bool, closes: bool, renames: bool)
    requires w.holder.Some? && w.holder.value.pc == Leaving
    ensures Finish(w, moved, breaks, closes, renames) == World(w.files, None)
  {}

  lemma FinishCopied(w: World, moved: nat, breaks: bool, closes: bool, renames: bool)
    requires w.holder.Some? && w.holder.value.pc.Copying? && w.holder.value.pc.done == 0 && CopyOk(w)
    requires moved <= |w.holder.value.put.body| && (!breaks ==> moved == |w.holder.value.put.body|)
    ensures var Active(put, pc) := w.holder.value;
            var temp := Temp(put.path);
            var grown := w.files[temp := w.files[temp] + put.body[..moved]];
            Finish(w, moved, breaks, closes, renames) ==
              World(if !breaks && closes && renames && put.total == Some(pc.currentSize + moved)
                    then grown[put.path := grown[temp]] - {temp} else grown, None)
  {
    var Active(put, pc) := w.holder.value;
    WriteKeeps(w, moved);
    var w1 := Next(w, Write(moved));
    assert w1 == World(w.files[Temp(put.path) := w.files[Temp(put.path)] + put.body[..moved]],
                       Some(Active(put, Copying(pc.currentSize, moved))));
    var w2 := Next(w1, if breaks then Break else Eof(closes));
    var w3 := Next(w2, Rename(renames));
  }

  /** After a lost rename, an empty PUT at the offset HEAD reports finishes the upload. */
  lemma RetryFinishes(files: map<Path, seq<Byte>>, p: Path, source: seq<Byte>)
    requires Temp(p) in files && files[Temp(p)] == source && p !in files
    ensures var w := CreateAlone(files, FilePut(p, |source|, Some(|source|), []), true, 0, false, true, true);
            p in w.files && w.files[p] == source && Temp(p) !in w.files
  {
    TempIsInjective(p, p);
    var put := FilePut(p, |source|, Some(|source|), []);
    var begun := World(files, Some(Active(put, Holding)));
    CheckKeeps(begun, true);
    assert StepCheck(begun, true) == World(files, Some(Active(put, Copying(|source|, 0))));
    FinishCopied(StepCheck(begun, true), 0, false, true, true);
    assert source + put.body[..0] == source;
  }

  // ---- the answers, said of the request and the files alone ----

  datatype Reply =
    | Busy                        // 409, somebody is writing
    | AlreadyThere                // 409, the target has the announced length
    | WrongOffset(expected: nat)  // 409 with X-Expected-Offset
    | Failed                      // 500
    | Accepted(next: nat)         // 204 with X-Next-Offset
    | Created                     // 201

  function Size(files: map<Path, seq<Byte>>, p: Path): nat {
    if p in files then |files[p]| else 0
  }

  /** The files once the part of the body that arrived is behind what the temp file held. */
  function Grown(files: map<Path, seq<Byte>>, put: FilePut, moved: nat): map<Path, seq<Byte>>
    requires moved <= |put.body|
  {
    var temp := Temp(put.path);
    files[temp := (if temp in files then files[temp] else []) + put.body[..moved]]
  }

  /** What the handler counts as the size before the body: the temp file's, or the target's when it begins one. */
  function Counted(files: map<Path, seq<Byte>>, p: Path): nat {
    if Temp(p) in files then |files[Temp(p)]| else Size(files, p)
  }

  /** A PUT that meets nobody else: why it is refused, or what of it is taken and what the client is told. */
  predicate Answers(was: map<Path, seq<Byte>>, put: FilePut, opens: bool, moved: nat, breaks: bool, closes: bool, renames: bool,
                    files: map<Path, seq<Byte>>, reply: Reply)
    requires moved <= |put.body|
  {
    var temp, end := Temp(put.path), Counted(was, put.path) + moved;
    if put.path in was && put.total == Some(Size(was, put.path)) then reply == AlreadyThere && files == was
    else if put.offset != Size(was, temp) then reply == WrongOffset(Size(was, temp)) && files == was
    else if !opens then reply == Failed && files == was
    else if breaks || !closes then reply == Failed && files == Grown(was, put, moved)
    else if put.total != Some(end) then reply == Accepted(end) && files == Grown(was, put, moved)
    else
      && reply == Created
      && files == if renames then Grown(was, put, moved)[put.path := Grown(was, put, moved)[temp]] - {temp}
                  else Grown(was, put, moved)
  }

  /** The machine's uninterrupted PUT leaves the files of the answer. */
  lemma AnswersAreMachine(was: map<Path, seq<Byte>>, put: FilePut, opens: bool, moved: nat, breaks: bool, closes: bool,
                          renames: bool, files: map<Path, seq<Byte>>, reply: Reply)
    requires moved <= |put.body| && (!breaks ==> moved == |put.body|)
    requires Answers(was, put, opens, moved, breaks, closes, renames, files, reply)
    ensures World(files, None) == CreateAlone(was, put, opens, moved, breaks, closes, renames)
  {
    var begun := World(was, Some(Active(put, Holding)));
    var checked := StepCheck(begun, opens);
    assert CreateAlone(was, put, opens, moved, breaks, closes, renames) == Finish(checked, moved, breaks, closes, renames);
    CheckKeeps(begun, opens);
    if checked.holder.value.pc == Leaving {
      FinishRefused(checked, moved, breaks, closes, renames);
    } else {
      FinishCopied(checked, moved, breaks, closes, renames);
      var temp := Temp(put.path);
      assert checked.files[temp := checked.files[temp] + put.body[..moved]] == Grown(was, put, moved);
    }
  }

  /**
   * The next offset a client is told after a PUT is the size of its temp file exactly when the PUT did not begin that
   * file beside a non-empty target; a PUT at an offset that was told wrong is refused with the right one.
   */
  lemma ToldNextOffset(was: map<Path, seq<Byte>>, put: FilePut, moved: nat, renames: bool,
                       files: map<Path, seq<Byte>>, reply: Reply)
    requires moved <= |put.body| && Answers(was, put, true, moved, false, true, renames, files, reply) && reply.Accepted?
    ensures reply.next == Size(files, Temp(put.path)) <==> !BeginsBesideTarget(was, put.path)
    ensures forall next: FilePut, files': map<Path, seq<Byte>>, reply': Reply ::
              next.path == put.path && next.offset == reply.next && next.total != Some(Size(files, put.path))
              && Answers(files, next, true, |next.body|, false, true, true, files', reply') ==>
                (reply' == WrongOffset(Size(files, Temp(put.path))) <==> BeginsBesideTarget(was, put.path))
  {
    TempIsInjective(put.path, put.path);
  }

  /** A client that goes on with the rest of its source at the offset it is told to has the whole source as the target. */
  lemma ToldOffsetCompletes(was: map<Path, seq<Byte>>, p: Path, source: seq<Byte>, rest: FilePut,
                            files: map<Path, seq<Byte>>, reply: Reply)
    requires p !in was && Temp(p) in was && was[Temp(p)] <= source
    requires rest == FilePut(p, Size(was, Temp(p)), Some(|source|), source[Size(was, Temp(p))..])
    requires Answers(was, rest, true, |rest.body|, false, true, true, files, reply)
    ensures reply == Created && files == was[p := source] - {Temp(p)}
  {
    assert was[Temp(p)] == source[..|was[Temp(p)]|];
    assert rest.body[..|rest.body|] == rest.body;
    assert was[Temp(p)] + rest.body == source;
    TempIsInjective(p, p);
    assert Grown(was, rest, |rest.body|) == was[Temp(p) := source];
  }

  class ImportFilesystemHandler {
    var files: map<Path, seq<Byte>>
    var isWriting: bool

    constructor (files: map<Path, seq<Byte>>)
      ensures this.files == files && !isWriting
    {
      this.files, isWriting := files, false;
    }

    /** io.Copy into the open temp file, byte after byte. */
    method Copy(temp: Path, at: nat, body: seq<Byte>)
      requires temp in files && |files[temp]| == at
      modifies this`files
      ensures files == old(files)[temp := old(files)[temp] + body]
    {
      var n := 0;
      assert old(files)[temp] + body[..0] == files[temp];
      while n < |body|
        invariant n <= |body|
        invariant temp in files && files[temp] == old(files)[temp] + body[..n]
        invariant files == old(files)[temp := files[temp]]
      {
        assert body[..n + 1] == body[..n] + [body[n]];
        assert WriteAt(files[temp], at + n, [body[n]]) == old(files)[temp] + body[..n + 1];
        files := files[temp := WriteAt(files[temp], at + n, [body[n]])];
        n := n + 1;
      }
      assert body[..n] == body;
    }

    /**
     * A busy handler touches nothing; a free one answers as Answers says, leaves what the uninterrupted machine leaves,
     * and the flag free.
     */
    method CreateFile(put: FilePut, opens: bool, moved: nat, breaks: bool, closes: bool, renames: bool) returns (reply: Reply)
      requires moved <= |put.body| && (!breaks ==> moved == |put.body|)
      modifies this
      ensures isWriting == old(isWriting)
      ensures old(isWriting) ==> reply == Busy && files == old(files)
      ensures !old(isWriting) ==>
                && World(files, None) == CreateAlone(old(files), put, opens, moved, breaks, closes, renames)
                && Answers(old(files), put, opens, moved, breaks, closes, renames, files, reply)
    {
      if isWriting {
        return Busy;
      }
      isWriting := true;
      reply := CreateHolding(put, opens, moved, breaks, closes, renames);
      isWriting := false;
      AnswersAreMachine(old(files), put, opens, moved, breaks, closes, renames, files, reply);
    }

    method CreateHolding(put: FilePut, opens: bool, moved: nat, breaks: bool, closes: bool, renames: bool)
      returns (reply: Reply)
      requires moved <= |put.body| && (!breaks ==> moved == |put.body|)
      modifies this`files
      ensures Answers(old(files), put, opens, moved, breaks, closes, renames, files, reply)
    {
      var temp := Temp(put.path);
      var present, currentSize := put.path in files, 0;
      if present {
        currentSize := |files[put.path]|;
      }
      if present && put.total.Some? && currentSize == put.total.value {
        return AlreadyThere;
      }
      if temp in files {
        currentSize := |files[temp]|;
        if put.offset != currentSize {
          return WrongOffset(currentSize);
        }
        if !opens {
          return Failed;
        }
      } else {
        if put.offset != 0 {
          return WrongOffset(0);
        }
        if !opens {
          return Failed;
        }
        files := files[temp := []];
      }
      Copy(temp, put.offset, put.body[..moved]);
      assert files == Grown(old(files), put, moved);
      if breaks || !closes {
        return Failed;
      }
      var newSize := currentSize + moved;
      if put.total.Some? && newSize == put.total.value {
        reply := Created;
        if renames {
          files := files[put.path := files[temp]] - {temp};
        }
      } else {
        reply := Accepted(newSize);
      }
    }

    /** HeadFile: the offset to go on from while there is a temp file, else the size of the target, else nothing. */
    method HeadFile(p: Path) returns (next: Option<nat>, length: Option<nat>)
      ensures next == if Temp(p) in files then Some(Size(files, Temp(p))) else None
      ensures length == if Temp(p) !in files && p in files then Some(Size(files, p)) else None
    {
      if Temp(p) in files {
        return Some(|files[Temp(p)]|), None;
      }
      if p in files {
        return None, Some(|files[p]|);
      }
      return None, None;
    }
  }
}
