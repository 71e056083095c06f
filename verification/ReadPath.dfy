/** The read path end to end: download sessions feeding a cache item that readers wait on.

    A session's pool and the item's threads run interleaved. They meet in one place: the moment a
    fragment's range joins the item's ranges is the moment its worker moves past it. */
module ReadPath {
  import opened ByteRanges
  import W = WorkerPool
  import S = PoolSafety
  import C = CacheItem
  import opened RangeDb

  /** A download session on one item, responsible for [start, target): for the read [start, end) that
      asked for it, and the read-ahead beyond. */
  datatype Session = Session(item: nat, start: nat, end: nat, readAhead: nat, target: nat, pool: W.State)

  datatype State = State(cache: C.State, sessions: seq<Session>)

  datatype Event =
    | Cache(c: C.Event)                            // a reader, flusher, writer, crash or reopening
    | Spawn(item: nat, start: nat, end: nat, readAhead: nat, base: nat, streams: nat, slices: seq<Interval>)
    | Pool(i: nat, p: W.Event)                     // a worker step that records nothing
    | Deliver(i: nat, w: nat, k: nat)              // writer thread `k` records the fragment of worker `w`

  function TargetEnd(end: nat, readAhead: nat, fileSize: nat): nat { Min(end + readAhead, fileSize) }

  /** The file changes as a whole only when nothing is open on it. */
  predicate WholeFile(e: C.Event) { e.Resize? || e.Expire? }

  ghost predicate Enabled(s: State, remote: C.Remote, e: Event) {
    match e
    case Cache(c) =>
      && C.Enabled(s.cache, remote, c)
      && !(c.Act? && c.action.Record?)
      && (WholeFile(c) ==> s.sessions == [])
    case Spawn(i, start, end, readAhead, base, streams, slices) =>
      && i < |s.cache.items| && base > 0 && start < s.cache.fileSize
      && GapList(s.cache.items[i].ranges, start, TargetEnd(end, readAhead, s.cache.fileSize), slices)
    case Pool(i, p) => i < |s.sessions| && W.Enabled(s.sessions[i].pool, p) && !(p.Act? && p.action.Fragment?)
    case Deliver(i, w, k) =>
      && i < |s.sessions| && k < |s.cache.threads| && w < |s.sessions[i].pool.workers|
      && var th, worker := s.cache.threads[k], s.sessions[i].pool.workers[w];
        && th.Writing? && th.item == s.sessions[i].item && worker.Streaming? && worker.pos == th.off
        && C.CanAct(s.cache, k, C.Record)
        && W.CanAct(s.sessions[i].pool, w, W.Fragment(th.n))
  }

  function PutPool(s: State, i: nat, pool: W.State): State
    requires i < |s.sessions|
  {
    s.(sessions := s.sessions[i := s.sessions[i].(pool := pool)])
  }

  ghost function Next(s: State, remote: C.Remote, e: Event): State
    requires Enabled(s, remote, e)
  {
    match e
    case Cache(c) => State(C.Next(s.cache, remote, c), if c.Crash? then [] else s.sessions)
    case Spawn(i, start, end, readAhead, base, streams, slices) =>
      var pool := W.Start(W.Job(base, s.cache.fileSize, slices), streams);
      var target := TargetEnd(end, readAhead, s.cache.fileSize);
      s.(sessions := s.sessions + [Session(i, start, end, readAhead, target, pool)])
    case Pool(i, p) => PutPool(s, i, W.Next(s.sessions[i].pool, p))
    case Deliver(i, w, k) =>
      PutPool(s, i, W.Acted(s.sessions[i].pool, w, W.Fragment(s.cache.threads[k].n)))
      .(cache := C.Acted(s.cache, remote, k, C.Record))
  }

  ghost predicate Runs(s: State, remote: C.Remote, es: seq<Event>)
    decreases |es|
  {
    es == [] || (Enabled(s, remote, es[0]) && Runs(Next(s, remote, es[0]), remote, es[1..]))
  }

  ghost function Final(s: State, remote: C.Remote, es: seq<Event>): State
    requires Runs(s, remote, es)
    decreases |es|
  {
    if es == [] then s else Final(Next(s, remote, es[0]), remote, es[1..])
  }

  function Start(fileSize: nat): State { State(C.Start(fileSize), []) }

  /** The session ends exactly the read-ahead beyond the read, or with the file. */
  predicate Reaches(fileSize: nat, x: Session) {
    if x.end + x.readAhead <= fileSize then x.target - x.end == x.readAhead else x.target == fileSize
  }

  /** Every byte the session is responsible for was missing at its start or is already claimed, and
      the item claims every byte the session has recorded. */
  ghost predicate SessionOk(cache: C.State, x: Session) {
    && x.item < |cache.items|
    && S.Inv(x.pool) && x.pool.job.fileSize == cache.fileSize && Reaches(cache.fileSize, x)
    && (forall b | x.start <= b < x.target :: Has(x.pool.job.missing, b) || Has(cache.items[x.item].ranges, b))
    && (forall b | b in x.pool.log.recorded :: Has(cache.items[x.item].ranges, b))
  }

  ghost predicate Inv(s: State, remote: C.Remote) {
    C.Inv(s.cache, remote) && forall i | 0 <= i < |s.sessions| :: SessionOk(s.cache, s.sessions[i])
  }

  lemma SessionFrame(a: C.State, b: C.State, remote: C.Remote, x: Session)
    requires C.Improves(a, b, remote) && SessionOk(a, x)
    ensures SessionOk(b, x)
  {
    hide S.Inv;
  }

  lemma CacheStep(s: State, remote: C.Remote, c: C.Event)
    requires Inv(s, remote) && Enabled(s, remote, Cache(c))
    ensures Inv(Next(s, remote, Cache(c)), remote)
  {
    var t := Next(s, remote, Cache(c));
    C.StepInv(s.cache, remote, c);
    hide C.Inv, C.Next, C.Enabled, C.Improves, SessionOk;
    forall i | 0 <= i < |t.sessions| ensures SessionOk(t.cache, t.sessions[i]) {
      SessionFrame(s.cache, t.cache, remote, s.sessions[i]);
    }
  }

  lemma SpawnStep(s: State, remote: C.Remote, e: Event)
    requires Inv(s, remote) && e.Spawn? && Enabled(s, remote, e)
    ensures Inv(Next(s, remote, e), remote)
  {
    var t := Next(s, remote, e);
    var n := |s.sessions|;
    var job := W.Job(e.base, s.cache.fileSize, e.slices);
    forall j | 0 <= j < |e.slices| ensures e.slices[j].hi <= job.fileSize {
      assert Has(e.slices, e.slices[j].hi - 1);
    }
    S.StartInv(job, e.streams);
    hide S.Inv, C.Inv;
    assert SessionOk(t.cache, t.sessions[n]);
  }

  lemma PoolStep(s: State, remote: C.Remote, i: nat, p: W.Event)
    requires Inv(s, remote) && Enabled(s, remote, Pool(i, p))
    ensures Inv(Next(s, remote, Pool(i, p)), remote)
  {
    var x := s.sessions[i];
    assert SessionOk(s.cache, x);
    S.StepInv(x.pool, p);
    S.StepRecorded(x.pool, p);
    hide S.Inv, C.Inv, W.Next, W.Enabled;
    var t := Next(s, remote, Pool(i, p));
    forall j | 0 <= j < |t.sessions| ensures SessionOk(t.cache, t.sessions[j]) {
      assert SessionOk(s.cache, s.sessions[j]);
    }
  }

  lemma FragmentRecords(p: W.State, w: nat, n: nat)
    requires w < |p.workers| && W.CanAct(p, w, W.Fragment(n)) && S.Inv(p)
    ensures var q := W.Acted(p, w, W.Fragment(n));
      && q.job == p.job && S.Inv(q)
      && q.log.recorded == p.log.recorded + Span(p.workers[w].pos, p.workers[w].pos + n)
  {
    S.StepInv(p, W.Act(w, W.Fragment(n)));
    hide S.Inv;
  }

  lemma RecordInserts(cache: C.State, remote: C.Remote, k: nat)
    requires C.Inv(cache, remote) && k < |cache.threads| && C.CanAct(cache, k, C.Record)
    ensures var t, th := C.Acted(cache, remote, k, C.Record), cache.threads[k];
      && |t.items| == |cache.items|
      && forall b :: Has(t.items[th.item].ranges, b) <==>
                     Has(cache.items[th.item].ranges, b) || th.off <= b < th.off + th.n
  {
    var th := cache.threads[k];
    assert C.Truthful(cache, remote, cache.items[th.item].ranges);
    InsertedIsUnion(cache.items[th.item].ranges, th.off, th.off + th.n);
  }

  /** The fragment a worker moves past is exactly the range its writer adds to the item. */
  lemma DeliverStep(s: State, remote: C.Remote, i: nat, w: nat, k: nat)
    requires Inv(s, remote) && Enabled(s, remote, Deliver(i, w, k))
    ensures Inv(Next(s, remote, Deliver(i, w, k)), remote)
  {
    var t, x, th := Next(s, remote, Deliver(i, w, k)), s.sessions[i], s.cache.threads[k];
    assert SessionOk(s.cache, x);
    hide S.Inv, C.Inv, C.Improves, C.Acted, C.CanAct, W.Acted, W.CanAct;
    C.RecordInv(s.cache, remote, k);
    DeliveredSession(s.cache, remote, x, w, k);
    hide SessionOk;
    forall j | 0 <= j < |t.sessions| && j != i ensures SessionOk(t.cache, t.sessions[j]) {
      SessionFrame(s.cache, t.cache, remote, s.sessions[j]);
    }
  }

  lemma DeliveredSession(cache: C.State, remote: C.Remote, x: Session, w: nat, k: nat)
    requires C.Inv(cache, remote) && SessionOk(cache, x)
    requires k < |cache.threads| && w < |x.pool.workers|
    requires var th, worker := cache.threads[k], x.pool.workers[w];
      && th.Writing? && th.item == x.item && worker.Streaming? && worker.pos == th.off
      && C.CanAct(cache, k, C.Record) && W.CanAct(x.pool, w, W.Fragment(th.n))
    ensures var pool := W.Acted(x.pool, w, W.Fragment(cache.threads[k].n));
      SessionOk(C.Acted(cache, remote, k, C.Record), x.(pool := pool))
  {
    var th, after := cache.threads[k], C.Acted(cache, remote, k, C.Record);
    hide S.Inv, C.Inv, C.Improves, C.Acted, C.CanAct, W.Acted, W.CanAct;
    FragmentRecords(x.pool, w, th.n);
    RecordInserts(cache, remote, k);
    C.RecordInv(cache, remote, k);
    SessionFrame(cache, after, remote, x);
    assert x.item < |after.items|;
    hide SessionOk, Has, Span, WaitsInside;
    SessionAdvance(after, x, W.Acted(x.pool, w, W.Fragment(th.n)), th.off, th.off + th.n);
  }

  lemma SessionAdvance(cache: C.State, x: Session, pool: W.State, lo: nat, hi: nat)
    requires SessionOk(cache, x) && S.Inv(pool) && pool.job == x.pool.job
    requires pool.log.recorded == x.pool.log.recorded + Span(lo, hi) && x.item < |cache.items|
    requires forall b | lo <= b < hi :: Has(cache.items[x.item].ranges, b)
    ensures SessionOk(cache, x.(pool := pool))
  {
    hide S.Inv, Has;
  }

  lemma StepInv(s: State, remote: C.Remote, e: Event)
    requires Inv(s, remote) && Enabled(s, remote, e)
    ensures Inv(Next(s, remote, e), remote)
  {
    hide Inv, Enabled, Next;
    match e
    case Cache(c) => CacheStep(s, remote, c);
    case Spawn(_, _, _, _, _, _, _) => SpawnStep(s, remote, e);
    case Pool(i, p) => PoolStep(s, remote, i, p);
    case Deliver(i, w, k) => DeliverStep(s, remote, i, w, k);
  }

  lemma {:induction false} RunInv(s: State, remote: C.Remote, es: seq<Event>)
    requires Inv(s, remote) && Runs(s, remote, es)
    ensures Inv(Final(s, remote, es), remote)
    decreases |es|
  {
    hide Inv, Next, Enabled;
    if es != [] {
      StepInv(s, remote, es[0]);
      RunInv(Next(s, remote, es[0]), remote, es[1..]);
    }
  }

  /** A reader waiting for bytes that the session is responsible for. */
  predicate WaitsInside(cache: C.State, th: C.Thread, x: Session) {
    th.Waiting? && th.item == x.item && x.start <= th.off && C.ReadEnd(cache.fileSize, th.off, th.size) <= x.target
  }

  /** The session exited cleanly, and what its clean responses left out came from others. */
  ghost predicate CleanAndFull(x: Session) { S.CleanExit(x.pool) && x.pool.log.shortfall <= x.pool.log.extra }

  /** The item claims the session's whole range, and readers waiting inside it may go on. */
  ghost predicate Served(cache: C.State, x: Session) {
    && x.item < |cache.items|
    && Covers(cache.items[x.item].ranges, x.start, x.target)
    && forall k | 0 <= k < |cache.threads| :: WaitsInside(cache, cache.threads[k], x) ==> C.CanAct(cache, k, C.See)
  }

  ghost predicate RepliesAreExact(cache: C.State, remote: C.Remote) {
    forall k | 0 <= k < |cache.threads| && cache.threads[k].Replied? ::
      var th := cache.threads[k]; th.data == C.Slice(remote(cache.fileSize), th.off, th.size)
  }

  lemma CleanSessionServes(s: State, remote: C.Remote, i: nat)
    requires Inv(s, remote) && i < |s.sessions| && CleanAndFull(s.sessions[i])
    ensures Served(s.cache, s.sessions[i])
  {
    var x := s.sessions[i];
    assert SessionOk(s.cache, x);
    S.CleanExitIsComplete(x.pool);
    var ranges := s.cache.items[x.item].ranges;
    assert C.Truthful(s.cache, remote, ranges);
    hide S.Inv, S.CleanExit;
    forall b | x.start <= b < x.target ensures Has(ranges, b) {
      if Has(x.pool.job.missing, b) { assert b in x.pool.log.recorded; }
    }
    forall k | 0 <= k < |s.cache.threads| && WaitsInside(s.cache, s.cache.threads[k], x)
      ensures C.CanAct(s.cache, k, C.See)
    {
      var th := s.cache.threads[k];
      HasRangeIsCoverage(ranges, th.off, C.ReadEnd(s.cache.fileSize, th.off, th.size));
    }
  }

  /** A reader joins any session its offset lies in. It is released by a clean and complete one if and only
      if somebody recorded what the reader wants beyond the session's end. */
  lemma JoinedReaderGoesOn(s: State, remote: C.Remote, i: nat, k: nat)
    requires Inv(s, remote) && i < |s.sessions| && CleanAndFull(s.sessions[i]) && k < |s.cache.threads|
    requires var x, th := s.sessions[i], s.cache.threads[k];
      th.Waiting? && th.item == x.item && x.start <= th.off < x.target
    ensures var x, th := s.sessions[i], s.cache.threads[k];
      && x.item < |s.cache.items|
      && (C.CanAct(s.cache, k, C.See) <==>
            Covers(s.cache.items[x.item].ranges, x.target, C.ReadEnd(s.cache.fileSize, th.off, th.size)))
  {
    CleanSessionServes(s, remote, i);
    var x, th := s.sessions[i], s.cache.threads[k];
    var ranges := s.cache.items[x.item].ranges;
    assert C.Truthful(s.cache, remote, ranges);
    hide S.Inv, S.CleanExit, Inv;
    HasRangeIsCoverage(ranges, th.off, C.ReadEnd(s.cache.fileSize, th.off, th.size));
  }

  /** The reader that asked for the session. */
  predicate IsOwn(cache: C.State, th: C.Thread, x: Session) {
    th.Waiting? && th.item == x.item && th.off == x.start && C.ReadEnd(cache.fileSize, th.off, th.size) == x.end
  }

  /** A waiting reader that starts a session for its read lies inside that session. */
  lemma OwnSessionCovers(s: State, remote: C.Remote, k: nat, e: Event)
    requires Enabled(s, remote, e) && e.Spawn? && k < |s.cache.threads|
    requires var th := s.cache.threads[k];
      && th.Waiting? && th.item == e.item && th.off == e.start
      && e.end == C.ReadEnd(s.cache.fileSize, th.off, th.size)
    ensures var t := Next(s, remote, e);
      var x := t.sessions[|s.sessions|];
      && IsOwn(t.cache, t.cache.threads[k], x)
      && WaitsInside(t.cache, t.cache.threads[k], x)
      && Reaches(t.cache.fileSize, x)
  {}

  /** Its own reader lies inside a session, wherever the run has come to since. */
  lemma OwnReaderIsInside(s: State, remote: C.Remote, i: nat, k: nat)
    requires Inv(s, remote) && i < |s.sessions| && k < |s.cache.threads|
    requires IsOwn(s.cache, s.cache.threads[k], s.sessions[i])
    ensures WaitsInside(s.cache, s.cache.threads[k], s.sessions[i])
  {
    assert SessionOk(s.cache, s.sessions[i]);
    hide S.Inv, C.Inv;
  }

  lemma RepliesExact(s: State, remote: C.Remote)
    requires Inv(s, remote)
    ensures RepliesAreExact(s.cache, remote)
  {
    forall k | 0 <= k < |s.cache.threads| ensures C.ThreadOk(s.cache, remote, s.cache.threads[k]) {}
  }

  /** Nobody who asked for a session, or waits inside it, waits in vain. */
  ghost predicate ServesItsReaders(cache: C.State, x: Session) {
    && Reaches(cache.fileSize, x)
    && (CleanAndFull(x) ==> Served(cache, x))
    && forall k | 0 <= k < |cache.threads| && IsOwn(cache, cache.threads[k], x) ::
         CleanAndFull(x) ==> C.CanAct(cache, k, C.See)
  }

  /** End to end, after any interleaving of any number of sessions, readers, flushers and crashes:
      every session reaches exactly the read-ahead beyond the read that asked for it, or the end of the
      file; once it has exited cleanly and no byte that a response ended short of is still missing, the
      item claims all of its range, and the reader that asked for it, and any other that waits inside
      it, is released; and every reply ever given is exactly the remote bytes asked for. */
  lemma CleanSessionServesReaders(remote: C.Remote, fileSize: nat, es: seq<Event>)
    requires C.IsRemote(remote) && fileSize < I63 && Runs(Start(fileSize), remote, es)
    ensures var s := Final(Start(fileSize), remote, es);
      && RepliesAreExact(s.cache, remote)
      && forall i | 0 <= i < |s.sessions| :: ServesItsReaders(s.cache, s.sessions[i])
  {
    C.StartInv(remote, fileSize);
    RunInv(Start(fileSize), remote, es);
    var s := Final(Start(fileSize), remote, es);
    hide CleanAndFull, RepliesAreExact, Runs, Final, IsOwn;
    RepliesExact(s, remote);
    forall i | 0 <= i < |s.sessions| ensures ServesItsReaders(s.cache, s.sessions[i]) {
      SessionServes(s, remote, i);
    }
  }

  lemma SessionServes(s: State, remote: C.Remote, i: nat)
    requires Inv(s, remote) && i < |s.sessions|
    ensures ServesItsReaders(s.cache, s.sessions[i])
  {
    var x := s.sessions[i];
    assert SessionOk(s.cache, x);
    if CleanAndFull(x) { CleanSessionServes(s, remote, i); }
    hide Inv, SessionOk, CleanAndFull, Reaches, IsOwn, WaitsInside, C.CanAct;
    forall k | 0 <= k < |s.cache.threads| && IsOwn(s.cache, s.cache.threads[k], x)
      ensures WaitsInside(s.cache, s.cache.threads[k], x)
    {
      OwnReaderIsInside(s, remote, i, k);
    }
  }

  // ----- A reader left waiting -----

  const BYTE := Interval(0, 1)

  /** A reader wants both bytes of a file of two, and finds a session that fetches the first. */
  const JOIN := [
    Cache(C.Open), Cache(C.BeginRead(0, 0, 2)), Spawn(0, 0, 1, 0, 1, 1, [BYTE]),
    Cache(C.BeginWrite(0, 0, 1)), Cache(C.Act(1, C.PutByte))]

  const FETCH := [Pool(0, W.Act(0, W.Pop)), Pool(0, W.Act(0, W.Open)), Deliver(0, 0, 1)]

  const FINISH := [Pool(0, W.Act(0, W.Eof)), Pool(0, W.Act(0, W.Grow)), Pool(0, W.Act(0, W.Exit))]

  lemma Onward(s: State, remote: C.Remote, e: Event, es: seq<Event>)
    requires Enabled(s, remote, e) && Runs(Next(s, remote, e), remote, es)
    ensures Runs(s, remote, [e] + es) && Final(s, remote, [e] + es) == Final(Next(s, remote, e), remote, es)
  {
    hide Enabled, Next;
    assert ([e] + es)[1..] == es;
  }

  /** Three steps in a row. */
  lemma ThreeOn(s: State, remote: C.Remote, es: seq<Event>)
    requires |es| == 3 && Enabled(s, remote, es[0])
    requires var t := Next(s, remote, es[0]);
      Enabled(t, remote, es[1]) && Enabled(Next(t, remote, es[1]), remote, es[2])
    ensures Runs(s, remote, es)
    ensures Final(s, remote, es) == Next(Next(Next(s, remote, es[0]), remote, es[1]), remote, es[2])
  {
    hide Enabled, Next;
    var t := Next(s, remote, es[0]);
    var u := Next(t, remote, es[1]);
    Onward(u, remote, es[2], []);
    Onward(t, remote, es[1], [es[2]]);
    Onward(s, remote, es[0], [es[1]] + [es[2]]);
    assert es == [es[0]] + ([es[1]] + [es[2]]);
  }

  lemma {:induction false} RunsOn(s: State, remote: C.Remote, a: seq<Event>, b: seq<Event>)
    requires Runs(s, remote, a) && Runs(Final(s, remote, a), remote, b)
    ensures Runs(s, remote, a + b) && Final(s, remote, a + b) == Final(Final(s, remote, a), remote, b)
    decreases |a|
  {
    hide Enabled, Next;
    if a == [] {
      assert a + b == b;
    } else {
      assert (a + b)[1..] == a[1..] + b;
      RunsOn(Next(s, remote, a[0]), remote, a[1..], b);
    }
  }

  /** The session has claimed nothing yet, a writer holds its one byte, and the reader waits. */
  ghost predicate Joined(s: State) {
    && s.cache.fileSize == 2 && s.cache.items == [C.Item([], false)]
    && s.cache.threads == [C.Waiting(0, 0, 2), C.Writing(0, 0, 1, 1)]
    && s.sessions == [Session(0, 0, 1, 0, 1, W.Start(W.Job(1, 2, [BYTE]), 1))]
  }

  lemma OneGap()
    ensures GapList([], 0, 1, [BYTE])
  {
    assert [BYTE][0] == BYTE;
  }

  lemma Joins(remote: C.Remote)
    ensures Runs(Start(2), remote, JOIN) && Joined(Final(Start(2), remote, JOIN))
  {
    var s0 := Start(2);
    var s1 := Next(s0, remote, JOIN[0]);
    var s2 := Next(s1, remote, JOIN[1]);
    assert s2.cache.items == [C.Item([], false)] && s2.cache.threads == [C.Waiting(0, 0, 2)];
    OneGap();
    hide GapList;
    var s3 := Next(s2, remote, JOIN[2]);
    var s4 := Next(s3, remote, JOIN[3]);
    var s5 := Next(s4, remote, JOIN[4]);
    hide Enabled, Next;
    ThreeOn(s2, remote, JOIN[2..]);
    Onward(s1, remote, JOIN[1], JOIN[2..]);
    Onward(s0, remote, JOIN[0], [JOIN[1]] + JOIN[2..]);
    assert JOIN == [JOIN[0]] + ([JOIN[1]] + JOIN[2..]);
  }

  /** The byte is recorded, and the response about to end. */
  ghost predicate Fetched(s: State) {
    && s.cache.fileSize == 2 && s.cache.items == [C.Item([BYTE], false)]
    && |s.cache.threads| == 2 && s.cache.threads[0] == C.Waiting(0, 0, 2)
    && |s.sessions| == 1
    && var x := s.sessions[0];
      && x.item == 0 && x.start == 0 && x.target == 1
      && x.pool.workers == [W.Streaming(BYTE, 0, 1)] && x.pool.queue == []
      && x.pool.log.shortfall == {} && !x.pool.cancelled && !x.pool.aborted
  }

  /** The response is open. */
  ghost predicate Opened(s: State, job: W.Job) {
    && s.cache.fileSize == 2 && s.cache.items == [C.Item([], false)]
    && s.cache.threads == [C.Waiting(0, 0, 2), C.Writing(0, 0, 1, 1)]
    && |s.sessions| == 1
    && var x := s.sessions[0];
      && x.item == 0 && x.start == 0 && x.target == 1
      && x.pool == W.Start(job, 1).(workers := [W.Streaming(BYTE, 0, 0)], queue := [])
  }

  lemma Opens(s: State, remote: C.Remote)
    requires Joined(s)
    ensures Enabled(s, remote, FETCH[0]) && Enabled(Next(s, remote, FETCH[0]), remote, FETCH[1])
    ensures Opened(Next(Next(s, remote, FETCH[0]), remote, FETCH[1]), s.sessions[0].pool.job)
  {
    var s1 := Next(s, remote, FETCH[0]);
    assert s1.sessions[0].pool.workers == [W.Ready(BYTE, 0)] && s1.sessions[0].pool.queue == [];
    var s2 := Next(s1, remote, FETCH[1]);
    assert s2.sessions[0].pool.workers == [W.Streaming(BYTE, 0, 0)];
  }

  lemma Delivers(s: State, remote: C.Remote, job: W.Job)
    requires Opened(s, job)
    ensures Enabled(s, remote, FETCH[2]) && Fetched(Next(s, remote, FETCH[2]))
  {
    assert Inserted([], 0, 1) == [BYTE];
  }

  lemma Fetches(s: State, remote: C.Remote)
    requires Joined(s)
    ensures Runs(s, remote, FETCH) && Fetched(Final(s, remote, FETCH))
  {
    hide Enabled, Next, Opened;
    Opens(s, remote);
    Delivers(Next(Next(s, remote, FETCH[0]), remote, FETCH[1]), remote, s.sessions[0].pool.job);
    ThreeOn(s, remote, FETCH);
  }

  lemma Finishes(s: State, remote: C.Remote)
    requires Fetched(s)
    ensures Runs(s, remote, FINISH)
    ensures var t := Final(s, remote, FINISH);
      && t.cache == s.cache && |t.sessions| == 1 && CleanAndFull(t.sessions[0])
      && t.sessions[0].item == 0 && t.sessions[0].start == 0 && t.sessions[0].target == 1
  {
    var s1 := Next(s, remote, FINISH[0]);
    assert s1.sessions[0].pool.workers == [W.Growing];
    var s2 := Next(s1, remote, FINISH[1]);
    assert s2.sessions[0].pool.workers == [W.Idle];
    var s3 := Next(s2, remote, FINISH[2]);
    assert s3.sessions[0].pool.workers == [W.Ended];
    hide Enabled, Next;
    ThreeOn(s, remote, FINISH);
  }

  lemma JoinRun(remote: C.Remote) returns (s: State, t: State)
    ensures Runs(Start(2), remote, JOIN + FETCH + FINISH) && t == Final(Start(2), remote, JOIN + FETCH + FINISH)
    ensures Fetched(s) && Runs(s, remote, FINISH) && t == Final(s, remote, FINISH)
  {
    Joins(remote);
    Fetches(Final(Start(2), remote, JOIN), remote);
    hide Runs, Final, Fetched, Joined;
    RunsOn(Start(2), remote, JOIN, FETCH);
    s := Final(Start(2), remote, JOIN + FETCH);
    Finishes(s, remote);
    RunsOn(Start(2), remote, JOIN + FETCH, FINISH);
    t := Final(s, remote, FINISH);
  }

  lemma NotReleased(s: State)
    requires Fetched(s)
    ensures !C.CanAct(s.cache, 0, C.See)
  {
    HasRangeIsCoverage([BYTE], 0, 2);
    assert !Has([BYTE], 1);
  }

  /** The session ends cleanly and complete, and the reader that joined it is not released. */
  lemma JoinedReaderIsLeft(remote: C.Remote)
    ensures var es := JOIN + FETCH + FINISH;
      && Runs(Start(2), remote, es)
      && var s := Final(Start(2), remote, es);
        && |s.sessions| == 1 && CleanAndFull(s.sessions[0]) && |s.cache.threads| == 2
        && s.cache.threads[0] == C.Waiting(0, 0, 2) && s.sessions[0].start <= 0 < s.sessions[0].target
        && !C.CanAct(s.cache, 0, C.See)
  {
    var s, t := JoinRun(remote);
    hide Runs, Final, CleanAndFull, C.CanAct;
    Finishes(s, remote);
    NotReleased(s);
  }
}
