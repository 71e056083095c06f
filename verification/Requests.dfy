/** The retry loop of the HTTP client: one fallback, retries with backoff, and token rotation. */
module Requests {
  import opened Wrappers
  import opened Lists
  import opened RdErrors
  import opened Tokens

  /** The body of an error response, as far as the loop looks. */
  datatype Body = NotJson | Unreadable | Unparsed | ErrorBody(code: int, message: string)

  datatype Reply =
    | NetworkFailure                  // timeout, refused connection, broken stream
    | CancelledRequest
    | SendFailure
    | Success
    | HttpError(status: nat, header: string, body: Body)

  datatype Client = Client(isDownload: bool, fixedBearer: bool, pooled: bool, maxRetries: nat)

  datatype Loop = Loop(attempt: nat, rotations: nat, fallback: bool)

  const FRESH := Loop(0, 0, false)

  datatype Turn = Again(loop: Loop) | Rotate(loop: Loop) | Return(r: Result<(), RdError>)

  /** A limit on this token: the download client, choosing its own bearer, takes the next one. */
  predicate LimitsToken(c: Client, reply: Reply) {
    reply.HttpError? && c.isDownload && !c.fixedBearer && FromHeader(reply.header, reply.status).BytesLimitReached?
  }

  /** A JSON error the loop retries without looking at the attempt count. */
  predicate Transient(c: Client, reply: Reply) {
    && reply.HttpError? && !(c.isDownload && !c.fixedBearer) && reply.body.ErrorBody?
    && var e := FromCode(reply.body.code, reply.body.message); e.ShouldRetry() && !e.IsBandwidthLimited()
  }

  /** One pass of the loop. `tokens` is the size of the pool; `open` says whether a token is left
      once this one is marked. */
  function Handle(c: Client, l: Loop, reply: Reply, tokens: nat, open: bool): Turn {
    match reply
    case NetworkFailure =>
      if !l.fallback && l.attempt == 0 && c.isDownload then Again(l.(fallback := true))
      else if l.attempt >= c.maxRetries then Return(Err(MaxRetriesExceeded))
      else Again(l.(attempt := l.attempt + 1))
    case CancelledRequest => Return(Err(Cancelled))
    case SendFailure => Return(Err(Network))
    case Success => Return(Ok(()))
    case HttpError(status, header, body) =>
      if c.isDownload && !c.fixedBearer then
        var e := Download(FromHeader(header, status));
        if e.IsBandwidthLimited() && c.pooled && l.rotations + 1 < tokens && open then
          Rotate(Loop(0, l.rotations + 1, l.fallback))
        else Return(Err(e))
      else if body.Unreadable? then Return(Err(Network))
      else if body.ErrorBody? then
        var e := FromCode(body.code, body.message);
        if e.IsBandwidthLimited() || !e.ShouldRetry() then Return(Err(Api(e)))
        else Again(l.(attempt := l.attempt + 1))
      else if 500 <= status <= 599 || status == 429 then
        if l.attempt >= c.maxRetries then Return(Err(MaxRetriesExceeded)) else Again(l.(attempt := l.attempt + 1))
      else Return(Err(Api(OtherApi(status, "HTTP"))))
  }

  // ----- The download client -----

  /** Requests spent so far: each rotation paid for a full round of retries, and the fallback for one. */
  predicate WithinBudget(l: Loop, requests: nat, maxRetries: nat) {
    l.attempt <= maxRetries
    && requests <= l.rotations * (maxRetries + 1) + l.attempt + (if l.fallback then 1 else 0)
  }

  lemma BudgetStep(c: Client, l: Loop, reply: Reply, tokens: nat, open: bool, requests: nat)
    requires c.isDownload && !c.fixedBearer && c.pooled
    requires WithinBudget(l, requests, c.maxRetries) && l.rotations < tokens
    ensures requests + 1 <= tokens * (c.maxRetries + 1) + 1
    ensures var t := Handle(c, l, reply, tokens, open);
      !t.Return? ==>
        && WithinBudget(t.loop, requests + 1, c.maxRetries) && t.loop.rotations < tokens
        && (t.Rotate? ==> LimitsToken(c, reply) && open && t.loop.rotations == l.rotations + 1)
        && (t.Again? ==> !LimitsToken(c, reply) && t.loop.rotations == l.rotations)
        && (t.Again? ==> (t.loop.fallback && !l.fallback)
                         || (t.loop.fallback == l.fallback && t.loop.attempt > l.attempt))
        && (t.Rotate? ==> t.loop.fallback == l.fallback)
  {
    var round := c.maxRetries + 1;
    assert (l.rotations + 1) * round == l.rotations * round + round;
    RoundsFit(l.rotations + 1, tokens, round);
    hide FromHeader;
  }

  lemma {:induction false} RoundsFit(a: nat, b: nat, round: nat)
    requires a <= b
    ensures a * round <= b * round
  {}

  /** The error the last reply of a download ends in. */
  function FinalError(reply: Reply): RdError {
    match reply
    case NetworkFailure => MaxRetriesExceeded
    case CancelledRequest => Cancelled
    case SendFailure => Network
    case Success => Network
    case HttpError(status, header, _) => Download(FromHeader(header, status))
  }

  /** Only a network failure or a byte limit makes a download ask again. */
  predicate GoesOn(reply: Reply) {
    reply.NetworkFailure? || (reply.HttpError? && reply.header == "bytes_limit_reached")
  }

  /** What a turn of the download loop means. */
  lemma TurnMeaning(c: Client, l: Loop, reply: Reply, tokens: nat, open: bool)
    requires c.isDownload && !c.fixedBearer && c.pooled
    ensures var t := Handle(c, l, reply, tokens, open);
      && (t.Again? ==> reply.NetworkFailure? && t.loop.attempt <= l.attempt + 1)
      && (t.Rotate? ==> reply.HttpError? && reply.header == "bytes_limit_reached" && t.loop.attempt == 0)
      && (t.Return? && reply.NetworkFailure? ==> l.attempt >= c.maxRetries)
      && (t.Return? ==>
            && (t.r.Ok? <==> reply.Success?) && (t.r.Err? ==> t.r.error == FinalError(reply))
            && (t.r.Err? && t.r.error.IsBandwidthLimited() ==>
                  LimitsToken(c, reply) && (l.rotations + 1 >= tokens || !open)))
  {
    hide FromHeader;
  }

  /** Sends at most `n * (maxRetries + 1) + 1` requests for a pool of `n` tokens, although every
      rotation starts the retries anew. Tokens that hit their limit are all different. It goes on only after
      network failures and byte limits, and gives up on a network failure only after `maxRetries + 1` of them
      in a row. */
  method ExecuteDownload(pool: TokenPool, maxRetries: nat, send: nat -> Reply)
    returns (r: Result<(), RdError>, requests: nat, limited: seq<Token>)
    requires pool.View().Valid() && NoRepeats(pool.tokens)
    modifies pool
    ensures 1 <= requests <= |pool.tokens| * (maxRetries + 1) + 1
    ensures pool.View().Valid() && pool.tokens == old(pool.tokens)
    ensures NoRepeats(limited) && |limited| <= |pool.tokens|
    ensures forall t | t in limited :: Spent(pool.View(), t)
    ensures r.Ok? <==> send(requests - 1).Success?
    ensures r.Err? ==> r.error == FinalError(send(requests - 1))
    ensures forall i | 0 <= i < requests - 1 :: GoesOn(send(i))
    ensures send(requests - 1).NetworkFailure? ==>
      requests > maxRetries && forall i | requests - maxRetries - 1 <= i < requests :: send(i).NetworkFailure?
    ensures r.Err? && r.error.IsBandwidthLimited() ==>
      limited != [] && (|limited| == |pool.tokens| || !AnyOpen(pool.View()))
  {
    var c := Client(true, false, true, maxRetries);
    var l := FRESH;
    var n := |pool.tokens|;
    requests, limited := 0, [];
    while true
      invariant pool.View().Valid() && pool.tokens == old(pool.tokens)
      invariant WithinBudget(l, requests, maxRetries) && l.rotations < n && |limited| == l.rotations
      invariant NoRepeats(limited) && forall t | t in limited :: Spent(pool.View(), t)
      invariant limited != [] ==> AnyOpen(pool.View())
      invariant forall i | 0 <= i < requests :: GoesOn(send(i))
      invariant l.attempt <= requests && forall i | requests - l.attempt <= i < requests :: send(i).NetworkFailure?
      decreases !l.fallback, n - l.rotations, maxRetries - l.attempt
    {
      var reply := send(requests);
      var turn, nowLimited := TakeTurn(pool, c, l, reply, limited);
      BudgetStep(c, l, reply, n, LimitsToken(c, reply) ==> AnyOpen(pool.View()), requests);
      TurnMeaning(c, l, reply, n, LimitsToken(c, reply) ==> AnyOpen(pool.View()));
      hide WithinBudget, Handle, LimitsToken, FinalError, Spent;
      requests := requests + 1;
      limited := nowLimited;
      if turn.Return? { return turn.r, requests, limited; }
      l := turn.loop;
    }
  }

  /** One request under the bearer of the moment; a limit marks its token before the loop looks for another. */
  method TakeTurn(pool: TokenPool, c: Client, l: Loop, reply: Reply, limited: seq<Token>)
    returns (turn: Turn, nowLimited: seq<Token>)
    requires pool.View().Valid() && NoRepeats(pool.tokens) && NoRepeats(limited)
    requires forall t | t in limited :: Spent(pool.View(), t)
    requires limited != [] ==> AnyOpen(pool.View())
    modifies pool
    ensures pool.View().Valid() && pool.tokens == old(pool.tokens)
    ensures NoRepeats(nowLimited) && forall t | t in nowLimited :: Spent(pool.View(), t)
    ensures |nowLimited| == |limited| + (if LimitsToken(c, reply) then 1 else 0)
    ensures !LimitsToken(c, reply) && nowLimited != [] ==> AnyOpen(pool.View())
    ensures turn == Handle(c, l, reply, |pool.tokens|, LimitsToken(c, reply) ==> AnyOpen(pool.View()))
  {
    hide Handle;
    ghost var before := pool.View();
    var token, slot := pool.DownloadBearer();
    var open := true;
    nowLimited := limited;
    if LimitsToken(c, reply) {
      Fresh(before, slot, limited);
      SpentByMark(pool.View(), token);
      pool.MarkExhausted(token);
      nowLimited := limited + [token];
      open := pool.AnyNonExhausted();
    }
    turn := Handle(c, l, reply, |pool.tokens|, open);
  }

  /** The bearer in use is none of those that hit their limit before. */
  lemma Fresh(p: Pool, slot: nat, limited: seq<Token>)
    requires p.Valid() && IsBearerSlot(p, slot)
    requires forall t | t in limited :: Spent(p, t)
    requires limited != [] ==> AnyOpen(p)
    ensures slot < |p.tokens| && p.tokens[slot] !in limited
  {
    if limited != [] {
      forall t | t in limited ensures p.tokens[slot] != t { BearerIsNotSpent(p, slot, t); }
    }
  }

  // ----- Clients that do not rotate -----

  predicate Rotates(c: Client) { c.isDownload && !c.fixedBearer }

  /** A failure that is retried as long as the attempts last. */
  predicate Retried(c: Client, reply: Reply) {
    reply.NetworkFailure?
    || (reply.HttpError? && !Rotates(c) && !reply.body.Unreadable? && !reply.body.ErrorBody?
        && (500 <= reply.status <= 599 || reply.status == 429))
  }

  /** The one retry that is not counted: a download client leaves its pinned host. */
  function Fallbacks(c: Client, replies: seq<Reply>): nat {
    if c.isDownload && replies != [] && replies[0].NetworkFailure? then 1 else 0
  }

  /** The loop after each of `replies`, while it goes on; `None` once it has returned. */
  function After(c: Client, replies: seq<Reply>): Option<Loop> {
    if replies == [] then Some(FRESH)
    else
      var before := After(c, replies[..|replies| - 1]);
      if before.None? then None
      else
        var t := Handle(c, before.value, replies[|replies| - 1], 1, false);
        if t.Return? then None else Some(t.loop)
  }

  /** One reply to a client that does not rotate: whether it asks again, and what it returns if not. */
  lemma OneReply(c: Client, l: Loop, reply: Reply)
    requires !Rotates(c) && l.rotations == 0
    ensures var t, fallback := Handle(c, l, reply, 1, false), !l.fallback && l.attempt == 0 && c.isDownload;
      && (!t.Return? <==> Transient(c, reply) || (Retried(c, reply) && l.attempt < c.maxRetries)
                          || (fallback && reply.NetworkFailure?))
      && (!t.Return? ==>
            t.loop == if fallback && reply.NetworkFailure? then l.(fallback := true) else l.(attempt := l.attempt + 1))
      && (t.Return? ==>
            && (t.r.Ok? <==> reply.Success?)
            && (t.r == Err(Cancelled) <==> reply.CancelledRequest?)
            && (t.r == Err(MaxRetriesExceeded) <==> Retried(c, reply))
            && (t.r.Err? && t.r.error.IsBandwidthLimited() <==>
                  reply.HttpError? && reply.body.ErrorBody? && reply.body.code in {23, 36})
            && (t.r.Err? && t.r.error.Api? ==>
                  && reply.HttpError?
                  && t.r.error.api == (if reply.body.ErrorBody? then FromCode(reply.body.code, reply.body.message)
                                       else OtherApi(reply.status, "HTTP"))))
  {
    hide FromHeader;
  }

  /** Exactly when a client asks again: every reply was a transient JSON error, however late, or a
      failure that came while attempts were left. */
  lemma {:induction false} AsksAgain(c: Client, replies: seq<Reply>)
    requires !Rotates(c)
    ensures var free := Fallbacks(c, replies);
      && (After(c, replies).Some? <==>
            forall i | free <= i < |replies| ::
              Transient(c, replies[i]) || (Retried(c, replies[i]) && i - free < c.maxRetries))
      && (After(c, replies).Some? ==> After(c, replies).value == Loop(|replies| - free, 0, free == 1))
  {
    if replies != [] {
      var init, last := replies[..|replies| - 1], replies[|replies| - 1];
      AsksAgain(c, init);
      assert init != [] ==> Fallbacks(c, init) == Fallbacks(c, replies);
      if After(c, init).Some? { OneReply(c, After(c, init).value, last); }
      TransientsAreNoFailures(c, last);
      hide Handle, Transient, Retried;
    }
  }

  lemma TransientsAreNoFailures(c: Client, reply: Reply)
    ensures reply.NetworkFailure? ==> !Transient(c, reply) && Retried(c, reply)
  {}

  /** A client exceeds its `maxRetries + 1` requests, and the fallback's one, if and only if attempts
      last so long and every later reply is a transient JSON error. */
  lemma ExceedsItsRetries(c: Client, replies: seq<Reply>)
    requires !Rotates(c) && |replies| > c.maxRetries + Fallbacks(c, replies)
    ensures var counted := c.maxRetries + Fallbacks(c, replies);
      After(c, replies).Some? <==>
        && (forall i | Fallbacks(c, replies) <= i < counted :: Transient(c, replies[i]) || Retried(c, replies[i]))
        && (forall i | counted <= i < |replies| :: Transient(c, replies[i]))
  {
    AsksAgain(c, replies);
    hide Transient, Retried, After;
  }

  function IsTransient(c: Client): Reply -> bool { (reply: Reply) => Transient(c, reply) }

  function Transients(c: Client, replies: seq<Reply>): nat { |Filtered(replies, IsTransient(c))| }

  /** A client without rotation or fallback is still going after `k` replies only if all but
      `maxRetries` of them were transient JSON errors: those alone are not counted against the limit. */
  lemma {:induction false} OnlyTransientsAreFree(c: Client, replies: seq<Reply>)
    requires !c.isDownload && After(c, replies).Some?
    ensures var l := After(c, replies).value;
      l.attempt == |replies| && !l.fallback && l.rotations == 0 && |replies| <= c.maxRetries + Transients(c, replies)
  {
    if replies != [] {
      OnlyTransientsAreFree(c, replies[..|replies| - 1]);
    }
  }

  /** Transient JSON errors keep a client going for ever: however many have come, it asks again. */
  lemma TransientsNeverEnd(c: Client, replies: seq<Reply>)
    requires forall r | r in replies :: Transient(c, r)
    ensures After(c, replies).Some?
  {
    if replies != [] {
      assert Transient(c, replies[0]);
      AsksAgain(c, replies);
      hide After, Transient;
    }
  }

  /** A client that may not retry at all, and a service with an internal error: `n` requests are not enough. */
  lemma NoRetriesForEver(n: nat)
    ensures After(Client(false, false, false, 0), seq(n, _ => HttpError(503, "", ErrorBody(-1, "internal")))).Some?
  {
    TransientsNeverEnd(Client(false, false, false, 0), seq(n, _ => HttpError(503, "", ErrorBody(-1, "internal"))));
  }
}
