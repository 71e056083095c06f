/** The pool of download tokens, and the loops that rotate through it. */
module Tokens {
  import opened Wrappers
  import opened Lists
  import opened RdErrors

  type Token = string

  /** Primary first, then the extras, each once. */
  method AllDownloadTokens(primary: Token, extras: seq<Token>) returns (tokens: seq<Token>)
    ensures tokens == PushedAll([primary], extras)
    ensures NoRepeats(tokens) && tokens[0] == primary
    ensures forall t :: t in tokens <==> t == primary || t in extras
  {
    tokens := [primary];
    for i := 0 to |extras|
      invariant tokens == PushedAll([primary], extras[..i])
    {
      assert extras[..i + 1][..i] == extras[..i];
      if extras[i] !in tokens { tokens := tokens + [extras[i]]; }
    }
    assert extras[..|extras|] == extras;
    PushedAllIsUnion([primary], extras);
    assert [primary][0] == tokens[0];
  }

  // ----- The pool -----

  datatype Pool = Pool(tokens: seq<Token>, exhausted: seq<bool>, current: nat)
  {
    predicate Valid() { |tokens| == |exhausted| > 0 }
  }

  predicate AnyOpen(p: Pool)
    requires p.Valid()
  {
    exists i :: 0 <= i < |p.exhausted| && !p.exhausted[i]
  }

  /** The slot `step` places on from the current one, going round once. */
  function Slot(p: Pool, step: nat): (i: nat)
    requires p.Valid() && step < |p.tokens|
    ensures i < |p.tokens|
  {
    var i := p.current % |p.tokens| + step;
    if i < |p.tokens| then i else i - |p.tokens|
  }

  /** `i` is where a download takes its token: the first open slot at or after the current one,
      going round, or the current one when none is open. */
  ghost predicate IsBearerSlot(p: Pool, i: nat)
    requires p.Valid()
  {
    if AnyOpen(p) then
      exists step :: 0 <= step < |p.tokens| && i == Slot(p, step) && !p.exhausted[i]
                     && forall s | 0 <= s < step :: p.exhausted[Slot(p, s)]
    else i == Slot(p, 0)
  }

  /** The first slot that holds the token is marked; an unknown token marks nothing. */
  function MarkedFrom(p: Pool, token: Token, i: nat): Pool
    requires p.Valid() && i <= |p.tokens|
    decreases |p.tokens| - i
  {
    if i == |p.tokens| then p
    else if p.tokens[i] == token then p.(exhausted := p.exhausted[i := true])
    else MarkedFrom(p, token, i + 1)
  }

  function Marked(p: Pool, token: Token): Pool
    requires p.Valid()
  {
    MarkedFrom(p, token, 0)
  }

  function EligibleFrom(p: Pool, i: nat): seq<Token>
    requires p.Valid() && i <= |p.tokens|
    decreases |p.tokens| - i
  {
    if i == |p.tokens| then [] else (if p.exhausted[i] then [] else [p.tokens[i]]) + EligibleFrom(p, i + 1)
  }

  /** Tokens not marked, in configured order. */
  function Eligible(p: Pool): seq<Token>
    requires p.Valid()
  {
    EligibleFrom(p, 0)
  }

  lemma {:induction false} EligibleMeaning(p: Pool, i: nat, t: Token)
    requires p.Valid() && i <= |p.tokens|
    ensures t in EligibleFrom(p, i) <==> exists j :: i <= j < |p.tokens| && p.tokens[j] == t && !p.exhausted[j]
    decreases |p.tokens| - i
  {
    if i < |p.tokens| { EligibleMeaning(p, i + 1, t); }
  }

  lemma {:induction false} MarkedMeaning(p: Pool, token: Token, i: nat)
    requires p.Valid() && i <= |p.tokens|
    ensures var q := MarkedFrom(p, token, i);
      && q == p.(exhausted := q.exhausted) && q.Valid()
      && forall j | 0 <= j < |p.tokens| ::
           q.exhausted[j] == (p.exhausted[j] || (i <= j && p.tokens[j] == token && token !in p.tokens[i..j]))
    decreases |p.tokens| - i
  {
    if i < |p.tokens| && p.tokens[i] != token {
      MarkedMeaning(p, token, i + 1);
      assert forall j | i + 1 <= j <= |p.tokens| :: p.tokens[i..j] == [p.tokens[i]] + p.tokens[i + 1..j];
    } else if i < |p.tokens| {
      assert forall j | i < j < |p.tokens| :: p.tokens[i..j][0] == token;
    }
  }

  lemma {:induction false} SameTail(p: Pool, q: Pool, i: nat)
    requires p.Valid() && q.Valid() && q.tokens == p.tokens && i <= |p.tokens|
    requires forall j | i <= j < |p.tokens| :: q.exhausted[j] == p.exhausted[j]
    ensures EligibleFrom(q, i) == EligibleFrom(p, i)
    decreases |p.tokens| - i
  {
    if i < |p.tokens| { SameTail(p, q, i + 1); }
  }

  lemma {:induction false} MarkFirstFrom(p: Pool, q: Pool, i: nat)
    requires p.Valid() && q.Valid() && NoRepeats(p.tokens) && i <= |p.tokens| && EligibleFrom(p, i) != []
    requires q.tokens == p.tokens
    requires forall j | i <= j < |p.tokens| ::
      q.exhausted[j] == (p.exhausted[j] || p.tokens[j] == EligibleFrom(p, i)[0])
    ensures EligibleFrom(q, i) == EligibleFrom(p, i)[1..]
    decreases |p.tokens| - i
  {
    if p.exhausted[i] {
      MarkFirstFrom(p, q, i + 1);
    } else {
      SameTail(p, q, i + 1);
    }
  }

  /** Without repeats, marking the first eligible token takes exactly it off the eligible list. */
  lemma MarkFirst(p: Pool)
    requires p.Valid() && NoRepeats(p.tokens) && Eligible(p) != []
    ensures Marked(p, Eligible(p)[0]).Valid() && Eligible(Marked(p, Eligible(p)[0])) == Eligible(p)[1..]
  {
    MarkedMeaning(p, Eligible(p)[0], 0);
    MarkFirstFrom(p, Marked(p, Eligible(p)[0]), 0);
  }

  predicate Retires(p: Pool, token: Token)
    requires p.Valid()
  {
    MarkedMeaning(p, token, 0);
    token !in Eligible(Marked(p, token))
  }

  /** Marking retires a token in every state of the pool if and only if no token stands in it twice:
      the second slot of a repeated token can never be marked. */
  lemma MarkingRetires(tokens: seq<Token>)
    requires tokens != []
    ensures NoRepeats(tokens) <==>
      forall p: Pool, t: Token | p.Valid() && p.tokens == tokens :: Retires(p, t)
  {
    if NoRepeats(tokens) {
      forall p: Pool, t: Token | p.Valid() && p.tokens == tokens ensures Retires(p, t) {
        MarkedMeaning(p, t, 0);
        EligibleMeaning(Marked(p, t), 0, t);
      }
    } else {
      var i, j :| 0 <= i < j < |tokens| && tokens[i] == tokens[j];
      var p := Pool(tokens, seq(|tokens|, _ => false), 0);
      MarkedMeaning(p, tokens[i], 0);
      assert tokens[i] in tokens[0..j];
      assert !Marked(p, tokens[i]).exhausted[j];
      EligibleMeaning(Marked(p, tokens[i]), 0, tokens[i]);
      assert !Retires(p, tokens[i]);
    }
  }

  class TokenPool {
    var tokens: seq<Token>
    var exhausted: seq<bool>
    var current: nat

    ghost function View(): Pool
      reads this
    {
      Pool(tokens, exhausted, current)
    }

    constructor (tokens: seq<Token>)
      requires tokens != []
      ensures View() == Pool(tokens, seq(|tokens|, _ => false), 0)
    {
      this.tokens, exhausted, current := tokens, seq(|tokens|, _ => false), 0;
    }

    /** The token for the next download; the position moves to the slot it came from. */
    method DownloadBearer() returns (token: Token, ghost slot: nat)
      requires View().Valid()
      modifies this`current
      ensures slot < |tokens| && token == tokens[slot] && IsBearerSlot(old(View()), slot)
      ensures current % |tokens| == slot
    {
      ghost var p := View();
      var n, start := |tokens|, current % |tokens|;
      for step := 0 to n
        invariant current == old(current)
        invariant forall s | 0 <= s < step :: exhausted[Slot(p, s)]
      {
        var idx := (start + step) % n;
        SlotAt(p, step, idx);
        hide Slot;
        if !exhausted[idx] {
          assert AnyOpen(p);
          if idx != start { current := idx; }
          return tokens[idx], idx;
        }
      }
      EverySlot(p);
      SlotAt(p, 0, start);
      return tokens[start], start;
    }

    method EligibleTokensInOrder() returns (r: seq<Token>)
      requires View().Valid()
      ensures r == Eligible(View())
    {
      r := [];
      ghost var p := View();
      for i := 0 to |tokens|
        invariant r + EligibleFrom(p, i) == Eligible(p)
      {
        if !exhausted[i] { r := r + [tokens[i]]; }
      }
    }

    method MarkExhausted(token: Token)
      requires View().Valid()
      modifies this`exhausted
      ensures View() == Marked(old(View()), token) && View().Valid()
    {
      MarkedMeaning(View(), token, 0);
      for i := 0 to |tokens|
        invariant exhausted == old(exhausted)
        invariant Marked(View(), token) == MarkedFrom(View(), token, i)
      {
        if tokens[i] == token {
          exhausted := exhausted[i := true];
          return;
        }
      }
    }

    method AnyNonExhausted() returns (r: bool)
      requires View().Valid()
      ensures r == AnyOpen(View())
    {
      for i := 0 to |tokens|
        invariant forall j | 0 <= j < i :: exhausted[j]
      {
        if !exhausted[i] { return true; }
      }
      return false;
    }

    method UpdateTokens(newTokens: seq<Token>)
      requires newTokens != []
      modifies this
      ensures View() == Pool(newTokens, seq(|newTokens|, _ => false), 0)
    {
      tokens, exhausted, current := newTokens, seq(|newTokens|, _ => false), 0;
    }
  }

  lemma ModOnce(x: nat, n: nat)
    requires x < 2 * n
    ensures x % n == if x < n then x else x - n
  {
    var q := x / n;
    assert q * n + x % n == x;
    assert q >= 2 ==> q * n >= 2 * n;
    assert q <= 0 ==> q * n <= 0;
  }

  lemma SlotAt(p: Pool, step: nat, idx: nat)
    requires p.Valid() && step < |p.tokens|
    requires (step == 0 && idx == p.current % |p.tokens|) || idx == (p.current % |p.tokens| + step) % |p.tokens|
    ensures idx == Slot(p, step) && idx % |p.tokens| == idx
  {
    ModOnce(p.current % |p.tokens| + step, |p.tokens|);
    ModOnce(Slot(p, step), |p.tokens|);
  }

  /** Going round once visits every slot. */
  lemma EverySlot(p: Pool)
    requires p.Valid()
    requires forall s | 0 <= s < |p.tokens| :: p.exhausted[Slot(p, s)]
    ensures !AnyOpen(p)
  {
    var n, c := |p.tokens|, p.current % |p.tokens|;
    forall i | 0 <= i < n ensures p.exhausted[i] {
      var s := if i >= c then i - c else i - c + n;
      assert Slot(p, s) == i;
    }
  }

  // ----- Unrestricting a link -----

  type Download = string

  const ALL_EXHAUSTED := Api(TrafficExhausted("all RD tokens are bandwidth-exhausted for unrestrict"))

  /** The answer when tokens are tried in order, each once: the first that is cached, or whose call
      does not end in a bandwidth limit, decides. `sent` counts calls. */
  function Unrestricted(
    eligible: seq<Token>, cached: Token -> Option<Download>, send: nat -> Result<Download, RdError>,
    sent: nat, last: Option<RdError>): Result<Download, RdError>
  {
    if eligible == [] then Err(if last.Some? then last.value else ALL_EXHAUSTED)
    else if cached(eligible[0]).Some? then Ok(cached(eligible[0]).value)
    else if send(sent).Err? && send(sent).error.IsBandwidthLimited() then
      Unrestricted(eligible[1..], cached, send, sent + 1, Some(send(sent).error))
    else send(sent)
  }

  /** Tries each eligible token at most once, in order, and stops. */
  method UnrestrictLink(pool: TokenPool, cached: Token -> Option<Download>, send: nat -> Result<Download, RdError>)
    returns (r: Result<Download, RdError>, tried: seq<Token>)
    requires pool.View().Valid() && NoRepeats(pool.tokens)
    modifies pool`exhausted
    ensures tried <= old(Eligible(pool.View()))
    ensures r == Unrestricted(old(Eligible(pool.View())), cached, send, 0, None)
    ensures pool.View().Valid()
    ensures r.Err? && r.error.IsBandwidthLimited() ==>
      Eligible(pool.View()) == [] && tried == old(Eligible(pool.View()))
  {
    hide Eligible, Marked, NoRepeats;
    var lastBandwidth: Option<RdError> := None;
    tried := [];
    ghost var all := Eligible(pool.View());
    ghost var left := all;
    while true
      invariant pool.View().Valid() && pool.tokens == old(pool.tokens)
      invariant left == Eligible(pool.View()) && |tried| <= |all| && tried == all[..|tried|] && left == all[|tried|..]
      invariant Unrestricted(all, cached, send, 0, None) == Unrestricted(left, cached, send, |tried|, lastBandwidth)
      decreases |left|
    {
      var eligible := pool.EligibleTokensInOrder();
      if eligible == [] {
        return Err(if lastBandwidth.Some? then lastBandwidth.value else ALL_EXHAUSTED), tried;
      }
      var token := eligible[0];
      if cached(token).Some? {
        return Ok(cached(token).value), tried;
      }
      var resp := send(|tried|);
      if resp.Ok? || !resp.error.IsBandwidthLimited() {
        return resp, tried + [token];
      }
      MarkFirst(pool.View());
      pool.MarkExhausted(token);
      tried, left, lastBandwidth := tried + [token], left[1..], Some(resp.error);
    }
  }

  // ----- Spent tokens -----

  /** Every slot that holds the token is marked. */
  predicate Spent(p: Pool, token: Token)
    requires p.Valid()
  {
    forall i | 0 <= i < |p.tokens| :: p.tokens[i] == token ==> p.exhausted[i]
  }

  lemma SpentByMark(p: Pool, token: Token)
    requires p.Valid() && NoRepeats(p.tokens)
    ensures var q := Marked(p, token);
      q.Valid() && q.tokens == p.tokens && Spent(q, token) && forall t | Spent(p, t) :: Spent(q, t)
  {
    MarkedMeaning(p, token, 0);
  }

  lemma BearerIsNotSpent(p: Pool, i: nat, token: Token)
    requires p.Valid() && AnyOpen(p) && IsBearerSlot(p, i) && Spent(p, token)
    ensures i < |p.tokens| && p.tokens[i] != token
  {}
}
