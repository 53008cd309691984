/**
 Sending one push message to many devices: each distinct token goes out in one
 of several batches, and one result object adds up what became of each.
 */
module PushBatching {
  import opened Common

  type Token = string

  const BATCH_SIZE := 500

  /** The rejections after which a token is given up; no other rejection is in the set. */
  const DEAD_TOKEN_CODES: set<string> := {
    "messaging/registration-token-not-registered",
    "messaging/invalid-registration-token",
    "messaging/invalid-argument"}

  /** What the gateway says of one token, and of a whole batch. */
  datatype Response = Delivered | Rejected(code: Option<string>)

  datatype Outcome = Failed | Returned(responses: seq<Response>)

  /** The gateway answers its n-th call; an answer it returns has one response per token. */
  type Gateway = (nat, seq<Token>) -> Outcome

  ghost predicate AnswersEach(g: Gateway) {
    forall n, batch :: g(n, batch).Returned? ==> |g(n, batch).responses| == |batch|
  }

  predicate IsDead(r: Response) {
    r.Rejected? && r.code.GetOr("unknown") in DEAD_TOKEN_CODES
  }

  // ── the tokens that are sent to ──

  /** The tokens that are not empty, each once, in the order they are first seen. */
  function Unique(tokens: seq<Token>): seq<Token> {
    if tokens == [] then []
    else
      var rest, last := Unique(tokens[..|tokens| - 1]), tokens[|tokens| - 1];
      if |last| > 0 && last !in rest then rest + [last] else rest
  }

  lemma {:induction false} UniqueHasEach(tokens: seq<Token>)
    ensures forall t :: t in Unique(tokens) <==> t in tokens && |t| > 0
    ensures forall i, j | 0 <= i < j < |Unique(tokens)| :: Unique(tokens)[i] != Unique(tokens)[j]
  {
    if tokens != [] {
      UniqueHasEach(tokens[..|tokens| - 1]);
      assert tokens == tokens[..|tokens| - 1] + [tokens[|tokens| - 1]];
    }
  }

  /** The place of the first sight of a token. */
  function FirstSeen(tokens: seq<Token>, t: Token): nat
    requires t in tokens
  {
    if t in tokens[..|tokens| - 1] then FirstSeen(tokens[..|tokens| - 1], t) else |tokens| - 1
  }

  lemma {:induction false} FirstSeenIsFirst(tokens: seq<Token>, t: Token)
    requires t in tokens
    ensures FirstSeen(tokens, t) < |tokens| && tokens[FirstSeen(tokens, t)] == t
    ensures forall i | 0 <= i < FirstSeen(tokens, t) :: tokens[i] != t
  {
    if t in tokens[..|tokens| - 1] { FirstSeenIsFirst(tokens[..|tokens| - 1], t); }
  }

  lemma {:induction false} UniqueInOrder(tokens: seq<Token>, i: nat, j: nat)
    requires i < j < |Unique(tokens)|
    ensures Unique(tokens)[i] in tokens && Unique(tokens)[j] in tokens
    ensures FirstSeen(tokens, Unique(tokens)[i]) < FirstSeen(tokens, Unique(tokens)[j])
  {
    var rest := tokens[..|tokens| - 1];
    UniqueHasEach(tokens);
    UniqueHasEach(rest);
    var u := Unique(tokens);
    assert u[i] in u && u[j] in u;
    if j < |Unique(rest)| {
      UniqueInOrder(rest, i, j);
    } else {
      assert u[i] == Unique(rest)[i] && u[i] in rest;
      FirstSeenIsFirst(rest, u[i]);
    }
  }

  // ── the batches ──

  function Min(a: int, b: int): int {
    if a <= b then a else b
  }

  function BatchAt(u: seq<Token>, i: nat): seq<Token>
    requires i <= |u|
  {
    u[i..Min(i + BATCH_SIZE, |u|)]
  }

  /** The batches from place [i] on. */
  function BatchesFrom(u: seq<Token>, i: nat): seq<seq<Token>>
    requires i <= |u|
    decreases |u| - i
  {
    if i == |u| then [] else [BatchAt(u, i)] + BatchesFrom(u, Min(i + BATCH_SIZE, |u|))
  }

  function Concat(batches: seq<seq<Token>>): seq<Token> {
    if batches == [] then [] else batches[0] + Concat(batches[1..])
  }

  /** No batch is empty or too long, and one after another they are the tokens. */
  lemma {:induction false} BatchesCover(u: seq<Token>, i: nat)
    requires i <= |u|
    ensures Concat(BatchesFrom(u, i)) == u[i..]
    ensures forall k | 0 <= k < |BatchesFrom(u, i)| :: 0 < |BatchesFrom(u, i)[k]| <= BATCH_SIZE
    ensures |BatchesFrom(u, i)| == (|u| - i + BATCH_SIZE - 1) / BATCH_SIZE
    decreases |u| - i
  {
    if i < |u| {
      var next := Min(i + BATCH_SIZE, |u|);
      BatchesCover(u, next);
      assert u[i..] == u[i..next] + u[next..];
      assert BatchesFrom(u, i)[1..] == BatchesFrom(u, next);
    }
  }

  // ── what became of each token ──

  datatype Fate = Sent | Dead | Refused | Lost

  /** What an answer says of the token at place [k] of its batch. */
  function Judged(outcome: Outcome, k: nat): Fate {
    match outcome
    case Failed => Lost
    case Returned(responses) =>
      if k >= |responses| then Lost
      else if responses[k].Delivered? then Sent
      else if IsDead(responses[k]) then Dead
      else Refused
  }

  function Judgements(outcome: Outcome, n: nat): seq<Fate> {
    seq(n, k requires 0 <= k < n => Judged(outcome, k))
  }

  /** The fates of the tokens from place [i] on, whose first batch is the gateway's call number [call]. */
  function Fates(g: Gateway, call: nat, u: seq<Token>, i: nat): seq<Fate>
    requires i <= |u|
    decreases |u| - i
  {
    if i == |u| then []
    else
      var batch := BatchAt(u, i);
      Judgements(g(call, batch), |batch|) + Fates(g, call + 1, u, Min(i + BATCH_SIZE, |u|))
  }

  /** A token's fate is what the answer to its own batch says at its own place in it. */
  lemma {:induction false} FateOfEach(g: Gateway, call: nat, u: seq<Token>, i: nat, p: nat)
    requires i + p < |u|
    ensures |Fates(g, call, u, i)| == |u| - i
    ensures i + p / BATCH_SIZE * BATCH_SIZE <= |u|
    ensures Fates(g, call, u, i)[p] ==
            Judged(g(call + p / BATCH_SIZE, BatchAt(u, i + p / BATCH_SIZE * BATCH_SIZE)), p % BATCH_SIZE)
    decreases |u| - i
  {
    var next := Min(i + BATCH_SIZE, |u|);
    FatesOfAll(g, call, u, i);
    if p >= BATCH_SIZE {
      var q := p - BATCH_SIZE;
      assert q / BATCH_SIZE == p / BATCH_SIZE - 1 && q % BATCH_SIZE == p % BATCH_SIZE;
      FateOfEach(g, call + 1, u, next, q);
    }
  }

  lemma {:induction false} FatesOfAll(g: Gateway, call: nat, u: seq<Token>, i: nat)
    requires i <= |u|
    ensures |Fates(g, call, u, i)| == |u| - i
    decreases |u| - i
  {
    if i < |u| { FatesOfAll(g, call + 1, u, Min(i + BATCH_SIZE, |u|)); }
  }

  function SentIn(fates: seq<Fate>): (count: nat)
    ensures count <= |fates|
  {
    if fates == [] then 0 else (if fates[0] == Sent then 1 else 0) + SentIn(fates[1..])
  }

  function DeadOf(tokens: seq<Token>, fates: seq<Fate>): seq<Token>
    requires |tokens| == |fates|
  {
    if fates == [] then []
    else (if fates[0] == Dead then [tokens[0]] else []) + DeadOf(tokens[1..], fates[1..])
  }

  /** A token is reported dead exactly when its own answer rejected it with a dead-token code. */
  lemma {:induction false} DeadAreTheDead(tokens: seq<Token>, fates: seq<Fate>, t: Token)
    requires |tokens| == |fates|
    ensures t in DeadOf(tokens, fates) <==> exists p :: 0 <= p < |tokens| && tokens[p] == t && fates[p] == Dead
  {
    if fates != [] {
      DeadAreTheDead(tokens[1..], fates[1..], t);
      if t in DeadOf(tokens[1..], fates[1..]) {
        var p :| 0 <= p < |tokens| - 1 && tokens[1..][p] == t && fates[1..][p] == Dead;
        assert tokens[p + 1] == t && fates[p + 1] == Dead;
      }
      if exists p :: 0 <= p < |tokens| && tokens[p] == t && fates[p] == Dead {
        var p :| 0 <= p < |tokens| && tokens[p] == t && fates[p] == Dead;
        assert p > 0 ==> tokens[1..][p - 1] == t && fates[1..][p - 1] == Dead;
      }
    }
  }

  /** What a single answer makes of a token, code by code. */
  lemma AnswersMean(outcome: Outcome, k: nat)
    requires outcome.Returned? ==> k < |outcome.responses|
    ensures Judged(outcome, k) == Lost <==> outcome.Failed?
    ensures Judged(outcome, k) == Sent <==> outcome.Returned? && outcome.responses[k].Delivered?
    ensures Judged(outcome, k) == Dead <==>
              && outcome.Returned? && outcome.responses[k].Rejected? && outcome.responses[k].code.Some?
              && var code := outcome.responses[k].code.value;
                 || code == "messaging/registration-token-not-registered"
                 || code == "messaging/invalid-registration-token"
                 || code == "messaging/invalid-argument"
  {
  }

  /**
   The tokens reported dead are those that the answer to their own batch
   rejected as not registered, invalid, or an invalid argument, and no others.
   */
  lemma DeadTokensAre(g: Gateway, call: nat, u: seq<Token>, t: Token)
    requires AnswersEach(g)
    ensures |Fates(g, call, u, 0)| == |u|
    ensures t in DeadOf(u, Fates(g, call, u, 0)) <==>
            exists p: nat :: p < |u| && u[p] == t && RejectedAsDead(g, call, u, p)
  {
    var fates := Fates(g, call, u, 0);
    FatesOfAll(g, call, u, 0);
    DeadAreTheDead(u, fates, t);
    forall p: nat | p < |u| ensures fates[p] == Dead <==> RejectedAsDead(g, call, u, p) {
      FateOfEach(g, call, u, 0, p);
      AnswersMean(g(call + p / BATCH_SIZE, BatchAt(u, p / BATCH_SIZE * BATCH_SIZE)), p % BATCH_SIZE);
    }
  }

  /** The answer to the batch of 500 that place [p] is in returned, and gave its token a dead-token code. */
  predicate RejectedAsDead(g: Gateway, call: nat, u: seq<Token>, p: nat)
    requires p < |u|
  {
    var batch := u[p / 500 * 500..Min(p / 500 * 500 + 500, |u|)];
    var outcome := g(call + p / 500, batch);
    && outcome.Returned? && p % 500 < |outcome.responses|
    && (outcome.responses[p % 500] == Rejected(Some("messaging/registration-token-not-registered"))
        || outcome.responses[p % 500] == Rejected(Some("messaging/invalid-registration-token"))
        || outcome.responses[p % 500] == Rejected(Some("messaging/invalid-argument")))
  }

  lemma {:induction false} SentInBoth(a: seq<Fate>, b: seq<Fate>)
    ensures SentIn(a + b) == SentIn(a) + SentIn(b)
  {
    if a == [] { assert a + b == b; }
    else {
      SentInBoth(a[1..], b);
      assert (a + b)[1..] == a[1..] + b;
    }
  }

  lemma {:induction false} DeadOfBoth(s: seq<Token>, a: seq<Fate>, t: seq<Token>, b: seq<Fate>)
    requires |s| == |a| && |t| == |b|
    ensures DeadOf(s + t, a + b) == DeadOf(s, a) + DeadOf(t, b)
  {
    if a == [] { assert s + t == t && a + b == b; }
    else {
      DeadOfBoth(s[1..], a[1..], t, b);
      assert (s + t)[1..] == s[1..] + t && (a + b)[1..] == a[1..] + b;
    }
  }

  function Successes(responses: seq<Response>): (count: nat)
    ensures count <= |responses|
  {
    if responses == [] then 0 else (if responses[0].Delivered? then 1 else 0) + Successes(responses[1..])
  }

  lemma {:induction false} SuccessesAreSent(responses: seq<Response>)
    ensures Successes(responses) == SentIn(Judgements(Returned(responses), |responses|))
  {
    if responses != [] {
      SuccessesAreSent(responses[1..]);
      assert Judgements(Returned(responses), |responses|)[1..] == Judgements(Returned(responses[1..]), |responses| - 1);
    }
  }

  lemma {:induction false} NoneOfTheLost(tokens: seq<Token>, fates: seq<Fate>)
    requires |tokens| == |fates| && forall k | 0 <= k < |fates| :: fates[k] == Lost
    ensures SentIn(fates) == 0 && DeadOf(tokens, fates) == []
  {
    if fates != [] { NoneOfTheLost(tokens[1..], fates[1..]); }
  }

  /** How many of the tokens from place [i] on are sent, and which are dead. */
  function Totals(g: Gateway, call: nat, u: seq<Token>, i: nat): (nat, seq<Token>)
    requires i <= |u|
  {
    FatesOfAll(g, call, u, i);
    (SentIn(Fates(g, call, u, i)), DeadOf(u[i..], Fates(g, call, u, i)))
  }

  /** A batch counts by its own answer, and the rest counts as it would alone. */
  lemma TotalsOfBatch(g: Gateway, call: nat, u: seq<Token>, i: nat)
    requires i < |u|
    ensures var batch := BatchAt(u, i);
            var fates := Judgements(g(call, batch), |batch|);
            var rest := Totals(g, call + 1, u, Min(i + BATCH_SIZE, |u|));
            Totals(g, call, u, i) == (SentIn(fates) + rest.0, DeadOf(batch, fates) + rest.1)
  {
    var next := Min(i + BATCH_SIZE, |u|);
    var batch := BatchAt(u, i);
    var fates := Judgements(g(call, batch), |batch|);
    FatesOfAll(g, call + 1, u, next);
    SentInBoth(fates, Fates(g, call + 1, u, next));
    DeadOfBoth(batch, fates, u[next..], Fates(g, call + 1, u, next));
    assert u[i..] == batch + u[next..];
  }

  // ── adding the batches up ──

  /** The calls made so far and the counts kept of them. */
  datatype Tally = Tally(calls: seq<seq<Token>>, sent: nat, failed: nat, dead: seq<Token>)

  function AfterBatch(g: Gateway, t: Tally, batch: seq<Token>): Tally {
    var fates := Judgements(g(|t.calls|, batch), |batch|);
    Tally(t.calls + [batch], t.sent + SentIn(fates), t.failed + |batch| - SentIn(fates), t.dead + DeadOf(batch, fates))
  }

  function AfterAll(g: Gateway, t: Tally, u: seq<Token>, i: nat): Tally
    requires i <= |u|
    decreases |u| - i
  {
    if i == |u| then t else AfterAll(g, AfterBatch(g, t, BatchAt(u, i)), u, Min(i + BATCH_SIZE, |u|))
  }

  lemma {:induction false} CallsAfterAll(g: Gateway, t: Tally, u: seq<Token>, i: nat)
    requires i <= |u|
    ensures AfterAll(g, t, u, i).calls == t.calls + BatchesFrom(u, i)
    decreases |u| - i
  {
    if i < |u| {
      CallsAfterAll(g, AfterBatch(g, t, BatchAt(u, i)), u, Min(i + BATCH_SIZE, |u|));
    }
  }

  lemma {:induction false} CountsAfterAll(g: Gateway, t: Tally, u: seq<Token>, i: nat)
    requires i <= |u|
    ensures AfterAll(g, t, u, i).sent == t.sent + Totals(g, |t.calls|, u, i).0
    ensures AfterAll(g, t, u, i).sent + AfterAll(g, t, u, i).failed == t.sent + t.failed + (|u| - i)
    decreases |u| - i
  {
    if i < |u| {
      CountsAfterAll(g, AfterBatch(g, t, BatchAt(u, i)), u, Min(i + BATCH_SIZE, |u|));
      TotalsOfBatch(g, |t.calls|, u, i);
    }
  }

  lemma {:induction false} DeadAfterAll(g: Gateway, t: Tally, u: seq<Token>, i: nat)
    requires i <= |u|
    ensures AfterAll(g, t, u, i).dead == t.dead + Totals(g, |t.calls|, u, i).1
    decreases |u| - i
  {
    if i < |u| {
      DeadAfterAll(g, AfterBatch(g, t, BatchAt(u, i)), u, Min(i + BATCH_SIZE, |u|));
      TotalsOfBatch(g, |t.calls|, u, i);
    }
  }

  // ── the service ──

  /** The gateway, with a record of the batches it was called with. */
  class Messaging {
    const answer: Gateway
    var calls: seq<seq<Token>>

    constructor (answer: Gateway)
      ensures this.answer == answer && calls == []
    {
      this.answer := answer;
      calls := [];
    }

    method SendEach(tokens: seq<Token>) returns (outcome: Outcome)
      modifies this
      ensures calls == old(calls) + [tokens] && outcome == answer(|old(calls)|, tokens)
    {
      outcome := answer(|calls|, tokens);
      calls := calls + [tokens];
    }
  }

  class PushResult {
    var sent: nat
    var failed: nat
    var deadTokens: seq<Token>

    constructor ()
      ensures sent == 0 && failed == 0 && deadTokens == []
    {
      sent, failed, deadTokens := 0, 0, [];
    }
  }

  function TallyOf(messaging: Messaging, result: PushResult): Tally
    reads messaging, result
  {
    Tally(messaging.calls, result.sent, result.failed, result.deadTokens)
  }

  class PushService {
    const enabled: bool

    constructor (enabled: bool)
      ensures this.enabled == enabled
    {
      this.enabled := enabled;
    }

    /** One batch: its answer is added to the result; when the whole call fails, every token counts as failed. */
    method SendBatch(messaging: Messaging, tokens: seq<Token>, result: PushResult)
      requires AnswersEach(messaging.answer)
      modifies messaging, result
      ensures TallyOf(messaging, result) == AfterBatch(messaging.answer, old(TallyOf(messaging, result)), tokens)
    {
      var outcome := messaging.SendEach(tokens);
      ghost var fates := Judgements(outcome, |tokens|);
      if outcome.Failed? {
        NoneOfTheLost(tokens, fates);
        result.failed := result.failed + |tokens|;
        return;
      }
      var responses := outcome.responses;
      SuccessesAreSent(responses);
      result.sent := result.sent + Successes(responses);
      result.failed := result.failed + (|responses| - Successes(responses));
      for index := 0 to |responses|
        modifies result`deadTokens
        invariant result.deadTokens + DeadOf(tokens[index..], fates[index..]) == old(result.deadTokens) + DeadOf(tokens, fates)
      {
        assert tokens[index..][1..] == tokens[index + 1..] && fates[index..][1..] == fates[index + 1..];
        if IsDead(responses[index]) {
          result.deadTokens := result.deadTokens + [tokens[index]];
        }
      }
    }

    /**
     Sends to every distinct token once and never fails: what is sent and what
     is not add up to the tokens, and the dead are those the gateway called dead.
     */
    method SendToTokens(messaging: Messaging, tokens: seq<Token>) returns (result: PushResult)
      requires AnswersEach(messaging.answer)
      modifies messaging
      ensures fresh(result)
      ensures var u := Unique(tokens);
              if enabled then
                var fates := Fates(messaging.answer, |old(messaging.calls)|, u, 0);
                && messaging.calls == old(messaging.calls) + BatchesFrom(u, 0)
                && |fates| == |u|
                && result.sent == SentIn(fates)
                && result.sent + result.failed == |u|
                && result.deadTokens == DeadOf(u, fates)
              else
                && messaging.calls == old(messaging.calls)
                && result.sent == 0 && result.failed == 0 && result.deadTokens == []
    {
      var unique := Unique(tokens);
      result := new PushResult();
      if !enabled || |unique| == 0 { return; }
      ghost var all := AfterAll(messaging.answer, TallyOf(messaging, result), unique, 0);
      CallsAfterAll(messaging.answer, TallyOf(messaging, result), unique, 0);
      CountsAfterAll(messaging.answer, TallyOf(messaging, result), unique, 0);
      DeadAfterAll(messaging.answer, TallyOf(messaging, result), unique, 0);
      FatesOfAll(messaging.answer, |messaging.calls|, unique, 0);
      assert unique[0..] == unique;
      var i := 0;
      while i < |unique|
        invariant i <= |unique|
        invariant AfterAll(messaging.answer, TallyOf(messaging, result), unique, i) == all
      {
        var next := Min(i + BATCH_SIZE, |unique|);
        SendBatch(messaging, unique[i..next], result);
        i := next;
      }
    }
  }
}
