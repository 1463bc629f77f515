/** The rows an answer releases: fetch one more than the limit, cut at the limit, say when it was cut. */
module Rows {
  import opened Outcomes
  import opened Numbers

  /** `limit + 1`, saturating. */
  function FetchLimit(limit: U64): (r: U64)
    ensures r >= 1 && limit <= r
    ensures limit < U64_MAX ==> r == limit + 1
  {
    SatAdd(limit, 1)
  }

  /** What the database would send, row by row, up to its end or to an error at some row. */
  class Stream<Row> {
    const answer: seq<Row>
    const failsAt: Option<nat>
    var next: nat

    constructor (answer: seq<Row>, failsAt: Option<nat>)
      ensures this.answer == answer && this.failsAt == failsAt && next == 0
    {
      this.answer := answer;
      this.failsAt := failsAt;
      next := 0;
    }

    predicate FailsBy(n: nat) {
      failsAt.Some? && failsAt.value <= |answer| && failsAt.value < n
    }

    /** `None` at an error; otherwise the next row, or that there is none. */
    method TryNext() returns (r: Option<Option<Row>>)
      requires next <= |answer|
      modifies `next
      ensures r.None? <==> failsAt == Some(old(next))
      ensures r.None? ==> next == old(next)
      ensures r.Some? && old(next) < |answer| ==> r.value == Some(answer[old(next)]) && next == old(next) + 1
      ensures r.Some? && old(next) == |answer| ==> r.value == None && next == old(next)
    {
      if failsAt == Some(next) {
        r := None;
      } else if next < |answer| {
        r := Some(Some(answer[next]));
        next := next + 1;
      } else {
        r := Some(None);
      }
    }

    /** The fetch loop: it reads no further than the limit, and an error it meets fails the whole fetch. */
    method Fetch(fetchLimit: nat) returns (r: Option<seq<Row>>)
      requires next == 0
      modifies `next
      ensures r == if FailsBy(fetchLimit) then None
                   else Some(answer[..if fetchLimit < |answer| then fetchLimit else |answer|])
      ensures next <= fetchLimit
    {
      var rows: seq<Row> := [];
      while |rows| < fetchLimit
        invariant next == |rows| <= |answer| && |rows| <= fetchLimit
        invariant rows == answer[..|rows|]
        invariant !FailsBy(|rows|)
        decreases fetchLimit - |rows|
      {
        var row := TryNext();
        if row.None? {
          return None;
        }
        if row.value.None? {
          return Some(rows);
        }
        rows := rows + [row.value.value];
      }
      return Some(rows);
    }
  }

  datatype Released<Row> = Released(rows: seq<Row>, truncated: bool)

  /** Cutting at the limit; `serverCut` is the server's own early stop. */
  method Cut<Row>(fetched: seq<Row>, limit: nat, serverCut: bool) returns (r: Released<Row>)
    ensures r.rows == fetched[..if limit < |fetched| then limit else |fetched|]
    ensures r.truncated <==> |fetched| > limit || serverCut
  {
    var rows := fetched;
    var overLimit := |rows| > limit;
    if overLimit {
      rows := rows[..limit];
    }
    r := Released(rows, overLimit || serverCut);
  }

  /**
   The rows released are the first of the answer, as many as the limit allows, and `truncated` is
   said exactly when there were more; only at a limit of the largest `u64` there is no row to spare
   that could tell.
   */
  method Release<Row>(stream: Stream<Row>, limit: U64) returns (r: Option<Released<Row>>)
    requires stream.next == 0
    modifies stream
    ensures r.None? <==> stream.FailsBy(FetchLimit(limit))
    ensures r.Some? ==>
              && r.value.rows == stream.answer[..if limit < |stream.answer| then limit else |stream.answer|]
              && (r.value.truncated <==> |stream.answer| > limit && limit < U64_MAX)
  {
    var fetched := stream.Fetch(FetchLimit(limit));
    if fetched.None? {
      return None;
    }
    var cut := Cut(fetched.value, limit, false);
    r := Some(cut);
  }

  // ----- the fallback of `sample` -----

  datatype Verdict = Answered | Expensive | Failed

  /** One pass over the connection: what was sent, the time it was given and the time it took. */
  datatype Attempt = Attempt(sql: string, budgetMs: nat, spentMs: nat, verdict: Verdict)

  /** What is left of the one budget; less than a second is not worth another try. */
  function FallbackBudget(timeoutSecs: nat, spentMs: nat): Option<nat> {
    var left := SatSub(SatMul(timeoutSecs, 1000), spentMs);
    if left >= 1000 then Some(left) else None
  }

  class Session {
    var log: seq<Attempt>

    constructor ()
      ensures log == []
    {
      log := [];
    }

    /** One attempt; the guardrail, the database and the clock decide how it ends. */
    method Run(sql: string, budgetMs: nat) returns (attempt: Attempt)
      modifies this
      ensures attempt.sql == sql && attempt.budgetMs == budgetMs
      ensures log == old(log) + [attempt]
    {
      var verdict: Verdict := *;
      var spent: nat := *;
      attempt := Attempt(sql, budgetMs, spent, verdict);
      log := log + [attempt];
    }

    /**
     The rows command: a second pass only after a refusal for cost, only with the cheap statement,
     only on what the first pass left of the one budget, and never a third.
     */
    method RowsCommand(first: string, cheap: Option<string>, timeoutSecs: nat) returns (final: Attempt)
      requires log == []
      modifies this
      ensures 1 <= |log| <= 2 && final == log[|log| - 1] && log[0].sql == first
      ensures log[0].budgetMs == SatMul(timeoutSecs, 1000)
      ensures |log| == 2 <==>
                log[0].verdict == Expensive && cheap.Some? && log[0].spentMs + 1000 <= SatMul(timeoutSecs, 1000)
      ensures |log| == 2 ==>
                log[1].sql == cheap.value && log[0].spentMs + log[1].budgetMs == SatMul(timeoutSecs, 1000)
    {
      final := Run(first, SatMul(timeoutSecs, 1000));
      if final.verdict == Expensive && cheap.Some? {
        var left := FallbackBudget(timeoutSecs, final.spentMs);
        if left.Some? {
          final := Run(cheap.value, left.value);
        }
      }
    }
  }
}
