/** Which ops of a /batch call landed: the state machine that reads the
    responses, the loop around it, and what its verdict is worth. */
module Settlement {
  import opened Wrappers

  const BATCH_ATTEMPTS: nat := 3
  const UNPROCESSABLE_ENTITY: nat := 422

  datatype BatchOp = AddFile(path: string, xetHash: string, mtime: nat)

  /** A response body: the server's report, or anything that does not decode. */
  datatype Body =
    | Unreadable
    | Report(success: bool, failed: seq<string>, processed: Option<int>, succeeded: Option<int>)

  datatype Response = Response(status: nat, body: Body) {
    predicate IsSuccess() { 200 <= status < 300 }
  }

  datatype Failure =
    | Http(status: nat)
    | WrongProcessed
    | UnknownPaths(paths: set<string>)
    | WrongSucceeded
    | NothingNamed
    | StillFailing(pending: seq<BatchOp>)
    | Transport

  datatype Next = Done(confirmed: nat) | Retry(backoffSeconds: nat)

  function PathsOf(ops: seq<BatchOp>): set<string> { set op | op in ops :: op.path }

  function SetOf(paths: seq<string>): set<string> { set p | p in paths }

  /** The ops whose path is wanted, in the order they were sent. */
  function Named(sent: seq<BatchOp>, want: set<string>): seq<BatchOp> {
    if sent == [] then []
    else (if sent[0].path in want then [sent[0]] else []) + Named(sent[1..], want)
  }

  /** The ops to send again; an error when a path was named that was not sent. */
  function RetryOps(sent: seq<BatchOp>, failed: seq<string>): Result<seq<BatchOp>, set<string>> {
    var want := SetOf(failed);
    var retry := Named(sent, want);
    var matched := PathsOf(retry);
    if |matched| != |want| then Err(want - matched) else Ok(retry)
  }

  lemma {:induction false} NamedAre(sent: seq<BatchOp>, want: set<string>)
    ensures forall op :: op in Named(sent, want) <==> op in sent && op.path in want
    ensures |Named(sent, want)| <= |sent|
    ensures Named(sent, want) == [] <==> forall op :: op in sent ==> op.path !in want
  {
    if sent != [] {
      NamedAre(sent[1..], want);
      assert sent == [sent[0]] + sent[1..];
      assert forall op :: op in Named(sent, want) <==>
             (op == sent[0] && op.path in want) || op in Named(sent[1..], want);
    }
  }

  lemma {:induction false} SubsetOfSameSize<T>(a: set<T>, b: set<T>)
    requires a <= b && |a| == |b|
    ensures a == b
  {
    assert b == a + (b - a) && a !! (b - a);
    assert |b| == |a| + |b - a|;
  }

  /** Exactly when every path the server named is one of ours, we know what to
      send again: those ops, in order. Otherwise the error names the others. */
  lemma {:induction false} RetryOpsIff(sent: seq<BatchOp>, failed: seq<string>)
    ensures RetryOps(sent, failed).Ok? <==> forall p :: p in failed ==> p in PathsOf(sent)
    ensures RetryOps(sent, failed).Ok? ==> RetryOps(sent, failed).value == Named(sent, SetOf(failed))
    ensures RetryOps(sent, failed).Err? ==>
              forall p :: p in RetryOps(sent, failed).error <==> p in failed && p !in PathsOf(sent)
  {
    var want := SetOf(failed);
    var retry := Named(sent, want);
    var matched := PathsOf(retry);
    NamedAre(sent, want);
    assert matched <= want;
    if |matched| == |want| { SubsetOfSameSize(matched, want); }
    if forall p :: p in failed ==> p in PathsOf(sent) {
      forall p | p in want ensures p in matched {
        var op :| op in sent && op.path == p;
        assert op in retry;
      }
      assert matched == want;
    }
    forall op | op in sent && op.path in want ensures op.path in matched { assert op in retry; }
    forall p | p in matched ensures p in PathsOf(sent) {
      var op :| op in retry && op.path == p;
    }
  }

  // ----- one response -----

  /** What a response means for the pending ops of the `attempt`-th request
      (from 0): a verdict, and the ops that stay pending. */
  datatype Outcome = Outcome(next: Result<Next, Failure>, pending: seq<BatchOp>)

  function Pow2(n: nat): nat { if n == 0 then 1 else 2 * Pow2(n - 1) }

  /** The backoff before the next request, or the end of the attempts. */
  function NextAttempt(attempt: nat, pending: seq<BatchOp>): Result<Next, Failure> {
    if attempt >= BATCH_ATTEMPTS then Err(StillFailing(pending))
    else Ok(Retry(Pow2(attempt)))
  }

  function Observed(pending: seq<BatchOp>, total: nat, attempt: nat, resp: Response): Outcome {
    if !resp.IsSuccess() && resp.status != UNPROCESSABLE_ENTITY then Outcome(Err(Http(resp.status)), pending)
    else
      match resp.body
      case Unreadable =>
        if resp.IsSuccess() && attempt == 0 then Outcome(Ok(Done(total)), pending)
        else if resp.IsSuccess() then Outcome(NextAttempt(attempt + 1, pending), pending)
        else Outcome(Err(Http(resp.status)), pending)
      case Report(success, failed, processed, succeeded) =>
        if processed.Some? && processed.value != |pending| then Outcome(Err(WrongProcessed), pending)
        else
          match RetryOps(pending, failed)
          case Err(unknown) => Outcome(Err(UnknownPaths(unknown)), pending)
          case Ok(retry) =>
            if succeeded.Some? && succeeded.value != |pending| - |retry| then Outcome(Err(WrongSucceeded), pending)
            else if retry == [] then Outcome(if success then Ok(Done(total)) else Err(NothingNamed), pending)
            else Outcome(NextAttempt(attempt + 1, retry), retry)
  }

  /** The per-operation half of one /batch. */
  class State {
    var pending: seq<BatchOp>
    var total: nat
    var attempt: nat

    constructor (ops: seq<BatchOp>)
      ensures pending == ops && total == |ops| && attempt == 0
    {
      pending, total, attempt := ops, |ops|, 0;
    }

    method Observe(resp: Response) returns (next: Result<Next, Failure>)
      modifies this
      ensures attempt == old(attempt) + 1 && total == old(total)
      ensures Outcome(next, pending) == Observed(old(pending), old(total), old(attempt), resp)
      ensures Means(old(pending), old(total), old(attempt), resp, Outcome(next, pending))
    {
      EveryAnswerMeans(pending, total, attempt, resp);
      var was, sent := attempt, |pending|;
      attempt := attempt + 1;
      if !(resp.IsSuccess() || resp.status == UNPROCESSABLE_ENTITY) { return Err(Http(resp.status)); }
      if resp.body.Unreadable? {
        if resp.IsSuccess() && was == 0 { return Ok(Done(total)); }
        if resp.IsSuccess() { return NextAttempt(attempt, pending); }
        return Err(Http(resp.status));
      }
      if resp.body.processed.Some? && resp.body.processed.value != sent { return Err(WrongProcessed); }
      var found := RetryOps(pending, resp.body.failed);
      if found.Err? { return Err(UnknownPaths(found.error)); }
      var retry := found.value;
      NamedAre(pending, SetOf(resp.body.failed));
      if resp.body.succeeded.Some? && resp.body.succeeded.value != sent - |retry| { return Err(WrongSucceeded); }
      if retry == [] {
        if !resp.body.success { return Err(NothingNamed); }
        return Ok(Done(total));
      }
      pending := retry;
      next := NextAttempt(attempt, pending);
    }
  }

  // ----- a whole call -----

  /** Any server: what it answers to the `attempt`-th request, if the request
      gets through at all. */
  type Server = (nat, seq<BatchOp>) -> Option<Response>

  datatype Exchange = Exchange(sent: seq<BatchOp>, response: Response)

  /** The rest of a call with `attempt` requests behind it. */
  function Settle(server: Server, pending: seq<BatchOp>, total: nat, attempt: nat): Result<nat, Failure>
    requires attempt < BATCH_ATTEMPTS
    decreases BATCH_ATTEMPTS - attempt
  {
    match server(attempt, pending)
    case None => Err(Transport)
    case Some(resp) =>
      var o := Observed(pending, total, attempt, resp);
      match o.next
      case Err(e) => Err(e)
      case Ok(Done(n)) => Ok(n)
      case Ok(Retry(_)) => Settle(server, o.pending, total, attempt + 1)
  }

  /** The exchanges of that rest. */
  ghost function Exchanges(server: Server, pending: seq<BatchOp>, total: nat, attempt: nat): seq<Exchange>
    requires attempt < BATCH_ATTEMPTS
    decreases BATCH_ATTEMPTS - attempt
  {
    match server(attempt, pending)
    case None => []
    case Some(resp) =>
      var o := Observed(pending, total, attempt, resp);
      [Exchange(pending, resp)] +
      if o.next.Ok? && o.next.value.Retry? then Exchanges(server, o.pending, total, attempt + 1) else []
  }

  /** What is sent next: the ops a readable report named, or all of them again. */
  function SentAfter(e: Exchange): seq<BatchOp> {
    if e.response.body.Unreadable? then e.sent else Named(e.sent, SetOf(e.response.body.failed))
  }

  /** A call's history: each request carries what the response before left. */
  ghost predicate Chained(server: Server, ops: seq<BatchOp>, log: seq<Exchange>) {
    && (log != [] ==> log[0].sent == ops)
    && (forall k :: 0 <= k < |log| ==> server(k, log[k].sent) == Some(log[k].response))
    && (forall k :: 0 < k < |log| ==> log[k].sent == SentAfter(log[k - 1]))
  }

  /** The server was told about the op and, in a readable report, did not name it. */
  ghost predicate Confirms(e: Exchange, op: BatchOp) {
    e.response.body.Report? && op in e.sent && op.path !in e.response.body.failed
  }

  ghost predicate Confirmed(log: seq<Exchange>, op: BatchOp) {
    exists k :: 0 <= k < |log| && Confirms(log[k], op)
  }

  /** The one answer that is trusted without a report: the first, when it is a 2xx
      whose body does not decode. */
  ghost predicate Trusted(server: Server, ops: seq<BatchOp>) {
    var first := server(0, ops);
    first.Some? && first.value.IsSuccess() && first.value.body.Unreadable?
  }

  /** Ops not in the next request were confirmed by this response. */
  ghost predicate Covered(ops: seq<BatchOp>, log: seq<Exchange>, pending: seq<BatchOp>) {
    forall op :: op in ops ==> op in pending || Confirmed(log, op)
  }

  lemma {:induction false} CoveredGrows(ops: seq<BatchOp>, log: seq<Exchange>, pending: seq<BatchOp>, e: Exchange)
    requires Covered(ops, log, pending) && e.sent == pending
    ensures Covered(ops, log + [e], SentAfter(e))
  {
    if e.response.body.Report? { NamedAre(e.sent, SetOf(e.response.body.failed)); }
    forall op | op in ops ensures op in SentAfter(e) || Confirmed(log + [e], op) {
      if Confirmed(log, op) {
        var k :| 0 <= k < |log| && Confirms(log[k], op);
        assert (log + [e])[k] == log[k];
      } else if op !in SentAfter(e) {
        assert Confirms((log + [e])[|log|], op);
      }
    }
  }

  /** The history so far fits the state of the loop. */
  ghost predicate Settling(server: Server, ops: seq<BatchOp>, log: seq<Exchange>, pending: seq<BatchOp>) {
    && |log| < BATCH_ATTEMPTS && Chained(server, ops, log)
    && pending == (if log == [] then ops else SentAfter(log[|log| - 1]))
    && Covered(ops, log, pending) && (log != [] ==> log[0].response.body.Report?)
  }

  lemma {:induction false} ChainedGrows(server: Server, ops: seq<BatchOp>, log: seq<Exchange>, pending: seq<BatchOp>,
                                        resp: Response)
    requires Chained(server, ops, log) && pending == (if log == [] then ops else SentAfter(log[|log| - 1]))
    requires server(|log|, pending) == Some(resp)
    ensures Chained(server, ops, log + [Exchange(pending, resp)])
  {
  }

  lemma {:induction false} NextPending(pending: seq<BatchOp>, total: nat, attempt: nat, resp: Response)
    ensures var o, e := Observed(pending, total, attempt, resp), Exchange(pending, resp);
            && (o.next.Ok? && o.next.value.Retry? ==>
                  o.pending == SentAfter(e) && attempt + 1 < BATCH_ATTEMPTS && (attempt == 0 ==> resp.body.Report?))
            && (o.next.Err? && o.next.error.StillFailing? ==>
                  o.next.error.pending == SentAfter(e) && attempt + 1 >= BATCH_ATTEMPTS)
            && (o.next.Ok? && o.next.value.Done? ==>
                  && o.next.value.confirmed == total
                  && (resp.body.Unreadable? ==> attempt == 0 && resp.IsSuccess())
                  && (resp.body.Report? ==> SentAfter(e) == []))
  {
    if resp.body.Report? { RetryOpsIff(pending, resp.body.failed); }
  }

  /** One more response: the call goes on, or its verdict is justified. */
  lemma {:induction false} SettlingGrows(server: Server, ops: seq<BatchOp>, log: seq<Exchange>, pending: seq<BatchOp>,
                                         resp: Response)
    requires Settling(server, ops, log, pending) && server(|log|, pending) == Some(resp)
    ensures var o, more := Observed(pending, |ops|, |log|, resp), log + [Exchange(pending, resp)];
            && Chained(server, ops, more)
            && (o.next.Ok? && o.next.value.Retry? ==> Settling(server, ops, more, o.pending))
            && (o.next.Ok? && o.next.value.Done? ==>
                  && o.next.value.confirmed == |ops|
                  && (resp.body.Report? ==> forall op :: op in ops ==> Confirmed(more, op))
                  && (resp.body.Unreadable? ==> log == [] && Trusted(server, ops)))
            && (o.next.Err? && o.next.error.StillFailing? ==>
                  |more| == BATCH_ATTEMPTS && o.next.error.pending == SentAfter(more[|more| - 1]))
  {
    NextPending(pending, |ops|, |log|, resp);
    ChainedGrows(server, ops, log, pending, resp);
    CoveredGrows(ops, log, pending, Exchange(pending, resp));
  }

  lemma {:induction false} SettleNext(server: Server, pending: seq<BatchOp>, total: nat, attempt: nat, resp: Response)
    requires attempt < BATCH_ATTEMPTS && server(attempt, pending) == Some(resp)
    ensures var o := Observed(pending, total, attempt, resp);
            Settle(server, pending, total, attempt) ==
            if o.next.Err? then Err(o.next.error)
            else if o.next.value.Done? then Ok(o.next.value.confirmed)
            else Settle(server, o.pending, total, attempt + 1)
  {
  }

  lemma {:induction false} ExchangesNext(server: Server, pending: seq<BatchOp>, total: nat, attempt: nat,
                                         resp: Response)
    requires attempt < BATCH_ATTEMPTS && server(attempt, pending) == Some(resp)
    ensures var o := Observed(pending, total, attempt, resp);
            && (o.next.Ok? && o.next.value.Retry? ==> attempt + 1 < BATCH_ATTEMPTS)
            && Exchanges(server, pending, total, attempt) ==
               [Exchange(pending, resp)] +
               if o.next.Ok? && o.next.value.Retry? then Exchanges(server, o.pending, total, attempt + 1) else []
  {
  }

  lemma {:induction false} Rejoined(log: seq<Exchange>, e: Exchange, rest: seq<Exchange>)
    ensures log + ([e] + rest) == (log + [e]) + rest && log + ([e] + []) == log + [e]
  {
  }

  /** One request of a call: the call goes on, with one more exchange behind it, or
      this was its last. */
  lemma {:induction false} OneRequest(server: Server, ops: seq<BatchOp>, pending: seq<BatchOp>, log: seq<Exchange>,
                                      resp: Response)
    requires |log| < BATCH_ATTEMPTS && server(|log|, pending) == Some(resp)
    ensures var o, more := Observed(pending, |ops|, |log|, resp), log + [Exchange(pending, resp)];
            var r, all := Settle(server, pending, |ops|, |log|), log + Exchanges(server, pending, |ops|, |log|);
            if o.next.Ok? && o.next.value.Retry?
            then && |more| < BATCH_ATTEMPTS && r == Settle(server, o.pending, |ops|, |more|)
                 && all == more + Exchanges(server, o.pending, |ops|, |more|)
            else all == more && r == if o.next.Ok? then Ok(o.next.value.confirmed) else Err(o.next.error)
  {
    NextPending(pending, |ops|, |log|, resp);
    SettleNext(server, pending, |ops|, |log|, resp);
    ExchangesNext(server, pending, |ops|, |log|, resp);
    var o := Observed(pending, |ops|, |log|, resp);
    var rest := if o.next.Ok? && o.next.value.Retry? then Exchanges(server, o.pending, |ops|, |log| + 1) else [];
    Rejoined(log, Exchange(pending, resp), rest);
  }

  /** What a call's end says of its history. */
  ghost predicate Justified(server: Server, ops: seq<BatchOp>, r: Result<nat, Failure>, log: seq<Exchange>) {
    && |log| <= BATCH_ATTEMPTS && Chained(server, ops, log)
    && (r.Ok? ==> r.value == |ops|)
    && (r.Ok? && ops != [] ==> ((forall op :: op in ops ==> Confirmed(log, op)) <==> !Trusted(server, ops)))
    && (r.Err? && r.error.StillFailing? ==> |log| == BATCH_ATTEMPTS && r.error.pending == SentAfter(log[2]))
  }

  lemma {:induction false} NoReportConfirmsNothing(ops: seq<BatchOp>, log: seq<Exchange>)
    requires ops != [] && |log| == 1 && log[0].response.body.Unreadable?
    ensures !Confirmed(log, ops[0])
  {
  }

  /** The verdict of a call, from any point of it on, is justified by what was sent
      and answered. */
  lemma {:induction false} SettleIsJustified(server: Server, ops: seq<BatchOp>, log: seq<Exchange>,
                                             pending: seq<BatchOp>)
    requires Settling(server, ops, log, pending)
    ensures Justified(server, ops, Settle(server, pending, |ops|, |log|),
                      log + Exchanges(server, pending, |ops|, |log|))
    decreases BATCH_ATTEMPTS - |log|
  {
    var answer := server(|log|, pending);
    if answer.None? {
      assert log + [] == log;
    } else {
      var e := Exchange(pending, answer.value);
      var o := Observed(pending, |ops|, |log|, answer.value);
      SettlingGrows(server, ops, log, pending, answer.value);
      OneRequest(server, ops, pending, log, answer.value);
      if o.next.Ok? && o.next.value.Retry? {
        SettleIsJustified(server, ops, log + [e], o.pending);
      } else if log == [] && ops != [] && answer.value.body.Unreadable? {
        NoReportConfirmsNothing(ops, log + [e]);
      }
    }
  }

  /** The requests of a call with something to send. */
  method Attempts(ops: seq<BatchOp>, server: Server) returns (r: Result<nat, Failure>, ghost log: seq<Exchange>)
    ensures r == Settle(server, ops, |ops|, 0) && log == Exchanges(server, ops, |ops|, 0)
  {
    log := [];
    ghost var all := Exchanges(server, ops, |ops|, 0);
    assert log + all == all;
    var state := new State(ops);
    while true
      invariant state.total == |ops| && state.attempt == |log| < BATCH_ATTEMPTS
      invariant Settle(server, ops, |ops|, 0) == Settle(server, state.pending, |ops|, |log|)
      invariant all == log + Exchanges(server, state.pending, |ops|, |log|)
      decreases BATCH_ATTEMPTS - |log|
    {
      var answer := server(state.attempt, state.pending);
      if answer.None? { return Err(Transport), log; }
      OneRequest(server, ops, state.pending, log, answer.value);
      log := log + [Exchange(state.pending, answer.value)];
      var next := state.Observe(answer.value);
      if next.Err? { return Err(next.error), log; }
      if next.value.Done? { return Ok(next.value.confirmed), log; }
    }
  }

  /** POSTs the ops and re-sends what the server names, until every op is accounted
      for. Against any server: `Ok(n)` means that `n` is the number of ops and, unless
      the first response is a 2xx with an unreadable body, and only then, that every
      one of them was in a readable report that did not name it. Each request
      carries, in order, the ops the last readable report named; no call reads more
      than three responses. */
  method Batch(ops: seq<BatchOp>, server: Server) returns (r: Result<nat, Failure>, ghost log: seq<Exchange>)
    ensures r == if ops == [] then Ok(0) else Settle(server, ops, |ops|, 0)
    ensures log == if ops == [] then [] else Exchanges(server, ops, |ops|, 0)
    ensures |log| <= 3 && Chained(server, ops, log) && (ops != [] ==> Ends(server, ops, r, log))
    ensures r.Ok? ==> r.value == |ops|
    ensures r.Ok? && ops != [] ==> ((forall op :: op in ops ==> Confirmed(log, op)) <==> !Trusted(server, ops))
    ensures r.Err? && r.error.StillFailing? ==> |log| == 3 && r.error.pending == SentAfter(log[2])
  {
    if ops == [] { return Ok(0), []; }
    r, log := Attempts(ops, server);
    SettleIsJustified(server, ops, [], ops);
    NoReportNamesNothing(ops);
    CallEnds(server, ops, [], ops);
    assert [] + log == log;
  }

  // ----- what is sent -----

  /** Every readable report so far named the op. */
  ghost predicate AlwaysNamed(log: seq<Exchange>, op: BatchOp) {
    forall j :: 0 <= j < |log| && log[j].response.body.Report? ==> op.path in log[j].response.body.failed
  }

  ghost function StillNamed(ops: seq<BatchOp>, log: seq<Exchange>): seq<BatchOp> {
    if ops == [] then []
    else (if AlwaysNamed(log, ops[0]) then [ops[0]] else []) + StillNamed(ops[1..], log)
  }

  lemma {:induction false} NoReportNamesNothing(ops: seq<BatchOp>)
    ensures StillNamed(ops, []) == ops
  {
    if ops != [] {
      NoReportNamesNothing(ops[1..]);
      assert ops == [ops[0]] + ops[1..];
    }
  }

  lemma {:induction false} StillNamedGrows(ops: seq<BatchOp>, log: seq<Exchange>, e: Exchange)
    ensures StillNamed(ops, log + [e]) ==
            if e.response.body.Report? then Named(StillNamed(ops, log), SetOf(e.response.body.failed))
            else StillNamed(ops, log)
  {
    if ops != [] {
      var more := log + [e];
      assert AlwaysNamed(more, ops[0]) <==>
             AlwaysNamed(log, ops[0]) && (e.response.body.Report? ==> ops[0].path in e.response.body.failed) by {
        assert more[|log|] == e && forall j :: 0 <= j < |log| ==> more[j] == log[j];
      }
      StillNamedGrows(ops[1..], log, e);
      var rest := StillNamed(ops[1..], log);
      assert ([ops[0]] + rest)[1..] == rest && [] + rest == rest;
    }
  }

  /** Each request carries exactly the ops that every readable report before it
      named, in the order they were handed in. */
  lemma {:induction false} SentAreStillNamed(server: Server, ops: seq<BatchOp>, log: seq<Exchange>, k: nat)
    requires Chained(server, ops, log) && k < |log|
    ensures log[k].sent == StillNamed(ops, log[..k])
  {
    if k == 0 {
      NoReportNamesNothing(ops);
    } else {
      SentAreStillNamed(server, ops, log, k - 1);
      StillNamedGrows(ops, log[..k - 1], log[k - 1]);
      assert log[..k] == log[..k - 1] + [log[k - 1]];
    }
  }

  // ----- what each answer means -----

  /** The report adds up against the request. */
  ghost predicate Accurate(sent: seq<BatchOp>, resp: Response) {
    && (200 <= resp.status < 300 || resp.status == 422) && resp.body.Report?
    && (forall p :: p in resp.body.failed ==> p in PathsOf(sent))
    && (resp.body.processed.None? || resp.body.processed.value == |sent|)
    && (resp.body.succeeded.None? || resp.body.succeeded.value == |sent| - |Named(sent, SetOf(resp.body.failed))|)
    && (resp.body.failed == [] ==> resp.body.success)
  }

  /** A success that cannot be read. */
  ghost predicate Blank(resp: Response) { 200 <= resp.status < 300 && resp.body.Unreadable? }

  /** A status that says all: no success, and no 422 with a readable report. */
  ghost predicate Refused(resp: Response) {
    !(200 <= resp.status < 300) && (resp.status != 422 || resp.body.Unreadable?)
  }

  /** What is wrong with a report that does not add up. */
  ghost predicate Mismatch(sent: seq<BatchOp>, resp: Response, error: Failure)
    requires resp.body.Report?
  {
    var miscounted := resp.body.processed.Some? && resp.body.processed.value != |sent|;
    var unknown := SetOf(resp.body.failed) - PathsOf(sent);
    match error
    case WrongProcessed => miscounted
    case UnknownPaths(paths) => !miscounted && paths == unknown != {}
    case WrongSucceeded => !miscounted && unknown == {} && resp.body.succeeded.Some?
                           && resp.body.succeeded.value != |sent| - |Named(sent, SetOf(resp.body.failed))|
    case NothingNamed => !miscounted && resp.body.failed == [] && !resp.body.success
    case _ => false
  }

  /** The request is sent again, after two seconds and then after four; the third one
      is the last. */
  ghost predicate OneMoreTime(next: Result<Next, Failure>, attempt: nat, pending: seq<BatchOp>) {
    next == if attempt == 0 then Ok(Retry(2)) else if attempt == 1 then Ok(Retry(4)) else Err(StillFailing(pending))
  }

  /** One answer, to the request with `attempt` before it: the verdict, and the ops that
      stay pending. */
  ghost predicate Means(sent: seq<BatchOp>, total: nat, attempt: nat, resp: Response, o: Outcome) {
    if Refused(resp) then o.next == Err(Http(resp.status))
    else if Blank(resp) then
      o.pending == sent && if attempt == 0 then o.next == Ok(Done(total)) else OneMoreTime(o.next, attempt, sent)
    else if !Accurate(sent, resp) then o.next.Err? && Mismatch(sent, resp, o.next.error)
    else if resp.body.failed == [] then o.next == Ok(Done(total))
    else
      && o.pending == Named(sent, SetOf(resp.body.failed)) != []
      && OneMoreTime(o.next, attempt, o.pending)
  }

  lemma {:induction false} NextIs(attempt: nat, pending: seq<BatchOp>)
    ensures OneMoreTime(NextAttempt(attempt + 1, pending), attempt, pending)
  {
    assert Pow2(1) == 2 * Pow2(0) && Pow2(2) == 2 * Pow2(1);
  }

  lemma {:induction false} NamedIff(sent: seq<BatchOp>, failed: seq<string>)
    requires forall p :: p in failed ==> p in PathsOf(sent)
    ensures Named(sent, SetOf(failed)) == [] <==> failed == []
    ensures SetOf(failed) - PathsOf(sent) == {}
  {
    NamedAre(sent, SetOf(failed));
    if failed != [] {
      assert failed[0] in PathsOf(sent) && failed[0] in SetOf(failed);
      var op :| op in sent && op.path == failed[0];
    }
  }

  lemma {:induction false} UnknownIs(sent: seq<BatchOp>, failed: seq<string>)
    requires RetryOps(sent, failed).Err?
    ensures RetryOps(sent, failed).error == SetOf(failed) - PathsOf(sent) != {}
  {
    RetryOpsIff(sent, failed);
    var p :| p in failed && p !in PathsOf(sent);
    assert p in SetOf(failed) - PathsOf(sent);
  }

  lemma {:induction false} ReportMeans(sent: seq<BatchOp>, total: nat, attempt: nat, resp: Response)
    requires resp.body.Report? && (200 <= resp.status < 300 || resp.status == 422)
    ensures Means(sent, total, attempt, resp, Observed(sent, total, attempt, resp))
  {
    var failed := resp.body.failed;
    RetryOpsIff(sent, failed);
    if RetryOps(sent, failed).Err? {
      UnknownIs(sent, failed);
    } else {
      NamedIff(sent, failed);
      NextIs(attempt, Named(sent, SetOf(failed)));
    }
  }

  /** Every answer, at every attempt, means what the rules say: which one ends the call
      and with what verdict, and which one leaves which ops pending. */
  lemma {:induction false} EveryAnswerMeans(sent: seq<BatchOp>, total: nat, attempt: nat, resp: Response)
    ensures Means(sent, total, attempt, resp, Observed(sent, total, attempt, resp))
  {
    if resp.body.Report? && (200 <= resp.status < 300 || resp.status == 422) {
      ReportMeans(sent, total, attempt, resp);
    } else {
      NextIs(attempt, sent);
    }
  }

  // ----- exactly how a call ends -----

  /** An answer after which the call goes on, if it may. */
  ghost predicate GoesOn(k: nat, e: Exchange) {
    (k > 0 && Blank(e.response)) || (Accurate(e.sent, e.response) && e.response.body.failed != [])
  }

  ghost predicate AllGoOn(log: seq<Exchange>) { forall k :: 0 <= k < |log| ==> GoesOn(k, log[k]) }

  /** The answer that ends a call ends it with this verdict. */
  ghost predicate EndsWith(k: nat, e: Exchange, total: nat, r: Result<nat, Failure>) {
    if Refused(e.response) then r == Err(Http(e.response.status))
    else if Blank(e.response) then k == 0 && r == Ok(total)
    else if Accurate(e.sent, e.response) then e.response.body.failed == [] && r == Ok(total)
    else r.Err? && Mismatch(e.sent, e.response, r.error)
  }

  /** How a call with these exchanges ends: with three answers that name ops, or leave
      them open, or with no answer to a request, or by its last answer. */
  ghost predicate Ends(server: Server, ops: seq<BatchOp>, r: Result<nat, Failure>, log: seq<Exchange>) {
    if AllGoOn(log) then
      if |log| < 3 then server(|log|, StillNamed(ops, log)).None? && r == Err(Transport)
      else |log| == 3 && r == Err(StillFailing(StillNamed(ops, log)))
    else
      var n := |log| - 1;
      n < 3 && AllGoOn(log[..n]) && EndsWith(n, log[n], |ops|, r)
  }

  /** The call so far: every answer left ops pending. */
  ghost predicate Going(server: Server, ops: seq<BatchOp>, log: seq<Exchange>, pending: seq<BatchOp>) {
    |log| < 3 && AllGoOn(log) && pending == StillNamed(ops, log)
  }

  lemma {:induction false} PendingGrows(ops: seq<BatchOp>, log: seq<Exchange>, e: Exchange)
    requires GoesOn(|log|, e) && e.sent == StillNamed(ops, log) && AllGoOn(log)
    ensures AllGoOn(log + [e]) && StillNamed(ops, log + [e]) == SentAfter(e)
  {
    StillNamedGrows(ops, log, e);
  }

  lemma {:induction false} LastEnds(server: Server, ops: seq<BatchOp>, log: seq<Exchange>, e: Exchange,
                                    r: Result<nat, Failure>)
    requires |log| < 3 && AllGoOn(log) && !GoesOn(|log|, e) && EndsWith(|log|, e, |ops|, r)
    ensures Ends(server, ops, r, log + [e])
  {
    assert (log + [e])[|log|] == e && (log + [e])[..|log|] == log;
  }

  /** One answer of a call: it goes on, with the ops that are still named, or ends. */
  lemma {:induction false} AnswerGrows(server: Server, ops: seq<BatchOp>, log: seq<Exchange>, pending: seq<BatchOp>,
                                       resp: Response)
    requires Going(server, ops, log, pending)
    ensures var o, e := Observed(pending, |ops|, |log|, resp), Exchange(pending, resp);
            var r := if o.next.Ok? && o.next.value.Done? then Ok(o.next.value.confirmed)
                     else if o.next.Err? then Err(o.next.error) else Err(Transport);
            if o.next.Ok? && o.next.value.Retry? then Going(server, ops, log + [e], o.pending)
            else Ends(server, ops, r, log + [e])
  {
    var o, e := Observed(pending, |ops|, |log|, resp), Exchange(pending, resp);
    EveryAnswerMeans(pending, |ops|, |log|, resp);
    if GoesOn(|log|, e) {
      PendingGrows(ops, log, e);
    } else {
      var r := if o.next.Ok? then Ok(o.next.value.confirmed) else Err(o.next.error);
      LastEnds(server, ops, log, e, r);
    }
  }

  lemma {:induction false} CallEnds(server: Server, ops: seq<BatchOp>, log: seq<Exchange>, pending: seq<BatchOp>)
    requires Going(server, ops, log, pending)
    ensures Ends(server, ops, Settle(server, pending, |ops|, |log|),
                 log + Exchanges(server, pending, |ops|, |log|))
    decreases 3 - |log|
  {
    var answer := server(|log|, pending);
    if answer.None? {
      assert log + [] == log;
    } else {
      AnswerGrows(server, ops, log, pending, answer.value);
      OneRequest(server, ops, pending, log, answer.value);
      var o := Observed(pending, |ops|, |log|, answer.value);
      if o.next.Ok? && o.next.value.Retry? {
        CallEnds(server, ops, log + [Exchange(pending, answer.value)], o.pending);
      }
    }
  }

  /** The last answer confirms: it adds up and names nothing, or it is an unreadable
      success, and the only answer. */
  ghost predicate EndsWell(log: seq<Exchange>) {
    log != [] &&
    var n := |log| - 1;
    var last := log[n];
    AllGoOn(log[..n])
    && ((n == 0 && Blank(last.response)) || (Accurate(last.sent, last.response) && last.response.body.failed == []))
  }

  ghost predicate EndsRefused(log: seq<Exchange>, status: nat) {
    log != [] && Refused(log[|log| - 1].response) && log[|log| - 1].response.status == status
  }

  lemma {:induction false} OpenEnd(server: Server, ops: seq<BatchOp>, r: Result<nat, Failure>, log: seq<Exchange>,
                                   status: nat)
    requires Ends(server, ops, r, log) && AllGoOn(log)
    ensures r.Err? && !EndsWell(log) && !EndsRefused(log, status)
    ensures r.error == if |log| == 3 then StillFailing(StillNamed(ops, log)) else Transport
  {
    if log != [] { assert GoesOn(|log| - 1, log[|log| - 1]); }
  }

  lemma {:induction false} ClosedEnd(server: Server, ops: seq<BatchOp>, r: Result<nat, Failure>, log: seq<Exchange>,
                                     status: nat)
    requires Ends(server, ops, r, log) && !AllGoOn(log)
    ensures (r == Ok(|ops|) <==> EndsWell(log)) && (r == Err(Http(status)) <==> EndsRefused(log, status))
    ensures r.Err? ==> r.error != Transport && !r.error.StillFailing?
  {
    assert EndsWith(|log| - 1, log[|log| - 1], |ops|, r);
  }

  /** Exactly how a call ends, against any server. It is confirmed when its last answer
      adds up and names nothing, or when its only answer is an unreadable success; it is
      refused, with that status, when its last answer is; it gives up after three answers
      that each named ops or, on a re-send, could not be read, and then names the ops that
      every report named; it is lost when a request gets no answer. */
  lemma {:induction false} VerdictIsExact(server: Server, ops: seq<BatchOp>, status: nat, left: seq<BatchOp>)
    requires ops != []
    ensures var r, log := Settle(server, ops, |ops|, 0), Exchanges(server, ops, |ops|, 0);
            && |log| <= 3 && Ends(server, ops, r, log)
            && (r == Ok(|ops|) <==> EndsWell(log))
            && (r == Err(Http(status)) <==> EndsRefused(log, status))
            && (r == Err(StillFailing(left)) <==> |log| == 3 && AllGoOn(log) && left == StillNamed(ops, log))
            && (r == Err(Transport) <==> |log| < 3 && AllGoOn(log))
  {
    var r, log := Settle(server, ops, |ops|, 0), Exchanges(server, ops, |ops|, 0);
    NoReportNamesNothing(ops);
    CallEnds(server, ops, [], ops);
    assert [] + log == log;
    if AllGoOn(log) { OpenEnd(server, ops, r, log, status); } else { ClosedEnd(server, ops, r, log, status); }
  }

  /** The first answer of a call: none, a refusal, an unreadable success or a report that
      does not add up ends it, and so does one that names nothing; after any other one the
      call goes on with just the ops it named. */
  lemma {:induction false} FirstAnswerDecides(server: Server, ops: seq<BatchOp>)
    requires ops != []
    ensures var r, first := Settle(server, ops, |ops|, 0), server(0, ops);
            if first.None? then r == Err(Transport)
            else if Refused(first.value) then r == Err(Http(first.value.status))
            else if Blank(first.value) then r == Ok(|ops|)
            else if !Accurate(ops, first.value) then r.Err? && Mismatch(ops, first.value, r.error)
            else if first.value.body.failed == [] then r == Ok(|ops|)
            else r == Settle(server, Named(ops, SetOf(first.value.body.failed)), |ops|, 1)
  {
    if server(0, ops).Some? {
      EveryAnswerMeans(ops, |ops|, 0, server(0, ops).value);
      SettleNext(server, ops, |ops|, 0, server(0, ops).value);
    }
  }

  // ----- servers that report truly -----

  /** Every answer adds up; on a re-send it may also be a success that cannot be read. */
  ghost predicate AccurateAt(server: Server, k: nat, sent: seq<BatchOp>) {
    server(k, sent).Some?
    && (Accurate(sent, server(k, sent).value) || (k > 0 && Blank(server(k, sent).value)))
  }

  ghost predicate AccurateServer(server: Server) {
    forall k, sent :: AccurateAt(server, k, sent)
  }

  /** The ops that the answers from `attempt` on all leave open: a report those it names,
      an answer that cannot be read all of them. */
  ghost function Survivors(server: Server, pending: seq<BatchOp>, attempt: nat): seq<BatchOp>
    requires AccurateServer(server) && attempt <= 3
    decreases 3 - attempt
  {
    if attempt == 3 || pending == [] then pending
    else
      assert AccurateAt(server, attempt, pending);
      var resp := server(attempt, pending).value;
      Survivors(server, if resp.body.Unreadable? then pending else Named(pending, SetOf(resp.body.failed)), attempt + 1)
  }

  /** Against a server whose reports add up, a call succeeds exactly when none of its ops
      is left open by all three answers, and otherwise its error names exactly the ops
      that are, in order. A 422 report counts like a 2xx one; an unreadable 2xx on a
      re-send spends the attempt and confirms nothing. */
  lemma {:induction false} AccurateServerSettles(server: Server, pending: seq<BatchOp>, total: nat, attempt: nat)
    requires AccurateServer(server) && attempt < 3 && pending != []
    ensures var left := Survivors(server, pending, attempt);
            Settle(server, pending, total, attempt) == if left == [] then Ok(total) else Err(StillFailing(left))
    decreases 3 - attempt
  {
    assert AccurateAt(server, attempt, pending);
    var resp := server(attempt, pending).value;
    EveryAnswerMeans(pending, total, attempt, resp);
    SettleNext(server, pending, total, attempt, resp);
    if resp.body.Unreadable? {
      if attempt < 2 { AccurateServerSettles(server, pending, total, attempt + 1); }
    } else {
      NamedIff(pending, resp.body.failed);
      var retry := Named(pending, SetOf(resp.body.failed));
      if retry != [] && attempt < 2 { AccurateServerSettles(server, retry, total, attempt + 1); }
    }
  }

  /** The exception is real: a server that answers 200 with an unreadable body
      and applies nothing gets every op counted as confirmed. */
  lemma {:induction false} UnreadableSuccessIsTrusted(ops: seq<BatchOp>)
    requires ops != []
    ensures var server := (attempt: nat, sent: seq<BatchOp>) => Some(Response(200, Unreadable));
            && Trusted(server, ops) && Settle(server, ops, |ops|, 0) == Ok(|ops|)
            && !Confirmed(Exchanges(server, ops, |ops|, 0), ops[0])
  {
    var server := (attempt: nat, sent: seq<BatchOp>) => Some(Response(200, Unreadable));
    NoReportConfirmsNothing(ops, Exchanges(server, ops, |ops|, 0));
  }
}
