/** One model call of a turn (loop.go): the connect, reactive recovery and the stall retry. */
module ModelCall {
  import opened Basics
  import opened Transcript
  import opened Compaction
  import opened Tokens
  import opened Budget
  import opened Reconnect
  import opened RunEnv
  import opened RunLog

  const MAX_STALL_RETRIES := 1

  /** A model call under way: the history, what came of it last, the connects of the run so far, the
      compactor, and the histories sent. */
  datatype Call = Call(ms: seq<Message>, answer: Result<Collected>, connects: nat, gauge: Gauge, sent: seq<History>)

  function ErrorOf(answer: Result<Collected>): string {
    match answer
    case Err(e) => e
    case Ok(c) => c.error
  }

  /** The request goes out. */
  function Reached(o: Origin, q: Call): Call {
    var (r, connects) := Streaming(o.env.classifier, o.env.link, q.connects, MAX_RECONNECTS);
    q.(answer := r, connects := connects, sent := q.sent + [q.ms])
  }

  function CompactedAt(o: Origin, turn: nat, site: nat, ms: seq<Message>): Result<seq<Message>> {
    AfterCompact(o.env.parsers, SummarizerAt(o.env, turn, site), ms, o.keep)
  }

  /** The error is met by the one recovery of the run: a context limit, and a compaction that fails
      or makes the history smaller. */
  predicate Recoverable(o: Origin, turn: nat, site: nat, q: Call) {
    && q.gauge.enabled && !q.gauge.attempted && o.env.classifier.contextLimit(ErrorOf(q.answer))
    && var compacted := CompactedAt(o, turn, site, q.ms);
       compacted.Err? || Estimate(compacted.value) < Estimate(q.ms)
  }

  /** What recovery comes to: the compacted history is sent again, or the summarizer's error ends it. */
  function Recovered(o: Origin, turn: nat, site: nat, q: Call): Call {
    if !Recoverable(o, turn, site, q) then q
    else
      var gauge := q.gauge.(attempted := true);
      match CompactedAt(o, turn, site, q.ms)
      case Err(e) => q.(answer := Err(e), gauge := gauge)
      case Ok(compacted) =>
        Reached(o, q.(ms := compacted, gauge := gauge.(mark := Size(gauge.ratio, compacted, o.env.toolTokens(turn)))))
  }

  function Sending(o: Origin, turn: nat, ms: seq<Message>, connects: nat, gauge: Gauge, sent: seq<History>): Call {
    var q := Reached(o, Call(ms, Err(""), connects, gauge, sent));
    if q.answer.Err? && !o.env.classifier.imageRejection(q.answer.error) then Recovered(o, turn, 1, q) else q
  }

  /** What becomes of a stream that ended in an error. */
  function Mended(o: Origin, turn: nat, site: nat, q: Call): Call {
    if q.answer.Err? || q.answer.value.error == "" then q
    else if o.env.classifier.imageRejection(q.answer.value.error) then q.(answer := Err(q.answer.value.error))
    else Recovered(o, turn, site, q)
  }

  function Alive(o: Origin, turn: nat, q: Call): Call {
    if q.answer.Ok? && !o.env.alive(turn, 0) then q.(answer := Err("interrupted")) else q
  }

  /** A stall is retried as long as no prose has reached the user. */
  predicate Stalled(env: Env, forwarded: bool, collected: Collected) {
    env.stalled(collected.error) && !forwarded && collected.text == ""
  }

  function Unstalled(o: Origin, forwarded: bool, q: Call): Call {
    if q.answer.Err? || !Stalled(o.env, forwarded, q.answer.value) then q
    else if !o.env.stallBackoffDone(q.connects) then q.(answer := Err("interrupted"))
    else Reached(o, q)
  }

  function Settled(q: Call): Call {
    if q.answer.Ok? && q.answer.value.error != "" then q.(answer := Err(q.answer.value.error)) else q
  }

  /** What the call of a turn comes to. */
  function Called(o: Origin, turn: nat, ms: seq<Message>, connects: nat, gauge: Gauge, sent: seq<History>): Call {
    var now := Sending(o, turn, ms, connects, gauge, sent);
    var forwarded := now.answer.Ok? && now.answer.value.forwards;
    Settled(Mended(o, turn, 3, Unstalled(o, forwarded, Alive(o, turn, Mended(o, turn, 2, now)))))
  }

  // ---- the methods ----

  /** recover, and the one reissue behind it. */
  method RecoverAndResend(env: Env, compactor: CompactionState, ghost o: Origin, turn: nat, site: nat,
                          ms: seq<Message>, answer: Result<Collected>, connects: nat, ghost log: Log)
    returns (ms': seq<Message>, r: Result<Collected>, connects': nat, ghost log': Log)
    requires o.env == env && compactor.preserveLast == o.keep && Standing(o, log, ms)
    modifies compactor`lowWaterMark, compactor`reactiveAttempted
    ensures Standing(o, log', ms') && Shrunk(log.trace, log'.trace)
    ensures Call(ms', r, connects', compactor.Reading(), MessagesOf(log'.sent))
         == Recovered(o, turn, site, Call(ms, answer, connects, old(compactor.Reading()), MessagesOf(log.sent)))
  {
    hide Standing, AfterCompact, Kept, Retried, Size, Estimate, Streamed;
    var out, retried, failure :=
      compactor.Recover(env.parsers, SummarizerAt(env, turn, site), ms, env.toolTokens(turn), ErrorOf(answer));
    ms', r, connects', log' := ms, answer, connects, log;
    if retried {
      ms' := out;
      if failure.Some? {
        r := Err(failure.value);
      } else {
        CompactStands(o, log, turn, site, ms, out);
        log' := log.(trace := log.trace + CompactSteps(SummarizerAt(env, turn, site), ms, o.keep));
        RequestStands(o, log', ms');
        log' := Sent(log', ms');
        r, connects' := StreamWithReconnect(env.classifier, env.link, connects);
        StreamingIsStreamed(env.classifier, env.link, connects, r, connects');
      }
    }
  }

  /** The connect of a turn, with its reactive recovery. */
  method Send(env: Env, compactor: CompactionState, ghost o: Origin, turn: nat,
              ms: seq<Message>, connects: nat, ghost log: Log)
    returns (ms': seq<Message>, r: Result<Collected>, connects': nat, ghost log': Log)
    requires o.env == env && compactor.preserveLast == o.keep && Standing(o, log, ms)
    modifies compactor`lowWaterMark, compactor`reactiveAttempted
    ensures Standing(o, log', ms') && Shrunk(log.trace, log'.trace)
    ensures Call(ms', r, connects', compactor.Reading(), MessagesOf(log'.sent))
         == Sending(o, turn, ms, connects, old(compactor.Reading()), MessagesOf(log.sent))
  {
    hide Standing, Retried, Streamed, Recovered;
    RequestStands(o, log, ms);
    ms', log' := ms, Sent(log, ms);
    r, connects' := StreamWithReconnect(env.classifier, env.link, connects);
    StreamingIsStreamed(env.classifier, env.link, connects, r, connects');
    if r.Err? {
      if env.classifier.imageRejection(r.error) {
        return;
      }
      ms', r, connects', log' := RecoverAndResend(env, compactor, o, turn, 1, ms, r, connects', log');
    }
  }

  /** recoverStreamError. */
  method RecoverStreamError(env: Env, compactor: CompactionState, ghost o: Origin, turn: nat, site: nat,
                            ms: seq<Message>, collected: Collected, connects: nat, ghost log: Log)
    returns (ms': seq<Message>, r: Result<Collected>, connects': nat, ghost log': Log)
    requires o.env == env && compactor.preserveLast == o.keep && Standing(o, log, ms) && collected.error != ""
    modifies compactor`lowWaterMark, compactor`reactiveAttempted
    ensures Standing(o, log', ms') && Shrunk(log.trace, log'.trace)
    ensures Call(ms', r, connects', compactor.Reading(), MessagesOf(log'.sent))
         == Mended(o, turn, site, Call(ms, Ok(collected), connects, old(compactor.Reading()), MessagesOf(log.sent)))
  {
    hide Standing, Recovered;
    ms', r, connects', log' := ms, Ok(collected), connects, log;
    if env.classifier.imageRejection(collected.error) {
      r := Err(collected.error);
      return;
    }
    ms', r, connects', log' := RecoverAndResend(env, compactor, o, turn, site, ms, r, connects, log);
  }

  /** The stall retry: at most once, and only while no prose has reached the user; `forwarded` tells
      whether the first stream of the turn log any. */
  method RetryStalled(env: Env, ghost o: Origin, ms: seq<Message>, collected: Collected, forwarded: bool,
                      connects: nat, ghost gauge: Gauge, ghost log: Log)
    returns (r: Result<Collected>, connects': nat, ghost log': Log)
    requires o.env == env && Standing(o, log, ms)
    ensures Standing(o, log', ms) && Shrunk(log.trace, log'.trace)
    ensures Call(ms, r, connects', gauge, MessagesOf(log'.sent))
         == Unstalled(o, forwarded, Call(ms, Ok(collected), connects, gauge, MessagesOf(log.sent)))
  {
    hide Standing, Retried, Streamed;
    r, connects', log' := Ok(collected), connects, log;
    ghost var before := Call(ms, r, connects, gauge, MessagesOf(log.sent));
    var visible := forwarded;
    for attempt := 1 to MAX_STALL_RETRIES + 1
      invariant r.Ok? && Standing(o, log', ms) && Shrunk(log.trace, log'.trace)
      invariant attempt == 1 ==> Call(ms, r, connects', gauge, MessagesOf(log'.sent)) == before && visible == forwarded
      invariant attempt > 1 ==> Call(ms, r, connects', gauge, MessagesOf(log'.sent)) == Unstalled(o, forwarded, before)
    {
      if !(env.stalled(r.value.error) && !visible && r.value.text == "") {
        break;
      }
      if !env.stallBackoffDone(connects') {
        r := Err("interrupted");
        return;
      }
      RequestStands(o, log', ms);
      log' := Sent(log', ms);
      ghost var from := connects';
      r, connects' := StreamWithReconnect(env.classifier, env.link, connects');
      StreamingIsStreamed(env.classifier, env.link, from, r, connects');
      if r.Err? {
        return;
      }
      visible := visible || r.value.forwards;
    }
  }

  /** From the request of a turn to an answer without error, or to the error that ends the run. */
  method AskModel(env: Env, compactor: CompactionState, ghost o: Origin, turn: nat,
                  ms: seq<Message>, connects: nat, ghost log: Log)
    returns (ms': seq<Message>, r: Result<Collected>, connects': nat, ghost log': Log)
    requires o.env == env && compactor.preserveLast == o.keep && Standing(o, log, ms)
    modifies compactor`lowWaterMark, compactor`reactiveAttempted
    ensures Standing(o, log', ms') && Shrunk(log.trace, log'.trace)
    ensures Call(ms', r, connects', compactor.Reading(), MessagesOf(log'.sent))
         == Called(o, turn, ms, connects, old(compactor.Reading()), MessagesOf(log.sent))
  {
    hide Standing, Sending, Shrunk, Recovered, Reached;
    ms', r, connects', log' := Send(env, compactor, o, turn, ms, connects, log);
    if r.Err? {
      return;
    }
    var forwarded := r.value.forwards;
    if r.value.error != "" {
      ghost var steps := log'.trace;
      ms', r, connects', log' := RecoverStreamError(env, compactor, o, turn, 2, ms', r.value, connects', log');
      ShrunkTwice(log.trace, steps, log'.trace);
      if r.Err? {
        return;
      }
    }
    if !env.alive(turn, 0) {
      r := Err("interrupted");
      return;
    }
    ghost var steps := log'.trace;
    r, connects', log' := RetryStalled(env, o, ms', r.value, forwarded, connects', compactor.Reading(), log');
    ShrunkTwice(log.trace, steps, log'.trace);
    if r.Err? {
      return;
    }
    if r.value.error != "" {
      ghost var steps := log'.trace;
      ms', r, connects', log' := RecoverStreamError(env, compactor, o, turn, 3, ms', r.value, connects', log');
      ShrunkTwice(log.trace, steps, log'.trace);
      if r.Ok? && r.value.error != "" {
        r := Err(r.value.error);
      }
    }
  }

  // ---- what the call comes to ----

  /** What can end a turn without an answer: the last connect failed, or its stream did; the run was dead
      or the wait cut short; or the summarizer failed. */
  ghost predicate AskFailed(o: Origin, turn: nat, e: string, connects: nat) {
    || (connects > 0 && ErrorOf(o.env.link.connect(connects - 1)) == e
        && (e == "" ==> o.env.link.connect(connects - 1).Err?))
    || (e == "interrupted" && (!o.env.alive(turn, 0) || !o.env.stallBackoffDone(connects)))
    || (exists site: nat, ms :: CompactedAt(o, turn, site, ms) == Err(e))
  }

  /** An answer is that of the last connect, and an error has its cause. */
  ghost predicate Sourced(o: Origin, turn: nat, from: nat, q: Call) {
    && from < q.connects
    && (q.answer.Ok? ==> o.env.link.connect(q.connects - 1) == q.answer)
    && (q.answer.Err? ==> AskFailed(o, turn, q.answer.error, q.connects))
  }

  lemma ReachedIsSourced(o: Origin, turn: nat, from: nat, q: Call)
    requires from <= q.connects
    ensures Sourced(o, turn, from, Reached(o, q)) && Reached(o, q).connects <= q.connects + 5
  {
    hide Retried;
    StreamingEnds(o.env.classifier, o.env.link, q.connects, MAX_RECONNECTS);
  }

  lemma RecoveredIsSourced(o: Origin, turn: nat, site: nat, from: nat, q: Call)
    requires Sourced(o, turn, from, q)
    ensures Sourced(o, turn, from, Recovered(o, turn, site, q))
    ensures Recovered(o, turn, site, q).connects + Spent(q.gauge.attempted)
         <= q.connects + Spent(Recovered(o, turn, site, q).gauge.attempted)
  {
    hide CompactedAt, Estimate, Size, Reached;
    if Recoverable(o, turn, site, q) {
      match CompactedAt(o, turn, site, q.ms) {
        case Err(_) =>
        case Ok(compacted) =>
          var gauge := q.gauge.(attempted := true, mark := Size(q.gauge.ratio, compacted, o.env.toolTokens(turn)));
          var again := q.(ms := compacted, gauge := gauge);
          ReachedIsSourced(o, turn, from, again);
          KeptByReach(o, again);
      }
    }
  }

  lemma KeptByReach(o: Origin, q: Call)
    ensures Reached(o, q).ms == q.ms && Reached(o, q).gauge == q.gauge
  {
  }

  /** The connects the one reactive recovery of a run may cost. */
  function Spent(attempted: bool): nat {
    if attempted then 1 + MAX_RECONNECTS else 0
  }

  /** At most ten connects, and five more once in a run; an answer has no error and is that of the last
      connect; an error has its cause. */
  lemma CalledIsSourced(o: Origin, turn: nat, ms: seq<Message>, connects: nat, gauge: Gauge, sent: seq<History>)
    ensures var q := Called(o, turn, ms, connects, gauge, sent);
      && Sourced(o, turn, connects, q)
      && (q.answer.Ok? ==> q.answer.value.error == "")
      && q.connects + Spent(gauge.attempted) <= connects + 10 + Spent(q.gauge.attempted)
  {
    hide Sourced, Recovered, Reached;
    var start := Call(ms, Err(""), connects, gauge, sent);
    ReachedIsSourced(o, turn, connects, start);
    KeptByReach(o, start);
    RecoveredIsSourced(o, turn, 1, connects, Reached(o, start));
    var now := Sending(o, turn, ms, connects, gauge, sent);
    MendedIsSourced(o, turn, 2, connects, now);
    var mended := Mended(o, turn, 2, now);
    AliveIsSourced(o, turn, connects, mended);
    var forwarded := now.answer.Ok? && now.answer.value.forwards;
    UnstalledIsSourced(o, turn, forwarded, connects, Alive(o, turn, mended));
    var again := Unstalled(o, forwarded, Alive(o, turn, mended));
    MendedIsSourced(o, turn, 3, connects, again);
    SettledIsSourced(o, turn, connects, Mended(o, turn, 3, again));
  }

  lemma MendedIsSourced(o: Origin, turn: nat, site: nat, from: nat, q: Call)
    requires Sourced(o, turn, from, q)
    ensures var m := Mended(o, turn, site, q);
      Sourced(o, turn, from, m) && m.connects + Spent(q.gauge.attempted) <= q.connects + Spent(m.gauge.attempted)
  {
    hide Recovered, CompactedAt;
    RecoveredIsSourced(o, turn, site, from, q);
  }

  lemma AliveIsSourced(o: Origin, turn: nat, from: nat, q: Call)
    requires Sourced(o, turn, from, q)
    ensures Sourced(o, turn, from, Alive(o, turn, q))
  {
    hide CompactedAt;
  }

  lemma UnstalledIsSourced(o: Origin, turn: nat, forwarded: bool, from: nat, q: Call)
    requires Sourced(o, turn, from, q)
    ensures var u := Unstalled(o, forwarded, q);
      Sourced(o, turn, from, u) && u.connects <= q.connects + 5 && u.gauge == q.gauge
  {
    hide CompactedAt, Reached;
    ReachedIsSourced(o, turn, from, q);
    KeptByReach(o, q);
  }

  lemma SettledIsSourced(o: Origin, turn: nat, from: nat, q: Call)
    requires Sourced(o, turn, from, q)
    ensures var s := Settled(q);
      Sourced(o, turn, from, s) && s.connects == q.connects && s.gauge == q.gauge
      && (s.answer.Ok? ==> s.answer.value.error == "")
  {
    hide CompactedAt;
  }

  /** Nothing but the one recovery changes the history or the compactor. */
  predicate OnceRecovered(q: Call, u: Call) {
    && u.gauge == q.gauge.(attempted := u.gauge.attempted, mark := u.gauge.mark)
    && (q.gauge.attempted ==> u.gauge == q.gauge)
    && if u.gauge.attempted == q.gauge.attempted then u.gauge == q.gauge && u.ms == q.ms
       else q.gauge.enabled && (u.ms == q.ms || Estimate(u.ms) < Estimate(q.ms))
  }

  lemma RecoveredOnce(o: Origin, turn: nat, site: nat, q: Call)
    ensures OnceRecovered(q, Recovered(o, turn, site, q))
  {
    hide CompactedAt, Estimate, Size, Reached;
    if Recoverable(o, turn, site, q) && CompactedAt(o, turn, site, q.ms).Ok? {
      var compacted := CompactedAt(o, turn, site, q.ms).value;
      var gauge := q.gauge.(attempted := true, mark := Size(q.gauge.ratio, compacted, o.env.toolTokens(turn)));
      KeptByReach(o, q.(ms := compacted, gauge := gauge));
    }
  }

  lemma ThenOnce(q: Call, u: Call, v: Call)
    requires OnceRecovered(q, u) && OnceRecovered(u, v)
    ensures OnceRecovered(q, v)
  {
    hide Estimate;
  }

  /** A call changes the history only by the one recovery of the run, and never without a context window. */
  lemma CalledHistory(o: Origin, turn: nat, ms: seq<Message>, connects: nat, gauge: Gauge, sent: seq<History>)
    ensures OnceRecovered(Call(ms, Err(""), connects, gauge, sent), Called(o, turn, ms, connects, gauge, sent))
  {
    hide Recovered, Reached, OnceRecovered;
    var start := Call(ms, Err(""), connects, gauge, sent);
    var now := Sending(o, turn, ms, connects, gauge, sent);
    KeptByReach(o, start);
    RecoveredOnce(o, turn, 1, Reached(o, start));
    SameOnce(start, Reached(o, start));
    SameOnce(start, start);
    if now != Reached(o, start) {
      ThenOnce(start, Reached(o, start), now);
    }
    MendedOnce(o, turn, 2, now);
    var mended := Mended(o, turn, 2, now);
    ThenOnce(start, now, mended);
    var forwarded := now.answer.Ok? && now.answer.value.forwards;
    var alive := Alive(o, turn, mended);
    SameOnce(mended, alive);
    ThenOnce(start, mended, alive);
    var again := Unstalled(o, forwarded, alive);
    KeptByReach(o, alive);
    SameOnce(alive, again);
    ThenOnce(start, alive, again);
    MendedOnce(o, turn, 3, again);
    var last := Mended(o, turn, 3, again);
    ThenOnce(start, again, last);
    SameOnce(last, Settled(last));
    ThenOnce(start, last, Settled(last));
  }

  lemma SameOnce(q: Call, u: Call)
    requires u.ms == q.ms && u.gauge == q.gauge
    ensures OnceRecovered(q, u)
  {
  }

  lemma MendedOnce(o: Origin, turn: nat, site: nat, q: Call)
    ensures OnceRecovered(q, Mended(o, turn, site, q))
  {
    hide Recovered, OnceRecovered;
    RecoveredOnce(o, turn, site, q);
    SameOnce(q, q);
    if q.answer.Ok? {
      SameOnce(q, q.(answer := Err(q.answer.value.error)));
    }
  }

  /** The first request of a call is its history, behind all that were sent before. */
  lemma CalledSends(o: Origin, turn: nat, ms: seq<Message>, connects: nat, gauge: Gauge, sent: seq<History>)
    ensures sent + [ms] <= Called(o, turn, ms, connects, gauge, sent).sent
  {
    hide CompactedAt, Estimate, Size, Streaming;
    var now := Sending(o, turn, ms, connects, gauge, sent);
    SendsMore(o, turn, 1, Reached(o, Call(ms, Err(""), connects, gauge, sent)));
    SendsMore(o, turn, 2, now);
    var alive := Alive(o, turn, Mended(o, turn, 2, now));
    var again := Unstalled(o, now.answer.Ok? && now.answer.value.forwards, alive);
    SendsMore(o, turn, 3, again);
  }

  lemma SendsMore(o: Origin, turn: nat, site: nat, q: Call)
    ensures q.sent <= Recovered(o, turn, site, q).sent && q.sent <= Mended(o, turn, site, q).sent
    ensures forall forwarded :: q.sent <= Unstalled(o, forwarded, q).sent
  {
    hide CompactedAt, Estimate, Size, Streaming;
  }

  /** A first answer without error is taken as it is. */
  lemma FirstAnswerIsTaken(o: Origin, turn: nat, ms: seq<Message>, connects: nat, gauge: Gauge, sent: seq<History>)
    requires !o.env.stalled("") && o.env.alive(turn, 0)
    ensures var first := Reached(o, Call(ms, Err(""), connects, gauge, sent));
      first.answer.Ok? && first.answer.value.error == "" ==> Called(o, turn, ms, connects, gauge, sent) == first
  {
    hide Reached;
  }

  /** An image rejection ends the call, and so does a dead run behind a good answer. */
  lemma RejectionEndsTheCall(o: Origin, turn: nat, ms: seq<Message>, connects: nat, gauge: Gauge, sent: seq<History>)
    ensures
      var first, q := Reached(o, Call(ms, Err(""), connects, gauge, sent)), Called(o, turn, ms, connects, gauge, sent);
      && (ErrorOf(first.answer) != "" && o.env.classifier.imageRejection(ErrorOf(first.answer)) ==>
            q == first.(answer := Err(ErrorOf(first.answer))))
      && (first.answer.Ok? && first.answer.value.error == "" && !o.env.alive(turn, 0) ==>
            q == first.(answer := Err("interrupted")))
  {
    hide Reached, Recovered;
  }

  /** A first error that can be recovered from spends the recovery: the summarizer's error ends the call,
      or the compacted history is sent, and an answer to it without error is taken. */
  lemma RecoveryIsNotMissed(o: Origin, turn: nat, ms: seq<Message>, connects: nat, gauge: Gauge, sent: seq<History>)
    requires !o.env.stalled("") && o.env.alive(turn, 0)
    ensures
      var first, q := Reached(o, Call(ms, Err(""), connects, gauge, sent)), Called(o, turn, ms, connects, gauge, sent);
      var site: nat := if first.answer.Err? then 1 else 2;
      && ErrorOf(first.answer) != "" && !o.env.classifier.imageRejection(ErrorOf(first.answer))
      && Recoverable(o, turn, site, first)
      ==>
        && q.gauge.attempted
        && match CompactedAt(o, turn, site, ms)
           case Err(e) => q.answer == Err(e) && q.connects == first.connects && q.ms == ms
           case Ok(compacted) =>
             var (again, n) := Streaming(o.env.classifier, o.env.link, first.connects, MAX_RECONNECTS);
             && q.ms == compacted && q.connects >= n
             && (again.Ok? && again.value.error == "" ==> q.answer == again && q.connects == n)
             && (again.Err? ==> q.answer == again && q.connects == n)
  {
    hide Reached, Recovered;
    var start := Call(ms, Err(""), connects, gauge, sent);
    var first := Reached(o, start);
    KeptByReach(o, start);
    var site: nat := if first.answer.Err? then 1 else 2;
    if ErrorOf(first.answer) != "" && !o.env.classifier.imageRejection(ErrorOf(first.answer))
       && Recoverable(o, turn, site, first) {
      RecoveredBy(o, turn, site, first);
      var q := Recovered(o, turn, site, first);
      LaterIsNotRecovered(o, turn, ms, connects, gauge, sent, q);
    }
  }

  lemma RecoveredBy(o: Origin, turn: nat, site: nat, q: Call)
    requires Recoverable(o, turn, site, q)
    ensures var u := Recovered(o, turn, site, q);
      && u.gauge.attempted
      && match CompactedAt(o, turn, site, q.ms)
         case Err(e) => u.answer == Err(e) && u.connects == q.connects && u.ms == q.ms
         case Ok(compacted) =>
           var (again, n) := Streaming(o.env.classifier, o.env.link, q.connects, MAX_RECONNECTS);
           u.ms == compacted && u.answer == again && u.connects == n
  {
    hide CompactedAt, Estimate, Size, Streaming;
  }

  /** Behind the recovery the answer stands as it is, or is asked for again. */
  lemma LaterIsNotRecovered(o: Origin, turn: nat, ms: seq<Message>, connects: nat, gauge: Gauge, sent: seq<History>,
                            u: Call)
    requires !o.env.stalled("") && o.env.alive(turn, 0) && u.gauge.attempted
    requires var first := Reached(o, Call(ms, Err(""), connects, gauge, sent));
      && ErrorOf(first.answer) != "" && !o.env.classifier.imageRejection(ErrorOf(first.answer))
      && u == Recovered(o, turn, if first.answer.Err? then 1 else 2, first)
    ensures var q := Called(o, turn, ms, connects, gauge, sent);
      && q.gauge == u.gauge && q.ms == u.ms && q.connects >= u.connects
      && (u.answer.Err? ==> q == u)
      && (u.answer.Ok? && u.answer.value.error == "" ==> q == u)
  {
    hide Reached, Recovered, Recoverable;
    var now := Sending(o, turn, ms, connects, gauge, sent);
    var mended := Mended(o, turn, 2, now);
    SpentIsSpent(o, turn, 2, u);
    assert mended == u || (u.answer.Ok? && mended == u.(answer := Err(ErrorOf(u.answer))));
    var forwarded := now.answer.Ok? && now.answer.value.forwards;
    var again := Unstalled(o, forwarded, Alive(o, turn, mended));
    KeptByReach(o, mended);
    ReachedIsSourced(o, turn, mended.connects, mended);
    SpentIsSpent(o, turn, 3, again);
  }

  lemma SpentIsSpent(o: Origin, turn: nat, site: nat, q: Call)
    requires q.gauge.attempted
    ensures Recovered(o, turn, site, q) == q
  {
    hide CompactedAt;
  }

  /** A stall nobody saw anything of, and no recovery meets, is retried behind the wait. */
  lemma StallIsNotMissed(o: Origin, turn: nat, ms: seq<Message>, connects: nat, gauge: Gauge, sent: seq<History>)
    requires o.env.alive(turn, 0)
    ensures
      var first := Reached(o, Call(ms, Err(""), connects, gauge, sent));
      var q := Called(o, turn, ms, connects, gauge, sent);
      && first.answer.Ok? && first.answer.value.error != ""
         && Stalled(o.env, first.answer.value.forwards, first.answer.value)
      && !o.env.classifier.imageRejection(first.answer.value.error) && !Recoverable(o, turn, 2, first)
      ==> if !o.env.stallBackoffDone(first.connects) then q.answer == Err("interrupted") && q.connects == first.connects
          else var again := Reached(o, first);
               && q.connects >= again.connects > first.connects
               && (again.answer.Ok? && again.answer.value.error == "" ==> q == again)
  {
    hide Recoverable, Reached, Recovered;
    var start := Call(ms, Err(""), connects, gauge, sent);
    var first := Reached(o, start);
    var again := Reached(o, first);
    ReachedIsSourced(o, turn, connects, start);
    ReachedIsSourced(o, turn, first.connects, first);
    RecoveredOrNot(o, turn, 2, first);
    MendedGoesOn(o, turn, 3, again);
  }

  lemma RecoveredOrNot(o: Origin, turn: nat, site: nat, q: Call)
    ensures !Recoverable(o, turn, site, q) ==> Recovered(o, turn, site, q) == q
  {
    hide Recoverable;
  }

  lemma MendedGoesOn(o: Origin, turn: nat, site: nat, q: Call)
    ensures Mended(o, turn, site, q).connects >= q.connects
  {
    hide Recoverable, CompactedAt, Size, Streaming;
    if Recoverable(o, turn, site, q) && CompactedAt(o, turn, site, q.ms).Ok? {
      StreamingEnds(o.env.classifier, o.env.link, q.connects, MAX_RECONNECTS);
    }
  }
}
