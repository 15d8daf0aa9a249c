/** One model call: streaming with fallback models, retries, output limits and aborts. */
module ModelCall {
  import opened Options
  import opened OutputMeter

  /** Whether a final response passes the output limits; checking it may itself throw. */
  datatype Check = Fits | OverLimit | Malformed

  datatype Reply = Reply(id: nat, check: Check)

  datatype Failure = LimitError | AbortError | OtherError

  datatype Piece = Delta(text: Text) | Final(reply: Reply)

  /** A part as the consumer loop meets it: the abort signal is read before the part is used. */
  datatype Part = Part(abortedBefore: bool, piece: Piece)

  /** One try of a non-streaming candidate. */
  datatype Attempt = Attempt(abortedBefore: bool, sleepAborted: bool, answer: Answer)

  /** What a non-streaming call answers; `transient` classifies the error it leads to, if any, and
      `abortedThen` is the signal when that error is handled. A limit error is never transient. */
  datatype Answer =
    | Answered(reply: Reply, transient: bool, abortedThen: bool)
    | Threw(error: Failure, transient: bool, abortedThen: bool)

  /** A stream delivers its parts and then ends or throws; `abortedAfter` is the signal after it. */
  datatype Candidate =
    | Streaming(parts: seq<Part>, error: Option<Failure>, abortedAfter: bool)
    | Completing(attempts: nat -> Attempt)

  datatype Outcome =
    | Resolved(candidate: nat, reply: Reply)
    | Aborted
    | Failed(error: Failure, limited: Option<Reply>)
    | NotStored

  /** A delta the consumer received, with the candidate it came from. */
  datatype Emission = Emission(candidate: nat, text: Text)

  function Texts(emitted: seq<Emission>): seq<Text> {
    seq(|emitted|, k requires 0 <= k < |emitted| => emitted[k].text)
  }

  predicate FromOnly(emitted: seq<Emission>, candidate: nat) {
    forall k :: 0 <= k < |emitted| ==> emitted[k].candidate == candidate
  }

  // ---- what a candidate does ------------------------------------------------------------------------------------

  /** How a stream ended: the deltas passed on, and what came last. */
  datatype StreamEnd = StreamEnd(
    texts: seq<Text>, final: Option<Reply>, error: Option<Failure>, limited: Option<Reply>, aborted: bool)

  /** How a final response ends the stream. */
  function FinalEnd(texts: seq<Text>, reply: Reply): StreamEnd {
    match reply.check
    case Fits => StreamEnd(texts, Some(reply), None, None, false)
    case OverLimit => StreamEnd(texts, None, Some(LimitError), Some(reply), false)
    case Malformed => StreamEnd(texts, None, Some(OtherError), None, false)
  }

  /** The stream from part `k` on, after `texts` of `bytes` bytes were passed on. */
  function StreamFrom(parts: seq<Part>, thrown: Option<Failure>, ceiling: nat,
                      k: nat, texts: seq<Text>, bytes: nat): StreamEnd
    requires k <= |parts|
    decreases |parts| - k
  {
    if k == |parts| then StreamEnd(texts, None, thrown, None, false)
    else if parts[k].abortedBefore then StreamEnd(texts, None, None, None, true)
    else
      match parts[k].piece
      case Delta(delta) =>
        if bytes + |Utf8(delta)| > ceiling then StreamEnd(texts, None, Some(LimitError), None, false)
        else StreamFrom(parts, thrown, ceiling, k + 1, texts + [delta], bytes + |Utf8(delta)|)
      case Final(reply) => FinalEnd(texts, reply)
  }

  function StreamOf(parts: seq<Part>, thrown: Option<Failure>, ceiling: nat): StreamEnd {
    StreamFrom(parts, thrown, ceiling, 0, [], 0)
  }

  /** How the retries of a candidate ended, after `made` calls. */
  datatype RetryEnd = RetryEnd(reply: Option<Reply>, error: Failure, limited: Option<Reply>, aborted: bool, made: nat)

  function RetriesFrom(attempts: nat -> Attempt, limit: nat, backoff: bool, n: nat, error: Failure): RetryEnd
    decreases if n < limit then limit - n else 0
  {
    if n >= limit then RetryEnd(None, error, None, false, n)
    else
      var a := attempts(n);
      if a.abortedBefore || (n > 0 && backoff && a.sleepAborted) then RetryEnd(None, error, None, true, n)
      else
        match a.answer
        case Answered(r, transient, abortedThen) =>
          if r.check.Fits? then RetryEnd(Some(r), error, None, false, n + 1)
          else if abortedThen then RetryEnd(None, error, None, true, n + 1)
          else if r.check.OverLimit? then RetryEnd(None, LimitError, Some(r), false, n + 1)
          else if !transient then RetryEnd(None, OtherError, None, false, n + 1)
          else RetriesFrom(attempts, limit, backoff, n + 1, OtherError)
        case Threw(e, transient, abortedThen) =>
          if abortedThen || e.AbortError? then RetryEnd(None, error, None, true, n + 1)
          else if !transient || e.LimitError? then RetryEnd(None, e, None, false, n + 1)
          else RetriesFrom(attempts, limit, backoff, n + 1, e)
  }

  /** What one candidate means for the search: an end with the text to store, or the next candidate. */
  datatype Step = Stop(outcome: Outcome, text: Text) | Next

  function AfterStream(index: nat, end: StreamEnd, abortedAfter: bool): Step {
    if end.aborted || abortedAfter || end.error == Some(AbortError) then Stop(Aborted, Concat(end.texts))
    else if end.error == Some(LimitError) then Stop(Failed(LimitError, end.limited), Concat(end.texts))
    else if end.final.Some? then Stop(Resolved(index, end.final.value), [])
    else if end.texts != [] then Stop(Failed(OtherError, None), Concat(end.texts))
    else Next
  }

  function AfterRetries(index: nat, end: RetryEnd): Step {
    if end.aborted then Stop(Aborted, [])
    else if end.reply.Some? then Stop(Resolved(index, end.reply.value), [])
    else if end.error.LimitError? then Stop(Failed(LimitError, end.limited), [])
    else Next
  }

  function Each(maxAttempts: nat): (n: nat)
    ensures n >= 1 && n >= maxAttempts && (n == 1 || n == maxAttempts)
  {
    if maxAttempts == 0 then 1 else maxAttempts
  }

  function StepOf(index: nat, candidate: Candidate, ceiling: nat, maxAttempts: nat, backoff: bool): Step {
    match candidate
    case Streaming(parts, thrown, abortedAfter) => AfterStream(index, StreamOf(parts, thrown, ceiling), abortedAfter)
    case Completing(attempts) => AfterRetries(index, RetriesFrom(attempts, Each(maxAttempts), backoff, 0, OtherError))
  }

  /** The candidate at `k` decides the turn: all earlier ones gave way without a delta. */
  ghost predicate Decides(candidates: seq<Candidate>, k: nat, ceiling: nat, maxAttempts: nat, backoff: bool) {
    && k < |candidates| && StepOf(k, candidates[k], ceiling, maxAttempts, backoff).Stop?
    && forall j :: 0 <= j < k ==> StepOf(j, candidates[j], ceiling, maxAttempts, backoff).Next?
  }

  /** The deltas a candidate passed on. */
  function TextsOf(candidate: Candidate, ceiling: nat): seq<Text> {
    match candidate
    case Streaming(parts, thrown, _) => StreamOf(parts, thrown, ceiling).texts
    case Completing(_) => []
  }

  // ---- the same, told from the parts and the attempts alone ------------------------------------------------------

  /** The text of a delta that arrives before any abort. */
  predicate Passes(part: Part, text: Text) {
    !part.abortedBefore && part.piece.Delta? && part.piece.text == text
  }

  function Bytes(texts: seq<Text>): nat {
    if texts == [] then 0 else Bytes(texts[..|texts| - 1]) + |Utf8(texts[|texts| - 1])|
  }

  /** The deltas passed on are the first parts. */
  ghost predicate PassedOn(parts: seq<Part>, ceiling: nat, texts: seq<Text>) {
    && |texts| <= |parts| && Bytes(texts) <= ceiling
    && forall k :: 0 <= k < |texts| ==> Passes(parts[k], texts[k])
  }

  /** What the part after the passed-on deltas does to the stream. */
  ghost predicate Closes(part: Part, ceiling: nat, end: StreamEnd) {
    if part.abortedBefore then end.aborted && end.error.None? && end.final.None? && end.limited.None?
    else
      && !end.aborted
      && match part.piece
         case Delta(text) =>
           && Bytes(end.texts) + |Utf8(text)| > ceiling
           && end.error == Some(LimitError) && end.final.None? && end.limited.None?
         case Final(reply) =>
           && (end.final == Some(reply) <==> reply.check.Fits?) && (end.final.Some? <==> reply.check.Fits?)
           && (end.limited == Some(reply) <==> reply.check.OverLimit?)
           && (end.limited.Some? <==> reply.check.OverLimit?)
           && (end.error.None? <==> reply.check.Fits?) && (end.error == Some(LimitError) <==> reply.check.OverLimit?)
           && (end.error == Some(OtherError) <==> reply.check.Malformed?)
  }

  /** A stream passes on its first deltas, in order and within the ceiling, and stops at the first
      part that is something else, comes after an abort or does not fit; or at its own end. */
  ghost predicate StreamLaw(parts: seq<Part>, thrown: Option<Failure>, ceiling: nat, end: StreamEnd) {
    && PassedOn(parts, ceiling, end.texts)
    && if |end.texts| < |parts| then Closes(parts[|end.texts|], ceiling, end)
       else !end.aborted && end.error == thrown && end.final.None? && end.limited.None?
  }

  lemma BytesSnoc(texts: seq<Text>, text: Text)
    ensures Bytes(texts + [text]) == Bytes(texts) + |Utf8(text)|
  {
    assert (texts + [text])[..|texts|] == texts;
  }

  /** One more delta. */
  predicate GoesOn(parts: seq<Part>, ceiling: nat, texts: seq<Text>, delta: Text) {
    |texts| < |parts| && Passes(parts[|texts|], delta) && Bytes(texts) + |Utf8(delta)| <= ceiling
  }

  lemma PassesOneMore(parts: seq<Part>, ceiling: nat, texts: seq<Text>, delta: Text)
    requires PassedOn(parts, ceiling, texts) && GoesOn(parts, ceiling, texts, delta)
    ensures PassedOn(parts, ceiling, texts + [delta])
    ensures Bytes(texts + [delta]) == Bytes(texts) + |Utf8(delta)|
  {
    BytesSnoc(texts, delta);
  }

  lemma StreamStops(parts: seq<Part>, thrown: Option<Failure>, ceiling: nat, texts: seq<Text>)
    requires PassedOn(parts, ceiling, texts) && forall delta :: !GoesOn(parts, ceiling, texts, delta)
    ensures StreamLaw(parts, thrown, ceiling, StreamFrom(parts, thrown, ceiling, |texts|, texts, Bytes(texts)))
  {
    if |texts| < |parts| && !parts[|texts|].abortedBefore && parts[|texts|].piece.Delta? {
      assert !GoesOn(parts, ceiling, texts, parts[|texts|].piece.text);
    }
  }

  lemma {:induction false} StreamFromLaw(parts: seq<Part>, thrown: Option<Failure>, ceiling: nat, texts: seq<Text>)
    requires PassedOn(parts, ceiling, texts)
    ensures StreamLaw(parts, thrown, ceiling, StreamFrom(parts, thrown, ceiling, |texts|, texts, Bytes(texts)))
    decreases |parts| - |texts|
  {
    if delta :| GoesOn(parts, ceiling, texts, delta) {
      PassesOneMore(parts, ceiling, texts, delta);
      StreamFromLaw(parts, thrown, ceiling, texts + [delta]);
    } else {
      StreamStops(parts, thrown, ceiling, texts);
    }
  }

  lemma StreamOfLaw(parts: seq<Part>, thrown: Option<Failure>, ceiling: nat)
    ensures StreamLaw(parts, thrown, ceiling, StreamOf(parts, thrown, ceiling))
  {
    StreamFromLaw(parts, thrown, ceiling, []);
  }

  /** And that says where it stops and how: there is one such end. */
  lemma StreamLawIsExact(parts: seq<Part>, thrown: Option<Failure>, ceiling: nat, a: StreamEnd, b: StreamEnd)
    requires StreamLaw(parts, thrown, ceiling, a) && StreamLaw(parts, thrown, ceiling, b)
    ensures a == b
  {
    if |a.texts| < |b.texts| {
      StreamStopsOnce(parts, thrown, ceiling, a, b);
    } else if |b.texts| < |a.texts| {
      StreamStopsOnce(parts, thrown, ceiling, b, a);
    }
    assert a.texts == b.texts;
  }

  lemma StreamStopsOnce(parts: seq<Part>, thrown: Option<Failure>, ceiling: nat, a: StreamEnd, b: StreamEnd)
    requires StreamLaw(parts, thrown, ceiling, a) && StreamLaw(parts, thrown, ceiling, b)
    ensures |a.texts| >= |b.texts|
  {
    var n: nat := |a.texts|;
    if n < |b.texts| {
      assert Passes(parts[n], b.texts[n]);
      assert a.texts == b.texts[..n];
      BytesSnoc(a.texts, b.texts[n]);
      assert b.texts[..n + 1] == a.texts + [b.texts[n]];
      BytesPrefix(b.texts, n + 1);
    }
  }

  lemma {:induction false} BytesPrefix(texts: seq<Text>, n: nat)
    requires n <= |texts|
    ensures Bytes(texts[..n]) <= Bytes(texts)
    decreases |texts|
  {
    if n < |texts| {
      var front := texts[..|texts| - 1];
      BytesPrefix(front, n);
      assert front[..n] == texts[..n];
    } else {
      assert texts[..n] == texts;
    }
  }

  /** What a call that was made leads to. */
  datatype Verdict = Accepted(reply: Reply) | Interrupted | TooLarge | Permanent | Transient

  /** A response that fits is accepted even after an abort. Otherwise an abort comes first, then a limit;
      only then does it matter whether the error is transient. */
  predicate Leads(answer: Answer, verdict: Verdict) {
    match verdict
    case Accepted(reply) => answer.Answered? && answer.reply == reply && reply.check.Fits?
    case Interrupted => (answer.abortedThen && !Fitting(answer)) || (answer.Threw? && answer.error.AbortError?)
    case TooLarge => !answer.abortedThen && Limits(answer)
    case Permanent => !answer.abortedThen && Fails(answer) && !answer.transient
    case Transient => !answer.abortedThen && Fails(answer) && answer.transient
  }

  predicate Fitting(answer: Answer) {
    answer.Answered? && answer.reply.check.Fits?
  }

  predicate Limits(answer: Answer) {
    if answer.Answered? then answer.reply.check.OverLimit? else answer.error.LimitError?
  }

  /** An error that is neither a limit nor an abort. */
  predicate Fails(answer: Answer) {
    if answer.Answered? then answer.reply.check.Malformed? else answer.error.OtherError?
  }

  /** The signal, read before a call and during the wait before a retry, lets the call at `k` be made. */
  predicate Reaches(attempts: nat -> Attempt, backoff: bool, k: nat) {
    !attempts(k).abortedBefore && !(k > 0 && backoff && attempts(k).sleepAborted)
  }

  /** `made` calls were made, and all but the last of them failed with a transient error. */
  ghost predicate Retried(attempts: nat -> Attempt, limit: nat, backoff: bool, made: nat) {
    && made <= limit
    && (forall k :: 0 <= k < made ==> Reaches(attempts, backoff, k))
    && (forall k :: 0 <= k < made - 1 ==> Leads(attempts(k).answer, Transient))
  }

  /** The loop ends after `made` calls, by the last of them, by an abort before another, or because no
      more are allowed. */
  ghost predicate RetryLaw(attempts: nat -> Attempt, limit: nat, backoff: bool, end: RetryEnd) {
    && Retried(attempts, limit, backoff, end.made)
    && (end.aborted ==>
         && end.reply.None? && end.limited.None?
         && if end.made > 0 && !Leads(attempts(end.made - 1).answer, Transient)
            then Leads(attempts(end.made - 1).answer, Interrupted)
            else end.made < limit && !Reaches(attempts, backoff, end.made))
    && (!end.aborted ==>
         && end.made > 0
         && var answer := attempts(end.made - 1).answer;
            match end.reply
            case Some(reply) => Leads(answer, Accepted(reply)) && end.limited.None?
            case None =>
              if end.error.LimitError? then
                && Leads(answer, TooLarge)
                && end.limited == (if answer.Answered? then Some(answer.reply) else None)
              else
                && end.limited.None? && end.error.OtherError?
                && (Leads(answer, Permanent) || (Leads(answer, Transient) && end.made == limit)))
  }

  lemma {:induction false} RetriesFromLaw(attempts: nat -> Attempt, limit: nat, backoff: bool, n: nat, error: Failure)
    requires 0 < limit && n <= limit && (n > 0 ==> error.OtherError?)
    requires forall k :: 0 <= k < n ==> Reaches(attempts, backoff, k) && Leads(attempts(k).answer, Transient)
    ensures RetryLaw(attempts, limit, backoff, RetriesFrom(attempts, limit, backoff, n, error))
    decreases limit - n
  {
    if n < limit && Reaches(attempts, backoff, n) && Leads(attempts(n).answer, Transient) {
      RetriesFromLaw(attempts, limit, backoff, n + 1, OtherError);
    }
  }

  /** And that says after how many calls it ends and how: two such ends differ at most in an error that
      nothing reads. */
  lemma RetryLawIsExact(attempts: nat -> Attempt, limit: nat, backoff: bool, a: RetryEnd, b: RetryEnd)
    requires RetryLaw(attempts, limit, backoff, a) && RetryLaw(attempts, limit, backoff, b)
    ensures a.made == b.made && a.aborted == b.aborted && a.reply == b.reply && a.limited == b.limited
    ensures !a.aborted && a.reply.None? ==> a.error == b.error
  {
    RetriesStopOnce(attempts, limit, backoff, a, b);
    RetriesStopOnce(attempts, limit, backoff, b, a);
  }

  lemma RetriesStopOnce(attempts: nat -> Attempt, limit: nat, backoff: bool, a: RetryEnd, b: RetryEnd)
    requires RetryLaw(attempts, limit, backoff, a) && RetryLaw(attempts, limit, backoff, b)
    ensures a.made >= b.made
  {
    assert a.made < b.made ==> Reaches(attempts, backoff, a.made);
  }

  /** The first response that fits is returned, when all calls before it failed with a transient error and
      nothing was aborted. */
  lemma FirstFitIsReturned(attempts: nat -> Attempt, maxAttempts: nat, backoff: bool, k: nat, reply: Reply)
    requires k < Each(maxAttempts) && Leads(attempts(k).answer, Accepted(reply))
    requires forall j :: 0 <= j <= k ==> Reaches(attempts, backoff, j)
    requires forall j :: 0 <= j < k ==> Leads(attempts(j).answer, Transient)
    ensures
      var end := RetriesFrom(attempts, Each(maxAttempts), backoff, 0, OtherError);
      end == RetryEnd(Some(reply), end.error, None, false, k + 1)
  {
    var limit := Each(maxAttempts);
    RetriesFromLaw(attempts, limit, backoff, 0, OtherError);
    RetryLawIsExact(attempts, limit, backoff, RetriesFrom(attempts, limit, backoff, 0, OtherError),
                    RetryEnd(Some(reply), OtherError, None, false, k + 1));
  }

  /** A streaming candidate gives way to the next one exactly when no delta was passed on, nothing was
      aborted and no limit met: an error or a silent end at once, or a first part that is malformed. */
  lemma StreamGivesWay(index: nat, parts: seq<Part>, thrown: Option<Failure>, abortedAfter: bool, ceiling: nat,
                       maxAttempts: nat, backoff: bool)
    ensures StepOf(index, Streaming(parts, thrown, abortedAfter), ceiling, maxAttempts, backoff).Next? <==>
      && !abortedAfter
      && if parts == [] then thrown.None? || thrown.value.OtherError?
         else !parts[0].abortedBefore && parts[0].piece.Final? && parts[0].piece.reply.check.Malformed?
  {
    var end := StreamOf(parts, thrown, ceiling);
    StreamOfLaw(parts, thrown, ceiling);
    if parts != [] && end.texts != [] { assert Passes(parts[0], end.texts[0]); }
  }

  /** A candidate that is called and retried gives way exactly when its last allowed call failed with a
      transient error or an earlier one with a permanent one. */
  lemma RetriesGiveWay(index: nat, attempts: nat -> Attempt, ceiling: nat, maxAttempts: nat, backoff: bool)
    ensures StepOf(index, Completing(attempts), ceiling, maxAttempts, backoff).Next? <==>
      exists made: nat ::
        && 0 < made && Retried(attempts, Each(maxAttempts), backoff, made)
        && (|| Leads(attempts(made - 1).answer, Permanent)
            || (Leads(attempts(made - 1).answer, Transient) && made == Each(maxAttempts)))
  {
    var limit := Each(maxAttempts);
    var end := RetriesFrom(attempts, limit, backoff, 0, OtherError);
    RetriesFromLaw(attempts, limit, backoff, 0, OtherError);
    if StepOf(index, Completing(attempts), ceiling, maxAttempts, backoff).Next? {
      assert Retried(attempts, limit, backoff, end.made);
    }
    forall made: nat | 0 < made && Retried(attempts, limit, backoff, made)
      && (|| Leads(attempts(made - 1).answer, Permanent)
          || (Leads(attempts(made - 1).answer, Transient) && made == limit))
      ensures !end.aborted && end.reply.None? && end.error.OtherError?
    {
      RetryLawIsExact(attempts, limit, backoff, end, RetryEnd(None, OtherError, None, false, made));
    }
  }

  /** A stream decides the turn by an abort before anything else, then by a limit, then by its response;
      what it had passed on is stored unless the response is accepted. */
  lemma StreamDecides(index: nat, parts: seq<Part>, thrown: Option<Failure>, abortedAfter: bool, ceiling: nat,
                      maxAttempts: nat, backoff: bool, end: StreamEnd)
    requires StreamLaw(parts, thrown, ceiling, end)
    ensures
      var step := StepOf(index, Streaming(parts, thrown, abortedAfter), ceiling, maxAttempts, backoff);
      var signal := abortedAfter || end.aborted || end.error == Some(AbortError);
      && (signal <==> step == Stop(Aborted, Concat(end.texts)))
      && (!signal && end.error == Some(LimitError) ==> step == Stop(Failed(LimitError, end.limited), Concat(end.texts)))
      && (!signal && end.final.Some? ==> step == Stop(Resolved(index, end.final.value), []))
      && (step.Stop? && step.outcome.Failed? && !step.outcome.error.LimitError? ==>
           end.texts != [] && end.final.None? && step == Stop(Failed(OtherError, None), Concat(end.texts)))
  {
    StreamOfLaw(parts, thrown, ceiling);
    StreamLawIsExact(parts, thrown, ceiling, end, StreamOf(parts, thrown, ceiling));
  }

  /** A retried candidate decides it by an abort, an accepted response or a limit, and stores nothing. */
  lemma RetriesDecide(index: nat, attempts: nat -> Attempt, ceiling: nat, maxAttempts: nat, backoff: bool,
                      end: RetryEnd)
    requires RetryLaw(attempts, Each(maxAttempts), backoff, end)
    ensures
      var step := StepOf(index, Completing(attempts), ceiling, maxAttempts, backoff);
      && (step == Stop(Aborted, []) <==> end.aborted)
      && (end.reply.Some? ==> step == Stop(Resolved(index, end.reply.value), []))
      && (!end.aborted && end.reply.None? && end.error.LimitError? ==>
           step == Stop(Failed(LimitError, end.limited), []))
      && (step.Stop? ==> step.text == [])
  {
    var limit := Each(maxAttempts);
    RetriesFromLaw(attempts, limit, backoff, 0, OtherError);
    RetryLawIsExact(attempts, limit, backoff, end, RetriesFrom(attempts, limit, backoff, 0, OtherError));
  }

  // ---- one candidate --------------------------------------------------------------------------------------------

  method Judge(reply: Reply, ghost texts: seq<Text>)
    returns (final: Option<Reply>, error: Option<Failure>, limited: Option<Reply>)
    ensures StreamEnd(texts, final, error, limited, false) == FinalEnd(texts, reply)
    ensures final.Some? ==> final.value.check.Fits? && error.None?
    ensures limited.Some? ==> limited.value.check.OverLimit? && error == Some(LimitError)
  {
    final, error, limited := None, None, None;
    match reply.check {
      case Fits => final := Some(reply);
      case OverLimit => limited, error := Some(reply), Some(LimitError);
      case Malformed => error := Some(OtherError);
    }
  }

  /** What was emitted: the deltas of one candidate. */
  ghost predicate Emitted(index: nat, emitted: seq<Emission>, texts: seq<Text>) {
    |emitted| == |texts| && forall k :: 0 <= k < |emitted| ==> emitted[k] == Emission(index, texts[k])
  }

  lemma EmittedTexts(index: nat, emitted: seq<Emission>, texts: seq<Text>)
    requires Emitted(index, emitted, texts)
    ensures FromOnly(emitted, index) && Texts(emitted) == texts
  {
  }

  /** Before part `k`: what was emitted, and that the stream goes on from there. */
  ghost predicate Consumed(index: nat, parts: seq<Part>, thrown: Option<Failure>, ceiling: nat,
                           k: nat, emitted: seq<Emission>, texts: seq<Text>, bytes: nat) {
    && k <= |parts| && Emitted(index, emitted, texts)
    && StreamFrom(parts, thrown, ceiling, k, texts, bytes) == StreamOf(parts, thrown, ceiling)
  }

  lemma ConsumedNext(index: nat, parts: seq<Part>, thrown: Option<Failure>, ceiling: nat,
                     k: nat, emitted: seq<Emission>, texts: seq<Text>, bytes: nat, delta: Text)
    requires Consumed(index, parts, thrown, ceiling, k, emitted, texts, bytes)
    requires k < |parts| && Passes(parts[k], delta) && bytes + |Utf8(delta)| <= ceiling
    ensures Consumed(index, parts, thrown, ceiling, k + 1, emitted + [Emission(index, delta)], texts + [delta],
                     bytes + |Utf8(delta)|)
  {
  }

  /** Consumes one stream: what was emitted, the text kept for evidence, and how it ended. */
  method Consume(index: nat, parts: seq<Part>, thrown: Option<Failure>, ceiling: nat)
    returns (emitted: seq<Emission>, text: Text, final: Option<Reply>, error: Option<Failure>,
             limited: Option<Reply>, aborted: bool)
    ensures StreamEnd(Texts(emitted), final, error, limited, aborted) == StreamOf(parts, thrown, ceiling)
    ensures FromOnly(emitted, index) && text == Concat(Texts(emitted)) && |Utf8(text)| <= ceiling
    ensures final.Some? ==> final.value.check.Fits? && !aborted && error.None?
    ensures limited.Some? ==> limited.value.check.OverLimit? && error == Some(LimitError)
    ensures aborted ==> error.None?
  {
    var partial := new BoundedStreamText(ceiling);
    ghost var texts, bytes := [], 0;
    emitted, final, error, limited, aborted := [], None, thrown, None, false;
    for k := 0 to |parts|
      invariant partial.Valid() && fresh(partial) && fresh(partial.meter) && partial.meter.ceiling == ceiling
      invariant final.None? && limited.None? && !aborted && error == thrown
      invariant partial.accepted == texts && partial.meter.bytes == bytes
      invariant Consumed(index, parts, thrown, ceiling, k, emitted, texts, bytes)
    {
      if parts[k].abortedBefore { aborted, error := true, None; break; }
      match parts[k].piece {
        case Delta(delta) =>
          var ok := partial.Add(delta);
          if !ok { error := Some(LimitError); break; }
          ConsumedNext(index, parts, thrown, ceiling, k, emitted, texts, bytes, delta);
          texts, bytes := texts + [delta], bytes + |Utf8(delta)|;
          emitted := emitted + [Emission(index, delta)];
        case Final(reply) =>
          final, error, limited := Judge(reply, texts);
          break;
      }
    }
    assert StreamEnd(texts, final, error, limited, aborted) == StreamOf(parts, thrown, ceiling);
    text := partial.ToString();
    EmittedTexts(index, emitted, texts);
  }

  /** The retry loop of a candidate that does not stream. */
  method Complete(attempts: nat -> Attempt, maxAttempts: nat, backoff: bool)
    returns (reply: Option<Reply>, error: Failure, limited: Option<Reply>, aborted: bool, made: nat)
    ensures RetryEnd(reply, error, limited, aborted, made)
         == RetriesFrom(attempts, Each(maxAttempts), backoff, 0, OtherError)
    ensures RetryLaw(attempts, Each(maxAttempts), backoff, RetryEnd(reply, error, limited, aborted, made))
    ensures made <= Each(maxAttempts)
    ensures reply.Some? ==> reply.value.check.Fits? && !aborted
    ensures limited.Some? ==> limited.value.check.OverLimit? && error.LimitError? && reply.None?
  {
    var limit := Each(maxAttempts);
    RetriesFromLaw(attempts, limit, backoff, 0, OtherError);
    reply, error, limited, aborted, made := None, OtherError, None, false, 0;
    var attempt := 0;
    while attempt < limit
      invariant 0 <= attempt == made <= limit && reply.None? && limited.None? && !aborted
      invariant RetriesFrom(attempts, limit, backoff, attempt, error)
             == RetriesFrom(attempts, limit, backoff, 0, OtherError)
    {
      var a := attempts(attempt);
      if a.abortedBefore || (attempt > 0 && backoff && a.sleepAborted) { aborted := true; return; }
      made := made + 1;
      match a.answer {
        case Answered(r, transient, abortedThen) =>
          if r.check.Fits? { reply := Some(r); return; }
          if abortedThen { aborted := true; return; }
          if r.check.OverLimit? { limited, error := Some(r), LimitError; return; }
          error := OtherError;
          if !transient { return; }
        case Threw(e, transient, abortedThen) =>
          if abortedThen || e.AbortError? { aborted := true; return; }
          error := e;
          if !transient || e.LimitError? { return; }
      }
      attempt := attempt + 1;
    }
  }

  // ---- the search over the candidates ---------------------------------------------------------------------------

  /** What is stored as an interrupted assistant turn: nothing for an empty text. */
  predicate Stored(stored: Option<Text>, text: Text, ok: bool) {
    stored == if text != [] && ok then Some(text) else None
  }

  /** One candidate: what reached the consumer, and whether the search goes on. */
  method TryCandidate(index: nat, candidate: Candidate, ceiling: nat, maxAttempts: nat, backoff: bool)
    returns (emitted: seq<Emission>, step: Step, made: nat)
    ensures step == StepOf(index, candidate, ceiling, maxAttempts, backoff) && made <= Each(maxAttempts)
    ensures FromOnly(emitted, index) && Texts(emitted) == TextsOf(candidate, ceiling)
    ensures |Utf8(Concat(Texts(emitted)))| <= ceiling
    ensures step.Next? ==> emitted == []
    ensures step.Stop? ==>
      && (if step.outcome.Resolved?
          then step.text == [] && step.outcome.reply.check.Fits? && step.outcome.candidate == index
          else step.text == Concat(Texts(emitted)))
      && !step.outcome.NotStored?
      && (step.outcome.Failed? && step.outcome.limited.Some? ==>
           step.outcome.error.LimitError? && step.outcome.limited.value.check.OverLimit?)
      && (step.outcome.Failed? && emitted == [] ==> step.outcome.error.LimitError?)
  {
    match candidate {
      case Streaming(parts, thrown, abortedAfter) =>
        var text, final, error, limited, aborted;
        emitted, text, final, error, limited, aborted := Consume(index, parts, thrown, ceiling);
        made := 1;
        if aborted || abortedAfter || error == Some(AbortError) { step := Stop(Aborted, text); }
        else if error == Some(LimitError) { step := Stop(Failed(LimitError, limited), text); }
        else if final.Some? { step := Stop(Resolved(index, final.value), []); }
        else if emitted != [] { step := Stop(Failed(OtherError, None), text); }
        else { step := Next; }
      case Completing(attempts) =>
        var reply, error, limited, aborted;
        reply, error, limited, aborted, made := Complete(attempts, maxAttempts, backoff);
        emitted := [];
        assert Texts(emitted) == [];
        if aborted { step := Stop(Aborted, []); }
        else if reply.Some? { step := Stop(Resolved(index, reply.value), []); }
        else if error.LimitError? { step := Stop(Failed(LimitError, limited), []); }
        else { step := Next; }
    }
  }

  /** `persistInterruptedAssistant`, and what the turn ends with when its append fails. */
  method StoreInterrupted(end: Outcome, text: Text, storeOk: bool) returns (outcome: Outcome, stored: Option<Text>)
    ensures Stored(stored, text, storeOk)
    ensures outcome == if text != [] && !storeOk then NotStored else end
  {
    if |text| == 0 { return end, None; }
    if storeOk { return end, Some(text); }
    return NotStored, None;
  }

  lemma DecidesOnce(candidates: seq<Candidate>, j: nat, k: nat, ceiling: nat, maxAttempts: nat, backoff: bool)
    requires Decides(candidates, j, ceiling, maxAttempts, backoff)
    requires Decides(candidates, k, ceiling, maxAttempts, backoff)
    ensures j == k
  {
  }

  /** The candidate loop of one turn. `stored` is the interrupted text that was persisted, `tried`
      and `calls` count the candidates and the model calls. */
  method CallModel(candidates: seq<Candidate>, ceiling: nat, maxAttempts: nat, backoff: bool, storeOk: bool)
    returns (outcome: Outcome, emitted: seq<Emission>, stored: Option<Text>, tried: nat, calls: nat)
    // the first candidate that does not give way decides the turn, and without one the turn fails
    ensures forall k: nat :: Decides(candidates, k, ceiling, maxAttempts, backoff) ==> (
      var step := StepOf(k, candidates[k], ceiling, maxAttempts, backoff);
      && tried == k + 1 && FromOnly(emitted, k) && Texts(emitted) == TextsOf(candidates[k], ceiling)
      && outcome == (if step.text != [] && !storeOk then NotStored else step.outcome)
      && Stored(stored, step.text, storeOk))
    ensures
      || (exists k: nat :: Decides(candidates, k, ceiling, maxAttempts, backoff))
      || (tried == |candidates| && emitted == [] && outcome == Failed(OtherError, None) && stored.None?)
    // all deltas of a turn come from one candidate, and an accepted response from the same one
    ensures forall j, k :: 0 <= j < |emitted| && 0 <= k < |emitted| ==> emitted[j].candidate == emitted[k].candidate
    ensures outcome.Resolved? ==> FromOnly(emitted, outcome.candidate) && outcome.candidate < |candidates|
    // an accepted response passed the limits, and nothing is stored as interrupted beside it
    ensures outcome.Resolved? ==> outcome.reply.check.Fits? && stored.None?
    // otherwise what is stored is exactly what the consumer received
    ensures outcome.Aborted? || outcome.Failed? ==>
      Stored(stored, Concat(Texts(emitted)), storeOk) && (stored.None? ==> Concat(Texts(emitted)) == [])
    ensures outcome.NotStored? ==> !storeOk && stored.None? && Concat(Texts(emitted)) != []
    ensures |Utf8(Concat(Texts(emitted)))| <= ceiling
    // a limit error ends the search; any other failure without a delta has tried every candidate
    ensures outcome.Failed? && outcome.limited.Some? ==>
      outcome.error.LimitError? && outcome.limited.value.check.OverLimit?
    ensures outcome.Failed? && emitted == [] && !outcome.error.LimitError? ==> tried == |candidates|
    ensures tried <= |candidates| && calls <= tried * Each(maxAttempts)
  {
    var each := Each(maxAttempts);
    emitted, stored, tried, calls := [], None, 0, 0;
    assert Texts([]) == [];
    for mi := 0 to |candidates|
      invariant emitted == [] && stored.None? && tried == mi && calls <= mi * each
      invariant |Utf8(Concat(Texts(emitted)))| <= ceiling && Concat(Texts(emitted)) == []
      invariant forall j :: 0 <= j < mi ==> StepOf(j, candidates[j], ceiling, maxAttempts, backoff).Next?
    {
      Widen(mi, each);
      var step, made;
      emitted, step, made := TryCandidate(mi, candidates[mi], ceiling, maxAttempts, backoff);
      tried, calls := mi + 1, calls + made;
      if step.Stop? {
        assert Decides(candidates, mi, ceiling, maxAttempts, backoff);
        forall k: nat | Decides(candidates, k, ceiling, maxAttempts, backoff) ensures k == mi {
          DecidesOnce(candidates, k, mi, ceiling, maxAttempts, backoff);
        }
        outcome, stored := StoreInterrupted(step.outcome, step.text, storeOk);
        return;
      }
    }
    outcome := Failed(OtherError, None);
  }

  lemma Widen(n: nat, each: nat)
    requires each >= 1
    ensures (n + 1) * each == n * each + each
  {
  }

  /** With one primary model a turn makes at most (1 + fallbacks) times max(1, maxAttempts) calls. */
  method CallWithFallbacks(primary: Candidate, fallbacks: seq<Candidate>, ceiling: nat,
                           maxAttempts: nat, backoff: bool, storeOk: bool)
    returns (outcome: Outcome, emitted: seq<Emission>, stored: Option<Text>, calls: nat)
    ensures calls <= (1 + |fallbacks|) * Each(maxAttempts)
    ensures outcome.Resolved? && emitted != [] ==> emitted[|emitted| - 1].candidate == outcome.candidate
  {
    var tried;
    outcome, emitted, stored, tried, calls := CallModel([primary] + fallbacks, ceiling, maxAttempts, backoff, storeOk);
    var each := Each(maxAttempts);
    Monotone(tried, 1 + |fallbacks|, each);
  }

  lemma Monotone(a: nat, b: nat, each: nat)
    requires a <= b
    ensures a * each <= b * each
  {
  }
}
