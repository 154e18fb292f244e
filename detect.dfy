/**
  The browser tagger: an event queue flushed in batches, the listeners that
  feed it (mouse, scroll, form input and submit), the fingerprint taken at
  start-up and the local risk score.

  Clock readings, random draws and the least-squares regression (floating
  point) are parameters: `now` is the `Date.now()` value of the call, `draw`
  a `Math.random()` value, and `regression` maps the sampled points to their
  mean absolute residual.
 */
module Detect {
  import opened Wrappers
  import opened Telemetry
  import opened Fingerprint

  /** The configuration fields the tagger's logic reads. */
  datatype Config = Config(siteId: Option<string>, consentRequired: bool, batchInterval: int,
                           maxBatchSize: int, sampleRate: real)

  const Defaults: Config := Config(None, false, 3000, 50, 1.0)

  /** The options passed to `init`; an absent field keeps the current value. */
  datatype Options = Options(siteId: Option<Option<string>>, consentRequired: Option<bool>,
                             batchInterval: Option<int>, maxBatchSize: Option<int>,
                             sampleRate: Option<real>, step: Option<string>)

  /** `Object.assign({}, cfg, options)`: every given option replaces the current field. */
  function Merge(cfg: Config, o: Options): (r: Config)
    ensures (o.siteId.None? && o.consentRequired.None? && o.batchInterval.None? && o.maxBatchSize.None?
             && o.sampleRate.None?) ==> r == cfg
    ensures o.consentRequired.Some? ==> r.consentRequired == o.consentRequired.value
    ensures o.maxBatchSize.Some? ==> r.maxBatchSize == o.maxBatchSize.value
    ensures o.sampleRate.Some? ==> r.sampleRate == o.sampleRate.value
  {
    Config(if o.siteId.Some? then o.siteId.value else cfg.siteId,
           if o.consentRequired.Some? then o.consentRequired.value else cfg.consentRequired,
           if o.batchInterval.Some? then o.batchInterval.value else cfg.batchInterval,
           if o.maxBatchSize.Some? then o.maxBatchSize.value else cfg.maxBatchSize,
           if o.sampleRate.Some? then o.sampleRate.value else cfg.sampleRate)
  }

  /** Merging with no options keeps the configuration; merging twice is merging once. */
  lemma MergeLaws(cfg: Config, o: Options)
    ensures o == Options(None, None, None, None, None, o.step) ==> Merge(cfg, o) == cfg
    ensures Merge(Merge(cfg, o), o) == Merge(cfg, o)
    ensures Merge(Defaults, Options(None, None, None, None, None, None)).maxBatchSize == 50
  {
  }

  /** The body of one beacon. */
  datatype Batch = Batch(siteId: Option<string>, fingerprint: Option<string>, ts: int,
                         sessionDurationMs: int, userId: Option<string>, step: Option<string>,
                         events: seq<Event>)

  // ---------------------------------------------------------------- events

  function PageLoad(href: string, referrer: string, now: int): Event {
    Event("page_load", now, map["url" := Str(href), "referrer" := Str(referrer)])
  }

  function FingerprintEvent(fp: string, now: int): Event {
    Event("fingerprint", now, map["fingerprint" := Str(fp)])
  }

  function MouseSummary(count: nat, linearity: real, now: int): Event {
    Event("mouse_summary", now, map["count" := Num(count as real), "linearity" := Num(linearity)])
  }

  function FastScroll(fastCount: nat, now: int): Event {
    Event("fast_scroll", now, map["fastCount" := Num(fastCount as real)])
  }

  function FormSubmit(action: Option<string>, elapsed: int, now: int): Event {
    Event("form_submit", now, map["action" := (if action.Some? && action.value != [] then Str(action.value) else Null),
                                  "timeToSubmitMs" := Num(elapsed as real)])
  }

  function FastSubmitFlag(elapsed: int, now: int): Event {
    Event("fast_form_submit_flag", now, map["timeToSubmit" := Num(elapsed as real)])
  }

  const FastSubmitMs: int := 700

  /** The events one submit emits: `form_submit`, then the flag when it came within 700 ms. */
  function SubmitEvents(action: Option<string>, elapsed: int, now: int): (r: seq<Event>)
    ensures 1 <= |r| <= 2 && r[0].t == "form_submit"
    ensures |r| == 2 <==> elapsed < FastSubmitMs
    ensures |r| == 2 ==> r[1].t == "fast_form_submit_flag"
  {
    if elapsed < FastSubmitMs then [FormSubmit(action, elapsed, now)] + [FastSubmitFlag(elapsed, now)]
    else [FormSubmit(action, elapsed, now)]
  }

  // ---------------------------------------------------------------- batching

  /** Appending in two steps is appending the concatenation. */
  lemma AppendTwice<T>(s: seq<T>, a: seq<T>, b: seq<T>)
    ensures s + a + b == s + (a + b)
  {
  }

  /** The queue and whether a send timer is pending. */
  datatype Queue = Queue(events: seq<Event>, armed: bool)

  /** A push's new queue and the batch it drained, if it reached the size limit. */
  datatype Pushed = Pushed(queue: Queue, drained: Option<seq<Event>>)

  /** `pushEvent` on an enabled tagger, flushing at `max` events. */
  function Push(q: Queue, e: Event, max: int): (r: Pushed)
    ensures r.drained.Some? <==> |q.events| + 1 >= max
    ensures r.drained.Some? ==> r.drained.value == q.events + [e] && r.queue == Queue([], false)
    ensures r.drained.None? ==> r.queue == Queue(q.events + [e], true)
  {
    var evs := q.events + [e];
    if |evs| >= max then Pushed(Queue([], false), Some(evs)) else Pushed(Queue(evs, true), None)
  }

  /** The queue side of the tagger: queue and timer, the batches taken off the queue, and the beacons sent. */
  datatype Outbox = Outbox(queue: Queue, handled: seq<seq<Event>>, sent: seq<Batch>)

  /** The session fields `flushEvents` stamps on a batch, with the limits `pushEvent` reads. */
  datatype Context = Context(cfg: Config, fingerprint: Option<string>, started: int,
                             userId: Option<string>, step: Option<string>)

  /**
    The queue side after `pushEvent(ev)` on an enabled tagger: `Push` decides
    the new queue and the drained batch; the drained batch is handled, and it
    is stamped and sent when `draw` passes sampling.
   */
  function Deliver(o: Outbox, ev: Event, draw: real, ctx: Context): (r: Outbox)
    ensures o.handled <= r.handled && |r.handled| <= |o.handled| + 1
    ensures o.sent <= r.sent && |r.sent| <= |o.sent| + 1
    ensures |r.sent| == |o.sent| + 1 ==> |r.handled| == |o.handled| + 1 && draw < ctx.cfg.sampleRate
    ensures |r.sent| == |o.sent| + 1 ==> r.sent[|o.sent|].events == r.handled[|o.handled|]
  {
    var p := Push(o.queue, ev, ctx.cfg.maxBatchSize);
    Outbox(p.queue,
           o.handled + (if p.drained.Some? then [p.drained.value] else []),
           o.sent + (if p.drained.Some? && draw < ctx.cfg.sampleRate
                     then [Batch(ctx.cfg.siteId, ctx.fingerprint, ev.ts, ev.ts - ctx.started, ctx.userId, ctx.step,
                                 p.drained.value)]
                     else []))
  }

  /**
    Delivering an event neither loses nor duplicates one: the handled batches
    followed by the queue grow by exactly that event, and a timer is pending
    afterwards exactly when events are queued.
   */
  lemma DeliverKeepsEvents(o: Outbox, ev: Event, draw: real, ctx: Context)
    ensures var r := Deliver(o, ev, draw, ctx);
      Flatten(r.handled) + r.queue.events == Flatten(o.handled) + o.queue.events + [ev]
      && (r.queue.armed <==> r.queue.events != [])
  {
    PushKeepsEvents(o.handled, o.queue, ev, ctx.cfg.maxBatchSize);
  }

  /** One push moves the event onto the end of the handled batches followed by the queue. */
  lemma PushKeepsEvents(handled: seq<seq<Event>>, q: Queue, e: Event, max: int)
    ensures var p := Push(q, e, max);
      Flatten(handled + (if p.drained.Some? then [p.drained.value] else [])) + p.queue.events
        == Flatten(handled) + q.events + [e]
  {
    var p := Push(q, e, max);
    if p.drained.Some? {
      FlattenSnoc(handled, p.drained.value);
      assert Flatten(handled + [p.drained.value]) + [] == Flatten(handled) + q.events + [e];
    } else {
      assert handled + [] == handled;
    }
  }

  datatype Run = Run(queue: Queue, drained: seq<seq<Event>>)

  function PushAll(q: Queue, es: seq<Event>, max: int): Run {
    if es == [] then Run(q, [])
    else
      var r := PushAll(q, es[..|es| - 1], max);
      var p := Push(r.queue, es[|es| - 1], max);
      Run(p.queue, r.drained + (if p.drained.Some? then [p.drained.value] else []))
  }

  /** No event is lost, duplicated or reordered by batching. */
  lemma {:induction false} PushAllKeepsEvents(q: Queue, es: seq<Event>, max: int)
    ensures var r := PushAll(q, es, max);
      Flatten(r.drained) + r.queue.events == q.events + es
  {
    if es != [] {
      var init := es[..|es| - 1];
      var e := es[|es| - 1];
      PushAllKeepsEvents(q, init, max);
      PushKeepsEvents(PushAll(q, init, max).drained, PushAll(q, init, max).queue, e, max);
      AppendTwice(q.events, init, [e]);
      assert init + [e] == es;
    }
  }

  /**
    From an empty queue, pushes fill whole batches of `max` events and leave
    fewer than `max` queued, with a timer pending exactly when some are.
   */
  lemma {:induction false} PushAllCounts(es: seq<Event>, max: int)
    requires max >= 1
    ensures var r := PushAll(Queue([], false), es, max);
      |es| == |r.drained| * max + |r.queue.events| && |r.queue.events| < max
      && (r.queue.armed <==> r.queue.events != [])
      && (forall i :: 0 <= i < |r.drained| ==> |r.drained[i]| == max)
  {
    if es != [] {
      var init := es[..|es| - 1];
      PushAllCounts(init, max);
      var r := PushAll(Queue([], false), init, max);
      var p := Push(r.queue, es[|es| - 1], max);
      if p.drained.Some? {
        assert (|r.drained| + 1) * max == |r.drained| * max + max;
      }
    }
  }

  /** So `n` pushes leave `n % max` events queued after `n / max` full batches. */
  lemma PushAllDivMod(es: seq<Event>, max: int)
    requires max >= 1
    ensures var r := PushAll(Queue([], false), es, max);
      |r.queue.events| == |es| % max && |r.drained| == |es| / max
  {
    PushAllCounts(es, max);
    var r := PushAll(Queue([], false), es, max);
    DivModUnique(|es|, max, |r.drained|, |r.queue.events|);
  }

  lemma DivModUnique(n: nat, d: int, q: nat, r: nat)
    requires d > 0 && 0 <= r < d && n == q * d + r
    ensures n / d == q && n % d == r
  {
    var q0 := n / d;
    if q0 < q {
      MulLe(q0 + 1, q, d);
    } else if q < q0 {
      MulLe(q + 1, q0, d);
    }
  }

  /** With a limit of `max`, the `max`-th push sends all `max` events and the next one waits alone on a timer. */
  lemma {:induction false} OneBatchThenOne(es: seq<Event>, max: int)
    requires max >= 2 && |es| == max + 1
    ensures PushAll(Queue([], false), es[..max], max) == Run(Queue([], false), [es[..max]])
    ensures PushAll(Queue([], false), es, max) == Run(Queue([es[max]], true), [es[..max]])
  {
    var full := es[..max];
    var r := PushAll(Queue([], false), full, max);
    PushAllCounts(full, max);
    PushAllKeepsEvents(Queue([], false), full, max);
    assert |r.drained| == 1 by {
      if |r.drained| >= 2 {
        MulLe(2, |r.drained|, max);
      }
    }
    assert r.queue == Queue([], false);
    var d := r.drained[0];
    assert r.drained == [d];
    assert Flatten([d]) == d by { assert [d][..0] == []; }
    assert Flatten(r.drained) + r.queue.events == Queue([], false).events + full;
    assert d == full by {
      assert Flatten(r.drained) == d && r.queue.events == [];
      assert d + [] == d && [] + full == full;
    }
    assert es[..|es| - 1] == full;
    var p := Push(r.queue, es[max], max);
    assert p == Pushed(Queue([es[max]], true), None);
    assert PushAll(Queue([], false), es, max) == Run(p.queue, r.drained + []);
  }

  /** The default limit of 50: the 50th push sends 50 events, the 51st is queued with a timer armed. */
  lemma FiftyOnePushes(es: seq<Event>)
    requires |es| == 51
    ensures PushAll(Queue([], false), es[..50], Defaults.maxBatchSize) == Run(Queue([], false), [es[..50]])
    ensures PushAll(Queue([], false), es, Defaults.maxBatchSize) == Run(Queue([es[50]], true), [es[..50]])
  {
    OneBatchThenOne(es, 50);
  }

  // ---------------------------------------------------------------- mouse

  datatype Sample = Sample(x: int, y: int, ts: int)
  datatype Point = Point(x: int, y: int)

  /** Samples between two summaries. */
  const SummaryEvery: nat := 50

  /** `Math.min(40, len)`: how many points the regression uses. */
  function SampleCount(len: nat): (n: nat)
    ensures n <= 40 && n <= len
    ensures n == len || n == 40
  {
    if len < 40 then len else 40
  }

  /** `Math.floor(len / n) || 1`: the distance between sampled indices. */
  function Stride(len: nat): (s: nat)
    ensures s >= 1
  {
    var n := SampleCount(len);
    if n == 0 || len / n == 0 then 1 else len / n
  }

  /** The index of the `j`-th sampled point, counting back from the newest. */
  function SampleIndex(len: nat, j: nat): int {
    len - 1 - j * Stride(len)
  }

  /** All selected indices fit: `SampleCount(len)` strides from the newest sample stay in range. */
  lemma StrideFits(len: nat)
    ensures SampleCount(len) * Stride(len) <= len || SampleCount(len) == 0
  {
    var n := SampleCount(len);
    if n > 0 {
      assert len / n >= 1;
      assert n * (len / n) <= len;
    }
  }

  /** The selected indices are in range, start at the newest sample and strictly descend. */
  lemma SampleIndicesValid(len: nat)
    ensures SampleCount(len) > 0 ==> SampleIndex(len, 0) == len - 1
    ensures forall j :: 0 <= j < SampleCount(len) ==> 0 <= SampleIndex(len, j) < len
    ensures forall j, k :: 0 <= j < k < SampleCount(len) ==> SampleIndex(len, k) < SampleIndex(len, j)
  {
    StrideFits(len);
    var s := Stride(len);
    var n := SampleCount(len);
    forall j | 0 <= j < n ensures 0 <= SampleIndex(len, j) < len {
      MulLe(j, n - 1, s);
      assert (n - 1) * s == n * s - s;
    }
    forall j, k | 0 <= j < k < n ensures SampleIndex(len, k) < SampleIndex(len, j) {
      MulLe(j + 1, k, s);
      assert (j + 1) * s == j * s + s;
    }
  }

  lemma MulLe(a: nat, b: nat, s: nat)
    requires a <= b
    ensures a * s <= b * s
  {
  }

  /** The points `computeLinearity` feeds to the regression. */
  function SampledPoints(buf: seq<Sample>): (r: seq<Point>)
    ensures |r| == SampleCount(|buf|)
  {
    SampleIndicesValid(|buf|);
    seq(SampleCount(|buf|), j requires 0 <= j < SampleCount(|buf|) =>
      var i := SampleIndex(|buf|, j); Point(buf[i].x, buf[i].y))
  }

  /** The sampling loop of `computeLinearity`, newest sample first. */
  method SamplePoints(buf: seq<Sample>) returns (pts: seq<Point>)
    ensures |pts| == SampleCount(|buf|)
    ensures forall j :: 0 <= j < |pts| ==>
      0 <= SampleIndex(|buf|, j) < |buf| && pts[j] == Point(buf[SampleIndex(|buf|, j)].x, buf[SampleIndex(|buf|, j)].y)
    ensures pts == SampledPoints(buf)
  {
    var n := SampleCount(|buf|);
    var step := Stride(|buf|);
    SampleIndicesValid(|buf|);
    StrideFits(|buf|);
    pts := [];
    var i: int := |buf| - 1;
    while i >= 0 && |pts| < n
      invariant |pts| <= n
      invariant i == SampleIndex(|buf|, |pts|)
      invariant forall j :: 0 <= j < |pts| ==> pts[j] == Point(buf[SampleIndex(|buf|, j)].x, buf[SampleIndex(|buf|, j)].y)
      decreases n - |pts|
    {
      pts := pts + [Point(buf[i].x, buf[i].y)];
      i := i - step;
      assert (|pts| - 1) * step + step == |pts| * step;
    }
  }

  /** With the six samples `computeLinearity` insists on, at least three points are selected. */
  lemma EnoughPoints(buf: seq<Sample>)
    requires |buf| >= 6
    ensures |SampledPoints(buf)| >= 6
  {
  }

  /** `Math.max(lo, Math.min(hi, x))`. */
  function Clamp(x: real, lo: real, hi: real): (r: real)
    requires lo <= hi
    ensures lo <= r <= hi
    ensures lo <= x <= hi ==> r == x
  {
    if x < lo then lo else if x > hi then hi else x
  }

  /** `Number(x.toFixed(2))` for `x` in [0, 1]: the nearest hundredth, halves up. */
  function Hundredths(x: real): (r: real)
    requires 0.0 <= x <= 1.0
    ensures 0.0 <= r <= 1.0
  {
    ((x * 100.0 + 0.5).Floor as real) / 100.0
  }

  /** `computeLinearity`, with the regression's mean residual supplied by `regression`. */
  function Linearity(buf: seq<Sample>, regression: seq<Point> -> real): (r: real)
    ensures 0.0 <= r <= 1.0
    ensures |buf| < 6 ==> r == 0.0
  {
    if |buf| < 6 then 0.0
    else Hundredths(Clamp((40.0 - regression(SampledPoints(buf))) / 40.0, 0.0, 1.0))
  }

  /** Linearity is a score in [0, 1]: 0 for fewer than six samples or a residual of 40 or more, 1 for a perfect line. */
  lemma LinearityRange(buf: seq<Sample>, regression: seq<Point> -> real)
    ensures 0.0 <= Linearity(buf, regression) <= 1.0
    ensures |buf| < 6 ==> Linearity(buf, regression) == 0.0
    ensures |buf| >= 6 && regression(SampledPoints(buf)) >= 40.0 ==> Linearity(buf, regression) == 0.0
    ensures |buf| >= 6 && regression(SampledPoints(buf)) <= 0.0 ==> Linearity(buf, regression) == 1.0
  {
  }

  /** The sample counts at which a summary is emitted during the first `n` samples. */
  function SummaryCounts(n: nat): seq<nat> {
    if n == 0 then [] else SummaryCounts(n - 1) + (if n % SummaryEvery == 0 then [n] else [])
  }

  /** Summaries fire at 50, 100, 150, ...: one per full fifty samples. */
  lemma {:induction false} SummaryCountsSpec(n: nat)
    ensures |SummaryCounts(n)| == n / SummaryEvery
    ensures forall i :: 0 <= i < |SummaryCounts(n)| ==> SummaryCounts(n)[i] == SummaryEvery * (i + 1)
  {
    if n > 0 {
      SummaryCountsSpec(n - 1);
      if n % SummaryEvery == 0 {
        assert n / SummaryEvery == (n - 1) / SummaryEvery + 1;
        assert n == SummaryEvery * ((n - 1) / SummaryEvery + 1);
      } else {
        assert n / SummaryEvery == (n - 1) / SummaryEvery;
      }
    }
  }

  // ---------------------------------------------------------------- scroll

  const ScrollCapacity: nat := 200
  const ScrollWindow: nat := 8
  const FastScrollMs: int := 50

  /** `s.slice(-k)`: the last `k` elements, or all of `s`. */
  function Last(s: seq<int>, k: nat): (r: seq<int>)
    ensures |r| == if |s| <= k then |s| else k
  {
    if |s| <= k then s else s[|s| - k..]
  }

  /** `s.filter(v => v < bound).length`. */
  function CountBelow(s: seq<int>, bound: int): (r: nat)
    ensures r <= |s|
    ensures r == 0 <==> forall i :: 0 <= i < |s| ==> s[i] >= bound
    ensures r == |s| <==> forall i :: 0 <= i < |s| ==> s[i] < bound
  {
    if s == [] then 0
    else
      var init := s[..|s| - 1];
      assert forall i :: 0 <= i < |init| ==> init[i] == s[i];
      CountBelow(init, bound) + (if s[|s| - 1] < bound then 1 else 0)
  }

  /** A shorter window of a window is the shorter window of the whole history. */
  lemma LastOfLast(s: seq<int>, j: nat, k: nat)
    requires j <= k
    ensures Last(Last(s, k), j) == Last(s, j)
  {
  }

  /** The push-then-shift ring keeps exactly the last `k` deltas. */
  lemma LastSnoc(s: seq<int>, x: int, k: nat)
    requires k >= 1
    ensures var b := Last(s, k) + [x];
      (if |b| > k then b[1..] else b) == Last(s + [x], k)
  {
  }

  /** The scroll listener emits `fast_scroll` when at least 4 of the last 8 deltas are under 50 ms. */
  function FastScrollCount(history: seq<int>): nat {
    CountBelow(Last(history, ScrollWindow), FastScrollMs)
  }

  // ---------------------------------------------------------------- risk score

  /** `Math.round`: the nearest integer, halves toward +infinity. */
  function Round(x: real): int {
    (x + 0.5).Floor
  }

  /** `computeRiskScore` given the linearity, the delta buffer and the number of mouse samples. */
  function RiskScore(linearity: real, scrollTimes: seq<int>, samples: nat): (r: int)
    ensures 0 <= r <= 100
  {
    var recentFast := if CountBelow(Last(scrollTimes, 10), FastScrollMs) >= 4 then 1 else 0;
    var score := 10 + Round(linearity * -40.0) + recentFast * 30 + (if samples < 4 then 20 else 0);
    if score < 0 then 0 else if score > 100 then 100 else score
  }

  /** The score is in [0, 100]; for a linearity in [0, 1] it never exceeds 60. */
  lemma RiskScoreRange(linearity: real, scrollTimes: seq<int>, samples: nat)
    ensures 0 <= RiskScore(linearity, scrollTimes, samples) <= 100
    ensures 0.0 <= linearity <= 1.0 ==> RiskScore(linearity, scrollTimes, samples) <= 60
  {
  }

  /** Fewer than four mouse samples add 20 points to an otherwise empty score. */
  lemma FewSamplesScore(buf: seq<Sample>, regression: seq<Point> -> real, scrollTimes: seq<int>)
    requires |buf| < 4
    ensures RiskScore(Linearity(buf, regression), scrollTimes, |buf|) >= 30
  {
    assert Round(0.0 * -40.0) == 0;
  }

  // ---------------------------------------------------------------- the tagger

  type FormId = nat

  /** The tagger's module-level state. */
  class BotTagger {
    var cfg: Config
    var enabled: bool
    var eventQueue: seq<Event>
    /** `sendTimer !== null`. */
    var timerArmed: bool
    var sessionFingerprint: Option<string>
    var mouseMovements: seq<Sample>
    var scrollTimes: seq<int>
    var lastScrollTs: int
    var formTimers: map<FormId, int>
    var step: Option<string>
    /** The beacons sent so far. */
    var sent: seq<Batch>
    const started: int
    /** The page-level `userId` binding the flush reads. */
    const userId: Option<string>
    const regression: seq<Point> -> real

    /** Every event ever queued, in order. */
    ghost var log: seq<Event>
    /** Every batch taken off the queue, sent or discarded. */
    ghost var handled: seq<seq<Event>>
    /** Every scroll delta ever recorded. */
    ghost var scrollHistory: seq<int>

    /** Every queued event is still queued or in exactly one handled batch, in order; the ring holds the last 200 deltas. */
    ghost predicate Accounted()
      reads this
    {
      Flatten(handled) + eventQueue == log
      && scrollTimes == Last(scrollHistory, ScrollCapacity)
    }

    /** Between calls, a timer is pending exactly when events are queued. */
    ghost predicate Valid()
      reads this
    {
      Accounted() && (timerArmed <==> eventQueue != [])
    }

    /** The queue side of the current state. */
    ghost function Outgoing(): Outbox
      reads this`eventQueue, this`timerArmed, this`handled, this`sent
    {
      Outbox(Queue(eventQueue, timerArmed), handled, sent)
    }

    /** The fields a batch sent now would be stamped with. */
    ghost function Ctx(): Context
      reads this`cfg, this`sessionFingerprint, this`step
    {
      Context(cfg, sessionFingerprint, started, userId, step)
    }

    constructor (started: int, userId: Option<string>, regression: seq<Point> -> real)
      ensures Valid()
      ensures cfg == Defaults && enabled && eventQueue == [] && !timerArmed
      ensures sessionFingerprint == None && mouseMovements == [] && scrollTimes == []
      ensures lastScrollTs == 0 && formTimers == map[] && step == None && sent == []
      ensures this.started == started && this.userId == userId && this.regression == regression
      ensures log == [] && handled == [] && scrollHistory == []
    {
      cfg := Defaults;
      enabled := true;
      eventQueue := [];
      timerArmed := false;
      sessionFingerprint := None;
      mouseMovements := [];
      scrollTimes := [];
      lastScrollTs := 0;
      formTimers := map[];
      step := None;
      sent := [];
      this.started := started;
      this.userId := userId;
      this.regression := regression;
      log := [];
      handled := [];
      scrollHistory := [];
    }

    /**
      `flushEvents`: an empty queue only cancels the timer; otherwise the whole
      queue is sent as one batch when the draw passes sampling, or dropped.
     */
    method Flush(now: int, draw: real)
      modifies this`eventQueue, this`timerArmed, this`sent, this`handled
      requires Accounted()
      ensures Valid()
      ensures eventQueue == [] && !timerArmed
      ensures handled == old(handled) + (if old(eventQueue) == [] then [] else [old(eventQueue)])
      ensures sent == old(sent) + (if old(eventQueue) != [] && draw < cfg.sampleRate
        then [Batch(cfg.siteId, sessionFingerprint, now, now - started, userId, step, old(eventQueue))]
        else [])
    {
      if eventQueue == [] {
        timerArmed := false;
        return;
      }
      FlattenSnoc(handled, eventQueue);
      if draw < cfg.sampleRate {
        sent := sent + [Batch(cfg.siteId, sessionFingerprint, now, now - started, userId, step, eventQueue)];
      }
      handled := handled + [eventQueue];
      eventQueue := [];
      timerArmed := false;
    }

    /**
      `pushEvent`: a disabled tagger ignores the event; otherwise it is queued at
      the end, and the queue is flushed once it holds `maxBatchSize` events, or a
      timer is armed.
     */
    method PushEvent(t: string, payload: Payload, now: int, draw: real)
      modifies this`eventQueue, this`timerArmed, this`sent, this`log, this`handled
      requires Valid()
      ensures Valid()
      ensures !old(enabled) ==> log == old(log) && Outgoing() == old(Outgoing())
      ensures old(enabled) ==> log == old(log) + [Event(t, now, payload)]
      ensures old(enabled) ==> Outgoing() == Deliver(old(Outgoing()), Event(t, now, payload), draw, Ctx())
    {
      if !enabled {
        return;
      }
      var ev := Event(t, now, payload);
      Enqueue(ev);
      if |eventQueue| >= cfg.maxBatchSize {
        Flush(now, draw);
        return;
      }
      if !timerArmed {
        timerArmed := true;
      }
    }

    /** The first step of `pushEvent` on an enabled tagger: the event joins the queue and the log. */
    method Enqueue(ev: Event)
      modifies this`eventQueue, this`log
      requires Valid()
      ensures Accounted()
      ensures eventQueue == old(eventQueue) + [ev] && log == old(log) + [ev]
    {
      assert Flatten(handled) + (eventQueue + [ev]) == (Flatten(handled) + eventQueue) + [ev];
      eventQueue := eventQueue + [ev];
      log := log + [ev];
    }

    /** `pushEvent` as the listeners see it: the event joins the log of an enabled tagger. */
    method Emit(ev: Event, draw: real)
      modifies this`eventQueue, this`timerArmed, this`sent, this`log, this`handled
      requires Valid()
      ensures Valid()
      ensures log == if old(enabled) then old(log) + [ev] else old(log)
      ensures Outgoing() == if old(enabled) then Deliver(old(Outgoing()), ev, draw, Ctx()) else old(Outgoing())
    {
      PushEvent(ev.t, ev.payload, ev.ts, draw);
    }

    /** `computeLinearity(mouseMovements)`. */
    method ComputeLinearity() returns (linearity: real)
      ensures linearity == Linearity(mouseMovements, regression)
      ensures 0.0 <= linearity <= 1.0
    {
      LinearityRange(mouseMovements, regression);
      if |mouseMovements| < 6 {
        return 0.0;
      }
      var pts := SamplePoints(mouseMovements);
      var avg := regression(pts);
      linearity := Hundredths(Clamp((40.0 - avg) / 40.0, 0.0, 1.0));
    }

    /** The `mousemove` listener: record the sample; every fiftieth one queues a summary. */
    method OnMouseMove(x: int, y: int, now: int, draw: real)
      modifies this`mouseMovements, this`eventQueue, this`timerArmed, this`sent, this`log, this`handled
      requires Valid()
      ensures Valid()
      ensures !old(enabled) ==> mouseMovements == old(mouseMovements) && log == old(log)
      ensures old(enabled) ==> mouseMovements == old(mouseMovements) + [Sample(x, y, now)]
      ensures old(enabled) ==> (log == old(log) +
        (if |mouseMovements| % SummaryEvery == 0
         then [MouseSummary(|mouseMovements|, Linearity(mouseMovements, regression), now)]
         else []))
      ensures Outgoing() == if old(enabled) && |mouseMovements| % SummaryEvery == 0
        then Deliver(old(Outgoing()), MouseSummary(|mouseMovements|, Linearity(mouseMovements, regression), now), draw, Ctx())
        else old(Outgoing())
    {
      if !enabled {
        return;
      }
      mouseMovements := mouseMovements + [Sample(x, y, now)];
      if |mouseMovements| % SummaryEvery == 0 {
        var linearity := ComputeLinearity();
        Emit(MouseSummary(|mouseMovements|, linearity, now), draw);
      }
    }

    /**
      The `scroll` listener: from the second scroll on, record the delta in the
      200-entry ring and queue `fast_scroll` when 4 of the last 8 are under 50 ms.
     */
    method OnScroll(now: int, draw: real)
      modifies this`lastScrollTs, this`scrollTimes, this`scrollHistory, this`eventQueue, this`timerArmed, this`sent, this`log, this`handled
      requires Valid()
      ensures Valid()
      ensures !old(enabled) ==> (lastScrollTs == old(lastScrollTs) && scrollHistory == old(scrollHistory)
        && log == old(log))
      ensures old(enabled) ==> lastScrollTs == now
      ensures old(enabled) && old(lastScrollTs) == 0 ==> scrollHistory == old(scrollHistory) && log == old(log)
      ensures old(enabled) && old(lastScrollTs) != 0 ==> (
        scrollHistory == old(scrollHistory) + [now - old(lastScrollTs)]
        && log == if FastScrollCount(scrollHistory) >= 4 then old(log) + [FastScroll(FastScrollCount(scrollHistory), now)] else old(log))
      ensures Outgoing() == if old(enabled) && old(lastScrollTs) != 0 && FastScrollCount(scrollHistory) >= 4
        then Deliver(old(Outgoing()), FastScroll(FastScrollCount(scrollHistory), now), draw, Ctx())
        else old(Outgoing())
      ensures |scrollTimes| <= ScrollCapacity
    {
      if !enabled {
        return;
      }
      var ts := now;
      if lastScrollTs != 0 {
        ScrollDelta(ts - lastScrollTs, now, draw);
      }
      lastScrollTs := ts;
    }

    /** A scroll after the first: record the delta, and queue `fast_scroll` when the last 8 deltas hold 4 fast ones. */
    method ScrollDelta(dt: int, now: int, draw: real)
      modifies this`scrollTimes, this`scrollHistory, this`eventQueue, this`timerArmed, this`sent, this`log, this`handled
      requires Valid() && enabled
      ensures Valid()
      ensures scrollHistory == old(scrollHistory) + [dt]
      ensures |scrollTimes| <= ScrollCapacity
      ensures var n := FastScrollCount(old(scrollHistory) + [dt]);
        log == if n >= 4 then old(log) + [FastScroll(n, now)] else old(log)
      ensures var n := FastScrollCount(old(scrollHistory) + [dt]);
        Outgoing() == if n >= 4 then Deliver(old(Outgoing()), FastScroll(n, now), draw, Ctx()) else old(Outgoing())
    {
      ghost var ctx := Ctx();
      ghost var before := Outgoing();
      var fastCount := RecordScrollDelta(dt);
      assert Outgoing() == before && Ctx() == ctx;
      if fastCount >= 4 {
        Emit(FastScroll(fastCount, now), draw);
      }
    }

    /** Push a delta into the ring, shifting out the oldest beyond 200, and count the fast ones among the last 8. */
    method RecordScrollDelta(dt: int) returns (fastCount: nat)
      modifies this`scrollTimes, this`scrollHistory
      requires Valid()
      ensures Valid()
      ensures scrollHistory == old(scrollHistory) + [dt]
      ensures fastCount == FastScrollCount(scrollHistory)
      ensures |scrollTimes| <= ScrollCapacity
    {
      ghost var history := scrollHistory + [dt];
      LastSnoc(scrollHistory, dt, ScrollCapacity);
      LastOfLast(history, ScrollWindow, ScrollCapacity);
      var buffer := scrollTimes + [dt];
      if |buffer| > ScrollCapacity {
        buffer := buffer[1..];
      }
      assert buffer == Last(history, ScrollCapacity);
      scrollTimes := buffer;
      scrollHistory := history;
      var recent := Last(scrollTimes, ScrollWindow);
      fastCount := CountBelow(recent, FastScrollMs);
    }

    /** The `input` listener: a form's start time is its first input's time and is never overwritten. */
    method OnInput(form: Option<FormId>, now: int)
      modifies this`formTimers
      requires Valid()
      ensures Valid()
      ensures form.Some? && form.value !in old(formTimers) ==> formTimers == old(formTimers)[form.value := now]
      ensures (form.None? || form.value in old(formTimers)) ==> formTimers == old(formTimers)
    {
      if form.Some? && form.value !in formTimers {
        formTimers := formTimers[form.value := now];
      }
    }

    /**
      The `submit` listener: the elapsed time runs from the form's first input,
      or from start-up when there was none.
     */
    method OnSubmit(form: FormId, isForm: bool, action: Option<string>, now: int, draw1: real, draw2: real)
      modifies this`eventQueue, this`timerArmed, this`sent, this`log, this`handled
      requires Valid()
      ensures Valid()
      ensures !(old(enabled) && isForm) ==> log == old(log)
      ensures old(enabled) && isForm ==>
        var elapsed := if form in old(formTimers) then now - old(formTimers)[form] else now - started;
        log == old(log) + SubmitEvents(action, elapsed, now)
      ensures !(old(enabled) && isForm) ==> Outgoing() == old(Outgoing())
      ensures old(enabled) && isForm ==>
        var elapsed := if form in old(formTimers) then now - old(formTimers)[form] else now - started;
        var first := Deliver(old(Outgoing()), FormSubmit(action, elapsed, now), draw1, Ctx());
        Outgoing() == if elapsed < FastSubmitMs then Deliver(first, FastSubmitFlag(elapsed, now), draw2, Ctx()) else first
    {
      if !enabled || !isForm {
        return;
      }
      var sinceLoad := now - started;
      var timeToSubmit := if form in formTimers then now - formTimers[form] else sinceLoad;
      EmitSubmit(action, timeToSubmit, now, draw1, draw2);
    }

    /** The two emits of a submit: `form_submit`, then `fast_form_submit_flag` when it came too soon. */
    method EmitSubmit(action: Option<string>, elapsed: int, now: int, draw1: real, draw2: real)
      modifies this`eventQueue, this`timerArmed, this`sent, this`log, this`handled
      requires Valid() && enabled
      ensures Valid()
      ensures log == old(log) + SubmitEvents(action, elapsed, now)
      ensures var first := Deliver(old(Outgoing()), FormSubmit(action, elapsed, now), draw1, Ctx());
        Outgoing() == if elapsed < FastSubmitMs then Deliver(first, FastSubmitFlag(elapsed, now), draw2, Ctx()) else first
    {
      var submitted := FormSubmit(action, elapsed, now);
      ghost var ctx := Ctx();
      ghost var log0 := log;
      ghost var before := Outgoing();
      if elapsed < FastSubmitMs {
        var flag := FastSubmitFlag(elapsed, now);
        Emit(submitted, draw1);
        ghost var first := Outgoing();
        assert first == Deliver(before, submitted, draw1, ctx);
        Emit(flag, draw2);
        assert Outgoing() == Deliver(first, flag, draw2, ctx);
        AppendTwice(log0, [submitted], [flag]);
        assert SubmitEvents(action, elapsed, now) == [submitted] + [flag];
      } else {
        Emit(submitted, draw1);
        assert SubmitEvents(action, elapsed, now) == [submitted];
      }
    }

    /**
      `init`: merge the options, take the fingerprint, and, unless consent is
      required, queue `page_load` then `fingerprint`.
     */
    method Init(options: Options, env: Option<Env>, fpDraw: real, href: string, referrer: string,
                now: int, draw1: real, draw2: real)
      modifies this`cfg, this`step, this`enabled, this`sessionFingerprint, this`eventQueue, this`timerArmed, this`sent, this`log, this`handled
      requires Valid()
      requires 0.0 <= fpDraw < 1.0
      ensures Valid()
      ensures cfg == Merge(old(cfg), options)
      ensures step == (if options.step.Some? && options.step.value != [] then options.step else None)
      ensures enabled == !cfg.consentRequired
      ensures sessionFingerprint == Some(if env.Some? then FingerprintOf(env.value) else FallbackOf(fpDraw))
      ensures log == if enabled
        then old(log) + [PageLoad(href, referrer, now)] + [FingerprintEvent(sessionFingerprint.value, now)]
        else old(log)
      ensures Outgoing() == if enabled
        then Deliver(Deliver(old(Outgoing()), PageLoad(href, referrer, now), draw1, Ctx()),
                     FingerprintEvent(sessionFingerprint.value, now), draw2, Ctx())
        else old(Outgoing())
    {
      var fp := Configure(options, env, fpDraw);
      if !enabled {
        return;
      }
      QueueStartEvents(fp, href, referrer, now, draw1, draw2);
    }

    /** The first half of `init`: configuration, step, enabled flag and fingerprint. */
    method Configure(options: Options, env: Option<Env>, fpDraw: real) returns (fp: string)
      modifies this`cfg, this`step, this`enabled, this`sessionFingerprint
      requires 0.0 <= fpDraw < 1.0
      ensures cfg == Merge(old(cfg), options)
      ensures step == (if options.step.Some? && options.step.value != [] then options.step else None)
      ensures enabled == !cfg.consentRequired
      ensures fp == (if env.Some? then FingerprintOf(env.value) else FallbackOf(fpDraw))
      ensures sessionFingerprint == Some(fp)
    {
      cfg := Merge(cfg, options);
      step := if options.step.Some? && options.step.value != [] then options.step else None;
      enabled := !cfg.consentRequired;
      fp := GenerateFingerprint(env, fpDraw);
      sessionFingerprint := Some(fp);
    }

    /** The two events `init` queues on an enabled tagger. */
    method QueueStartEvents(fp: string, href: string, referrer: string, now: int, draw1: real, draw2: real)
      modifies this`eventQueue, this`timerArmed, this`sent, this`log, this`handled
      requires Valid() && enabled
      ensures Valid()
      ensures log == old(log) + [PageLoad(href, referrer, now)] + [FingerprintEvent(fp, now)]
      ensures Outgoing() == Deliver(Deliver(old(Outgoing()), PageLoad(href, referrer, now), draw1, Ctx()),
                                    FingerprintEvent(fp, now), draw2, Ctx())
    {
      var load := PageLoad(href, referrer, now);
      var tag := FingerprintEvent(fp, now);
      ghost var ctx := Ctx();
      ghost var log0 := log;
      ghost var before := Outgoing();
      Emit(load, draw1);
      ghost var first := Outgoing();
      assert first == Deliver(before, load, draw1, ctx);
      Emit(tag, draw2);
      assert Outgoing() == Deliver(first, tag, draw2, ctx);
      assert log == log0 + [load] + [tag];
    }

    method Enable()
      modifies this`enabled
      ensures enabled
    {
      enabled := true;
    }

    method Disable()
      modifies this`enabled
      ensures !enabled
    {
      enabled := false;
    }

    /** `computeRiskScore`. */
    method ComputeRiskScore() returns (score: int)
      ensures score == RiskScore(Linearity(mouseMovements, regression), scrollTimes, |mouseMovements|)
      ensures 0 <= score <= 60
    {
      var linearity := ComputeLinearity();
      RiskScoreRange(linearity, scrollTimes, |mouseMovements|);
      var recentFast := if CountBelow(Last(scrollTimes, 10), FastScrollMs) >= 4 then 1 else 0;
      score := 10;
      score := score + Round(linearity * -40.0);
      score := score + recentFast * 30;
      score := score + (if |mouseMovements| < 4 then 20 else 0);
      score := if score < 0 then 0 else if score > 100 then 100 else score;
    }
  }
}
