/**
  How the tagger's events fare in the server's batch classifier.
 */
module Pipeline {
  import opened Wrappers
  import opened Telemetry
  import Detect
  import FrontBlock

  /**
    The tagger reports its mouse score under `linearity` while the classifier
    reads `linearityScore`, so a summary from the tagger never flags a batch,
    whatever its score.
   */
  lemma MouseSummaryNeverQualifies(count: nat, linearity: real, now: int)
    ensures !FrontBlock.Qualifies(Detect.MouseSummary(count, linearity, now))
  {
    var e := Detect.MouseSummary(count, linearity, now);
    assert e.payload.Keys == {"count", "linearity"};
    assert "linearityScore" != "count" by { assert |"linearityScore"| != |"count"|; }
    assert "linearityScore" != "linearity" by { assert |"linearityScore"| != |"linearity"|; }
  }

  /** A form submitted within 700 ms flags any batch that carries its events. */
  lemma FastSubmitFlagsBatch(before: seq<Event>, action: Option<string>, elapsed: int, now: int, after: seq<Event>)
    requires elapsed < Detect.FastSubmitMs
    ensures FrontBlock.Suspicious(Some(before + Detect.SubmitEvents(action, elapsed, now) + after))
  {
    var sub := Detect.SubmitEvents(action, elapsed, now);
    assert FrontBlock.Qualifies(sub[1]);
    FrontBlock.AnyQualifiesExists(sub);
    FrontBlock.AnyQualifiesConcat(before, sub);
    FrontBlock.AnyQualifiesConcat(before + sub, after);
  }

  /** A `fast_scroll` event flags any batch that carries it. */
  lemma FastScrollFlagsBatch(before: seq<Event>, fastCount: nat, now: int, after: seq<Event>)
    ensures FrontBlock.Suspicious(Some(before + [Detect.FastScroll(fastCount, now)] + after))
  {
    FrontBlock.AnyQualifiesConcat(before, [Detect.FastScroll(fastCount, now)]);
    FrontBlock.AnyQualifiesConcat(before + [Detect.FastScroll(fastCount, now)], after);
  }

  /** The two events `init` queues never flag a batch on their own. */
  lemma StartEventsNotSuspicious(href: string, referrer: string, fp: string, now: int)
    ensures !FrontBlock.Suspicious(Some([Detect.PageLoad(href, referrer, now), Detect.FingerprintEvent(fp, now)]))
  {
    var es := [Detect.PageLoad(href, referrer, now), Detect.FingerprintEvent(fp, now)];
    assert !FrontBlock.Qualifies(es[0]) by {
      assert |"page_load"| != |"fast_scroll"| && |"page_load"| != |"mouse_summary"|;
      assert |"page_load"| != |"fast_form_submit_flag"|;
    }
    assert !FrontBlock.Qualifies(es[1]) by {
      assert "fingerprint"[1] != "fast_scroll"[1];
      assert |"fingerprint"| != |"mouse_summary"| && |"fingerprint"| != |"fast_form_submit_flag"|;
    }
    assert es[1..][1..] == [];
    assert !FrontBlock.AnyQualifies(es[1..]) by { assert es[1..][0] == es[1]; }
  }

  /** A slow submit with no other activity does not flag its batch. */
  lemma SlowSubmitNotSuspicious(action: Option<string>, elapsed: int, now: int)
    requires elapsed >= Detect.FastSubmitMs
    ensures !FrontBlock.Suspicious(Some(Detect.SubmitEvents(action, elapsed, now)))
  {
    var es := Detect.SubmitEvents(action, elapsed, now);
    assert |es| == 1 && es[0].t == "form_submit";
    assert !FrontBlock.Qualifies(es[0]) by {
      assert "form_submit"[1] != "fast_scroll"[1];
      assert |"form_submit"| != |"mouse_summary"| && |"form_submit"| != |"fast_form_submit_flag"|;
    }
    assert es[1..] == [];
    assert !FrontBlock.AnyQualifies(es[1..]);
  }
}
