/** The threshold signal detector: a debounce state machine over a bounded FIFO
    of classification tags. A signal fires only when the buffer is full and every
    tag in it is the current reading's kind; a gated or unclassified reading
    clears the buffer, and so does a firing (edge-triggered). */
module Signals {
  import opened Wrappers
  import opened Numeric
  import opened Deques
  import opened Schemas

  /** imbalance_threshold, min_update_rate and confirm_n (a deque maxlen, so never negative). */
  datatype Config = Config(imbalanceThreshold: real, minUpdateRate: real, confirmN: nat)

  /** `evaluate`'s classification of one reading (see ClassifyCases). */
  function Classify(threshold: real, fv: FeatureVector): (r: Option<SignalKind>)
    ensures r == Some(BuyPressure) ==> fv.imbalance > threshold && fv.bidSlope > fv.askSlope
    ensures r == Some(SellPressure) ==> fv.imbalance < -threshold && fv.askSlope > fv.bidSlope
    ensures fv.bidSlope == fv.askSlope ==> r == None
  {
    if fv.imbalance > threshold && fv.bidSlope > fv.askSlope then Some(BuyPressure)
    else if fv.imbalance < -threshold && fv.askSlope > fv.bidSlope then Some(SellPressure)
    else None
  }

  /** Buy pressure exactly when the imbalance is above the threshold and the bid
      side is steeper; sell pressure exactly when that fails and the imbalance is
      below minus the threshold with the ask side steeper; none otherwise. With a
      non-negative threshold the two conditions never hold together. */
  lemma ClassifyCases(threshold: real, fv: FeatureVector)
    ensures Classify(threshold, fv) == Some(BuyPressure) <==>
      fv.imbalance > threshold && fv.bidSlope > fv.askSlope
    ensures Classify(threshold, fv) == Some(SellPressure) <==>
      !(fv.imbalance > threshold && fv.bidSlope > fv.askSlope) &&
      fv.imbalance < -threshold && fv.askSlope > fv.bidSlope
    ensures Classify(threshold, fv) == None <==>
      !(fv.imbalance > threshold && fv.bidSlope > fv.askSlope) &&
      !(fv.imbalance < -threshold && fv.askSlope > fv.bidSlope)
    ensures threshold >= 0.0 ==>
      !(fv.imbalance > threshold && fv.bidSlope > fv.askSlope &&
        fv.imbalance < -threshold && fv.askSlope > fv.bidSlope)
  {
  }

  /** The tag a reading contributes: none when the rate gate stops it, otherwise its class. */
  function Accepted(cfg: Config, fv: FeatureVector): (r: Option<SignalKind>)
    ensures fv.updateRate < cfg.minUpdateRate ==> r == None
    ensures r.Some? ==> fv.updateRate >= cfg.minUpdateRate && Classify(cfg.imbalanceThreshold, fv) == r
  {
    if fv.updateRate < cfg.minUpdateRate then None else Classify(cfg.imbalanceThreshold, fv)
  }

  predicate AllOfKind(buf: seq<SignalKind>, kind: SignalKind)
  {
    forall i :: 0 <= i < |buf| ==> buf[i] == kind
  }

  /** The buffer after a step and the signal it emitted, if any. */
  datatype Step = Step(buf: seq<SignalKind>, out: Option<Signal>)

  /** One call of `evaluate` on a buffer holding `buf` (see TransitionCases). */
  function Transition(cfg: Config, buf: seq<SignalKind>, fv: FeatureVector): (s: Step)
    requires |buf| <= cfg.confirmN
    ensures |s.buf| <= cfg.confirmN
    ensures s.out.Some? ==> s.buf == []
  {
    match Accepted(cfg, fv)
    case None => Step([], None)
    case Some(kind) =>
      var grown := Append(buf, kind, cfg.confirmN);
      if |grown| == cfg.confirmN && AllOfKind(grown, kind) then
        Step([], Some(Signal(fv.ts, kind, Abs(fv.imbalance))))
      else
        Step(grown, None)
  }

  /** The three rules of the debounce: a reading below the rate gate, or one with
      no class, clears the buffer and emits nothing; a classified reading is
      appended (evicting the oldest tag of a full buffer), and a signal fires
      exactly when the buffer is then full and every tag equals the new one. */
  lemma TransitionCases(cfg: Config, buf: seq<SignalKind>, fv: FeatureVector)
    requires |buf| <= cfg.confirmN
    ensures fv.updateRate < cfg.minUpdateRate ==> Transition(cfg, buf, fv) == Step([], None)
    ensures Classify(cfg.imbalanceThreshold, fv).None? ==> Transition(cfg, buf, fv) == Step([], None)
    ensures Accepted(cfg, fv).Some? ==>
      var kind := Accepted(cfg, fv).value;
      var grown := Append(buf, kind, cfg.confirmN);
      (Transition(cfg, buf, fv).out.Some? <==> |grown| == cfg.confirmN && AllOfKind(grown, kind)) &&
      (Transition(cfg, buf, fv).out.None? ==> Transition(cfg, buf, fv).buf == grown)
  {
  }

  /** An emitted signal carries the reading's timestamp, its class as kind and
      |imbalance| as strength, which is in [0, 1] when the imbalance is; it
      resets the buffer and needs the rate gate open. */
  lemma EmittedSignal(cfg: Config, buf: seq<SignalKind>, fv: FeatureVector)
    requires |buf| <= cfg.confirmN
    requires Transition(cfg, buf, fv).out.Some?
    ensures var s := Transition(cfg, buf, fv);
      s.buf == [] &&
      fv.updateRate >= cfg.minUpdateRate &&
      Classify(cfg.imbalanceThreshold, fv) == Some(s.out.value.kind) &&
      s.out.value.ts == fv.ts &&
      s.out.value.strength == Abs(fv.imbalance) &&
      (-1.0 <= fv.imbalance <= 1.0 ==> 0.0 <= s.out.value.strength <= 1.0)
  {
  }

  /** With confirmN = 0 the buffer is a deque of maxlen 0: it stays empty, is
      always "full", and every classified reading that passes the gate fires. */
  lemma ZeroConfirmationFiresAtOnce(cfg: Config, fv: FeatureVector)
    requires cfg.confirmN == 0 && Accepted(cfg, fv).Some?
    ensures Transition(cfg, [], fv).out == Some(Signal(fv.ts, Accepted(cfg, fv).value, Abs(fv.imbalance)))
  {
  }

  /** The detector's buffer and outputs after a stream of readings, from an empty buffer. */
  datatype Trace = Trace(buf: seq<SignalKind>, outs: seq<Option<Signal>>)

  function Replay(cfg: Config, fvs: seq<FeatureVector>): (t: Trace)
    ensures |t.buf| <= cfg.confirmN
    ensures |t.outs| == |fvs|
  {
    if fvs == [] then Trace([], [])
    else
      var prev := Replay(cfg, fvs[..|fvs| - 1]);
      var s := Transition(cfg, prev.buf, fvs[|fvs| - 1]);
      Trace(s.buf, prev.outs + [s.out])
  }

  /** Later readings do not change earlier outputs. */
  lemma {:induction false} ReplayPrefix(cfg: Config, fvs: seq<FeatureVector>, j: nat)
    requires j <= |fvs|
    ensures Replay(cfg, fvs[..j]).outs == Replay(cfg, fvs).outs[..j]
    decreases |fvs|
  {
    if j < |fvs| {
      var init := fvs[..|fvs| - 1];
      assert init[..j] == fvs[..j];
      ReplayPrefix(cfg, init, j);
    } else {
      assert fvs[..j] == fvs;
    }
  }

  /** One more reading: the replay steps the buffer the shorter stream left. */
  lemma ReplayStep(cfg: Config, fvs: seq<FeatureVector>, fv: FeatureVector)
    ensures var s := Transition(cfg, Replay(cfg, fvs).buf, fv);
      Replay(cfg, fvs + [fv]) == Trace(s.buf, Replay(cfg, fvs).outs + [s.out])
  {
    assert (fvs + [fv])[..|fvs|] == fvs;
  }

  /** The output at step j is the transition from the buffer the first j readings left. */
  lemma OutputAt(cfg: Config, fvs: seq<FeatureVector>, j: nat)
    requires j < |fvs|
    ensures Replay(cfg, fvs).outs[j] == Transition(cfg, Replay(cfg, fvs[..j]).buf, fvs[j]).out
    ensures Replay(cfg, fvs[..j + 1]).buf == Transition(cfg, Replay(cfg, fvs[..j]).buf, fvs[j]).buf
  {
    ReplayPrefix(cfg, fvs, j + 1);
    assert Replay(cfg, fvs).outs[j] == Replay(cfg, fvs[..j + 1]).outs[j];
    TakeOneMore(fvs, j);
    ReplayStep(cfg, fvs[..j], fvs[j]);
  }

  lemma TakeOneMore<T>(s: seq<T>, j: nat)
    requires j < |s|
    ensures s[..j + 1] == s[..j] + [s[j]]
  {
  }

  /** The tag each reading of a stream contributes. */
  function Tags(cfg: Config, fvs: seq<FeatureVector>): (tags: seq<Option<SignalKind>>)
    ensures |tags| == |fvs|
    ensures forall i :: 0 <= i < |fvs| ==> tags[i] == Accepted(cfg, fvs[i])
  {
    seq(|fvs|, i requires 0 <= i < |fvs| => Accepted(cfg, fvs[i]))
  }

  lemma TagsAppend(cfg: Config, fvs: seq<FeatureVector>, fv: FeatureVector)
    ensures Tags(cfg, fvs + [fv]) == Tags(cfg, fvs) + [Accepted(cfg, fv)]
  {
  }

  /** Entry i of the buffer, counted from its end, is the tag of the i-th most
      recent reading: the buffer records an unbroken run of accepted readings. */
  predicate Aligned(buf: seq<SignalKind>, tags: seq<Option<SignalKind>>)
  {
    |buf| <= |tags| &&
    forall i :: 0 <= i < |buf| ==> tags[|tags| - |buf| + i] == Some(buf[i])
  }

  lemma AlignedAppend(buf: seq<SignalKind>, tags: seq<Option<SignalKind>>, kind: SignalKind, cap: nat)
    requires |buf| <= cap && Aligned(buf, tags)
    ensures Aligned(Append(buf, kind, cap), tags + [Some(kind)])
  {
    var grown := Append(buf, kind, cap);
    var all := tags + [Some(kind)];
    var off := |buf| + 1 - |grown|;
    forall i | 0 <= i < |grown|
      ensures all[|all| - |grown| + i] == Some(grown[i])
    {
      var src := |all| - |grown| + i;
      assert src == |tags| - |buf| + (off + i);
      assert grown[i] == (buf + [kind])[off + i];
      if off + i < |buf| {
        assert all[src] == tags[src];
      }
    }
  }

  /** One step keeps the buffer aligned with the tags. */
  lemma AlignedStep(cfg: Config, pre: seq<FeatureVector>, fv: FeatureVector)
    requires Aligned(Replay(cfg, pre).buf, Tags(cfg, pre))
    ensures Aligned(Replay(cfg, pre + [fv]).buf, Tags(cfg, pre + [fv]))
  {
    var prev := Replay(cfg, pre).buf;
    ReplayStep(cfg, pre, fv);
    TagsAppend(cfg, pre, fv);
    TransitionCases(cfg, prev, fv);
    if Accepted(cfg, fv).Some? {
      AlignedAppend(prev, Tags(cfg, pre), Accepted(cfg, fv).value, cfg.confirmN);
    }
  }

  /** The detector's buffer is always an aligned record of the latest readings. */
  lemma {:induction false} ReplayAligned(cfg: Config, fvs: seq<FeatureVector>)
    ensures Aligned(Replay(cfg, fvs).buf, Tags(cfg, fvs))
  {
    if fvs != [] {
      var init := fvs[..|fvs| - 1];
      ReplayAligned(cfg, init);
      AlignedStep(cfg, init, fvs[|fvs| - 1]);
      TakeOneMore(fvs, |fvs| - 1);
      assert fvs[..|fvs|] == fvs;
    }
  }

  /** A firing step ends a run of confirmN readings whose tags are all the signal's kind. */
  lemma FiringStep(cfg: Config, pre: seq<FeatureVector>, fv: FeatureVector)
    requires Transition(cfg, Replay(cfg, pre).buf, fv).out.Some?
    ensures |pre| + 1 >= cfg.confirmN
    ensures var kind := Transition(cfg, Replay(cfg, pre).buf, fv).out.value.kind;
      forall i :: |pre| + 1 - cfg.confirmN <= i <= |pre| ==> Tags(cfg, pre + [fv])[i] == Some(kind)
  {
    var buf := Replay(cfg, pre).buf;
    TransitionCases(cfg, buf, fv);
    var kind := Accepted(cfg, fv).value;
    var grown := Append(buf, kind, cfg.confirmN);
    assert |grown| == cfg.confirmN && AllOfKind(grown, kind);
    ReplayAligned(cfg, pre);
    AlignedAppend(buf, Tags(cfg, pre), kind, cfg.confirmN);
    TagsAppend(cfg, pre, fv);
    var tags := Tags(cfg, pre + [fv]);
    forall i | |pre| + 1 - cfg.confirmN <= i <= |pre|
      ensures tags[i] == Some(kind)
    {
      var b := i - (|pre| + 1 - cfg.confirmN);
      assert tags[|tags| - |grown| + b] == Some(grown[b]);
    }
  }

  /** A signal emitted at step j was preceded by confirmN consecutive readings,
      ending with reading j, that all passed the rate gate and were classified
      as the signal's kind. */
  lemma {:induction false} FiresOnlyAfterConfirmedRun(cfg: Config, fvs: seq<FeatureVector>, j: nat)
    requires j < |fvs| && Replay(cfg, fvs).outs[j].Some?
    ensures j + 1 >= cfg.confirmN
    ensures forall i :: j + 1 - cfg.confirmN <= i <= j ==>
      Accepted(cfg, fvs[i]) == Some(Replay(cfg, fvs).outs[j].value.kind)
  {
    OutputAt(cfg, fvs, j);
    FiringStep(cfg, fvs[..j], fvs[j]);
    TakeOneMore(fvs, j);
    var tags := Tags(cfg, fvs[..j + 1]);
    forall i | j + 1 - cfg.confirmN <= i <= j
      ensures Accepted(cfg, fvs[i]) == tags[i]
    {
      assert fvs[..j + 1][i] == fvs[i];
    }
  }

  /** Each step grows the buffer by at most one tag. */
  lemma {:induction false} BufferGrowth(cfg: Config, fvs: seq<FeatureVector>, i: nat)
    requires i <= |fvs|
    ensures |Replay(cfg, fvs).buf| <= |Replay(cfg, fvs[..i]).buf| + (|fvs| - i)
    decreases |fvs|
  {
    if i < |fvs| {
      var init := fvs[..|fvs| - 1];
      assert init[..i] == fvs[..i];
      BufferGrowth(cfg, init, i);
    } else {
      assert fvs[..i] == fvs;
    }
  }

  /** Two emitted signals are at least confirmN readings apart: after a firing
      the run starts again from an empty buffer. */
  lemma {:induction false} SignalsAtLeastConfirmNApart(cfg: Config, fvs: seq<FeatureVector>, j1: nat, j2: nat)
    requires j1 < j2 < |fvs|
    requires Replay(cfg, fvs).outs[j1].Some? && Replay(cfg, fvs).outs[j2].Some?
    ensures j2 - j1 >= cfg.confirmN
  {
    OutputAt(cfg, fvs, j1);
    assert Replay(cfg, fvs[..j1 + 1]).buf == [];
    var before := fvs[..j2];
    assert before[..j1 + 1] == fvs[..j1 + 1];
    BufferGrowth(cfg, before, j1 + 1);
    var buf := Replay(cfg, before).buf;
    assert |buf| <= j2 - j1 - 1;
    OutputAt(cfg, fvs, j2);
    TransitionCases(cfg, buf, fvs[j2]);
    assert |Append(buf, Accepted(cfg, fvs[j2]).value, cfg.confirmN)| == cfg.confirmN;
  }

  /** `ThresholdSignalEngine`: the configuration and the tag buffer. */
  class ThresholdSignalEngine {
    const cfg: Config
    var buf: seq<SignalKind>
    /** Every reading evaluated so far, oldest first. */
    ghost var seen: seq<FeatureVector>

    /** The buffer is the one the replay of all readings so far leaves. */
    ghost predicate Valid()
      reads this
    {
      buf == Replay(cfg, seen).buf
    }

    constructor (imbalanceThreshold: real := 0.12, minUpdateRate: real := 2.0, confirmN: nat := 2)
      ensures Valid()
      ensures cfg == Config(imbalanceThreshold, minUpdateRate, confirmN)
      ensures buf == [] && seen == []
    {
      cfg := Config(imbalanceThreshold, minUpdateRate, confirmN);
      buf := [];
      seen := [];
    }

    /** `evaluate`: one step of the debounce state machine. */
    method Evaluate(fv: FeatureVector) returns (sig: Option<Signal>)
      requires Valid()
      modifies this
      ensures Valid()
      ensures seen == old(seen) + [fv]
      ensures Step(buf, sig) == Transition(cfg, old(buf), fv)
      ensures sig == Replay(cfg, seen).outs[|seen| - 1]
      ensures |buf| <= cfg.confirmN
    {
      ReplayStep(cfg, seen, fv);
      TransitionCases(cfg, buf, fv);
      seen := seen + [fv];
      if fv.updateRate < cfg.minUpdateRate {
        buf := [];
        return None;
      }
      var kind: Option<SignalKind> := None;
      if fv.imbalance > cfg.imbalanceThreshold && fv.bidSlope > fv.askSlope {
        kind := Some(BuyPressure);
      } else if fv.imbalance < -cfg.imbalanceThreshold && fv.askSlope > fv.bidSlope {
        kind := Some(SellPressure);
      }
      if kind.Some? {
        buf := Append(buf, kind.value, cfg.confirmN);
        if |buf| == cfg.confirmN && forall i | 0 <= i < |buf| :: buf[i] == kind.value {
          buf := [];
          return Some(Signal(fv.ts, kind.value, Abs(fv.imbalance)));
        }
      } else {
        buf := [];
      }
      return None;
    }
  }
}
