/**
 The energy-based voice activity detector and the capture that turns its edges into utterances on a queue.
 A frame is its bytes; an empty chunk on the queue is the end marker. Energies and times are reals.
 */
module Vad {
  import opened Std

  type Bytes = seq<nat>

  datatype State = Silence | Speech | Cooldown

  datatype Config = Config(
    startThreshold: real, endThreshold: real, startFrames: int, endFrames: int,
    preRollMs: nat, frameMs: nat, cooldownMs: real, maxSpeechMs: real)

  predicate Usable(cfg: Config) { cfg.frameMs > 0 }

  function PreRollFrames(cfg: Config): nat
    requires Usable(cfg)
  {
    cfg.preRollMs / cfg.frameMs
  }

  datatype Detector = Detector(
    state: State, speechFrames: nat, silenceFrames: nat, totalFrames: nat,
    startTime: Option<real>, preRoll: seq<Bytes>, lastEnd: real)

  datatype Result = Result(detected: bool, started: bool, ended: bool)

  /** One captured frame with its energy and the time it is processed. */
  datatype Input = Input(frame: Bytes, rms: real, now: real)

  /** Milliseconds since speech began; a start time of zero counts as none. */
  function SpeechMs(d: Detector, now: real): real {
    if d.startTime.Some? && d.startTime.value != 0.0 then (now - d.startTime.value) * 1000.0 else 0.0
  }

  /** The state machine, after the frame has entered the pre-roll buffer. */
  function Advance(cfg: Config, d: Detector, rms: real, now: real): (Detector, Result) {
    match d.state
    case Silence =>
      if rms > cfg.startThreshold then
        var n := d.speechFrames + 1;
        if n >= cfg.startFrames then
          (d.(speechFrames := n, state := Speech, startTime := Some(now), silenceFrames := 0),
           Result(true, true, false))
        else (d.(speechFrames := n), Result(false, false, false))
      else (d.(speechFrames := 0), Result(false, false, false))
    case Speech =>
      if SpeechMs(d, now) > cfg.maxSpeechMs then (d.(state := Cooldown, lastEnd := now), Result(false, false, true))
      else if rms < cfg.endThreshold then
        var n := d.silenceFrames + 1;
        if n >= cfg.endFrames then
          (d.(silenceFrames := n, state := Cooldown, lastEnd := now), Result(false, false, true))
        else (d.(silenceFrames := n), Result(true, false, false))
      else (d.(silenceFrames := 0), Result(true, false, false))
    case Cooldown =>
      if (now - d.lastEnd) * 1000.0 > cfg.cooldownMs then
        (d.(state := Silence, speechFrames := 0, silenceFrames := 0), Result(false, false, false))
      else (d, Result(false, false, false))
  }

  function Process(cfg: Config, d: Detector, x: Input): (Detector, Result)
    requires Usable(cfg)
  {
    Advance(cfg, d.(preRoll := LastOf(d.preRoll + [x.frame], PreRollFrames(cfg)), totalFrames := d.totalFrames + 1),
            x.rms, x.now)
  }

  function Fresh(totalFrames: nat, lastEnd: real): Detector { Detector(Silence, 0, 0, totalFrames, None, [], lastEnd) }

  class VoiceActivityDetector {
    const cfg: Config
    var state: State
    var speechFrames: nat
    var silenceFrames: nat
    var totalFrames: nat
    var startTime: Option<real>
    var preRoll: seq<Bytes>
    var lastEnd: real

    ghost function View(): Detector reads this {
      Detector(state, speechFrames, silenceFrames, totalFrames, startTime, preRoll, lastEnd)
    }

    constructor (cfg: Config)
      requires Usable(cfg)
      ensures this.cfg == cfg && View() == Fresh(0, 0.0)
    {
      this.cfg := cfg;
      state, speechFrames, silenceFrames, totalFrames, startTime, preRoll, lastEnd := Silence, 0, 0, 0, None, [], 0.0;
    }

    method ProcessFrame(x: Input) returns (r: Result)
      requires Usable(cfg)
      modifies this
      ensures (View(), r) == Process(cfg, old(View()), x)
    {
      preRoll := preRoll + [x.frame];
      if |preRoll| > PreRollFrames(cfg) { preRoll := preRoll[|preRoll| - PreRollFrames(cfg)..]; }
      totalFrames := totalFrames + 1;
      var started, ended := false, false;
      match state {
        case Silence =>
          if x.rms > cfg.startThreshold {
            speechFrames := speechFrames + 1;
            if speechFrames >= cfg.startFrames {
              state, startTime, started, silenceFrames := Speech, Some(x.now), true, 0;
            }
          } else {
            speechFrames := 0;
          }
        case Speech =>
          var duration := if startTime.Some? && startTime.value != 0.0 then (x.now - startTime.value) * 1000.0 else 0.0;
          if duration > cfg.maxSpeechMs {
            state, ended, lastEnd := Cooldown, true, x.now;
          } else if x.rms < cfg.endThreshold {
            silenceFrames := silenceFrames + 1;
            if silenceFrames >= cfg.endFrames { state, ended, lastEnd := Cooldown, true, x.now; }
          } else {
            silenceFrames := 0;
          }
        case Cooldown =>
          if (x.now - lastEnd) * 1000.0 > cfg.cooldownMs { state, speechFrames, silenceFrames := Silence, 0, 0; }
      }
      r := Result(state == Speech, started, ended);
    }

    method GetPreRollAudio() returns (audio: Bytes)
      ensures audio == Flatten(preRoll)
    {
      audio := Flatten(preRoll);
    }

    method Reset()
      modifies this
      ensures View() == Fresh(old(totalFrames), old(lastEnd))
    {
      state, speechFrames, silenceFrames, startTime, preRoll := Silence, 0, 0, None, [];
    }
  }

  /** What the capture puts on the queue for one processed frame. */
  function Emitted(preRoll: seq<Bytes>, frame: Bytes, r: Result): seq<Bytes> {
    var audio := if r.started then Flatten(preRoll) else frame;
    if r.detected then (if r.ended then [audio, []] else [audio]) else if r.ended then [[]] else []
  }

  class MicrophoneCapture {
    const detector: VoiceActivityDetector
    var isSpeaking: bool
    var starts: nat
    var queue: seq<Bytes>

    constructor (detector: VoiceActivityDetector)
      ensures this.detector == detector && !isSpeaking && starts == 0 && queue == []
    {
      this.detector := detector;
      isSpeaking, starts, queue := false, 0, [];
    }

    method HandleVadFrame(frame: Bytes, r: Result)
      requires r.started ==> r.detected
      modifies this
      ensures queue == old(queue) + Emitted(detector.preRoll, frame, r)
      ensures isSpeaking == (if r.ended then false else old(isSpeaking) || r.detected)
      ensures starts == old(starts) + (if r.started then 1 else 0)
    {
      if r.detected {
        isSpeaking := true;
        if r.started {
          starts := starts + 1;
          var audio := detector.GetPreRollAudio();
          queue := queue + [audio];
        } else {
          queue := queue + [frame];
        }
      }
      if r.ended {
        isSpeaking := false;
        queue := queue + [[]];
      }
    }

    /** The capture loop's body for one frame. */
    method Capture(x: Input)
      requires Usable(detector.cfg)
      modifies this, detector
      ensures var (d, r) := Process(detector.cfg, old(detector.View()), x);
              detector.View() == d && queue == old(queue) + Emitted(d.preRoll, x.frame, r)
    {
      var r := detector.ProcessFrame(x);
      HandleVadFrame(x.frame, r);
    }
  }

  // ── Runs between two resets ─────────────────────────────────────────

  function DetectorAfter(cfg: Config, d: Detector, xs: seq<Input>): Detector
    requires Usable(cfg)
  {
    if xs == [] then d else Process(cfg, DetectorAfter(cfg, d, xs[..|xs| - 1]), xs[|xs| - 1]).0
  }

  function ResultOf(cfg: Config, d: Detector, xs: seq<Input>): Result
    requires Usable(cfg) && xs != []
  {
    Process(cfg, DetectorAfter(cfg, d, xs[..|xs| - 1]), xs[|xs| - 1]).1
  }

  function Queue(cfg: Config, d: Detector, xs: seq<Input>): seq<Bytes>
    requires Usable(cfg)
  {
    if xs == [] then []
    else Queue(cfg, d, xs[..|xs| - 1])
         + Emitted(DetectorAfter(cfg, d, xs).preRoll, xs[|xs| - 1].frame, ResultOf(cfg, d, xs))
  }

  /** The edges of a run: true where speech starts, false where it ends. */
  function Edges(cfg: Config, d: Detector, xs: seq<Input>): seq<bool>
    requires Usable(cfg)
  {
    if xs == [] then []
    else
      var r := ResultOf(cfg, d, xs);
      Edges(cfg, d, xs[..|xs| - 1]) + (if r.started then [true] else if r.ended then [false] else [])
  }

  function Frames(xs: seq<Input>): seq<Bytes> {
    if xs == [] then [] else Frames(xs[..|xs| - 1]) + [xs[|xs| - 1].frame]
  }

  /** An utterance: its chunks, and the window of captured frames it stands for. */
  datatype Utterance = Utterance(chunks: seq<Bytes>, from: nat, to: nat, closed: bool)

  /** One more processed frame, the n-th; `preRoll` is the buffer after it. */
  function Extend(us: seq<Utterance>, r: Result, preRoll: seq<Bytes>, frame: Bytes, n: nat): seq<Utterance> {
    if r.started then us + [Utterance([Flatten(preRoll)], if |preRoll| <= n then n - |preRoll| else 0, n, false)]
    else if us == [] then us
    else
      var u := us[|us| - 1];
      if r.detected then us[..|us| - 1] + [u.(chunks := u.chunks + [frame], to := n)]
      else if r.ended then us[..|us| - 1] + [u.(closed := true)]
      else us
  }

  /** The utterances of a run, each from the frame where its pre-roll begins. */
  function Utterances(cfg: Config, d: Detector, xs: seq<Input>): seq<Utterance>
    requires Usable(cfg)
  {
    if xs == [] then []
    else
      Extend(Utterances(cfg, d, xs[..|xs| - 1]), ResultOf(cfg, d, xs), DetectorAfter(cfg, d, xs).preRoll,
             xs[|xs| - 1].frame, |xs|)
  }

  function OnQueue(us: seq<Utterance>): seq<Bytes> {
    if us == [] then [] else Closing(OnQueue(us[..|us| - 1]) + us[|us| - 1].chunks, us[|us| - 1].closed)
  }

  /** The end marker follows the chunks of a closed utterance. */
  function Closing(queue: seq<Bytes>, closed: bool): seq<Bytes> { if closed then queue + [[]] else queue }

  function Opening(parts: seq<seq<Bytes>>, closed: bool): seq<seq<Bytes>> { if closed then parts + [[]] else parts
  }

  /** The utterance is one contiguous window of the frames, and no chunk of it looks like an end marker. */
  predicate Contiguous(u: Utterance, frames: seq<Bytes>) {
    && u.from < u.to <= |frames| && u.chunks != []
    && Flatten(u.chunks) == Flatten(frames[u.from..u.to])
    && forall c | c in u.chunks :: c != []
  }

  predicate AllContiguous(us: seq<Utterance>, frames: seq<Bytes>) { forall u | u in us :: Contiguous(u, frames) }

  /** Every utterance but the last is closed. */
  predicate ClosedBefore(us: seq<Utterance>) { us == [] || forall u | u in us[..|us| - 1] :: u.closed }

  /**
   The utterances so far; the last one is open exactly while speech is detected, and then reaches the newest frame.
   */
  ghost predicate UtterancesOk(us: seq<Utterance>, frames: seq<Bytes>, speaking: bool) {
    && AllContiguous(us, frames) && ClosedBefore(us)
    && (speaking <==> us != [] && !us[|us| - 1].closed)
    && (speaking ==> us[|us| - 1].to == |frames|)
  }

  predicate EdgesOk(edges: seq<bool>, speaking: bool) {
    Alternates(edges) && (|edges| % 2 == 1 <==> speaking)
  }

  ghost predicate RunOk(cfg: Config, d: Detector, xs: seq<Input>)
    requires Usable(cfg)
  {
    var after := DetectorAfter(cfg, d, xs);
    && after.preRoll == LastOf(Frames(xs), PreRollFrames(cfg))
    && Queue(cfg, d, xs) == OnQueue(Utterances(cfg, d, xs))
    && UtterancesOk(Utterances(cfg, d, xs), Frames(xs), after.state == Speech)
    && EdgesOk(Edges(cfg, d, xs), after.state == Speech)
  }

  /** How the outcome of one frame moves between silence and speech. */
  predicate Moves(r: Result, before: bool, after: bool) {
    && r.detected == after && r.started == (!before && after) && r.ended == (before && !after)
  }

  lemma ProcessMoves(cfg: Config, d: Detector, x: Input)
    requires Usable(cfg)
    ensures var (u, r) := Process(cfg, d, x);
            && Moves(r, d.state == Speech, u.state == Speech)
            && u.preRoll == LastOf(d.preRoll + [x.frame], PreRollFrames(cfg))
  {
  }

  /** Start, end, start, end, and so on. */
  predicate Alternates(edges: seq<bool>) {
    forall k | 0 <= k < |edges| :: edges[k] == (k % 2 == 0)
  }

  predicate Audible(xs: seq<Input>) { forall x | x in xs :: x.frame != [] }

  lemma {:induction false} FramesSize(xs: seq<Input>)
    ensures |Frames(xs)| == |xs|
  {
    if xs != [] { FramesSize(xs[..|xs| - 1]); }
  }

  lemma {:induction false} FlattenEmpty(parts: seq<Bytes>)
    requires parts != [] && forall p | p in parts :: p != []
    ensures Flatten(parts) != []
  {
    assert parts[|parts| - 1] in parts;
  }

  lemma FlattenOne(s: Bytes)
    ensures Flatten([s]) == s
  {
    assert [s][..0] == [];
  }

  lemma {:induction false} FrameMembers(xs: seq<Input>, f: Bytes)
    requires f in Frames(xs) && Audible(xs)
    ensures f != []
  {
    var n := |xs| - 1;
    assert xs[n] in xs;
    if f != xs[n].frame {
      forall x | x in xs[..n] ensures x.frame != [] { assert x in xs; }
      FrameMembers(xs[..n], f);
    }
  }

  lemma {:induction false} AllFramesAudible(xs: seq<Input>)
    requires Audible(xs)
    ensures forall f | f in Frames(xs) :: f != []
  {
    forall f | f in Frames(xs) ensures f != [] { FrameMembers(xs, f); }
  }

  lemma WindowStays(u: Utterance, frames: seq<Bytes>, f: Bytes)
    requires Contiguous(u, frames)
    ensures Contiguous(u, frames + [f])
  {
    assert (frames + [f])[u.from..u.to] == frames[u.from..u.to];
  }

  /** Utterances found before stay contiguous windows of the longer sequence of frames. */
  lemma WindowsStay(us: seq<Utterance>, frames: seq<Bytes>, f: Bytes)
    requires AllContiguous(us, frames)
    ensures AllContiguous(us, frames + [f])
  {
    forall u | u in us ensures Contiguous(u, frames + [f]) {
      WindowStays(u, frames, f);
    }
  }

  /** A new utterance: its one chunk is the pre-roll, which ends with the triggering frame. */
  lemma StartsContiguous(frames: seq<Bytes>, preRoll: nat)
    requires |frames| > 0 && preRoll > 0 && forall f | f in frames :: f != []
    ensures var last := LastOf(frames, preRoll);
            |last| <= |frames| && Contiguous(Utterance([Flatten(last)], |frames| - |last|, |frames|, false), frames)
  {
    var last := LastOf(frames, preRoll);
    assert frames[|frames| - |last|..|frames|] == last;
    FlattenOne(Flatten(last));
    forall f | f in last ensures f != [] { assert f in frames; }
    FlattenEmpty(last);
  }

  lemma GrowsContiguous(u: Utterance, frames: seq<Bytes>, f: Bytes)
    requires Contiguous(u, frames) && u.to == |frames| && f != []
    ensures Contiguous(u.(chunks := u.chunks + [f], to := |frames| + 1), frames + [f])
  {
    assert (frames + [f])[u.from..] == frames[u.from..u.to] + [f];
    FlattenConcat(u.chunks, [f]);
    FlattenConcat(frames[u.from..u.to], [f]);
    FlattenOne(f);
    assert (frames + [f])[u.from..|frames| + 1] == (frames + [f])[u.from..];
  }

  lemma {:induction false} OnQueueMore(us: seq<Utterance>, u: Utterance)
    ensures OnQueue(us + [u]) == Closing(OnQueue(us) + u.chunks, u.closed)
  {
    assert (us + [u])[..|us|] == us;
  }

  lemma {:induction false} RunsAreOk(cfg: Config, d: Detector, xs: seq<Input>)
    requires Usable(cfg) && PreRollFrames(cfg) > 0 && d == Fresh(d.totalFrames, d.lastEnd) && Audible(xs)
    ensures RunOk(cfg, d, xs)
  {
    if xs != [] {
      var before, x := xs[..|xs| - 1], xs[|xs| - 1];
      forall y | y in before ensures y.frame != [] { assert y in xs; }
      RunsAreOk(cfg, d, before);
      assert x in xs;
      StepOk(cfg, d, xs);
    }
  }

  lemma Starting(us: seq<Utterance>, frames: seq<Bytes>, f: Bytes, r: Result, preRoll: nat)
    requires UtterancesOk(us, frames, false) && r == Result(true, true, false) && preRoll > 0
    requires forall g | g in frames + [f] :: g != []
    ensures UtterancesOk(Extend(us, r, LastOf(frames + [f], preRoll), f, |frames| + 1), frames + [f], true)
  {
    WindowsStay(us, frames, f);
    StartsContiguous(frames + [f], preRoll);
    var u := Extend(us, r, LastOf(frames + [f], preRoll), f, |frames| + 1);
    assert u[..|u| - 1] == us;
    forall v | v in us ensures v.closed { if us != [] && v != us[|us| - 1] { assert v in us[..|us| - 1]; } }
  }

  lemma Continuing(us: seq<Utterance>, frames: seq<Bytes>, f: Bytes, r: Result, preRoll: seq<Bytes>)
    requires UtterancesOk(us, frames, true) && r == Result(true, false, false) && f != []
    ensures UtterancesOk(Extend(us, r, preRoll, f, |frames| + 1), frames + [f], true)
  {
    WindowsStay(us, frames, f);
    GrowsContiguous(us[|us| - 1], frames, f);
    var u := Extend(us, r, preRoll, f, |frames| + 1);
    assert u[..|u| - 1] == us[..|us| - 1];
  }

  lemma Ending(us: seq<Utterance>, frames: seq<Bytes>, f: Bytes, r: Result, preRoll: seq<Bytes>)
    requires UtterancesOk(us, frames, true) && r == Result(false, false, true)
    ensures UtterancesOk(Extend(us, r, preRoll, f, |frames| + 1), frames + [f], false)
  {
    WindowsStay(us, frames, f);
    var u := Extend(us, r, preRoll, f, |frames| + 1);
    assert u[..|u| - 1] == us[..|us| - 1];
    assert Contiguous(us[|us| - 1], frames + [f]);
  }

  lemma ExtendOk(us: seq<Utterance>, frames: seq<Bytes>, f: Bytes, r: Result, preRoll: nat, before: bool, after: bool)
    requires UtterancesOk(us, frames, before) && Moves(r, before, after) && preRoll > 0
    requires forall g | g in frames + [f] :: g != []
    ensures UtterancesOk(Extend(us, r, LastOf(frames + [f], preRoll), f, |frames| + 1), frames + [f], after)
  {
    assert f in frames + [f] by { assert (frames + [f])[|frames|] == f; }
    WindowsStay(us, frames, f);
    if r.started {
      Starting(us, frames, f, r, preRoll);
    } else if r.detected {
      Continuing(us, frames, f, r, LastOf(frames + [f], preRoll));
    } else if r.ended {
      Ending(us, frames, f, r, LastOf(frames + [f], preRoll));
    }
  }

  lemma {:induction false} GrownQueue(done: seq<Utterance>, u: Utterance, f: Bytes, n: nat)
    requires !u.closed
    ensures OnQueue(done + [u.(chunks := u.chunks + [f], to := n)]) == OnQueue(done + [u]) + [f]
    ensures OnQueue(done + [u.(closed := true)]) == OnQueue(done + [u]) + [[]]
  {
    OnQueueMore(done, u);
    OnQueueMore(done, u.(chunks := u.chunks + [f], to := n));
    OnQueueMore(done, u.(closed := true));
  }

  lemma {:induction false} StartQueue(us: seq<Utterance>, r: Result, preRoll: seq<Bytes>, f: Bytes, n: nat)
    requires r == Result(true, true, false)
    ensures OnQueue(Extend(us, r, preRoll, f, n)) == OnQueue(us) + [Flatten(preRoll)]
  {
    OnQueueMore(us, Extend(us, r, preRoll, f, n)[|us|]);
  }

  lemma ExtendedLast(done: seq<Utterance>, u: Utterance, preRoll: seq<Bytes>, f: Bytes, n: nat)
    ensures Extend(done + [u], Result(true, false, false), preRoll, f, n)
            == done + [u.(chunks := u.chunks + [f], to := n)]
    ensures Extend(done + [u], Result(false, false, true), preRoll, f, n) == done + [u.(closed := true)]
  {
    assert (done + [u])[..|done|] == done;
  }

  lemma {:induction false} LastQueue(done: seq<Utterance>, u: Utterance, preRoll: seq<Bytes>, f: Bytes, n: nat)
    requires !u.closed
    ensures OnQueue(Extend(done + [u], Result(true, false, false), preRoll, f, n)) == OnQueue(done + [u]) + [f]
    ensures OnQueue(Extend(done + [u], Result(false, false, true), preRoll, f, n)) == OnQueue(done + [u]) + [[]]
  {
    ExtendedLast(done, u, preRoll, f, n);
    GrownQueue(done, u, f, n);
  }

  /** The queue holds exactly the chunks and end markers of the utterances. */
  lemma {:induction false} ExtendQueue(us: seq<Utterance>, r: Result, preRoll: seq<Bytes>, f: Bytes, n: nat,
                                       before: bool, after: bool)
    requires Moves(r, before, after) && (before <==> us != [] && !us[|us| - 1].closed)
    ensures OnQueue(Extend(us, r, preRoll, f, n)) == OnQueue(us) + Emitted(preRoll, f, r)
  {
    if r.started {
      StartQueue(us, r, preRoll, f, n);
    } else if r.detected || r.ended {
      var done, u := us[..|us| - 1], us[|us| - 1];
      assert us == done + [u];
      LastQueue(done, u, preRoll, f, n);
    } else {
      assert Extend(us, r, preRoll, f, n) == us;
    }
  }

  lemma EdgeMore(edges: seq<bool>, r: Result, before: bool, after: bool)
    requires EdgesOk(edges, before) && Moves(r, before, after)
    ensures EdgesOk(edges + (if r.started then [true] else if r.ended then [false] else []), after)
  {
  }

  lemma StepOk(cfg: Config, d: Detector, xs: seq<Input>)
    requires Usable(cfg) && PreRollFrames(cfg) > 0 && xs != [] && Audible(xs) && RunOk(cfg, d, xs[..|xs| - 1])
    ensures RunOk(cfg, d, xs)
  {
    var before, x := xs[..|xs| - 1], xs[|xs| - 1];
    var was, now := DetectorAfter(cfg, d, before), DetectorAfter(cfg, d, xs);
    ProcessMoves(cfg, was, x);
    LastOfMore(Frames(before), x.frame, PreRollFrames(cfg));
    StepUtterances(cfg, d, xs, was.state == Speech, now.state == Speech);
    ExtendQueue(Utterances(cfg, d, before), ResultOf(cfg, d, xs), now.preRoll, x.frame, |xs|,
                was.state == Speech, now.state == Speech);
    EdgeMore(Edges(cfg, d, before), ResultOf(cfg, d, xs), was.state == Speech, now.state == Speech);
  }

  lemma StepUtterances(cfg: Config, d: Detector, xs: seq<Input>, was: bool, now: bool)
    requires Usable(cfg) && PreRollFrames(cfg) > 0 && xs != [] && Audible(xs)
    requires var before := xs[..|xs| - 1];
             UtterancesOk(Utterances(cfg, d, before), Frames(before), was) && Moves(ResultOf(cfg, d, xs), was, now)
    requires DetectorAfter(cfg, d, xs).preRoll == LastOf(Frames(xs), PreRollFrames(cfg))
    ensures UtterancesOk(Utterances(cfg, d, xs), Frames(xs), now)
  {
    var before, x := xs[..|xs| - 1], xs[|xs| - 1];
    FramesSize(before);
    AllFramesAudible(xs);
    ExtendOk(Utterances(cfg, d, before), Frames(before), x.frame, ResultOf(cfg, d, xs), PreRollFrames(cfg), was, now);
  }

  // ── Where utterances begin and end ──────────────────────────────────

  /** The frames, counted from 0, at which speech starts, and those at which it ends. */
  function StartEdges(cfg: Config, d: Detector, xs: seq<Input>): seq<nat>
    requires Usable(cfg)
  {
    if xs == [] then []
    else
      StartEdges(cfg, d, xs[..|xs| - 1]) + (if ResultOf(cfg, d, xs).started then [|xs| - 1] else [])
  }

  function EndEdges(cfg: Config, d: Detector, xs: seq<Input>): seq<nat>
    requires Usable(cfg)
  {
    if xs == [] then []
    else
      EndEdges(cfg, d, xs[..|xs| - 1]) + (if ResultOf(cfg, d, xs).ended then [|xs| - 1] else [])
  }

  /** Where a window that reaches one pre-roll back from the frame of a start edge begins. */
  function RollStart(start: nat, preRoll: nat): nat { if start + 1 <= preRoll then 0 else start + 1 - preRoll }

  /**
   One utterance for each start edge: its window holds the pre-roll up to the frame of that edge, and ends
   just before the frame of its end edge, or with the newest frame while there is none yet.
   */
  predicate Bounded(us: seq<Utterance>, starts: seq<nat>, ends: seq<nat>, preRoll: nat, n: nat) {
    && |us| == |starts| && |ends| <= |us| <= |ends| + 1
    && forall i | 0 <= i < |us| ::
         && us[i].from == RollStart(starts[i], preRoll) && us[i].from <= starts[i] < us[i].to
         && us[i].to == (if i < |ends| then ends[i] else n)
         && (us[i].closed <==> i < |ends|)
  }

  lemma BoundedStarts(us: seq<Utterance>, starts: seq<nat>, ends: seq<nat>, preRoll: nat, n: nat, roll: seq<Bytes>,
                      f: Bytes)
    requires Bounded(us, starts, ends, preRoll, n) && |us| == |ends| && preRoll > 0
    requires |roll| == (if n + 1 <= preRoll then n + 1 else preRoll)
    ensures Bounded(Extend(us, Result(true, true, false), roll, f, n + 1), starts + [n], ends, preRoll, n + 1)
  {
  }

  lemma BoundedGrows(us: seq<Utterance>, starts: seq<nat>, ends: seq<nat>, preRoll: nat, n: nat, roll: seq<Bytes>,
                     f: Bytes)
    requires Bounded(us, starts, ends, preRoll, n) && |us| == |ends| + 1
    ensures Bounded(Extend(us, Result(true, false, false), roll, f, n + 1), starts, ends, preRoll, n + 1)
    ensures Bounded(Extend(us, Result(false, false, true), roll, f, n + 1), starts, ends + [n], preRoll, n + 1)
  {
  }

  /** One more frame, whatever it does to the utterances. */
  lemma BoundedStep(us: seq<Utterance>, starts: seq<nat>, ends: seq<nat>, preRoll: nat, n: nat, r: Result,
                    roll: seq<Bytes>, f: Bytes, before: bool, after: bool)
    requires Bounded(us, starts, ends, preRoll, n) && preRoll > 0 && Moves(r, before, after)
    requires before <==> us != [] && !us[|us| - 1].closed
    requires |roll| == (if n + 1 <= preRoll then n + 1 else preRoll)
    ensures Bounded(Extend(us, r, roll, f, n + 1), starts + (if r.started then [n] else []),
                    ends + (if r.ended then [n] else []), preRoll, n + 1)
  {
    if r.started {
      assert ends + [] == ends;
      BoundedStarts(us, starts, ends, preRoll, n, roll, f);
    } else if r.detected || r.ended {
      assert starts + [] == starts && (r.detected ==> ends + [] == ends);
      BoundedGrows(us, starts, ends, preRoll, n, roll, f);
    } else {
      assert starts + [] == starts && ends + [] == ends;
      assert us != [] ==> us[|us| - 1].closed;
    }
  }

  lemma {:induction false} WindowsAreBounded(cfg: Config, d: Detector, xs: seq<Input>)
    requires Usable(cfg) && PreRollFrames(cfg) > 0 && d == Fresh(d.totalFrames, d.lastEnd) && Audible(xs)
    ensures Bounded(Utterances(cfg, d, xs), StartEdges(cfg, d, xs), EndEdges(cfg, d, xs), PreRollFrames(cfg), |xs|)
  {
    if xs != [] {
      var before, x, n := xs[..|xs| - 1], xs[|xs| - 1], |xs| - 1;
      forall y | y in before ensures y.frame != [] { assert y in xs; }
      WindowsAreBounded(cfg, d, before);
      RunsAreOk(cfg, d, before);
      RunsAreOk(cfg, d, xs);
      FramesSize(xs);
      var was, now := DetectorAfter(cfg, d, before), DetectorAfter(cfg, d, xs);
      ProcessMoves(cfg, was, x);
      BoundedStep(Utterances(cfg, d, before), StartEdges(cfg, d, before), EndEdges(cfg, d, before),
                  PreRollFrames(cfg), n,
                  ResultOf(cfg, d, xs), now.preRoll, x.frame, was.state == Speech, now.state == Speech);
    }
  }

  // ── What a listener on the queue hears ──────────────────────────────

  /** Cutting a queue at its end markers; what follows the last marker is still open. */
  function Cut(queue: seq<Bytes>): seq<seq<Bytes>> {
    if queue == [] then [[]]
    else
      var parts := Cut(queue[..|queue| - 1]);
      if queue[|queue| - 1] == [] then parts + [[]]
      else parts[..|parts| - 1] + [parts[|parts| - 1] + [queue[|queue| - 1]]]
  }

  /** The parts a listener should get: the chunks of each utterance, and an empty open part after a closed one. */
  function Heard(us: seq<Utterance>): seq<seq<Bytes>> {
    if us == [] then [[]]
    else
      Opening(WithLast(Heard(us[..|us| - 1]), us[|us| - 1].chunks), us[|us| - 1].closed)
  }

  function WithLast(parts: seq<seq<Bytes>>, last: seq<Bytes>): seq<seq<Bytes>> {
    if parts == [] then [last] else parts[..|parts| - 1] + [last]
  }

  function Last(parts: seq<seq<Bytes>>): seq<Bytes> { if parts == [] then [] else parts[|parts| - 1] }

  lemma {:induction false} CutSome(queue: seq<Bytes>)
    ensures Cut(queue) != []
  {
    if queue != [] { CutSome(queue[..|queue| - 1]); }
  }

  lemma {:induction false} CutOne(queue: seq<Bytes>, c: Bytes)
    ensures Cut(queue + [c]) == if c == [] then Cut(queue) + [[]] else WithLast(Cut(queue), Last(Cut(queue)) + [c])
  {
    assert (queue + [c])[..|queue|] == queue;
    CutSome(queue);
  }

  lemma {:induction false} CutChunks(queue: seq<Bytes>, chunks: seq<Bytes>)
    requires forall c | c in chunks :: c != []
    ensures Cut(queue + chunks) == WithLast(Cut(queue), Last(Cut(queue)) + chunks)
  {
    CutSome(queue);
    if chunks == [] {
      assert queue + chunks == queue;
      assert Last(Cut(queue)) + chunks == Last(Cut(queue));
    } else {
      var n := |chunks| - 1;
      assert chunks[n] in chunks;
      assert chunks == chunks[..n] + [chunks[n]];
      forall c | c in chunks[..n] ensures c != [] { assert c in chunks; }
      CutChunks(queue, chunks[..n]);
      assert queue + chunks == (queue + chunks[..n]) + [chunks[n]];
      CutOne(queue + chunks[..n], chunks[n]);
      assert (Last(Cut(queue)) + chunks[..n]) + [chunks[n]] == Last(Cut(queue)) + chunks;
    }
  }

  lemma {:induction false} CutUtterance(queue: seq<Bytes>, u: Utterance)
    requires Last(Cut(queue)) == [] && forall c | c in u.chunks :: c != []
    ensures Cut(Closing(queue + u.chunks, u.closed)) == Opening(WithLast(Cut(queue), u.chunks), u.closed)
  {
    CutChunks(queue, u.chunks);
    assert [] + u.chunks == u.chunks;
    if u.closed { CutOne(queue + u.chunks, []); }
  }

  predicate NoBlankChunks(us: seq<Utterance>) { forall u, c | u in us && c in u.chunks :: c != [] }

  lemma FrontClosed(us: seq<Utterance>)
    requires us != [] && ClosedBefore(us) && NoBlankChunks(us)
    ensures ClosedBefore(us[..|us| - 1]) && NoBlankChunks(us[..|us| - 1])
    ensures |us| > 1 ==> us[|us| - 2].closed
  {
    var front := us[..|us| - 1];
    forall v | v in front ensures v in us && v.closed { }
    forall v | front != [] && v in front[..|front| - 1] ensures v.closed { assert v in front; }
    if |us| > 1 { assert us[|us| - 2] in front; }
  }

  lemma {:induction false} HeardIsCut(us: seq<Utterance>)
    requires ClosedBefore(us) && NoBlankChunks(us)
    ensures Cut(OnQueue(us)) == Heard(us)
    ensures us == [] || us[|us| - 1].closed ==> Last(Heard(us)) == []
  {
    if us != [] {
      var front, u := us[..|us| - 1], us[|us| - 1];
      FrontClosed(us);
      HeardIsCut(front);
      assert u in us;
      CutUtterance(OnQueue(front), u);
      CutSome(OnQueue(front));
    }
  }

  /**
   Between two resets, and with a pre-roll of at least one frame: cutting the queue at its end markers gives
   back exactly the utterances, and each is one contiguous window of the captured frames with none lost or
   repeated, from one pre-roll back from its start edge to the frame before its end edge. Edges alternate.
   */
  lemma {:induction false} UtterancesAreWindows(cfg: Config, d: Detector, xs: seq<Input>)
    requires Usable(cfg) && PreRollFrames(cfg) > 0 && d == Fresh(d.totalFrames, d.lastEnd) && Audible(xs)
    ensures var us := Utterances(cfg, d, xs);
            && Cut(Queue(cfg, d, xs)) == Heard(us)
            && AllContiguous(us, Frames(xs)) && ClosedBefore(us) && Alternates(Edges(cfg, d, xs))
            && Bounded(us, StartEdges(cfg, d, xs), EndEdges(cfg, d, xs), PreRollFrames(cfg), |xs|)
  {
    RunsAreOk(cfg, d, xs);
    WindowsAreBounded(cfg, d, xs);
    var us := Utterances(cfg, d, xs);
    forall u, c | u in us && c in u.chunks ensures c != [] { assert Contiguous(u, Frames(xs)); }
    HeardIsCut(us);
  }

  /** The chunk a start edge puts on the queue is an end marker exactly when there is no pre-roll. */
  lemma PreRollNeeded(cfg: Config, d: Detector, x: Input)
    requires Usable(cfg) && x.frame != [] && Process(cfg, d, x).1.started
    ensures var (u, r) := Process(cfg, d, x);
            Emitted(u.preRoll, x.frame, r) == [[]] <==> PreRollFrames(cfg) == 0
  {
    ProcessMoves(cfg, d, x);
    var last := LastOf(d.preRoll + [x.frame], PreRollFrames(cfg));
    if PreRollFrames(cfg) > 0 {
      assert last[..|last| - 1] + [x.frame] == last;
      FlattenConcat(last[..|last| - 1], [x.frame]);
      FlattenOne(x.frame);
    } else {
      assert last == [] && Flatten(last) == [];
    }
  }
}
