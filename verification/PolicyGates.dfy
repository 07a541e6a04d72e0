/**
 The proactive policy: an hourly budget and a cooldown per level over one history, with downgrading.
 Times are reals. Whether a candidate is worth its interruption is a parameter of each call, as a function
 of the level and the recent count; so is the local hour, as the flag that it lies in the quiet hours.
 */
module PolicyGates {
  import opened Std

  const HOUR: real := 3600.0

  datatype Entry = Entry(at: real, level: nat)

  /** Budgets and cooldowns of the levels 1 to 4. */
  datatype Config = Config(quietHours: bool, budget: nat -> nat, cooldown: nat -> real)

  datatype Context = Context(muted: bool, inMeeting: bool, fullscreen: bool, typing: bool)

  /** The clock as read by one call: at each level tried, once on entry and once for the counting. */
  datatype Readings = Readings(entry: nat -> real, counting: nat -> real)

  type Worth = (nat, nat) -> bool

  datatype Decision = Decision(allowed: bool, level: nat)

  const Refused := Decision(false, 0)

  // ── The sliding window ──────────────────────────────────────────────

  /** The old entries leave from the front only. */
  function Prune(h: seq<Entry>, cutoff: real): seq<Entry> {
    if h != [] && h[0].at < cutoff then Prune(h[1..], cutoff) else h
  }

  predicate Counts(e: Entry, level: nat, cutoff: real) { e.level == level && e.at >= cutoff }

  function CountSince(h: seq<Entry>, level: nat, cutoff: real): nat {
    if h == [] then 0
    else CountSince(h[..|h| - 1], level, cutoff) + (if Counts(h[|h| - 1], level, cutoff) then 1 else 0)
  }

  function LastAt(h: seq<Entry>, level: nat): Option<real> {
    if h == [] then None
    else if h[|h| - 1].level == level then Some(h[|h| - 1].at)
    else LastAt(h[..|h| - 1], level)
  }

  // ── One evaluation ──────────────────────────────────────────────────

  predicate Blocked(cfg: Config, ctx: Context, quiet: bool, level: nat) {
    ctx.muted || (cfg.quietHours && quiet && level >= 2) || (ctx.inMeeting && level >= 2)
    || (ctx.fullscreen && level >= 3) || (ctx.typing && level >= 3)
  }

  /** A last time of zero counts as no last time. */
  predicate Cooling(cfg: Config, h: seq<Entry>, level: nat, now: real) {
    var last := LastAt(h, level);
    last.Some? && last.value != 0.0 && now - last.value < cfg.cooldown(level)
  }

  /** What happens at a level that has budget left, on the pruned history. */
  function WithinBudget(cfg: Config, h: seq<Entry>, level: nat, now: real, allowed: bool): (Decision, seq<Entry>) {
    if !Cooling(cfg, h, level, now) && allowed then (Decision(true, level), h + [Entry(now, level)]) else (Refused, h)
  }

  datatype Outcome = Settled(result: (Decision, seq<Entry>)) | Downgraded(h: seq<Entry>)

  /** One level tried: a decision, or the next lower level on the pruned history. */
  function Attempt(cfg: Config, ctx: Context, quiet: bool, h: seq<Entry>, level: nat, r: Readings,
                   worth: Worth): (o: Outcome)
    ensures o.Downgraded? ==> level > 1
  {
    if Blocked(cfg, ctx, quiet, level) then Settled((Refused, h))
    else if level == 0 then Settled((Decision(true, 0), h))
    else
      var cutoff := r.counting(level) - HOUR;
      var recent := Prune(h, cutoff);
      var count := CountSince(recent, level, cutoff);
      if count < cfg.budget(level) then Settled(WithinBudget(cfg, recent, level, r.entry(level), worth(level, count)))
      else if level == 1 then Settled((Refused, recent))
      else Downgraded(recent)
  }

  /** The decision and the history after it. */
  function Evaluate(cfg: Config, ctx: Context, quiet: bool, h: seq<Entry>, level: nat, r: Readings,
                    worth: Worth): (Decision, seq<Entry>)
    decreases level
  {
    match Attempt(cfg, ctx, quiet, h, level, r, worth)
    case Settled(result) => result
    case Downgraded(recent) => Evaluate(cfg, ctx, quiet, recent, level - 1, r, worth)
  }

  class PolicyGate {
    const cfg: Config
    var history: seq<Entry>
    var context: Context
    var acceptances: int
    var rejections: int
    var total: int

    constructor (cfg: Config)
      ensures this.cfg == cfg && history == [] && acceptances == 0 && rejections == 0 && total == 0
      ensures context == Context(false, false, false, false)
    {
      this.cfg := cfg;
      history, context := [], Context(false, false, false, false);
      acceptances, rejections, total := 0, 0, 0;
    }

    method CountRecent(level: nat, now: real) returns (count: nat)
      modifies this`history
      ensures history == Prune(old(history), now - HOUR)
      ensures count == CountSince(history, level, now - HOUR)
    {
      var cutoff := now - HOUR;
      while history != [] && history[0].at < cutoff
        invariant Prune(history, cutoff) == Prune(old(history), cutoff)
        decreases |history|
      {
        history := history[1..];
      }
      count := 0;
      for i := 0 to |history|
        invariant history == Prune(old(history), cutoff)
        invariant count == CountSince(history[..i], level, cutoff)
      {
        assert history[..i + 1][..i] == history[..i];
        if history[i].level == level && history[i].at >= cutoff { count := count + 1; }
      }
      assert history[..|history|] == history;
    }

    method LastProactiveTime(level: nat) returns (last: Option<real>)
      ensures last == LastAt(history, level)
    {
      var i := |history|;
      assert history[..i] == history;
      while i > 0
        invariant 0 <= i <= |history| && LastAt(history[..i], level) == LastAt(history, level)
      {
        assert history[..i][..i - 1] == history[..i - 1];
        i := i - 1;
        if history[i].level == level { return Some(history[i].at); }
      }
      return None;
    }

    method EvaluateProactive(level: nat, quiet: bool, r: Readings, worth: Worth) returns (d: Decision)
      modifies this`history
      ensures (d, history) == Evaluate(cfg, context, quiet, old(history), level, r, worth)
      decreases level
    {
      if context.muted { return Refused; }
      if cfg.quietHours && quiet && level >= 2 { return Refused; }
      if context.inMeeting && level >= 2 { return Refused; }
      if context.fullscreen && level >= 3 { return Refused; }
      if context.typing && level >= 3 { return Refused; }
      if level == 0 { return Decision(true, 0); }
      var count := CountRecent(level, r.counting(level));
      if count >= cfg.budget(level) {
        if level == 1 { return Refused; }
        d := EvaluateProactive(level - 1, quiet, r, worth);
        return;
      }
      var now := r.entry(level);
      var last := LastProactiveTime(level);
      if last.Some? && last.value != 0.0 && now - last.value < cfg.cooldown(level) { return Refused; }
      if worth(level, count) {
        history := history + [Entry(now, level)];
        return Decision(true, level);
      }
      return Refused;
    }

    /** Counters of recent feedback, reduced in proportion once more than twenty are counted; `int` truncates. */
    method RecordFeedback(accepted: bool)
      requires FeedbackOk(acceptances, rejections, total)
      modifies this`acceptances, this`rejections, this`total
      ensures FeedbackOk(acceptances, rejections, total)
      ensures var a, r := old(acceptances) + (if accepted then 1 else 0), old(rejections) + (if accepted then 0 else 1);
              acceptances == Reduced(a, a + r) && rejections == Reduced(r, a + r)
      ensures old(total) >= 20 ==> total >= 20
    {
      if accepted { acceptances := acceptances + 1; } else { rejections := rejections + 1; }
      total := total + 1;
      var excess := total - 20;
      if excess > 0 {
        var t := Max(1, total);
        ShareFloors(excess, acceptances, rejections);
        var fewerRejections, fewerAcceptances := excess * rejections / t, excess * acceptances / t;
        rejections := Max(0, rejections - fewerRejections);
        acceptances := Max(0, acceptances - fewerAcceptances);
        total := acceptances + rejections;
      }
    }
  }

  /** A counter less its share of what exceeds twenty, rounded down. */
  function Reduced(count: int, total: int): int {
    if total <= 20 then count else count - (total - 20) * count / total
  }

  predicate FeedbackOk(acceptances: int, rejections: int, total: int) {
    acceptances >= 0 && rejections >= 0 && total == acceptances + rejections <= 21
  }

  /** Splitting an excess in proportion and rounding both parts down loses at most one. */
  lemma ShareFloors(excess: int, a: int, b: int)
    requires a >= 0 && b >= 0 && a + b > 0 && 0 < excess <= 2 && a + b == excess + 20
    ensures 0 <= excess * a / (a + b) <= a && 0 <= excess * b / (a + b) <= b
    ensures excess - 1 <= excess * a / (a + b) + excess * b / (a + b) <= excess
  {
    var t := a + b;
    if excess == 1 {
      assert 1 * a == a && 1 * b == b;
    } else {
      assert 2 * a == a + a && 2 * b == b + b;
    }
  }

  // ── Every run ───────────────────────────────────────────────────────

  datatype Call = Call(level: nat, ctx: Context, quiet: bool, r: Readings, worth: Worth)

  function Result(cfg: Config, h: seq<Entry>, c: Call): (Decision, seq<Entry>) {
    Evaluate(cfg, c.ctx, c.quiet, h, c.level, c.r, c.worth)
  }

  function HistoryAfter(cfg: Config, calls: seq<Call>): seq<Entry> {
    if calls == [] then [] else Result(cfg, HistoryAfter(cfg, calls[..|calls| - 1]), calls[|calls| - 1]).1
  }

  function Approved(all: seq<Entry>, r: Readings, d: Decision): seq<Entry> {
    if d.allowed && d.level > 0 then all + [Entry(r.entry(d.level), d.level)] else all
  }

  /** Every approval above level 0, in order, pruned or not. */
  function Approvals(cfg: Config, calls: seq<Call>): seq<Entry> {
    if calls == [] then []
    else
      var c := calls[|calls| - 1];
      var d := Result(cfg, HistoryAfter(cfg, calls[..|calls| - 1]), c).0;
      Approved(Approvals(cfg, calls[..|calls| - 1]), c.r, d)
  }

  /**
   The readings of one call from the given level downwards never go back and end by `until`; at each level
   the counting reads at most `gap` later than the entry.
   */
  predicate Ticks(r: Readings, level: nat, until: real, gap: real) {
    if level == 0 then r.entry(0) <= until
    else
      && r.entry(level) <= r.counting(level) <= r.entry(level) + gap
      && r.counting(level) <= r.entry(level - 1)
      && Ticks(r, level - 1, until, gap)
  }

  /** The clock is positive and never goes back. */
  predicate Clocked(calls: seq<Call>, now: real, gap: real) {
    calls == [] ||
    (var c := calls[|calls| - 1];
     0.0 < c.r.entry(c.level) && Ticks(c.r, c.level, now, gap)
       && Clocked(calls[..|calls| - 1], c.r.entry(c.level), gap))
  }

  predicate Early(h: seq<Entry>, cutoff: real) {
    h == [] || (h[|h| - 1].at < cutoff && Early(h[..|h| - 1], cutoff))
  }

  predicate Late(h: seq<Entry>, cutoff: real) { h == [] || h[0].at >= cutoff }

  predicate Sorted(h: seq<Entry>, now: real) {
    h == [] || (0.0 < h[|h| - 1].at <= now && Sorted(h[..|h| - 1], h[|h| - 1].at))
  }

  lemma {:induction false} EarlyMember(h: seq<Entry>, cutoff: real, e: Entry)
    requires Early(h, cutoff) && e in h
    ensures e.at < cutoff
  {
    var n := |h| - 1;
    if e != h[n] {
      assert h == h[..n] + [h[n]];
      EarlyMember(h[..n], cutoff, e);
    }
  }

  lemma {:induction false} EarlyConcat(a: seq<Entry>, b: seq<Entry>, before: real, cutoff: real)
    requires Early(a, before) && Early(b, cutoff) && before <= cutoff
    ensures Early(a + b, cutoff)
  {
    if b == [] {
      assert a + b == a;
      EarlyLater(a, before, cutoff);
    } else {
      assert (a + b)[..|a + b| - 1] == a + b[..|b| - 1];
      EarlyConcat(a, b[..|b| - 1], before, cutoff);
    }
  }

  lemma {:induction false} EarlyLater(h: seq<Entry>, before: real, cutoff: real)
    requires Early(h, before) && before <= cutoff
    ensures Early(h, cutoff)
  {
    if h != [] { EarlyLater(h[..|h| - 1], before, cutoff); }
  }

  lemma {:induction false} PruneSplits(h: seq<Entry>, cutoff: real)
    ensures |Prune(h, cutoff)| <= |h| && Prune(h, cutoff) == h[|h| - |Prune(h, cutoff)|..]
    ensures Early(h[..|h| - |Prune(h, cutoff)|], cutoff) && Late(Prune(h, cutoff), cutoff)
  {
    if h != [] && h[0].at < cutoff {
      PruneSplits(h[1..], cutoff);
      var k := |h| - |Prune(h, cutoff)|;
      assert h[..k] == [h[0]] + h[1..][..k - 1];
      assert [h[0]][..0] == [];
      EarlyConcat([h[0]], h[1..][..k - 1], cutoff, cutoff);
    }
  }

  lemma {:induction false} CountConcat(a: seq<Entry>, b: seq<Entry>, level: nat, cutoff: real)
    ensures CountSince(a + b, level, cutoff) == CountSince(a, level, cutoff) + CountSince(b, level, cutoff)
  {
    if b == [] {
      assert a + b == a;
    } else {
      assert (a + b)[..|a + b| - 1] == a + b[..|b| - 1];
      CountConcat(a, b[..|b| - 1], level, cutoff);
    }
  }

  lemma {:induction false} EarlyCountsNothing(h: seq<Entry>, level: nat, cutoff: real)
    requires Early(h, cutoff)
    ensures CountSince(h, level, cutoff) == 0
  {
    if h != [] { EarlyCountsNothing(h[..|h| - 1], level, cutoff); }
  }

  /** The history is the approvals without a forgotten front that is too old to matter. */
  ghost predicate Remembers(all: seq<Entry>, h: seq<Entry>, cutoff: real) {
    |h| <= |all| && h == all[|all| - |h|..] && Early(all[..|all| - |h|], cutoff)
  }

  lemma {:induction false} PruneRemembers(all: seq<Entry>, h: seq<Entry>, old': real, cutoff: real)
    requires Remembers(all, h, old') && old' <= cutoff
    ensures Remembers(all, Prune(h, cutoff), cutoff)
  {
    PruneSplits(h, cutoff);
    var p := Prune(h, cutoff);
    var gone := h[..|h| - |p|];
    assert all[..|all| - |p|] == all[..|all| - |h|] + gone;
    EarlyConcat(all[..|all| - |h|], gone, old', cutoff);
  }

  lemma {:induction false} RememberedCount(all: seq<Entry>, h: seq<Entry>, level: nat, cutoff: real)
    requires Remembers(all, h, cutoff)
    ensures CountSince(h, level, cutoff) == CountSince(all, level, cutoff)
  {
    assert all == all[..|all| - |h|] + h;
    CountConcat(all[..|all| - |h|], h, level, cutoff);
    EarlyCountsNothing(all[..|all| - |h|], level, cutoff);
  }

  lemma {:induction false} LastConcat(a: seq<Entry>, b: seq<Entry>, level: nat)
    ensures LastAt(a + b, level) == if LastAt(b, level).Some? then LastAt(b, level) else LastAt(a, level)
  {
    if b == [] {
      assert a + b == a;
    } else {
      assert (a + b)[..|a + b| - 1] == a + b[..|b| - 1];
      LastConcat(a, b[..|b| - 1], level);
    }
  }

  lemma {:induction false} LastIsMember(h: seq<Entry>, level: nat)
    ensures LastAt(h, level).Some? ==> Entry(LastAt(h, level).value, level) in h
    ensures LastAt(h, level).None? ==> forall e | e in h :: e.level != level
  {
    if h != [] {
      LastIsMember(h[..|h| - 1], level);
      assert h == h[..|h| - 1] + [h[|h| - 1]];
    }
  }

  lemma {:induction false} CountLater(h: seq<Entry>, level: nat, cutoff: real, later: real)
    requires cutoff <= later
    ensures CountSince(h, level, later) <= CountSince(h, level, cutoff)
  {
    if h != [] { CountLater(h[..|h| - 1], level, cutoff, later); }
  }

  /**
   The newest approval fits its level's budget in a window of length w, and its cooldown if that is no longer;
   with a longer cooldown it is more than w after the one before it.
   */
  predicate Fits(cfg: Config, all: seq<Entry>, w: real)
    requires all != []
  {
    var e := all[|all| - 1];
    && CountSince(all, e.level, e.at - w) <= cfg.budget(e.level)
    && (LastAt(all[..|all| - 1], e.level).Some? ==>
          FarEnough(cfg, e.level, e.at - LastAt(all[..|all| - 1], e.level).value, w))
  }

  predicate FarEnough(cfg: Config, level: nat, apart: real, w: real) {
    if cfg.cooldown(level) <= w then apart >= cfg.cooldown(level) else apart > w
  }

  predicate AllFit(cfg: Config, all: seq<Entry>, w: real) {
    all == [] || (AllFit(cfg, all[..|all| - 1], w) && Fits(cfg, all, w))
  }

  lemma {:induction false} SortedPositive(h: seq<Entry>, now: real, e: Entry)
    requires Sorted(h, now) && e in h
    ensures 0.0 < e.at <= now
  {
    var n := |h| - 1;
    if e != h[n] {
      assert h == h[..n] + [h[n]];
      SortedPositive(h[..n], h[n].at, e);
    }
  }

  lemma {:induction false} CoolingHolds(cfg: Config, all: seq<Entry>, h: seq<Entry>, level: nat, at: real,
                                        cutoff: real, w: real)
    requires Remembers(all, h, cutoff) && Sorted(all, at) && !Cooling(cfg, h, level, at) && cutoff <= at - w
    ensures LastAt(all, level).Some? ==> FarEnough(cfg, level, at - LastAt(all, level).value, w)
  {
    var front := all[..|all| - |h|];
    assert all == front + h;
    LastConcat(front, h, level);
    LastIsMember(front, level);
    LastIsMember(h, level);
    if LastAt(front, level).Some? { EarlyMember(front, cutoff, Entry(LastAt(front, level).value, level)); }
    if LastAt(h, level).Some? { SortedPositive(all, at, Entry(LastAt(h, level).value, level)); }
  }

  lemma {:induction false} NewApproval(all: seq<Entry>, h: seq<Entry>, e: Entry, cutoff: real, since: real)
    requires Remembers(all, h, cutoff) && cutoff <= since
    ensures Remembers(all + [e], h + [e], cutoff)
    ensures (all + [e])[..|all|] == all
    ensures CountSince(all + [e], e.level, since) <= CountSince(all, e.level, cutoff) + 1
  {
    assert (all + [e])[..|all|] == all;
    assert (all + [e])[..|all| - |h|] == all[..|all| - |h|];
    CountLater(all, e.level, cutoff, since);
  }

  /** What holds of the approvals and the history after a run. */
  ghost predicate RunOk(cfg: Config, all: seq<Entry>, h: seq<Entry>, now: real, w: real) {
    AllFit(cfg, all, w) && Sorted(all, now) && Remembers(all, h, now - HOUR)
  }

  lemma LaterOk(cfg: Config, all: seq<Entry>, h: seq<Entry>, at: real, now: real, w: real)
    requires RunOk(cfg, all, h, at, w) && at <= now
    ensures RunOk(cfg, all, h, now, w)
  {
    EarlyLater(all[..|all| - |h|], at - HOUR, now - HOUR);
  }

  lemma {:induction false} WithinBudgetKeeps(cfg: Config, all: seq<Entry>, h: seq<Entry>, r: Readings, level: nat,
                                             allowed: bool, w: real)
    requires level > 0 && 0.0 < r.entry(level) <= r.counting(level) && r.counting(level) - HOUR <= r.entry(level) - w
    requires AllFit(cfg, all, w) && Sorted(all, r.entry(level)) && Remembers(all, h, r.counting(level) - HOUR)
    requires CountSince(h, level, r.counting(level) - HOUR) < cfg.budget(level)
    ensures var (d, h') := WithinBudget(cfg, h, level, r.entry(level), allowed);
            RunOk(cfg, Approved(all, r, d), h', r.counting(level), w)
  {
    var at, cutoff := r.entry(level), r.counting(level) - HOUR;
    if !Cooling(cfg, h, level, at) && allowed {
      var e := Entry(at, level);
      NewFits(cfg, all, h, e, cutoff, w);
      NewApproval(all, h, e, cutoff, at - w);
      assert Approved(all, r, Decision(true, level)) == all + [e];
    } else {
      SortedLater(all, at, r.counting(level));
    }
  }

  lemma {:induction false} NewFits(cfg: Config, all: seq<Entry>, h: seq<Entry>, e: Entry, cutoff: real, w: real)
    requires Remembers(all, h, cutoff) && Sorted(all, e.at) && cutoff <= e.at - w
    requires CountSince(h, e.level, cutoff) < cfg.budget(e.level) && !Cooling(cfg, h, e.level, e.at)
    ensures Fits(cfg, all + [e], w)
  {
    var next := all + [e];
    NewApproval(all, h, e, cutoff, e.at - w);
    RememberedCount(all, h, e.level, cutoff);
    assert CountSince(next, e.level, e.at - w) <= cfg.budget(e.level);
    CoolingHolds(cfg, all, h, e.level, e.at, cutoff, w);
    assert next[..|next| - 1] == all && next[|next| - 1] == e;
  }

  lemma {:induction false} SortedLater(h: seq<Entry>, at: real, now: real)
    requires Sorted(h, at) && at <= now
    ensures Sorted(h, now)
  {
  }

  /** What an attempt leaves, by the time its last reading was taken or its level was left. */
  ghost predicate AttemptOk(cfg: Config, all: seq<Entry>, r: Readings, o: Outcome, now: real, w: real) {
    if o.Settled? then RunOk(cfg, Approved(all, r, o.result.0), o.result.1, now, w) else RunOk(cfg, all, o.h, now, w)
  }

  lemma PrunedAttempt(cfg: Config, c: Call, all: seq<Entry>, h: seq<Entry>, level: nat, w: real)
    requires level > 0 && !Blocked(cfg, c.ctx, c.quiet, level)
    requires 0.0 < c.r.entry(level) <= c.r.counting(level) && c.r.counting(level) - HOUR <= c.r.entry(level) - w
    requires RunOk(cfg, all, h, c.r.entry(level), w)
    ensures AttemptOk(cfg, all, c.r, Attempt(cfg, c.ctx, c.quiet, h, level, c.r, c.worth), c.r.counting(level), w)
  {
    var cutoff := c.r.counting(level) - HOUR;
    var recent := Prune(h, cutoff);
    var count := CountSince(recent, level, cutoff);
    var o := Attempt(cfg, c.ctx, c.quiet, h, level, c.r, c.worth);
    PruneRemembers(all, h, c.r.entry(level) - HOUR, cutoff);
    if count < cfg.budget(level) {
      assert o == Settled(WithinBudget(cfg, recent, level, c.r.entry(level), c.worth(level, count)));
      WithinBudgetKeeps(cfg, all, recent, c.r, level, c.worth(level, count), w);
    } else {
      assert o == if level == 1 then Settled((Refused, recent)) else Downgraded(recent);
      SortedLater(all, c.r.entry(level), c.r.counting(level));
    }
  }

  lemma {:induction false} EvaluateKeeps(cfg: Config, c: Call, all: seq<Entry>, h: seq<Entry>, level: nat, now: real,
                                         gap: real, w: real)
    requires w + gap <= HOUR && 0.0 < c.r.entry(level) && Ticks(c.r, level, now, gap)
    requires RunOk(cfg, all, h, c.r.entry(level), w)
    ensures var (d, h') := Evaluate(cfg, c.ctx, c.quiet, h, level, c.r, c.worth);
            RunOk(cfg, Approved(all, c.r, d), h', now, w)
    decreases level
  {
    TicksEnd(c.r, level, now, gap);
    var o := Attempt(cfg, c.ctx, c.quiet, h, level, c.r, c.worth);
    if Blocked(cfg, c.ctx, c.quiet, level) || level == 0 {
      LaterOk(cfg, all, h, c.r.entry(level), now, w);
    } else {
      PrunedAttempt(cfg, c, all, h, level, w);
      match o
      case Settled(result) => LaterOk(cfg, Approved(all, c.r, result.0), result.1, c.r.counting(level), now, w);
      case Downgraded(recent) =>
        LaterOk(cfg, all, recent, c.r.counting(level), c.r.entry(level - 1), w);
        EvaluateKeeps(cfg, c, all, recent, level - 1, now, gap, w);
    }
  }

  lemma {:induction false} TicksEnd(r: Readings, level: nat, now: real, gap: real)
    requires Ticks(r, level, now, gap)
    ensures r.entry(level) <= now && (level > 0 ==> r.counting(level) <= now)
  {
    if level > 0 { TicksEnd(r, level - 1, now, gap); }
  }

  lemma {:induction false} RunFits(cfg: Config, calls: seq<Call>, now: real, gap: real, w: real)
    requires Clocked(calls, now, gap) && w + gap <= HOUR
    ensures RunOk(cfg, Approvals(cfg, calls), HistoryAfter(cfg, calls), now, w)
  {
    if calls != [] {
      var before, c := calls[..|calls| - 1], calls[|calls| - 1];
      RunFits(cfg, before, c.r.entry(c.level), gap, w);
      EvaluateKeeps(cfg, c, Approvals(cfg, before), HistoryAfter(cfg, before), c.level, now, gap, w);
    }
  }

  // ── Budgets and cooldowns ───────────────────────────────────────────

  predicate Within(e: Entry, level: nat, from: real, w: real) { e.level == level && from <= e.at <= from + w }

  function CountWithin(all: seq<Entry>, level: nat, from: real, w: real): nat {
    if all == [] then 0
    else CountWithin(all[..|all| - 1], level, from, w) + (if Within(all[|all| - 1], level, from, w) then 1 else 0)
  }

  lemma {:induction false} WithinIsSince(all: seq<Entry>, level: nat, from: real, w: real, cutoff: real)
    requires cutoff <= from
    ensures CountWithin(all, level, from, w) <= CountSince(all, level, cutoff)
  {
    if all != [] { WithinIsSince(all[..|all| - 1], level, from, w, cutoff); }
  }

  lemma {:induction false} FitWindow(cfg: Config, all: seq<Entry>, level: nat, from: real, w: real)
    requires AllFit(cfg, all, w)
    ensures CountWithin(all, level, from, w) <= cfg.budget(level)
  {
    if all != [] {
      var e := all[|all| - 1];
      if Within(e, level, from, w) {
        WithinIsSince(all, level, from, w, e.at - w);
      } else {
        FitWindow(cfg, all[..|all| - 1], level, from, w);
      }
    }
  }

  /**
   In every run whose calls count at most `gap` after they entered, no window of an hour less the gap,
   wherever it starts, holds more approvals of a level than its budget.
   */
  lemma {:induction false} BudgetHolds(cfg: Config, calls: seq<Call>, now: real, gap: real, level: nat, from: real,
                                       w: real)
    requires Clocked(calls, now, gap) && w <= HOUR - gap
    ensures CountWithin(Approvals(cfg, calls), level, from, w) <= cfg.budget(level)
  {
    RunFits(cfg, calls, now, gap, w);
    FitWindow(cfg, Approvals(cfg, calls), level, from, w);
  }

  lemma {:induction false} LastNotBefore(all: seq<Entry>, now: real, i: nat)
    requires Sorted(all, now) && i < |all|
    ensures LastAt(all, all[i].level).Some? && LastAt(all, all[i].level).value >= all[i].at
  {
    var n := |all| - 1;
    if all[n].level != all[i].level {
      LastNotBefore(all[..n], all[n].at, i);
    } else {
      SortedPositive(all, all[n].at, all[i]);
    }
  }

  lemma {:induction false} FitApart(cfg: Config, all: seq<Entry>, now: real, i: nat, j: nat, w: real)
    requires AllFit(cfg, all, w) && Sorted(all, now) && i < j < |all| && all[i].level == all[j].level
    requires cfg.cooldown(all[i].level) <= w
    ensures all[j].at - all[i].at >= cfg.cooldown(all[i].level)
  {
    var n := |all| - 1;
    if j < n {
      FitApart(cfg, all[..n], all[n].at, i, j, w);
    } else {
      LastNotBefore(all[..n], all[n].at, i);
    }
  }

  /** Any two approvals of the level are at least its cooldown apart. */
  ghost predicate Apart(cfg: Config, all: seq<Entry>, level: nat) {
    forall i, j | 0 <= i < j < |all| && all[i].level == level && all[j].level == level ::
      all[j].at - all[i].at >= cfg.cooldown(level)
  }

  /** In every such run a level's approvals are its cooldown apart, when that is at most an hour less the gap. */
  lemma {:induction false} CooldownHolds(cfg: Config, calls: seq<Call>, now: real, gap: real, level: nat)
    requires Clocked(calls, now, gap) && cfg.cooldown(level) <= HOUR - gap
    ensures Apart(cfg, Approvals(cfg, calls), level)
  {
    var all, w := Approvals(cfg, calls), HOUR - gap;
    RunFits(cfg, calls, now, gap, w);
    forall i, j | 0 <= i < j < |all| && all[i].level == level && all[j].level == level
      ensures all[j].at - all[i].at >= cfg.cooldown(level)
    {
      FitApart(cfg, all, now, i, j, w);
    }
  }

  // ── When one call exceeds the hour ──────────────────────────────────

  /** Approvals of the level in the part of the hour before the entry that the counting does not see. */
  function CountMissed(all: seq<Entry>, level: nat, from: real, cutoff: real): nat {
    if all == [] then 0
    else
      var e := all[|all| - 1];
      CountMissed(all[..|all| - 1], level, from, cutoff) + (if e.level == level && from <= e.at < cutoff then 1 else 0)
  }

  lemma {:induction false} MissedAndSeen(all: seq<Entry>, level: nat, from: real, cutoff: real)
    requires from <= cutoff
    ensures CountSince(all, level, from) == CountMissed(all, level, from, cutoff) + CountSince(all, level, cutoff)
  {
    if all != [] { MissedAndSeen(all[..|all| - 1], level, from, cutoff); }
  }

  /** The last approval of the level is one the counting sees, and too recent. */
  predicate StillCooling(cfg: Config, all: seq<Entry>, level: nat, at: real, cutoff: real) {
    var last := LastAt(all, level);
    last.Some? && last.value >= cutoff && at - last.value < cfg.cooldown(level)
  }

  lemma {:induction false} SortedMember(h: seq<Entry>, now: real, i: nat)
    requires Sorted(h, now) && i < |h|
    ensures h[0].at <= h[i].at
  {
    var n := |h| - 1;
    if i < n { SortedMember(h[..n], h[n].at, i); } else if n > 0 { SortedMember(h[..n], h[n].at, n - 1); }
  }

  lemma {:induction false} SortedSuffix(all: seq<Entry>, now: real, k: nat)
    requires Sorted(all, now) && k <= |all|
    ensures Sorted(all[k..], now)
  {
    if k < |all| {
      var n := |all| - 1;
      SortedSuffix(all[..n], all[n].at, k);
      assert all[k..][..n - k] == all[..n][k..];
    }
  }

  lemma {:induction false} CoolingIff(cfg: Config, all: seq<Entry>, h: seq<Entry>, level: nat, at: real, cutoff: real)
    requires Remembers(all, h, cutoff) && Late(h, cutoff) && Sorted(all, at)
    ensures Cooling(cfg, h, level, at) <==> StillCooling(cfg, all, level, at, cutoff)
  {
    var front := all[..|all| - |h|];
    assert all == front + h;
    LastConcat(front, h, level);
    LastIsMember(front, level);
    LastIsMember(h, level);
    SortedSuffix(all, at, |all| - |h|);
    if LastAt(front, level).Some? { EarlyMember(front, cutoff, Entry(LastAt(front, level).value, level)); }
    if LastAt(h, level).Some? {
      var e := Entry(LastAt(h, level).value, level);
      SortedPositive(h, at, e);
      var i :| 0 <= i < |h| && h[i] == e;
      SortedMember(h, at, i);
    }
  }

  /** What the gate still remembers of a run counts and cools like the whole run. */
  lemma {:induction false} GateRemembers(cfg: Config, calls: seq<Call>, c: Call, now: real, gap: real)
    requires c.level > 0 && Clocked(calls + [c], now, gap)
    ensures var all, level, at, cutoff := Approvals(cfg, calls), c.level, c.r.entry(c.level),
              c.r.counting(c.level) - HOUR;
            var recent := Prune(HistoryAfter(cfg, calls), cutoff);
            && at - HOUR <= cutoff
            && CountSince(recent, level, cutoff) == CountSince(all, level, cutoff)
            && (Cooling(cfg, recent, level, at) <==> StillCooling(cfg, all, level, at, cutoff))
  {
    var all, h, at, cutoff := Approvals(cfg, calls), HistoryAfter(cfg, calls), c.r.entry(c.level),
      c.r.counting(c.level) - HOUR;
    assert (calls + [c])[..|calls|] == calls;
    RunFits(cfg, calls, at, gap, HOUR - gap);
    PruneRemembers(all, h, at - HOUR, cutoff);
    PruneSplits(h, cutoff);
    RememberedCount(all, Prune(h, cutoff), c.level, cutoff);
    CoolingIff(cfg, all, Prune(h, cutoff), c.level, at, cutoff);
  }

  /** A call adds an approval of its level exactly when it is approved at that level. */
  lemma {:induction false} AddsIff(cfg: Config, calls: seq<Call>, c: Call)
    requires c.level > 0
    ensures Approvals(cfg, calls + [c]) == Approvals(cfg, calls) + [Entry(c.r.entry(c.level), c.level)]
            <==> Result(cfg, HistoryAfter(cfg, calls), c).0 == Decision(true, c.level)
  {
    var all, d := Approvals(cfg, calls), Result(cfg, HistoryAfter(cfg, calls), c).0;
    assert (calls + [c])[..|calls|] == calls;
    assert Approvals(cfg, calls + [c]) == Approved(all, c.r, d);
    if d.allowed && d.level > 0 { assert (all + [Entry(c.r.entry(d.level), d.level)])[|all|].level == d.level; }
  }

  lemma {:induction false} CountAdded(all: seq<Entry>, level: nat, at: real, cutoff: real)
    requires at - HOUR <= cutoff
    ensures CountSince(all + [Entry(at, level)], level, at - HOUR)
            == CountMissed(all, level, at - HOUR, cutoff) + CountSince(all, level, cutoff) + 1
  {
    MissedAndSeen(all, level, at - HOUR, cutoff);
    assert (all + [Entry(at, level)])[..|all|] == all;
  }

  /**
   After every run, a call for a level is approved and exceeds the level's budget for the hour up to its entry
   exactly when nothing blocks it, it is worthwhile, the level is not cooling, and the approvals of that hour that the
   counting sees are within the budget, while those it misses, made in the gap an hour earlier, fill the rest of it.
   */
  lemma {:induction false} OverrunsIff(cfg: Config, calls: seq<Call>, c: Call, now: real, gap: real)
    requires c.level > 0 && Clocked(calls + [c], now, gap)
    ensures var all, level := Approvals(cfg, calls), c.level;
            var at, cutoff := c.r.entry(level), c.r.counting(level) - HOUR;
            var seen, missed := CountSince(all, level, cutoff), CountMissed(all, level, at - HOUR, cutoff);
            (Approvals(cfg, calls + [c]) == all + [Entry(at, level)]
             && CountSince(all + [Entry(at, level)], level, at - HOUR) > cfg.budget(level))
            <==> (!Blocked(cfg, c.ctx, c.quiet, level) && c.worth(level, seen)
                  && !StillCooling(cfg, all, level, at, cutoff)
                  && seen < cfg.budget(level) <= seen + missed)
  {
    GateRemembers(cfg, calls, c, now, gap);
    AddsIff(cfg, calls, c);
    CountAdded(Approvals(cfg, calls), c.level, c.r.entry(c.level), c.r.counting(c.level) - HOUR);
    ApprovedIff(cfg, c, HistoryAfter(cfg, calls));
  }

  /** A call is approved at its own level exactly when that level lets it through. */
  lemma {:induction false} ApprovedIff(cfg: Config, c: Call, h: seq<Entry>)
    requires c.level > 0
    ensures var cutoff := c.r.counting(c.level) - HOUR;
            var recent := Prune(h, cutoff);
            var seen := CountSince(recent, c.level, cutoff);
            Result(cfg, h, c).0 == Decision(true, c.level) <==>
              (!Blocked(cfg, c.ctx, c.quiet, c.level) && seen < cfg.budget(c.level)
               && !Cooling(cfg, recent, c.level, c.r.entry(c.level)) && c.worth(c.level, seen))
  {
    var cutoff := c.r.counting(c.level) - HOUR;
    var recent := Prune(h, cutoff);
    if c.level > 1 { NeverAboveProposed(cfg, c.ctx, c.quiet, recent, c.level - 1, c.r, c.worth); }
  }

  /** Whatever is approved is at most what was proposed. */
  lemma {:induction false} NeverAboveProposed(cfg: Config, ctx: Context, quiet: bool, h: seq<Entry>, level: nat,
                                              r: Readings, worth: Worth)
    ensures Evaluate(cfg, ctx, quiet, h, level, r, worth).0.level <= level
    decreases level
  {
    if level > 1 {
      NeverAboveProposed(cfg, ctx, quiet, Prune(h, r.counting(level) - HOUR), level - 1, r, worth);
    }
  }
}
