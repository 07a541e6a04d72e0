/**
 How far the budget and the cooldown reach: the longest window that keeps a level's budget, and the longest
 cooldown that is kept, over all runs whose calls count at most a given gap after they entered.
 */
module PolicyWindows {
  import opened Std
  import opened PolicyGates

  // ── Runs of calls for one level ─────────────────────────────────────

  const Free := Context(false, false, false, false)

  /** The level's entry is read at the given time, everything after it `gap` later. */
  function Stretched(level: nat, at: real, gap: real): Readings {
    Readings(l => if l == level then at else at + gap, _ => at + gap)
  }

  lemma {:induction false} ConstantTicks(r: Readings, level: nat, at: real, gap: real)
    requires gap >= 0.0 && forall l: nat | l <= level :: r.entry(l) == at && r.counting(l) == at
    ensures Ticks(r, level, at, gap)
  {
    if level > 0 { ConstantTicks(r, level - 1, at, gap); }
  }

  lemma {:induction false} StretchedTicks(level: nat, at: real, stretch: real, until: real, gap: real)
    requires level > 0 && 0.0 <= stretch <= gap && at + stretch <= until
    ensures Ticks(Stretched(level, at, stretch), level, until, gap)
  {
    var r := Stretched(level, at, stretch);
    ConstantTicks(r, level - 1, at + stretch, gap);
    TicksLater(r, level - 1, at + stretch, until, gap);
  }

  lemma {:induction false} TicksLater(r: Readings, level: nat, until: real, later: real, gap: real)
    requires Ticks(r, level, until, gap) && until <= later
    ensures Ticks(r, level, later, gap)
  {
    if level > 0 { TicksLater(r, level - 1, until, later, gap); }
  }

  /** Times one distance apart. */
  function At(d: real, k: nat): real { if k == 0 then 1.0 else At(d, k - 1) + d }

  lemma {:induction false} AtIs(d: real, k: nat)
    ensures At(d, k) == 1.0 + k as real * d
    ensures d >= 0.0 ==> At(d, k) >= 1.0
  {
    if k > 0 {
      AtIs(d, k - 1);
      assert k as real * d == (k - 1) as real * d + d;
    }
  }

  lemma {:induction false} AtGrows(d: real, k: nat, n: nat)
    requires d >= 0.0 && k <= n
    ensures At(d, k) <= At(d, n)
  {
    if k < n { AtGrows(d, k, n - 1); }
  }

  /** Calls one distance apart, each counting the given stretch after its entry. */
  function Spaced(level: nat, worth: Worth, d: real, stretch: real, k: nat): seq<Call> {
    if k == 0 then []
    else
      Spaced(level, worth, d, stretch, k - 1)
      + [Call(level, Free, false, Stretched(level, At(d, k - 1), stretch), worth)]
  }

  function SpacedEntries(level: nat, d: real, k: nat): (all: seq<Entry>)
    ensures |all| == k && (k > 0 ==> all[0] == Entry(1.0, level) && all[k - 1] == Entry(At(d, k - 1), level))
  {
    if k == 0 then [] else SpacedEntries(level, d, k - 1) + [Entry(At(d, k - 1), level)]
  }

  lemma {:induction false} SpacedSize(level: nat, worth: Worth, d: real, stretch: real, k: nat)
    ensures |Spaced(level, worth, d, stretch, k)| == k
  {
    if k > 0 { SpacedSize(level, worth, d, stretch, k - 1); }
  }

  lemma SpacedFront(level: nat, worth: Worth, d: real, stretch: real, k: nat)
    requires k > 0
    ensures var calls := Spaced(level, worth, d, stretch, k);
            calls[..|calls| - 1] == Spaced(level, worth, d, stretch, k - 1)
  {
    SpacedSize(level, worth, d, stretch, k - 1);
  }

  lemma {:induction false} SpacedClocked(level: nat, worth: Worth, d: real, stretch: real, k: nat, gap: real)
    requires level > 0 && 0.0 <= stretch <= d && stretch <= gap
    ensures Clocked(Spaced(level, worth, d, stretch, k), At(d, k), gap)
  {
    if k > 0 {
      SpacedClocked(level, worth, d, stretch, k - 1, gap);
      SpacedFront(level, worth, d, stretch, k);
      AtIs(d, k - 1);
      StretchedTicks(level, At(d, k - 1), stretch, At(d, k), gap);
    }
  }

  // ── What is approved ────────────────────────────────────────────────

  lemma {:induction false} CountAtMost(h: seq<Entry>, level: nat, cutoff: real)
    ensures CountSince(h, level, cutoff) <= |h|
  {
    if h != [] { CountAtMost(h[..|h| - 1], level, cutoff); }
  }

  /** The level lets every count below its budget through. */
  predicate Willing(cfg: Config, level: nat, worth: Worth) {
    && level > 0 && cfg.budget(level) > 0 && cfg.cooldown(level) >= 0.0
    && forall n | 0 <= n < cfg.budget(level) :: worth(level, n)
  }

  /** One more call that is far enough from the last entry that is left, when fewer are left than the budget. */
  lemma {:induction false} NextApproved(cfg: Config, h: seq<Entry>, level: nat, r: Readings, worth: Worth)
    requires Willing(cfg, level, worth)
    requires var recent := Prune(h, r.counting(level) - HOUR);
             |recent| < cfg.budget(level) && !Cooling(cfg, recent, level, r.entry(level))
    ensures Evaluate(cfg, Free, false, h, level, r, worth)
            == (Decision(true, level), Prune(h, r.counting(level) - HOUR) + [Entry(r.entry(level), level)])
  {
    CountAtMost(Prune(h, r.counting(level) - HOUR), level, r.counting(level) - HOUR);
  }

  /** The history is an end of the entries. */
  predicate EndOf(h: seq<Entry>, level: nat, d: real, k: nat) {
    |h| <= k && h == SpacedEntries(level, d, k)[k - |h|..]
  }

  lemma {:induction false} EndHasLast(h: seq<Entry>, level: nat, d: real, k: nat)
    requires EndOf(h, level, d, k) && h != []
    ensures LastAt(h, level) == Some(At(d, k - 1)) && h[|h| - 1].at == At(d, k - 1)
    ensures |h| == k ==> h[0].at == 1.0
  {
  }

  lemma {:induction false} EndPruned(h: seq<Entry>, level: nat, d: real, k: nat, cutoff: real)
    requires EndOf(h, level, d, k)
    ensures EndOf(Prune(h, cutoff), level, d, k)
    ensures k > 0 && cutoff > 1.0 ==> |Prune(h, cutoff)| < k
  {
    PruneSplits(h, cutoff);
    if |h| == k && k > 0 { PruneSplits(h[1..], cutoff); }
  }

  lemma {:induction false} NothingLeft(h: seq<Entry>, now: real, cutoff: real)
    requires Sorted(h, now) && (h != [] ==> h[|h| - 1].at < cutoff)
    ensures Prune(h, cutoff) == []
  {
    PruneSplits(h, cutoff);
    var p := Prune(h, cutoff);
    if p != [] {
      assert p[|p| - 1] == h[|h| - 1];
      SortedSuffix(h, now, |h| - |p|);
      SortedMember(p, now, |p| - 1);
    }
  }

  lemma {:induction false} EntriesSorted(level: nat, d: real, k: nat, now: real)
    requires d >= 0.0 && (k > 0 ==> At(d, k - 1) <= now)
    ensures Sorted(SpacedEntries(level, d, k), now)
  {
    if k > 0 {
      AtIs(d, k - 1);
      if k > 1 { AtGrows(d, k - 2, k - 1); }
      EntriesSorted(level, d, k - 1, At(d, k - 1));
    }
  }

  /** Entries this far apart neither cool nor, with the stretch, are remembered. */
  predicate Wide(cfg: Config, level: nat, d: real, stretch: real) { d >= cfg.cooldown(level) || d + stretch > HOUR }

  /** Nothing cools a call this far after the last entry. */
  lemma {:induction false} NotCooling(cfg: Config, h: seq<Entry>, level: nat, d: real, k: nat, at: real, cutoff: real)
    requires d >= 0.0 && EndOf(h, level, d, k) && (k > 0 ==> At(d, k - 1) <= at)
    requires k > 0 ==> at - At(d, k - 1) >= cfg.cooldown(level) || At(d, k - 1) < cutoff
    ensures !Cooling(cfg, Prune(h, cutoff), level, at)
  {
    EndPruned(h, level, d, k, cutoff);
    var recent := Prune(h, cutoff);
    if recent != [] {
      EndHasLast(recent, level, d, k);
      EndHasLast(h, level, d, k);
      if At(d, k - 1) < cutoff {
        EntriesSorted(level, d, k, at);
        SortedSuffix(SpacedEntries(level, d, k), at, k - |h|);
        NothingLeft(h, at, cutoff);
      }
    }
  }

  lemma {:induction false} EndMore(h: seq<Entry>, level: nat, d: real, k: nat)
    requires EndOf(h, level, d, k)
    ensures EndOf(h + [Entry(At(d, k), level)], level, d, k + 1)
  {
    var all := SpacedEntries(level, d, k) + [Entry(At(d, k), level)];
    assert h + [Entry(At(d, k), level)] == all[k - |h|..];
  }

  lemma {:induction false} NextNotCooling(cfg: Config, h: seq<Entry>, level: nat, d: real, stretch: real, k: nat)
    requires 0.0 <= stretch && 0.0 <= d && Wide(cfg, level, d, stretch) && EndOf(h, level, d, k)
    ensures !Cooling(cfg, Prune(h, At(d, k) + stretch - HOUR), level, At(d, k))
  {
    NotCooling(cfg, h, level, d, k, At(d, k), At(d, k) + stretch - HOUR);
  }

  lemma NextSpaced(cfg: Config, h: seq<Entry>, level: nat, worth: Worth, d: real, stretch: real, k: nat)
    requires Willing(cfg, level, worth) && 0.0 <= stretch && 0.0 <= d && Wide(cfg, level, d, stretch)
    requires k < cfg.budget(level) && EndOf(h, level, d, k)
    ensures var (decision, next) := Evaluate(cfg, Free, false, h, level, Stretched(level, At(d, k), stretch), worth);
            decision == Decision(true, level) && EndOf(next, level, d, k + 1)
  {
    var at := At(d, k);
    var cutoff := at + stretch - HOUR;
    EndPruned(h, level, d, k, cutoff);
    NextNotCooling(cfg, h, level, d, stretch, k);
    var r := Stretched(level, at, stretch);
    assert r.entry(level) == at && r.counting(level) - HOUR == cutoff;
    NextApproved(cfg, h, level, r, worth);
    EndMore(Prune(h, cutoff), level, d, k);
  }

  lemma {:induction false} RunMore(cfg: Config, calls: seq<Call>, c: Call)
    ensures HistoryAfter(cfg, calls + [c]) == Result(cfg, HistoryAfter(cfg, calls), c).1
    ensures Approvals(cfg, calls + [c])
            == Approved(Approvals(cfg, calls), c.r, Result(cfg, HistoryAfter(cfg, calls), c).0)
  {
    assert (calls + [c])[..|calls|] == calls;
  }

  /** These calls were approved one by one, and an end of their entries is remembered. */
  predicate AllApproved(cfg: Config, calls: seq<Call>, level: nat, d: real, k: nat) {
    EndOf(HistoryAfter(cfg, calls), level, d, k) && Approvals(cfg, calls) == SpacedEntries(level, d, k)
  }

  lemma SpacedStep(cfg: Config, before: seq<Call>, level: nat, worth: Worth, d: real, stretch: real, k: nat)
    requires Willing(cfg, level, worth) && 0.0 <= stretch && 0.0 <= d && Wide(cfg, level, d, stretch)
    requires k < cfg.budget(level) && AllApproved(cfg, before, level, d, k)
    ensures AllApproved(cfg, before + [Call(level, Free, false, Stretched(level, At(d, k), stretch), worth)],
                        level, d, k + 1)
  {
    RunMore(cfg, before, Call(level, Free, false, Stretched(level, At(d, k), stretch), worth));
    NextSpaced(cfg, HistoryAfter(cfg, before), level, worth, d, stretch, k);
  }

  /** Up to its budget, calls this far apart are all approved. */
  lemma {:induction false} SpacedApproved(cfg: Config, level: nat, worth: Worth, d: real, stretch: real, k: nat)
    requires Willing(cfg, level, worth) && 0.0 <= stretch && 0.0 <= d && Wide(cfg, level, d, stretch)
    requires k <= cfg.budget(level)
    ensures AllApproved(cfg, Spaced(level, worth, d, stretch, k), level, d, k)
  {
    if k > 0 {
      var before := Spaced(level, worth, d, stretch, k - 1);
      SpacedApproved(cfg, level, worth, d, stretch, k - 1);
      SpacedStep(cfg, before, level, worth, d, stretch, k - 1);
      assert Spaced(level, worth, d, stretch, k)
          == before + [Call(level, Free, false, Stretched(level, At(d, k - 1), stretch), worth)];
    }
  }

  /** As many calls as the budget allows, and one more that no longer counts the first. */
  function OneTooMany(cfg: Config, level: nat, worth: Worth, d: real, stretch: real, w: real, gap: real): seq<Call> {
    Spaced(level, worth, d, stretch, cfg.budget(level))
    + [Call(level, Free, false, Stretched(level, 1.0 + w, gap), worth)]
  }

  /** The last of them comes late enough: the first is forgotten, and the one before it does not cool it. */
  predicate LateEnough(cfg: Config, level: nat, d: real, stretch: real, w: real, gap: real)
    requires cfg.budget(level) > 0
  {
    var last := At(d, cfg.budget(level) - 1);
    && 0.0 <= stretch <= d && stretch <= gap && Wide(cfg, level, d, stretch) && w > HOUR - gap
    && At(d, cfg.budget(level)) <= 1.0 + w
    && (1.0 + w - last >= cfg.cooldown(level) || last < 1.0 + w + gap - HOUR)
  }

  /** When the last call comes, the first is forgotten and none cools it. */
  lemma {:induction false} LateRoom(cfg: Config, h: seq<Entry>, level: nat, d: real, stretch: real, w: real, gap: real)
    requires cfg.budget(level) > 0 && LateEnough(cfg, level, d, stretch, w, gap)
    requires EndOf(h, level, d, cfg.budget(level))
    ensures var recent := Prune(h, 1.0 + w + gap - HOUR);
            |recent| < cfg.budget(level) && !Cooling(cfg, recent, level, 1.0 + w)
  {
    var b, cutoff := cfg.budget(level), 1.0 + w + gap - HOUR;
    AtGrows(d, b - 1, b);
    EndPruned(h, level, d, b, cutoff);
    NotCooling(cfg, h, level, d, b, 1.0 + w, cutoff);
  }

  /** A call that is approved adds its entry. */
  lemma ApprovalAdds(cfg: Config, calls: seq<Call>, level: nat, r: Readings, worth: Worth)
    requires Willing(cfg, level, worth)
    requires var recent := Prune(HistoryAfter(cfg, calls), r.counting(level) - HOUR);
             |recent| < cfg.budget(level) && !Cooling(cfg, recent, level, r.entry(level))
    ensures Approvals(cfg, calls + [Call(level, Free, false, r, worth)])
            == Approvals(cfg, calls) + [Entry(r.entry(level), level)]
  {
    NextApproved(cfg, HistoryAfter(cfg, calls), level, r, worth);
    RunMore(cfg, calls, Call(level, Free, false, r, worth));
  }

  lemma {:induction false} OneTooManyApproved(cfg: Config, level: nat, worth: Worth, d: real, stretch: real, w: real,
                                              gap: real)
    requires Willing(cfg, level, worth) && LateEnough(cfg, level, d, stretch, w, gap)
    ensures Approvals(cfg, OneTooMany(cfg, level, worth, d, stretch, w, gap))
            == SpacedEntries(level, d, cfg.budget(level)) + [Entry(1.0 + w, level)]
  {
    var b := cfg.budget(level);
    var before := Spaced(level, worth, d, stretch, b);
    SpacedApproved(cfg, level, worth, d, stretch, b);
    LateRoom(cfg, HistoryAfter(cfg, before), level, d, stretch, w, gap);
    ApprovalAdds(cfg, before, level, Stretched(level, 1.0 + w, gap), worth);
  }

  lemma {:induction false} ClockedLater(calls: seq<Call>, now: real, later: real, gap: real)
    requires Clocked(calls, now, gap) && now <= later
    ensures Clocked(calls, later, gap)
  {
    if calls != [] {
      var c := calls[|calls| - 1];
      TicksLater(c.r, c.level, now, later, gap);
    }
  }

  lemma {:induction false} OneTooManyClocked(cfg: Config, level: nat, worth: Worth, d: real, stretch: real, w: real,
                                             gap: real)
    requires Willing(cfg, level, worth) && LateEnough(cfg, level, d, stretch, w, gap)
    ensures Clocked(OneTooMany(cfg, level, worth, d, stretch, w, gap), 1.0 + w + gap, gap)
  {
    var b := cfg.budget(level);
    var before, calls := Spaced(level, worth, d, stretch, b), OneTooMany(cfg, level, worth, d, stretch, w, gap);
    SpacedClocked(level, worth, d, stretch, b, gap);
    ClockedLater(before, At(d, b), 1.0 + w, gap);
    AtIs(d, b);
    StretchedTicks(level, 1.0 + w, gap, 1.0 + w + gap, gap);
    assert calls[..|calls| - 1] == before;
  }

  lemma {:induction false} SpacedWithin(level: nat, d: real, k: nat, w: real)
    requires d >= 0.0 && (k > 0 ==> At(d, k - 1) <= 1.0 + w)
    ensures CountWithin(SpacedEntries(level, d, k), level, 1.0, w) == k
  {
    if k > 0 {
      AtIs(d, k - 1);
      if k > 1 { AtGrows(d, k - 2, k - 1); }
      SpacedWithin(level, d, k - 1, w);
    }
  }

  // ── How long a budget's window is ───────────────────────────────────

  /** In every run with the given gap all windows of length w are within the level's budget. */
  ghost predicate WindowsKept(cfg: Config, level: nat, gap: real, w: real) {
    forall calls: seq<Call>, now: real, from: real | Clocked(calls, now, gap) ::
      CountWithin(Approvals(cfg, calls), level, from, w) <= cfg.budget(level)
  }

  /** A run that approves one more than the budget within any window at least as long as w0. */
  lemma TooManyWithin(cfg: Config, level: nat, worth: Worth, d: real, stretch: real, w0: real, gap: real, w: real)
    requires Willing(cfg, level, worth) && LateEnough(cfg, level, d, stretch, w0, gap) && w0 <= w
    ensures !WindowsKept(cfg, level, gap, w)
  {
    var b := cfg.budget(level);
    var calls, now := OneTooMany(cfg, level, worth, d, stretch, w0, gap), 1.0 + w0 + gap;
    OneTooManyApproved(cfg, level, worth, d, stretch, w0, gap);
    OneTooManyClocked(cfg, level, worth, d, stretch, w0, gap);
    AtIs(d, b);
    AtGrows(d, b - 1, b);
    SpacedWithin(level, d, b, w);
    var all := SpacedEntries(level, d, b) + [Entry(1.0 + w0, level)];
    assert all[..b] == SpacedEntries(level, d, b);
    assert Clocked(calls, now, gap) && CountWithin(Approvals(cfg, calls), level, 1.0, w) == b + 1;
  }

  /** Each approval of the level is at least, or more than, this far after the one before it. */
  predicate ApartBy(all: seq<Entry>, level: nat, d: real, strictly: bool) {
    all == [] ||
    (var front, e := all[..|all| - 1], all[|all| - 1];
     && ApartBy(front, level, d, strictly)
     && (e.level == level && LastAt(front, level).Some? ==>
           e.at - LastAt(front, level).value >= d && (strictly ==> e.at - LastAt(front, level).value > d)))
  }

  lemma {:induction false} FitIsApart(cfg: Config, all: seq<Entry>, level: nat, w: real)
    requires AllFit(cfg, all, w)
    ensures if cfg.cooldown(level) <= w then ApartBy(all, level, cfg.cooldown(level), false)
            else ApartBy(all, level, w, true)
  {
    if all != [] { FitIsApart(cfg, all[..|all| - 1], level, w); }
  }

  /** The newest approval of the level inside the window. */
  function LastWithin(all: seq<Entry>, level: nat, from: real, w: real): Option<real> {
    if all == [] then None
    else if Within(all[|all| - 1], level, from, w) then Some(all[|all| - 1].at)
    else LastWithin(all[..|all| - 1], level, from, w)
  }

  lemma {:induction false} LastWithinSpec(all: seq<Entry>, level: nat, from: real, w: real, now: real)
    requires Sorted(all, now)
    ensures LastWithin(all, level, from, w).Some? <==> CountWithin(all, level, from, w) > 0
    ensures LastWithin(all, level, from, w).Some? ==>
              && from <= LastWithin(all, level, from, w).value <= from + w
              && LastAt(all, level).Some? && LastWithin(all, level, from, w).value <= LastAt(all, level).value <= now
  {
    if all != [] { LastWithinSpec(all[..|all| - 1], level, from, w, all[|all| - 1].at); }
  }

  /** So many approvals this far apart need a window that long. */
  lemma {:induction false} CountNeedsRoom(all: seq<Entry>, level: nat, from: real, w: real, d: real, strictly: bool,
                                          now: real)
    requires Sorted(all, now) && ApartBy(all, level, d, strictly) && CountWithin(all, level, from, w) > 0
    ensures LastWithin(all, level, from, w).Some?
    ensures var n, t := CountWithin(all, level, from, w), LastWithin(all, level, from, w).value;
            t - from >= At(d, n - 1) - 1.0 && (strictly && n > 1 ==> t - from > At(d, n - 1) - 1.0)
  {
    var front, e := all[..|all| - 1], all[|all| - 1];
    LastWithinSpec(all, level, from, w, now);
    LastWithinSpec(front, level, from, w, e.at);
    if CountWithin(front, level, from, w) > 0 { CountNeedsRoom(front, level, from, w, d, strictly, e.at); }
  }

  /** More approvals than the budget do not fit into a window that is too short for their distances. */
  lemma {:induction false} ApartFits(all: seq<Entry>, level: nat, from: real, w: real, d: real, strictly: bool,
                                     now: real, b: nat)
    requires Sorted(all, now) && ApartBy(all, level, d, strictly) && d >= 0.0 && b > 0
    requires if strictly then w <= At(d, b) - 1.0 else w < At(d, b) - 1.0
    ensures CountWithin(all, level, from, w) <= b
  {
    var n := CountWithin(all, level, from, w);
    if n > b {
      CountNeedsRoom(all, level, from, w, d, strictly, now);
      LastWithinSpec(all, level, from, w, now);
      AtGrows(d, b, n - 1);
    }
  }

  /**
   The windows that keep a budget. A budget that the cooldown lets be used up within an hour less the gap is kept
   in windows no longer than that; one that it does not, in all windows too short for one approval more; and under
   a cooldown longer than an hour less the gap, approvals are only known to be more than that apart.
   */
  predicate Kept(cfg: Config, level: nat, gap: real, w: real) {
    var c, b, hour := cfg.cooldown(level), cfg.budget(level) as real, HOUR - gap;
    if c > hour then w <= b * hour
    else if b * c <= hour then w <= hour
    else w < b * c
  }

  /** Whatever the cooldown, approvals of a level are far enough apart for the windows it keeps. */
  lemma {:induction false} RunApartFits(cfg: Config, level: nat, gap: real, w: real, d: real, strictly: bool,
                                        calls: seq<Call>, now: real, from: real)
    requires Clocked(calls, now, gap) && cfg.budget(level) > 0 && d >= 0.0
    requires strictly == (cfg.cooldown(level) > HOUR - gap) && d == if strictly then HOUR - gap else cfg.cooldown(level)
    requires var room := At(d, cfg.budget(level)) - 1.0; if strictly then w <= room else w < room
    ensures CountWithin(Approvals(cfg, calls), level, from, w) <= cfg.budget(level)
  {
    RunFits(cfg, calls, now, gap, HOUR - gap);
    FitIsApart(cfg, Approvals(cfg, calls), level, HOUR - gap);
    ApartFits(Approvals(cfg, calls), level, from, w, d, strictly, now, cfg.budget(level));
  }

  lemma {:induction false} KeptIsKept(cfg: Config, level: nat, worth: Worth, gap: real, w: real, calls: seq<Call>,
                                      now: real, from: real)
    requires Willing(cfg, level, worth) && 0.0 <= gap <= HOUR && Kept(cfg, level, gap, w) && Clocked(calls, now, gap)
    ensures CountWithin(Approvals(cfg, calls), level, from, w) <= cfg.budget(level)
  {
    var c, hour := cfg.cooldown(level), HOUR - gap;
    AtIs(c, cfg.budget(level));
    AtIs(hour, cfg.budget(level));
    if w <= hour {
      BudgetHolds(cfg, calls, now, gap, level, from, w);
    } else if c > hour {
      RunApartFits(cfg, level, gap, w, hour, true, calls, now, from);
    } else {
      RunApartFits(cfg, level, gap, w, c, false, calls, now, from);
    }
  }

  lemma WiderStep(w: real, b: nat, hour: real)
    requires b > 0 && w > b as real * hour
    ensures w / b as real > hour
  {
    var d := w / b as real;
    assert d * b as real == w;
    if d <= hour { assert d * b as real <= hour * b as real; }
  }

  /** Under a long cooldown: equal steps of more than an hour less the gap. */
  lemma LongCooldownBreaks(cfg: Config, level: nat, worth: Worth, gap: real, w: real)
    requires Willing(cfg, level, worth) && 0.0 <= gap <= HOUR / 2.0 && cfg.cooldown(level) > HOUR - gap
    requires w > cfg.budget(level) as real * (HOUR - gap)
    ensures !WindowsKept(cfg, level, gap, w)
  {
    var b := cfg.budget(level);
    var d := w / b as real;
    WiderStep(w, b, HOUR - gap);
    AtIs(d, b);
    assert b as real * d == w;
    assert At(d, b) == 1.0 + w && At(d, b - 1) == 1.0 + w - d;
    assert w >= d by { AtGrows(d, 1, b); assert At(d, 1) == At(d, 0) + d; }
    TooManyWithin(cfg, level, worth, d, gap, w, gap, w);
  }

  /** Under a short one: steps of one cooldown, and a last one at w0. */
  lemma ShortCooldownBreaks(cfg: Config, level: nat, worth: Worth, gap: real, w0: real, w: real)
    requires Willing(cfg, level, worth) && 0.0 <= gap <= HOUR && HOUR - gap < w0 <= w
    requires cfg.budget(level) as real * cfg.cooldown(level) <= w0
    ensures !WindowsKept(cfg, level, gap, w)
  {
    var c, b := cfg.cooldown(level), cfg.budget(level);
    AtIs(c, b);
    assert At(c, b) == At(c, b - 1) + c;
    TooManyWithin(cfg, level, worth, c, 0.0, w0, gap, w);
  }

  lemma NotKeptIsBroken(cfg: Config, level: nat, worth: Worth, gap: real, w: real)
    requires Willing(cfg, level, worth) && 0.0 <= gap <= HOUR && !Kept(cfg, level, gap, w)
    requires cfg.cooldown(level) <= HOUR - gap || gap <= HOUR / 2.0
    ensures !WindowsKept(cfg, level, gap, w)
  {
    var room := cfg.budget(level) as real * cfg.cooldown(level);
    if cfg.cooldown(level) > HOUR - gap {
      LongCooldownBreaks(cfg, level, worth, gap, w);
    } else {
      ShortCooldownBreaks(cfg, level, worth, gap, if room <= HOUR - gap then w else room, w);
    }
  }

  /**
   Over all runs with the given gap, a level's budget holds in all windows of length w exactly when w is one that
   keeps it, whatever its budget and its cooldown; a gap above half an hour is left to cooldowns that are kept.
   */
  lemma BudgetWindowIff(cfg: Config, level: nat, worth: Worth, gap: real, w: real)
    requires Willing(cfg, level, worth) && 0.0 <= gap <= HOUR
    requires cfg.cooldown(level) <= HOUR - gap || gap <= HOUR / 2.0
    ensures WindowsKept(cfg, level, gap, w) <==> Kept(cfg, level, gap, w)
  {
    if Kept(cfg, level, gap, w) {
      forall calls: seq<Call>, now: real, from: real | Clocked(calls, now, gap)
        ensures CountWithin(Approvals(cfg, calls), level, from, w) <= cfg.budget(level)
      {
        KeptIsKept(cfg, level, worth, gap, w, calls, now, from);
      }
    } else {
      NotKeptIsBroken(cfg, level, worth, gap, w);
    }
  }

  // ── How long a cooldown is kept ─────────────────────────────────────

  ghost predicate CooldownKept(cfg: Config, level: nat, gap: real) {
    forall calls: seq<Call>, now: real | Clocked(calls, now, gap) :: Apart(cfg, Approvals(cfg, calls), level)
  }

  /** Two calls for one level from a fresh start; the second is x later and counts `gap` after its entry. */
  function TwoCalls(level: nat, worth: Worth, x: real, gap: real): seq<Call> {
    [Call(level, Free, false, Stretched(level, 1.0, 0.0), worth),
     Call(level, Free, false, Stretched(level, 1.0 + x, gap), worth)]
  }

  lemma {:induction false} TwoCallsClocked(level: nat, worth: Worth, x: real, gap: real)
    requires level > 0 && x >= 0.0 && gap >= 0.0
    ensures Clocked(TwoCalls(level, worth, x, gap), 1.0 + x + gap, gap)
  {
    var calls := TwoCalls(level, worth, x, gap);
    assert calls[..1] == [calls[0]] && [calls[0]][..0] == [];
    StretchedTicks(level, 1.0, 0.0, 1.0 + x, gap);
    StretchedTicks(level, 1.0 + x, gap, 1.0 + x + gap, gap);
  }

  /** With nothing left of the history, a worthwhile candidate with a budget is approved. */
  lemma {:induction false} AloneIsApproved(cfg: Config, h: seq<Entry>, level: nat, r: Readings, worth: Worth)
    requires level > 0 && cfg.budget(level) > 0 && worth(level, 0) && Prune(h, r.counting(level) - HOUR) == []
    ensures Evaluate(cfg, Free, false, h, level, r, worth) == (Decision(true, level), [Entry(r.entry(level), level)])
  {
    assert [] + [Entry(r.entry(level), level)] == [Entry(r.entry(level), level)];
  }

  /** Both calls are approved when the second one counts from after the first: its approval is forgotten. */
  lemma {:induction false} BothApproved(cfg: Config, level: nat, worth: Worth, x: real, gap: real)
    requires level > 0 && cfg.budget(level) > 0 && worth(level, 0) && x + gap > HOUR
    ensures Approvals(cfg, TwoCalls(level, worth, x, gap)) == [Entry(1.0, level), Entry(1.0 + x, level)]
  {
    var calls := TwoCalls(level, worth, x, gap);
    assert calls[..1] == [calls[0]] && [calls[0]][..0] == [];
    AloneIsApproved(cfg, [], level, calls[0].r, worth);
    var h := [Entry(1.0, level)];
    assert HistoryAfter(cfg, [calls[0]]) == h && Approvals(cfg, [calls[0]]) == h;
    assert h[1..] == [] && Prune(h, 1.0 + x + gap - HOUR) == [];
    AloneIsApproved(cfg, h, level, calls[1].r, worth);
  }

  /** A cooldown is kept in every run with the given gap exactly when it is an hour less the gap or shorter. */
  lemma CooldownKeptIff(cfg: Config, level: nat, worth: Worth, gap: real)
    requires level > 0 && cfg.budget(level) > 0 && worth(level, 0) && 0.0 <= gap <= HOUR
    ensures CooldownKept(cfg, level, gap) <==> cfg.cooldown(level) <= HOUR - gap
  {
    if cfg.cooldown(level) <= HOUR - gap {
      forall calls: seq<Call>, now: real | Clocked(calls, now, gap) ensures Apart(cfg, Approvals(cfg, calls), level) {
        CooldownHolds(cfg, calls, now, gap, level);
      }
    } else {
      var x := (HOUR - gap + cfg.cooldown(level)) / 2.0;
      var calls := TwoCalls(level, worth, x, gap);
      TwoCallsClocked(level, worth, x, gap);
      BothApproved(cfg, level, worth, x, gap);
      var all := Approvals(cfg, calls);
      assert all[1].at - all[0].at == x < cfg.cooldown(level);
      var now := 1.0 + x + gap;
      assert Clocked(calls, now, gap) && !Apart(cfg, Approvals(cfg, calls), level);
    }
  }
}
