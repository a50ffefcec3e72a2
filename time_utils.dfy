/** The slot calculator (`compute_available_slots`) and the rendering of its result for the
    language model (`format_slots_for_llm`). */
module TimeUtils {
  import opened Clock
  import opened ScheduleConfig

  /** Candidate start times are this many minutes apart, whatever the appointment length. */
  const GridStep: int := 30

  /** One externally booked block `(busy_start, busy_end)`. */
  datatype Busy = Busy(start: int, end: int)

  /** The busy block, widened by `buffer` on both sides, overlaps `[c, c + duration)`. */
  predicate ConflictsWith(c: int, duration: int, buffer: int, b: Busy) {
    c < b.end + buffer && c + duration > b.start - buffer
  }

  /** The `any(...)` over the busy list: some busy block conflicts with a slot at `c`. */
  function AnyConflict(c: int, duration: int, buffer: int, busy: seq<Busy>): (r: bool)
    ensures r <==> exists k :: 0 <= k < |busy| && ConflictsWith(c, duration, buffer, busy[k])
  {
    if busy == [] then false
    else if ConflictsWith(c, duration, buffer, busy[0]) then true
    else
      var rest := AnyConflict(c, duration, buffer, busy[1..]);
      assert forall k :: 1 <= k < |busy| ==> busy[k] == busy[1..][k - 1];
      rest
  }

  /** `start_dt`: work start on the anchor's date. */
  function FirstStart(anchor: int, cfg: Config): int {
    DayStart(anchor) + cfg.workStart
  }

  /** `end_dt`: the latest start that still ends by work end on the anchor's date. */
  function LastStart(anchor: int, cfg: Config): int {
    DayStart(anchor) + cfg.workEnd - cfg.appointmentDuration
  }

  /** The conflict-free grid points `current`, `current + 30`, ... up to `last`, in order. */
  function FreeFrom(current: int, last: int, busy: seq<Busy>, cfg: Config): seq<int>
    decreases last - current
  {
    if current > last then []
    else
      (if AnyConflict(current, cfg.appointmentDuration, cfg.scheduleBuffer, busy) then [] else [current])
      + FreeFrom(current + GridStep, last, busy, cfg)
  }

  /** What the slot calculator returns for an anchor instant, a busy list and a configuration. */
  function AvailableSlots(anchor: int, busy: seq<Busy>, cfg: Config): seq<int> {
    FreeFrom(FirstStart(anchor, cfg), LastStart(anchor, cfg), busy, cfg)
  }

  /** `compute_available_slots` with the busy list already fetched: walks the 30-minute grid
      of the anchor's date and keeps the candidates no buffered busy block conflicts with. */
  method ComputeAvailableSlots(anchor: int, busy: seq<Busy>, cfg: Config) returns (slots: seq<int>)
    ensures slots == AvailableSlots(anchor, busy, cfg)
  {
    var date := DayStart(anchor);
    var startDt := date + cfg.workStart;
    var endDt := date + cfg.workEnd - cfg.appointmentDuration;
    slots := [];
    var current := startDt;
    while current <= endDt
      invariant slots + FreeFrom(current, endDt, busy, cfg) == FreeFrom(startDt, endDt, busy, cfg)
    {
      var conflict := AnyConflict(current, cfg.appointmentDuration, cfg.scheduleBuffer, busy);
      if !conflict {
        slots := slots + [current];
      }
      current := current + GridStep;
    }
  }

  /** A grid point of the walk that starts at `first`. */
  predicate OnGrid(x: int, first: int) {
    x >= first && (x - first) % GridStep == 0
  }

  /** Exactly the conflict-free grid points between `current` and `last` are kept. */
  lemma {:induction false} FreeFromMembership(current: int, last: int, busy: seq<Busy>, cfg: Config, x: int)
    ensures x in FreeFrom(current, last, busy, cfg) <==>
      OnGrid(x, current) && x <= last && !AnyConflict(x, cfg.appointmentDuration, cfg.scheduleBuffer, busy)
    decreases last - current
  {
    if current <= last {
      FreeFromMembership(current + GridStep, last, busy, cfg, x);
      assert OnGrid(x, current) <==> x == current || OnGrid(x, current + GridStep);
    }
  }

  predicate StrictlyIncreasing(s: seq<int>) {
    forall i, j :: 0 <= i < j < |s| ==> s[i] < s[j]
  }

  lemma {:induction false} FreeFromIncreasing(current: int, last: int, busy: seq<Busy>, cfg: Config)
    ensures StrictlyIncreasing(FreeFrom(current, last, busy, cfg))
    decreases last - current
  {
    if current <= last {
      var head := if AnyConflict(current, cfg.appointmentDuration, cfg.scheduleBuffer, busy) then [] else [current];
      var tail := FreeFrom(current + GridStep, last, busy, cfg);
      FreeFromIncreasing(current + GridStep, last, busy, cfg);
      var s := head + tail;
      forall i, j | 0 <= i < j < |s| ensures s[i] < s[j] {
        if i < |head| {
          assert s[j] in tail;
          FreeFromMembership(current + GridStep, last, busy, cfg, s[j]);
        } else {
          assert s[i] == tail[i - |head|] && s[j] == tail[j - |head|];
        }
      }
    }
  }

  /** A slot is offered exactly when it is on the 30-minute grid that starts at work start on
      the anchor's date, the appointment fits before work end, and no buffered busy block
      overlaps it. */
  lemma AvailableSlotsMembership(anchor: int, busy: seq<Busy>, cfg: Config, x: int)
    ensures x in AvailableSlots(anchor, busy, cfg) <==>
      && DayStart(anchor) + cfg.workStart <= x
      && x + cfg.appointmentDuration <= DayStart(anchor) + cfg.workEnd
      && (x - (DayStart(anchor) + cfg.workStart)) % GridStep == 0
      && forall b :: b in busy ==> !ConflictsWith(x, cfg.appointmentDuration, cfg.scheduleBuffer, b)
  {
    FreeFromMembership(FirstStart(anchor, cfg), LastStart(anchor, cfg), busy, cfg, x);
  }

  /** Every offered slot is `work_start + 30 * k` on the anchor's own date. */
  lemma AvailableSlotsOnAnchorDate(anchor: int, busy: seq<Busy>, cfg: Config, x: int)
    requires Valid(cfg)
    requires x in AvailableSlots(anchor, busy, cfg)
    ensures DayOf(x) == DayOf(anchor)
    ensures exists k: nat :: x == DayStart(anchor) + cfg.workStart + GridStep * k
  {
    AvailableSlotsMembership(anchor, busy, cfg, x);
    var k: nat := (x - (DayStart(anchor) + cfg.workStart)) / GridStep;
    assert x == DayStart(anchor) + cfg.workStart + GridStep * k;
    DayOfShift(x - DayStart(anchor), DayOf(anchor));
  }

  /** The slots come out in chronological order, each at most once. */
  lemma AvailableSlotsIncreasing(anchor: int, busy: seq<Busy>, cfg: Config)
    ensures StrictlyIncreasing(AvailableSlots(anchor, busy, cfg))
  {
    FreeFromIncreasing(FirstStart(anchor, cfg), LastStart(anchor, cfg), busy, cfg);
  }

  /** A work day shorter than one appointment offers nothing. */
  lemma ShortDayHasNoSlots(anchor: int, busy: seq<Busy>, cfg: Config)
    requires cfg.workEnd - cfg.appointmentDuration < cfg.workStart
    ensures AvailableSlots(anchor, busy, cfg) == []
  {
  }

  /** Only the anchor's date matters, not its time of day. */
  lemma OnlyAnchorDateMatters(a1: int, a2: int, busy: seq<Busy>, cfg: Config)
    requires DayOf(a1) == DayOf(a2)
    ensures AvailableSlots(a1, busy, cfg) == AvailableSlots(a2, busy, cfg)
  {
  }

  /** With nothing busy, the walk keeps all `n` grid points it visits. */
  lemma {:induction false} FreeFromNothingBusy(current: int, n: nat, cfg: Config)
    ensures FreeFrom(current, current + GridStep * n - GridStep, [], cfg)
         == seq(n, k => current + GridStep * k)
    decreases n
  {
    if n > 0 {
      FreeFromNothingBusy(current + GridStep, n - 1, cfg);
      assert current + GridStep * n - GridStep == current + GridStep + GridStep * (n - 1) - GridStep;
    }
  }

  /** A free day under the default configuration: 09:00, 09:30, ..., 17:00, seventeen slots. */
  lemma DefaultFreeDay(anchor: int)
    ensures AvailableSlots(anchor, [], Default())
         == seq(17, k => DayStart(anchor) + 9 * MinutesPerHour + GridStep * k)
    ensures |AvailableSlots(anchor, [], Default())| == 17
  {
    FreeFromNothingBusy(DayStart(anchor) + 540, 17, Default());
  }

  /** A booking from 13:00 to 14:00 under the default configuration removes the starts from
      12:00 to 14:00 and keeps 11:30 and 14:30. */
  lemma DefaultDayWithLunchBooking(anchor: int)
    ensures var d := DayStart(anchor);
      var slots := AvailableSlots(anchor, [Busy(d + 13 * 60, d + 14 * 60)], Default());
      && (forall x :: d + 12 * 60 <= x <= d + 14 * 60 ==> x !in slots)
      && d + 11 * 60 + 30 in slots
      && d + 14 * 60 + 30 in slots
  {
    var d := DayStart(anchor);
    var busy := [Busy(d + 13 * 60, d + 14 * 60)];
    forall x | d + 12 * 60 <= x <= d + 14 * 60
      ensures x !in AvailableSlots(anchor, busy, Default())
    {
      AvailableSlotsMembership(anchor, busy, Default(), x);
      assert ConflictsWith(x, 60, 30, busy[0]);
    }
    AvailableSlotsMembership(anchor, busy, Default(), d + 11 * 60 + 30);
    AvailableSlotsMembership(anchor, busy, Default(), d + 14 * 60 + 30);
  }

  // ---- rendering for the language model ----

  const WeekdayNames: seq<string> :=
    ["Monday", "Tuesday", "Wednesday", "Thursday", "Friday", "Saturday", "Sunday"]

  /** `%A`: the epoch day 0 is a Thursday. */
  function WeekdayName(t: int): (r: string)
    ensures r in WeekdayNames
  {
    WeekdayNames[(DayOf(t) + 3) % 7]
  }

  /** `strftime("%A, ...")`: the weekday name, then whatever `detail` renders of the instant. */
  function Render(t: int, detail: int -> string): string {
    WeekdayName(t) + ", " + detail(t)
  }

  /** `s.lstrip("0")` */
  function LStripZeros(s: string): (r: string)
    ensures |r| <= |s|
  {
    if s != [] && s[0] == '0' then LStripZeros(s[1..]) else s
  }

  /** A rendered slot starts with a weekday name, so stripping leading zeros keeps all of it. */
  lemma RenderKeepsLeadingCharacters(t: int, detail: int -> string)
    ensures LStripZeros(Render(t, detail)) == Render(t, detail)
  {
    var w := WeekdayName(t);
    assert Render(t, detail)[0] == w[0];
  }

  datatype LlmPayload = LlmPayload(currentTime: string, availableSlots: seq<string>)

  /** `format_slots_for_llm`: the current time and one rendered string per slot, in slot order. */
  method FormatSlotsForLlm(slots: seq<int>, now: int, nowDetail: int -> string, slotDetail: int -> string)
    returns (payload: LlmPayload)
    ensures payload.currentTime == Render(now, nowDetail)
    ensures |payload.availableSlots| == |slots|
    ensures forall i :: 0 <= i < |slots| ==> payload.availableSlots[i] == Render(slots[i], slotDetail)
  {
    var currentTime := Render(now, nowDetail);
    var formatted: seq<string> := [];
    for i := 0 to |slots|
      invariant |formatted| == i
      invariant forall j :: 0 <= j < i ==> formatted[j] == Render(slots[j], slotDetail)
    {
      var formattedTime := LStripZeros(Render(slots[i], slotDetail));
      RenderKeepsLeadingCharacters(slots[i], slotDetail);
      formatted := formatted + [formattedTime];
    }
    payload := LlmPayload(currentTime, formatted);
  }
}
