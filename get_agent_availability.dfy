/** The `get_agent_availability` tool: the caller's free-text preference is cleaned of the
    words "next", "this" and "coming", handed to the date parser, moved two hours earlier
    unless it is exactly midnight (or replaced by tomorrow's midnight when nothing parses),
    and the slots of the anchor's date are computed against the busy blocks fetched from the
    calendar hook. The parser, the hook and the clock are parameters. */
module AgentAvailability {
  import opened Wrappers
  import opened Text
  import opened Clock
  import opened ScheduleConfig
  import opened TimeUtils
  import opened UserProfile
  import opened AppointmentUtils

  // ---- re.sub(r'\b(next|this|coming)\b', '', s, flags=re.IGNORECASE) ----

  /** `\w` on the ASCII range: letters, digits and the underscore. */
  predicate IsWordChar(c: char) {
    IsLetter(c) || IsDigit(c) || c == '_'
  }

  /** `w` (a lower-case word) occurs at `i` case-insensitively, with a word boundary on both sides. */
  predicate WordAt(s: string, i: nat, w: string) {
    i + |w| <= |s| && (forall k :: 0 <= k < |w| ==> ToLower(s[i + k]) == w[k])
    && (i == 0 || !IsWordChar(s[i - 1]))
    && (i + |w| == |s| || !IsWordChar(s[i + |w|]))
  }

  /** Length of the match of the pattern at `i`, trying the alternatives in order; 0 when none. */
  function MatchLen(s: string, i: nat): (n: nat)
    ensures n == 0 || n == 4 || n == 6
    ensures n > 0 ==> i + n <= |s|
  {
    if WordAt(s, i, "next") then 4
    else if WordAt(s, i, "this") then 4
    else if WordAt(s, i, "coming") then 6
    else 0
  }

  /** Scan from `i`: every match is dropped, every other character is kept; boundaries are
      always judged on the original text, as the regex engine does. */
  function StripFrom(s: string, i: nat): string
    requires i <= |s|
    decreases |s| - i
  {
    if i == |s| then []
    else
      var n := MatchLen(s, i);
      if n > 0 then StripFrom(s, i + n) else [s[i]] + StripFrom(s, i + 1)
  }

  /** The preference with every stand-alone "next", "this" or "coming" removed. */
  function StripRelativeWords(s: string): (r: string)
    ensures |r| <= |s|
    ensures NonLetters(r) == NonLetters(s)
  {
    StripShortens(s, 0);
    StripKeepsNonLetters(s, 0);
    StripFrom(s, 0)
  }

  /** The characters of `t` that are not ASCII letters, in order. */
  function NonLetters(t: string): string {
    if t == [] then [] else (if IsLetter(t[0]) then [] else [t[0]]) + NonLetters(t[1..])
  }

  lemma {:induction false} NonLettersConcat(a: string, b: string)
    ensures NonLetters(a + b) == NonLetters(a) + NonLetters(b)
  {
    if a == [] {
      assert a + b == b;
    } else {
      assert (a + b)[1..] == a[1..] + b;
      NonLettersConcat(a[1..], b);
    }
  }

  lemma {:induction false} NonLettersOfLetters(t: string)
    requires forall k :: 0 <= k < |t| ==> IsLetter(t[k])
    ensures NonLetters(t) == []
  {
    if t != [] {
      NonLettersOfLetters(t[1..]);
    }
  }

  /** A match consists of letters only. */
  lemma MatchIsLetters(s: string, i: nat)
    requires MatchLen(s, i) > 0
    ensures forall k :: i <= k < i + MatchLen(s, i) ==> IsLetter(s[k])
  {
    var n := MatchLen(s, i);
    var w := if n == 6 then "coming" else if WordAt(s, i, "next") then "next" else "this";
    assert WordAt(s, i, w);
    forall k | i <= k < i + n
      ensures IsLetter(s[k])
    {
      assert ToLower(s[i + (k - i)]) == w[k - i];
    }
  }

  /** Only letters are ever removed: the digits, spaces and punctuation of the preference
      ("10:30", "3pm", "/") reach the parser untouched and in order. */
  lemma {:induction false} StripKeepsNonLetters(s: string, i: nat)
    requires i <= |s|
    ensures NonLetters(StripFrom(s, i)) == NonLetters(s[i..])
    decreases |s| - i
  {
    if i < |s| {
      if MatchLen(s, i) > 0 {
        StripKeepsNonLetters(s, i + MatchLen(s, i));
        DropMatchKeepsNonLetters(s, i);
      } else {
        StripKeepsNonLetters(s, i + 1);
        KeepCharKeepsNonLetters(s, i);
      }
    }
  }

  /** One step of the scan that drops a match keeps the non-letters of what follows. */
  lemma DropMatchKeepsNonLetters(s: string, i: nat)
    requires i < |s| && MatchLen(s, i) > 0
    requires NonLetters(StripFrom(s, i + MatchLen(s, i))) == NonLetters(s[i + MatchLen(s, i)..])
    ensures NonLetters(StripFrom(s, i)) == NonLetters(s[i..])
  {
    var n := MatchLen(s, i);
    assert s[i..] == s[i..i + n] + s[i + n..];
    NonLettersConcat(s[i..i + n], s[i + n..]);
    MatchHasNoNonLetters(s, i);
  }

  /** One step of the scan that keeps a character keeps it among the non-letters too. */
  lemma KeepCharKeepsNonLetters(s: string, i: nat)
    requires i < |s| && MatchLen(s, i) == 0
    requires NonLetters(StripFrom(s, i + 1)) == NonLetters(s[i + 1..])
    ensures NonLetters(StripFrom(s, i)) == NonLetters(s[i..])
  {
    assert StripFrom(s, i) == [s[i]] + StripFrom(s, i + 1);
    assert s[i..] == [s[i]] + s[i + 1..];
    NonLettersConcat([s[i]], s[i + 1..]);
    NonLettersConcat([s[i]], StripFrom(s, i + 1));
  }

  /** The text a match covers has no non-letter to keep. */
  lemma MatchHasNoNonLetters(s: string, i: nat)
    requires MatchLen(s, i) > 0
    ensures NonLetters(s[i..i + MatchLen(s, i)]) == []
  {
    var n := MatchLen(s, i);
    MatchIsLetters(s, i);
    var seg := s[i..i + n];
    assert forall k :: 0 <= k < |seg| ==> seg[k] == s[i + k];
    NonLettersOfLetters(seg);
  }

  /** The cleaned text is never longer than the preference. */
  lemma {:induction false} StripShortens(s: string, i: nat)
    requires i <= |s|
    ensures |StripFrom(s, i)| <= |s| - i
    decreases |s| - i
  {
    if i < |s| {
      var n := MatchLen(s, i);
      if n > 0 { StripShortens(s, i + n); } else { StripShortens(s, i + 1); }
    }
  }

  /** Text in which none of the three words stands alone is passed on unchanged. */
  lemma {:induction false} StripWithoutMatches(s: string, i: nat)
    requires i <= |s|
    requires forall j :: i <= j < |s| ==> MatchLen(s, j) == 0
    ensures StripFrom(s, i) == s[i..]
    decreases |s| - i
  {
    if i < |s| {
      StripWithoutMatches(s, i + 1);
      assert s[i..] == [s[i]] + s[i + 1..];
    }
  }

  /** A word that merely contains one of them is not a match: "nextdoor", "thisx" and "comings"
      go on past the candidate, "annex this" has it after a word character. */
  lemma InsideWordIsNoMatch(s: string, i: nat)
    ensures 0 < i <= |s| && IsWordChar(s[i - 1]) ==> MatchLen(s, i) == 0
    ensures i + 4 < |s| && IsWordChar(s[i + 4]) ==> MatchLen(s, i) != 4
    ensures i + 6 < |s| && IsWordChar(s[i + 6]) ==> MatchLen(s, i) != 6
  {
  }

  /** "Next Fri" is handed to the parser as " Fri". */
  lemma StripExample()
    ensures StripRelativeWords("Next Fri") == " Fri"
  {
    var s := "Next Fri";
    assert WordAt(s, 0, "next");
    forall j | 4 <= j < |s|
      ensures MatchLen(s, j) == 0
    {
      assert !WordAt(s, j, "next") && !WordAt(s, j, "this") && !WordAt(s, j, "coming");
    }
    StripWithoutMatches(s, 4);
  }

  // ---- the anchor instant ----

  /** Hours moved back from the parsed preference (the gap kept before an appointment). */
  const Lookback: int := 2 * MinutesPerHour

  /** A non-empty preference (`if date_time_preference:`). */
  predicate HasPreference(phrase: Option<string>) {
    phrase.Some? && phrase.value != ""
  }

  /** What the parser makes of the cleaned preference, relative to `now`. */
  function Preferred(phrase: Option<string>, now: int, parse: (string, int) -> Option<DateTime>): Option<DateTime> {
    if HasPreference(phrase) then parse(StripRelativeWords(phrase.value), now) else None
  }

  /** The instant the slot search is anchored at. */
  function ExpectedAnchor(phrase: Option<string>, now: int, parse: (string, int) -> Option<DateTime>): DateTime {
    var parsed := Preferred(phrase, now, parse);
    if parsed.Some? then
      var p := Localize(parsed.value);
      if TimeOfDay(p.minutes) != 0 then DateTime(p.minutes - Lookback, true) else p
    else
      DateTime(DayStart(now + MinutesPerDay), true)
  }

  /** The anchor computation of the tool, step by step. */
  method ResolveAnchor(phrase: Option<string>, now: int, parse: (string, int) -> Option<DateTime>)
    returns (anchor: DateTime)
    ensures anchor == ExpectedAnchor(phrase, now, parse)
    ensures anchor.aware
  {
    var parsed: Option<DateTime> := None;
    if phrase.Some? && phrase.value != "" {
      var clean := StripRelativeWords(phrase.value);
      parsed := parse(clean, now);
    }
    if parsed.Some? {
      anchor := parsed.value;
      if !anchor.aware {
        anchor := Localize(anchor);
      }
      if TimeOfDay(anchor.minutes) != 0 {
        anchor := DateTime(anchor.minutes - Lookback, anchor.aware);
      }
    } else {
      var tomorrow := now + MinutesPerDay;
      anchor := DateTime(DayStart(tomorrow), true);
    }
    if !anchor.aware {
      anchor := Localize(anchor);
    }
  }

  /** The three outcomes: no usable preference gives tomorrow's midnight; a parsed midnight is
      kept; any other parsed time is moved two hours earlier. */
  lemma AnchorCases(phrase: Option<string>, now: int, parse: (string, int) -> Option<DateTime>)
    ensures var a := ExpectedAnchor(phrase, now, parse);
      var parsed := Preferred(phrase, now, parse);
      && (!HasPreference(phrase) ==> parsed.None?)
      && (parsed.None? ==> a.minutes == DayStart(now) + MinutesPerDay && TimeOfDay(a.minutes) == 0)
      && (parsed.Some? && TimeOfDay(parsed.value.minutes) == 0 ==> a.minutes == parsed.value.minutes)
      && (parsed.Some? && TimeOfDay(parsed.value.minutes) != 0 ==> a.minutes == parsed.value.minutes - Lookback)
  {
    DayOfShift(now, 1);
  }

  /** A preferred time between 00:01 and 01:59 anchors the search on the day BEFORE the one
      asked for; from 02:00 on (and at midnight) the anchor stays on the asked-for day. */
  lemma EarlyPreferenceMovesToPreviousDay(phrase: Option<string>, now: int, parse: (string, int) -> Option<DateTime>)
    requires Preferred(phrase, now, parse).Some?
    ensures var p := Preferred(phrase, now, parse).value.minutes;
      var a := ExpectedAnchor(phrase, now, parse).minutes;
      (0 < TimeOfDay(p) < Lookback ==> DayOf(a) == DayOf(p) - 1)
      && (TimeOfDay(p) == 0 || TimeOfDay(p) >= Lookback ==> DayOf(a) == DayOf(p))
  {
    var p := Preferred(phrase, now, parse).value.minutes;
    var d := DayOf(p);
    assert p == d * MinutesPerDay + TimeOfDay(p);
    if 0 < TimeOfDay(p) < Lookback {
      assert DayOf(p - Lookback) == d - 1 by {
        assert p - Lookback == (d - 1) * MinutesPerDay + (TimeOfDay(p) - Lookback + MinutesPerDay);
      }
    } else if TimeOfDay(p) >= Lookback {
      assert DayOf(p - Lookback) == d by {
        assert p - Lookback == d * MinutesPerDay + (TimeOfDay(p) - Lookback);
      }
    }
  }

  /** Hence such a preference is answered with slots of the previous date only. */
  lemma EarlyPreferenceOffersPreviousDate(phrase: Option<string>, now: int, parse: (string, int) -> Option<DateTime>,
                                          busy: seq<Busy>, cfg: Config, x: int)
    requires Preferred(phrase, now, parse).Some?
    requires 0 < TimeOfDay(Preferred(phrase, now, parse).value.minutes) < Lookback
    requires Valid(cfg)
    requires x in AvailableSlots(ExpectedAnchor(phrase, now, parse).minutes, busy, cfg)
    ensures DayOf(x) == DayOf(Preferred(phrase, now, parse).value.minutes) - 1
  {
    EarlyPreferenceMovesToPreviousDay(phrase, now, parse);
    AvailableSlotsOnAnchorDate(ExpectedAnchor(phrase, now, parse).minutes, busy, cfg, x);
  }

  // ---- the tool ----

  /** What the tool answers, given the outcome of normalising the profile, the anchor and the
      outcome of fetching the anchor's busy list: the first failure, or the rendered slots. */
  function AvailabilityAnswer(normalized: Result<Profile>, anchor: DateTime, busy: Result<seq<Busy>>, cfg: Config,
                              now: int, nowDetail: int -> string, slotDetail: int -> string): (r: Result<LlmPayload>)
    ensures r.Success? <==> normalized.Success? && busy.Success?
    ensures normalized.Failure? ==> r == Failure(normalized.error)
    ensures normalized.Success? && busy.Failure? ==> r == Failure(busy.error)
    ensures r.Success? ==> var slots := AvailableSlots(anchor.minutes, busy.value, cfg);
      r.value.currentTime == Render(now, nowDetail)
      && |r.value.availableSlots| == |slots|
      && forall i :: 0 <= i < |slots| ==> r.value.availableSlots[i] == Render(slots[i], slotDetail)
  {
    if normalized.Failure? then Failure(normalized.error)
    else if busy.Failure? then Failure(busy.error)
    else
      var slots := AvailableSlots(anchor.minutes, busy.value, cfg);
      Success(LlmPayload(Render(now, nowDetail), seq(|slots|, i requires 0 <= i < |slots| => Render(slots[i], slotDetail))))
  }

  /** `get_agent_availability`: normalise the profile (its errors propagate), resolve the anchor,
      fetch the busy blocks for the day after the anchor, walk the grid of the anchor's date and
      render the free slots. */
  method GetAgentAvailability(profile: Profile, phrase: Option<string>, now: int,
                              parse: (string, int) -> Option<DateTime>,
                              post: BusyQuery -> Option<BusyReply>, cfg: Config,
                              nowDetail: int -> string, slotDetail: int -> string)
    returns (r: Result<LlmPayload>)
    ensures var anchor := ExpectedAnchor(phrase, now, parse);
      r == AvailabilityAnswer(NormalizeUserProfile(profile), anchor, BusyOf(post(BusyRequest(anchor))), cfg, now, nowDetail, slotDetail)
  {
    var normalized := NormalizeUserProfile(profile);
    if normalized.Failure? {
      return Failure(normalized.error);
    }
    var anchor := ResolveAnchor(phrase, now, parse);
    var busy := FetchBusySlots(anchor, post);
    if busy.Failure? {
      return Failure(busy.error);
    }
    var slots := ComputeAvailableSlots(anchor.minutes, busy.value, cfg);
    var payload := FormatSlotsForLlm(slots, now, nowDetail, slotDetail);
    r := Success(payload);
    ghost var expected := AvailabilityAnswer(normalized, anchor, busy, cfg, now, nowDetail, slotDetail);
    assert expected.value.availableSlots == payload.availableSlots;
  }

  // ---- the busy window the hook is asked about ----

  /** What the calendar hook answers for a window: the blocks of the agent's calendar that
      overlap `[ws, we)`, in calendar order. */
  function Overlapping(calendar: seq<Busy>, ws: int, we: int): (r: seq<Busy>)
    ensures forall b :: b in r <==> b in calendar && b.end > ws && b.start < we
  {
    if calendar == [] then []
    else
      (if calendar[0].end > ws && calendar[0].start < we then [calendar[0]] else [])
      + Overlapping(calendar[1..], ws, we)
  }

  /** The slots offered when the busy list is fetched for `[anchor, anchor + 1 day)`, as the
      tool does. */
  function SlotsAsWritten(calendar: seq<Busy>, anchor: int, cfg: Config): seq<int> {
    AvailableSlots(anchor, Overlapping(calendar, anchor, anchor + MinutesPerDay), cfg)
  }

  /** The window the grid actually needs: from work start minus the buffer to work end plus
      the buffer, on the anchor's date. */
  function CoveringWindowStart(anchor: int, cfg: Config): int {
    DayStart(anchor) + cfg.workStart - cfg.scheduleBuffer
  }

  function CoveringWindowEnd(anchor: int, cfg: Config): int {
    DayStart(anchor) + cfg.workEnd + cfg.scheduleBuffer
  }

  /** The slots offered when the busy list is fetched for the covering window. */
  function SlotsCorrected(calendar: seq<Busy>, anchor: int, cfg: Config): seq<int> {
    AvailableSlots(anchor, Overlapping(calendar, CoveringWindowStart(anchor, cfg), CoveringWindowEnd(anchor, cfg)), cfg)
  }

  /** The anchor sits after work start whenever the preference is later than work start plus
      two hours, but the grid starts at work start: a meeting that ends by the anchor is not
      fetched, and the slots it blocks are offered. Here a 09:00-10:00 meeting and a 12:00
      preference (anchor 10:00) on the default configuration give a 09:00 slot. */
  lemma AsWrittenOffersBookedSlot(d: int)
    ensures var calendar := [Busy(d * MinutesPerDay + 540, d * MinutesPerDay + 600)];
      var anchor := d * MinutesPerDay + 600;
      var x := d * MinutesPerDay + 540;
      x in SlotsAsWritten(calendar, anchor, Default())
      && ConflictsWith(x, Default().appointmentDuration, Default().scheduleBuffer, calendar[0])
  {
    var day := d * MinutesPerDay;
    var calendar := [Busy(day + 540, day + 600)];
    var anchor := day + 600;
    assert DayStart(anchor) == day by {
      DayOfShift(600, d);
    }
    assert Overlapping(calendar, anchor, anchor + MinutesPerDay) == [] by {
      assert Busy(day + 540, day + 600) !in Overlapping(calendar, anchor, anchor + MinutesPerDay);
    }
    AvailableSlotsMembership(anchor, [], Default(), day + 540);
  }

  /** Conflicts judged against the covering window's blocks are the conflicts against the
      whole calendar, for every candidate start between the first and the last. */
  lemma CoveringWindowSeesEveryConflict(calendar: seq<Busy>, anchor: int, cfg: Config, c: int)
    requires FirstStart(anchor, cfg) <= c <= LastStart(anchor, cfg)
    ensures var fetched := Overlapping(calendar, CoveringWindowStart(anchor, cfg), CoveringWindowEnd(anchor, cfg));
      AnyConflict(c, cfg.appointmentDuration, cfg.scheduleBuffer, fetched)
      == AnyConflict(c, cfg.appointmentDuration, cfg.scheduleBuffer, calendar)
  {
    var fetched := Overlapping(calendar, CoveringWindowStart(anchor, cfg), CoveringWindowEnd(anchor, cfg));
    if AnyConflict(c, cfg.appointmentDuration, cfg.scheduleBuffer, calendar) {
      var k :| 0 <= k < |calendar| && ConflictsWith(c, cfg.appointmentDuration, cfg.scheduleBuffer, calendar[k]);
      assert calendar[k] in fetched;
      var j :| 0 <= j < |fetched| && fetched[j] == calendar[k];
      assert ConflictsWith(c, cfg.appointmentDuration, cfg.scheduleBuffer, fetched[j]);
    }
    if AnyConflict(c, cfg.appointmentDuration, cfg.scheduleBuffer, fetched) {
      var k :| 0 <= k < |fetched| && ConflictsWith(c, cfg.appointmentDuration, cfg.scheduleBuffer, fetched[k]);
      assert fetched[k] in calendar;
      var j :| 0 <= j < |calendar| && calendar[j] == fetched[k];
      assert ConflictsWith(c, cfg.appointmentDuration, cfg.scheduleBuffer, calendar[j]);
    }
  }

  /** Two busy lists with the same conflicts on every grid point from `current` on give the
      same free slots. */
  lemma {:induction false} FreeFromAgrees(current: int, last: int, busy1: seq<Busy>, busy2: seq<Busy>, cfg: Config)
    requires forall c :: current <= c <= last ==>
      AnyConflict(c, cfg.appointmentDuration, cfg.scheduleBuffer, busy1)
      == AnyConflict(c, cfg.appointmentDuration, cfg.scheduleBuffer, busy2)
    ensures FreeFrom(current, last, busy1, cfg) == FreeFrom(current, last, busy2, cfg)
    decreases last - current
  {
    if current <= last {
      FreeFromAgrees(current + GridStep, last, busy1, busy2, cfg);
    }
  }

  /** Fetching the covering window offers exactly the slots the whole calendar leaves free. */
  lemma CorrectedWindowIsExact(calendar: seq<Busy>, anchor: int, cfg: Config)
    ensures SlotsCorrected(calendar, anchor, cfg) == AvailableSlots(anchor, calendar, cfg)
  {
    var fetched := Overlapping(calendar, CoveringWindowStart(anchor, cfg), CoveringWindowEnd(anchor, cfg));
    forall c | FirstStart(anchor, cfg) <= c <= LastStart(anchor, cfg)
      ensures AnyConflict(c, cfg.appointmentDuration, cfg.scheduleBuffer, fetched)
        == AnyConflict(c, cfg.appointmentDuration, cfg.scheduleBuffer, calendar)
    {
      CoveringWindowSeesEveryConflict(calendar, anchor, cfg, c);
    }
    FreeFromAgrees(FirstStart(anchor, cfg), LastStart(anchor, cfg), fetched, calendar, cfg);
  }
}
