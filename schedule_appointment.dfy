/** The `schedule_appointment` tool: the chosen time is parsed as given (no word stripping,
    no lookback), localised when naive, booked for exactly one hour, and the booking hook's
    answer is returned. The parser, the hook and the clock are parameters. */
module ScheduleAppointmentTool {
  import opened Wrappers
  import opened Clock
  import opened TimeUtils
  import opened ScheduleConfig
  import opened UserProfile
  import opened PropertyRecommendation
  import opened AppointmentUtils

  const ParseFailureMessage: string := "Sorry, I couldn't understand the selected time. Please try again."

  /** The booked length: one hour, whatever the agent's configured appointment length. */
  const BookingLength: int := MinutesPerHour

  /** The payload posted for a chosen time, or `None` when the parser understands nothing
      and no booking is attempted. */
  function BookingRequest(normalized: Profile, property: Record, selected: string, now: int,
                          parse: (string, int) -> Option<DateTime>, when: DateTime -> string): Option<BookingPayload> {
    var parsed := parse(selected, now);
    if parsed.None? then None
    else
      var start := Localize(parsed.value);
      Some(Payload(normalized, property, start, DateTime(start.minutes + BookingLength, start.aware), when))
  }

  /** The answer once the profile has been normalised (or has failed to be). */
  function Answer(normalized: Result<Profile>, property: Record, selected: string, now: int,
                  parse: (string, int) -> Option<DateTime>, when: DateTime -> string,
                  post: BookingPayload -> Option<BookingReply>): (r: Result<string>)
    ensures r.Failure? <==> normalized.Failure?
    ensures normalized.Failure? ==> r.error == normalized.error
    ensures r.Success? && parse(selected, now).None? ==> r.value == ParseFailureMessage
    ensures r.Success? && parse(selected, now).Some? ==>
      r.value == BookingAnswer(post(BookingRequest(normalized.value, property, selected, now, parse, when).value))
  {
    if normalized.Failure? then Failure(normalized.error)
    else
      var startDt := parse(selected, now);
      if startDt.None? then Success(ParseFailureMessage)
      else
        var start := Localize(startDt.value);
        var end := DateTime(start.minutes + BookingLength, start.aware);
        Success(SendAppointment(normalized.value, property, start, end, when, post))
  }

  /** `schedule_appointment`: a profile the normaliser rejects is an error; an unparsable time
      gives the apology; otherwise the answer is the booking hook's answer to the request. */
  function ScheduleAppointment(profile: Profile, property: Record, selected: string, now: int,
                               parse: (string, int) -> Option<DateTime>, when: DateTime -> string,
                               post: BookingPayload -> Option<BookingReply>): (r: Result<string>)
    ensures r.Failure? <==> NormalizeUserProfile(profile).Failure?
    ensures r == Answer(NormalizeUserProfile(profile), property, selected, now, parse, when, post)
  {
    Answer(NormalizeUserProfile(profile), property, selected, now, parse, when, post)
  }

  /** A request is sent exactly when the time parses; it starts at the parsed wall-clock time
      (a zone is attached to a naive value, an aware one is kept), ends one hour later, and
      carries the listing, the name and the normalised phone. */
  lemma BookingRequestShape(profile: Profile, property: Record, selected: string, now: int,
                            parse: (string, int) -> Option<DateTime>, when: DateTime -> string)
    requires NormalizeUserProfile(profile).Success?
    ensures var req := BookingRequest(NormalizeUserProfile(profile).value, property, selected, now, parse, when);
      var parsed := parse(selected, now);
      && (req.Some? <==> parsed.Some?)
      && (req.Some? ==>
        && req.value.start.minutes == parsed.value.minutes
        && req.value.start.aware && req.value.end.aware
        && (parsed.value.aware ==> req.value.start == parsed.value)
        && req.value.end.minutes - req.value.start.minutes == 60
        && req.value.mode == "schedule_appointment"
        && req.value.listingId == property.listingId
        && req.value.user == UserInfo(profile.name, Some(FormatPhone(profile.phone))))
  {
    var n := NormalizeUserProfile(profile).value;
    assert n.name == profile.name && n.phone == Some(FormatPhone(profile.phone));
    BookingRequestFields(n, property, selected, now, parse, when);
  }

  /** The request built from an already normalised profile. */
  lemma BookingRequestFields(n: Profile, property: Record, selected: string, now: int,
                             parse: (string, int) -> Option<DateTime>, when: DateTime -> string)
    ensures var req := BookingRequest(n, property, selected, now, parse, when);
      var parsed := parse(selected, now);
      && (req.Some? <==> parsed.Some?)
      && (req.Some? ==>
        && req.value.start.minutes == parsed.value.minutes
        && req.value.start.aware && req.value.end.aware
        && (parsed.value.aware ==> req.value.start == parsed.value)
        && req.value.end.minutes - req.value.start.minutes == 60
        && req.value.mode == "schedule_appointment"
        && req.value.listingId == property.listingId
        && req.value.user == UserInfo(n.name, n.phone))
  {
  }

  /** An unparsable time gives the apology whatever the booking hook would have said: no
      request is made. */
  lemma ParseFailureBooksNothing(profile: Profile, property: Record, selected: string, now: int,
                                 parse: (string, int) -> Option<DateTime>, when: DateTime -> string,
                                 post1: BookingPayload -> Option<BookingReply>,
                                 post2: BookingPayload -> Option<BookingReply>)
    requires NormalizeUserProfile(profile).Success? && parse(selected, now).None?
    ensures ScheduleAppointment(profile, property, selected, now, parse, when, post1) == Success(ParseFailureMessage)
    ensures ScheduleAppointment(profile, property, selected, now, parse, when, post2) == Success(ParseFailureMessage)
  {
  }

  /** The parser is asked about the chosen text itself: two parsers that agree on it give the
      same answer, so neither the word stripping nor the lookback of the availability tool
      happens here. */
  lemma ParserSeesTheTextAsGiven(normalized: Result<Profile>, property: Record, selected: string, now: int,
                                 parse1: (string, int) -> Option<DateTime>,
                                 parse2: (string, int) -> Option<DateTime>,
                                 when: DateTime -> string, post: BookingPayload -> Option<BookingReply>)
    requires parse1(selected, now) == parse2(selected, now)
    ensures Answer(normalized, property, selected, now, parse1, when, post)
      == Answer(normalized, property, selected, now, parse2, when, post)
  {
  }

  /** Booking an offered slot: when the configured appointment lasts at least an hour, the
      booked hour, widened by the buffer, meets no busy block the slot was checked against. */
  lemma OfferedSlotBooksFreeHour(anchor: int, busy: seq<Busy>, cfg: Config, x: int, b: Busy)
    requires cfg.appointmentDuration >= BookingLength
    requires x in AvailableSlots(anchor, busy, cfg) && b in busy
    ensures !ConflictsWith(x, BookingLength, cfg.scheduleBuffer, b)
  {
    AvailableSlotsMembership(anchor, busy, cfg, x);
  }

  /** With a shorter configured appointment the booked hour can run into a block the offered
      slot was never checked against: a 30-minute setting, no buffer, a block at 10:00 and the
      offered 09:30 slot. */
  lemma ShortConfigBooksIntoBusyBlock(d: int)
    ensures var day := d * MinutesPerDay;
      var cfg := Config(540, 1080, 30, 0, "America/Chicago");
      var busy := [Busy(day + 600, day + 660)];
      day + 570 in AvailableSlots(day, busy, cfg)
      && ConflictsWith(day + 570, BookingLength, cfg.scheduleBuffer, busy[0])
  {
    var day := d * MinutesPerDay;
    var cfg := Config(540, 1080, 30, 0, "America/Chicago");
    var busy := [Busy(day + 600, day + 660)];
    assert DayStart(day) == day by {
      DayOfShift(0, d);
    }
    AvailableSlotsMembership(day, busy, cfg, day + 570);
  }
}
