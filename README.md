# Real-estate agent scheduling and profile core, in Dafny

This project models the computable core of a conversational real-estate agent. The agent
collects a buyer's profile, recommends listings from a vector store, offers showing times
from the listing agent's calendar and books a showing through a calendar hook.

The model covers these parts:

- **Slot calculator** (`TimeUtils`). It walks a 30-minute grid over the anchor's working
  day and keeps the starts that no busy block, widened by the buffer, overlaps. It also
  renders the slots for the language model.
- **Anchor resolver and availability tool** (`AgentAvailability`). It removes the words
  "next", "this" and "coming" from the caller's phrase. It parses the phrase and moves the
  result two hours earlier unless it is midnight; with no usable phrase it falls back to
  tomorrow's midnight. It fetches the busy blocks and computes the slots.
- **Booking tool** (`ScheduleAppointmentTool`) and **calendar hook client**
  (`AppointmentUtils`): the booking payload, the fallback answers, the one-day busy query
  and the flattening of the calendars' busy lists.
- **Schedule configuration** (`ScheduleConfig`).
- **Profile handling** (`UserProfile`): validation, defaults, phone formatting and
  price/number normalisation.
- **Recommendation tool** (`RecommendPropertiesTool`): the validation early return and the
  listing filter.
- **Search results to records** (`PropertyRecommendation`).
- **The two text builders**: `EmbeddingUtils.ProfileToText` and
  `LoadListings.GeneratePropertyText`.

Modelling conventions:

- **Time.** An instant is an `int` count of minutes of wall-clock time in the agent's zone;
  minute 0 is 1970-01-01 00:00, a Thursday. A `DateTime` also records whether the Python
  value carries a zone. Localising attaches the zone and keeps the wall-clock time.
- **Outside services** are function parameters: the date parser, the clock (`now`), the two
  calendar-hook round trips, the embedding service with the listing store, and the
  `strftime` renderings. A hook round trip is a function from the request to `Option` of the
  reply; `None` stands for a raised request.
- **Python exceptions** become the `Failure` case of a `Result`.
- **Value and state.** Profiles and records are values. Code that appends in a loop is a
  method with loop invariants, proved equal to a specification function.
- **JSON.** Metadata dictionaries are maps from the listing's field names to string, int or
  float values.

Behaviours of the code that the model keeps:

- **Booking length.** The booking tool books exactly one hour (`timedelta(hours=1)`), not the
  configured appointment length.
- **Unparsable booking time.** The apology text comes back as the tool's ordinary answer, not
  as an error.
- **Booking phrase.** The booking tool hands the phrase to the parser unchanged; the words
  "next", "this" and "coming" are not removed.
- **Busy window.** The busy query starts at the anchor instant itself (see Findings).
- **Busy-query errors.** A failed busy query raises an error, with no polite message.

## Model

| member | source | states |
|---|---|---|
| `ScheduleConfig.Default` | real-estate-agent-main/src/models/agent_schedule_config.py:4-9 | The defaults are a 09:00 start, an 18:00 end, 60-minute appointments, a 30-minute buffer and America/Chicago; this configuration is valid and fits at least one appointment. |
| `Clock.DayStart` | real-estate-agent-main/src/utils/time_utils.py:26 | The start of an instant's date is at most the instant, less than a day before it, and on the same date. |
| `Clock.TimeOfDay` | real-estate-agent-main/src/agent/tools/get_agent_availability.py:54 | The time of day lies in [0, 1440) and adds to the day start to give the instant. |
| `Clock.Localize` | real-estate-agent-main/src/agent/tools/get_agent_availability.py:50-51 | Localising gives an aware value with the same wall-clock time and leaves an aware value unchanged. |
| `Clock.DayOfShift` | real-estate-agent-main/src/agent/tools/get_agent_availability.py:59-60 | Adding k whole days moves the date by exactly k. |
| `TimeUtils.AnyConflict` | real-estate-agent-main/src/utils/time_utils.py:36-39 | The `any(...)` is true iff some busy block, widened by the buffer, overlaps `[c, c + duration)`. |
| `TimeUtils.ComputeAvailableSlots` | real-estate-agent-main/src/utils/time_utils.py:26-45 | The grid walk returns exactly the specified free slots of the anchor's date. |
| `TimeUtils.FreeFromMembership` | real-estate-agent-main/src/utils/time_utils.py:33-42 | A value is returned by the walk from `current` iff it is a 30-minute grid point from `current`, at most the last start, and conflicts with no busy block. |
| `TimeUtils.FreeFromIncreasing` | real-estate-agent-main/src/utils/time_utils.py:33-42 | The walk's output is strictly increasing. |
| `TimeUtils.AvailableSlotsMembership` | real-estate-agent-main/src/utils/time_utils.py:30-41 | A slot is offered iff it starts at or after work start and ends by work end on the anchor's date, is `work_start + 30k`, and conflicts with no busy block. This gives bounds, grid alignment, no conflict and completeness. |
| `TimeUtils.AvailableSlotsOnAnchorDate` | real-estate-agent-main/src/utils/time_utils.py:26-31 | With a valid configuration every offered slot lies on the anchor's own date. |
| `TimeUtils.AvailableSlotsIncreasing` | real-estate-agent-main/src/utils/time_utils.py:33-42 | Offered slots are strictly increasing. |
| `TimeUtils.ShortDayHasNoSlots` | real-estate-agent-main/src/utils/time_utils.py:31-34 | If work end minus the duration is before work start, nothing is offered. |
| `TimeUtils.OnlyAnchorDateMatters` | real-estate-agent-main/src/utils/time_utils.py:26-31 | Two anchors on the same date give the same slots; the anchor's time of day plays no part. |
| `TimeUtils.FreeFromNothingBusy` | real-estate-agent-main/src/utils/time_utils.py:33-42 | With nothing busy the walk offers every grid point: `current + 30i` for each i up to n. |
| `TimeUtils.DefaultFreeDay` | real-estate-agent-main/src/utils/time_utils.py:33-42 | A free day under the defaults offers 17 slots, 09:00, 09:30, ... 17:00. |
| `TimeUtils.DefaultDayWithLunchBooking` | real-estate-agent-main/src/utils/time_utils.py:35-41 | Under the defaults, a 13:00-14:00 booking removes the slots from 12:00 through 14:00 (the buffer) and keeps 11:30 and 14:30. |
| `TimeUtils.WeekdayName` | real-estate-agent-main/src/utils/time_utils.py:53-59 | `%A` is one of the seven weekday names. |
| `TimeUtils.RenderKeepsLeadingCharacters` | real-estate-agent-main/src/utils/time_utils.py:59 | `lstrip("0")` removes nothing from a rendered slot, since it starts with a weekday name. |
| `TimeUtils.FormatSlotsForLlm` | real-estate-agent-main/src/utils/time_utils.py:48-68 | The payload holds the rendered current time and one rendered string per slot, in slot order. |
| `AgentAvailability.MatchLen` | real-estate-agent-main/src/agent/tools/get_agent_availability.py:35 | A match of the word pattern has length 4 or 6 and lies inside the text. |
| `AgentAvailability.MatchIsLetters` | real-estate-agent-main/src/agent/tools/get_agent_availability.py:35 | A matched word consists of letters only. |
| `AgentAvailability.StripKeepsNonLetters` | real-estate-agent-main/src/agent/tools/get_agent_availability.py:35 | Removing the words keeps every non-letter character (digits, spaces, punctuation) in order. |
| `AgentAvailability.StripShortens` | real-estate-agent-main/src/agent/tools/get_agent_availability.py:35 | The cleaned phrase is never longer than the original. |
| `AgentAvailability.StripWithoutMatches` | real-estate-agent-main/src/agent/tools/get_agent_availability.py:35 | A phrase with no whole-word match is passed on unchanged. |
| `AgentAvailability.InsideWordIsNoMatch` | real-estate-agent-main/src/agent/tools/get_agent_availability.py:35 | A word character just before a position rules out a match there, and a four- or six-letter candidate followed by a word character does not match, so "nextdoor" and "thisx" are not removed. |
| `AgentAvailability.StripExample` | real-estate-agent-main/src/agent/tools/get_agent_availability.py:35 | "Next Fri" is cleaned to " Fri": case is ignored and the space is kept. |
| `AgentAvailability.StripRelativeWords` | real-estate-agent-main/src/agent/tools/get_agent_availability.py:35 | `re.sub` of the word pattern never lengthens the phrase and keeps all its non-letter characters, in order. |
| `AgentAvailability.ResolveAnchor` | real-estate-agent-main/src/agent/tools/get_agent_availability.py:32-65 | The chain of rebindings yields the specified anchor, and the anchor is always aware. |
| `AgentAvailability.AnchorCases` | real-estate-agent-main/src/agent/tools/get_agent_availability.py:34-60 | With no phrase, or no parse, the anchor is tomorrow's midnight. A parsed midnight is kept. Any other parsed time is moved back exactly 120 minutes. |
| `AgentAvailability.EarlyPreferenceMovesToPreviousDay` | real-estate-agent-main/src/agent/tools/get_agent_availability.py:53-55 | A parsed time strictly between 00:00 and 02:00 anchors on the previous date. Midnight and times from 02:00 on stay on the parsed date. |
| `AgentAvailability.EarlyPreferenceOffersPreviousDate` | real-estate-agent-main/src/agent/tools/get_agent_availability.py:53-55 | Such an early preference is answered only with slots of the previous date. |
| `AgentAvailability.AvailabilityAnswer` | real-estate-agent-main/src/agent/tools/get_agent_availability.py:25-72 | The tool fails iff normalisation or the busy fetch fails, with that error. Otherwise it renders exactly the free slots of the anchor's date, in order. |
| `AgentAvailability.GetAgentAvailability` | real-estate-agent-main/src/agent/tools/get_agent_availability.py:18-72 | The tool normalises, resolves the anchor, fetches the busy list for the anchor's one-day window, computes and renders the slots, as specified. |
| `AgentAvailability.Overlapping` | real-estate-agent-main/src/utils/appointment_utils.py:59-65 | The hook's answer for a window contains exactly the calendar blocks that overlap it. |
| `AgentAvailability.AsWrittenOffersBookedSlot` | real-estate-agent-main/src/utils/appointment_utils.py:59 | With a 09:00-10:00 meeting and a 10:00 anchor, the window that starts at the anchor still offers a 09:00 slot that conflicts with the meeting. |
| `AgentAvailability.CoveringWindowSeesEveryConflict` | real-estate-agent-main/src/utils/time_utils.py:30-39 | For every candidate start of the day, conflicts against the blocks in [work start − buffer, work end + buffer) are the conflicts against the whole calendar. |
| `AgentAvailability.FreeFromAgrees` | real-estate-agent-main/src/utils/time_utils.py:33-42 | Two busy lists with the same conflicts on every grid point give the same walk. |
| `AgentAvailability.CorrectedWindowIsExact` | real-estate-agent-main/src/utils/time_utils.py:26-42 | Fetching the covering window offers exactly the slots the whole calendar leaves free. |
| `AppointmentUtils.EventTitleFields` | real-estate-agent-main/src/utils/appointment_utils.py:22 | The title is "Showing for ", the name as `str()` renders it, " (", the address, ", ", the city and ")". Each stands at its offset, and the length leaves room for nothing else. |
| `AppointmentUtils.PropertyLineFields` | real-estate-agent-main/src/utils/appointment_utils.py:28 | The line is "Property: ", then the address, city, state and zip code separated by ", ", then a newline. Each part stands at its offset, and nothing else is in the line. |
| `AppointmentUtils.EventDescriptionLines` | real-estate-agent-main/src/utils/appointment_utils.py:23-30 | The description is the thank-you header, then the "Property ID: ", "User: ", "Phone: " and "Property: " lines, then "Appointment: " and the rendered start time. Each piece stands at its offset in that order, and nothing else is in the text. |
| `AppointmentUtils.Payload` | real-estate-agent-main/src/utils/appointment_utils.py:22-43 | The payload has mode "schedule_appointment" and carries the listing id, start, end, name and phone unchanged. Its title is the event title and its description the event description built from the same profile, listing and start. |
| `AppointmentUtils.BookingAnswer` | real-estate-agent-main/src/utils/appointment_utils.py:46-53 | No reply, a status from 400 to 599 or a non-object body gives the fallback text. Otherwise the answer is the server's `confirmation_message`, or "Your appointment has been scheduled." when it sent none. |
| `AppointmentUtils.SendAppointment` | real-estate-agent-main/src/utils/appointment_utils.py:13-53 | The booking answer is decided by the hook's reply to the payload alone; no error escapes. |
| `AppointmentUtils.BookingAnswerKinds` | real-estate-agent-main/src/utils/appointment_utils.py:46-53 | Every answer is the fallback, the default confirmation or a text the server sent; every failed exchange gives the fallback. |
| `AppointmentUtils.BusyRequest` | real-estate-agent-main/src/utils/appointment_utils.py:59-65 | The busy query has mode "get_busy_slots" and the window [start, start + 1 day). |
| `AppointmentUtils.ItemBusy` | real-estate-agent-main/src/utils/appointment_utils.py:75-77 | An entry becomes a busy block iff both stamps are present and parse, and the block runs from the start stamp to the end stamp. A missing "start" raises `KeyError: 'start'`, checked before "end". A present start with a missing "end" raises `KeyError: 'end'`. A stamp that does not parse raises a `ValueError`. |
| `AppointmentUtils.ItemsBusy` | real-estate-agent-main/src/utils/appointment_utils.py:74-77 | On success a calendar's entries give exactly one block each. |
| `AppointmentUtils.ItemsBusySucceedsIff` | real-estate-agent-main/src/utils/appointment_utils.py:74-77 | A calendar's entries convert exactly when every entry converts on its own. |
| `AppointmentUtils.CalendarsBusy` | real-estate-agent-main/src/utils/appointment_utils.py:71-77 | Flattening the calendars succeeds iff every calendar's busy entries all convert. |
| `AppointmentUtils.BusyOf` | real-estate-agent-main/src/utils/appointment_utils.py:67-77 | No reply, a status from 400 to 599 or an undecodable body raises; any other status is decoded. A body without "calendars" gives no blocks. |
| `AppointmentUtils.ItemsBusyFailureSticks` | real-estate-agent-main/src/utils/appointment_utils.py:74-77 | Once an entry fails, the later entries leave the error unchanged. |
| `AppointmentUtils.CalendarsBusyFailureSticks` | real-estate-agent-main/src/utils/appointment_utils.py:73-77 | Once a calendar fails, the later calendars leave the error unchanged. |
| `AppointmentUtils.FetchBusySlots` | real-estate-agent-main/src/utils/appointment_utils.py:56-80 | The nested loops return exactly the specified flattening of the reply to the one-day query; only a status from 400 to 599 raises. |
| `AppointmentUtils.CalendarsBusyAppend` | real-estate-agent-main/src/utils/appointment_utils.py:71-77 | The busy list of two groups of calendars is the first group's list followed by the second's, in order. |
| `AppointmentUtils.CalendarWithoutBusy` | real-estate-agent-main/src/utils/appointment_utils.py:74 | A calendar without a "busy" key contributes nothing. |
| `AppointmentUtils.ItemsBusyPointwise` | real-estate-agent-main/src/utils/appointment_utils.py:74-77 | When flattening succeeds, block i is built from entry i and the length is kept. |
| `ScheduleAppointmentTool.BookingRequest` | real-estate-agent-main/src/agent/tools/schedule_appointment.py:32-50 | Gives the request sent for a chosen time, or `None` when nothing parses. |
| `ScheduleAppointmentTool.Answer` | real-estate-agent-main/src/agent/tools/schedule_appointment.py:32-52 | A normalisation error is passed on. An unparsable time gives the apology. Otherwise the answer is the booking answer to the request. |
| `ScheduleAppointmentTool.ScheduleAppointment` | real-estate-agent-main/src/agent/tools/schedule_appointment.py:18-52 | The tool fails iff the profile does not normalise, and otherwise answers as above. |
| `ScheduleAppointmentTool.BookingRequestShape` | real-estate-agent-main/src/agent/tools/schedule_appointment.py:44-50 | A request is sent iff the time parses. It starts at the parsed wall-clock time (an aware value is kept) and ends exactly 60 minutes later. It carries the listing, the name and the formatted phone. |
| `ScheduleAppointmentTool.ParseFailureBooksNothing` | real-estate-agent-main/src/agent/tools/schedule_appointment.py:40-41 | An unparsable time gives exactly the apology, whatever the hook would answer. |
| `ScheduleAppointmentTool.ParserSeesTheTextAsGiven` | real-estate-agent-main/src/agent/tools/schedule_appointment.py:32-38 | The answer depends on the parser only through its reading of the phrase itself: no stripping, no lookback. |
| `ScheduleAppointmentTool.OfferedSlotBooksFreeHour` | real-estate-agent-main/src/agent/tools/schedule_appointment.py:48 | When the configured appointment lasts at least an hour, booking an offered slot books an hour that no busy block conflicts with. |
| `ScheduleAppointmentTool.ShortConfigBooksIntoBusyBlock` | real-estate-agent-main/src/agent/tools/schedule_appointment.py:48 | With a 30-minute configured length, the booked hour of an offered slot can run into a busy block. |
| `UserProfile.ValidatePhoneNumber` | real-estate-agent-main/src/models/user_profile.py:44-50 | A phone validates iff it is present and non-empty and has from 10 to 15 digits; a valid phone has at least 10 characters. |
| `UserProfile.Rank` | real-estate-agent-main/src/models/user_profile.py:20-42 | Each check has its position in the fixed order of the six checks. |
| `UserProfile.ValidateUserProfile` | real-estate-agent-main/src/models/user_profile.py:19-42 | The appended messages are exactly the messages of the failed checks, in check order. |
| `UserProfile.FailedUpToFacts` | real-estate-agent-main/src/models/user_profile.py:20-42 | After the first k checks, a check is listed iff it is among them and fails. The list is in check order and has at most k entries. |
| `UserProfile.ValidationVerdict` | real-estate-agent-main/src/models/user_profile.py:19-42 | There are no errors iff all six checks pass, and a check is reported iff it fails. There are at most six errors, in check order. |
| `UserProfile.WithDefaults` | real-estate-agent-main/src/models/user_profile.py:52-69 | Defaulting keeps every truthy field, including a given budget, and fills falsy ones with "2000", "Single Family", "buy", 3 and 2; the intent is always set afterwards. The int 2 for bathrooms is held as the float 2.0, which is what normalisation turns it into; nothing reads it in between. |
| `UserProfile.DefaultBudget` | real-estate-agent-main/src/models/user_profile.py:70-76 | A missing budget becomes "300000" when the defaulted intent lower-cases to "buy" and "2000" when it lower-cases to "rent", and stays as it was for any other intent. |
| `UserProfile.ApplyDefaultsToProfile` | real-estate-agent-main/src/models/user_profile.py:52-76 | The field-by-field updates of the copy give exactly the defaulted profile. |
| `UserProfile.DefaultsIdempotent` | real-estate-agent-main/src/models/user_profile.py:52-76 | Applying the defaults twice is the same as applying them once. |
| `UserProfile.FormatPhone` | real-estate-agent-main/src/models/user_profile.py:130-145 | An empty phone gives "". Otherwise the result is "+", then "1" if there are exactly ten digits, then the digits; the `startswith("+")` branch never applies. |
| `UserProfile.DigitsOfFormatted` | real-estate-agent-main/src/models/user_profile.py:135-145 | The digits of "+d" or "+1d" are d or "1"+d. |
| `UserProfile.FormatPhoneIdempotent` | real-estate-agent-main/src/models/user_profile.py:130-145 | Formatting a formatted phone changes nothing. |
| `UserProfile.ValidPhoneFormatsToE164` | real-estate-agent-main/src/models/user_profile.py:44-145 | A phone that passes validation formats to "+" followed by 11 to 15 digits. |
| `UserProfile.Runs` | real-estate-agent-main/src/models/user_profile.py:98 | `re.findall(r"[\d.]+")` yields non-empty runs of digits and dots. |
| `UserProfile.ParseRun` | real-estate-agent-main/src/models/user_profile.py:109 | `float()` of a run fails when it has no digit or more than one dot; otherwise the result is its exact decimal value. |
| `UserProfile.Multiplier` | real-estate-agent-main/src/models/user_profile.py:103-107 | "k" gives 1000 and takes precedence over "m" (1,000,000); otherwise the multiplier is 1. |
| `UserProfile.MillionContainsM` | real-estate-agent-main/src/models/user_profile.py:106 | The "million" test adds nothing to the "m" test. |
| `UserProfile.PriceOfText` | real-estate-agent-main/src/models/user_profile.py:100-101 | A text with no numeric run gives 0. |
| `UserProfile.NormalizePrice` | real-estate-agent-main/src/models/user_profile.py:93-110 | A missing budget and a text without a numeric run give 0, and a successful price is never negative. |
| `UserProfile.PriceIsLargestRun` | real-estate-agent-main/src/models/user_profile.py:97-110 | The price succeeds iff every run parses, and it is then the largest scaled run. |
| `UserProfile.NormalizeNumber` | real-estate-agent-main/src/models/user_profile.py:112-117 | Only the first numeric run counts; no run gives 0. |
| `UserProfile.NormalizeSqft` | real-estate-agent-main/src/models/user_profile.py:126-127 | `int(normalize_number(x))` succeeds iff the number text parses; the size is never negative, and a text without a numeric run gives 0. |
| `UserProfile.DigitSizeNormalises` | real-estate-agent-main/src/models/user_profile.py:112-127 | A size whose stripped text is all digits normalises to the number those digits spell. |
| `UserProfile.NormalizeBedrooms` | real-estate-agent-main/src/models/user_profile.py:120-121 | A given bedroom count is kept, as `float()` of an int is that int. A missing one gives 0, as `normalize_number(None)` does. |
| `UserProfile.NormalizeBathrooms` | real-estate-agent-main/src/models/user_profile.py:123-124 | A given bathroom count is kept unchanged. A missing one gives 0.0. |
| `UserProfile.NumericCountsKeepTheirValue` | real-estate-agent-main/src/models/user_profile.py:112-124 | Negative and exponent-written numbers keep their value: -2 bedrooms stay -2, and -1.5 and 1e-05 bathrooms stay as they are. |
| `UserProfile.ValidBudgetPrice` | real-estate-agent-main/src/models/user_profile.py:31-110 | A budget that passes validation normalises to the number its digits spell. |
| `UserProfile.NormalizeUserProfile` | real-estate-agent-main/src/models/user_profile.py:78-91 | Normalisation fails iff intent, type or location is missing or the size or budget text fails to parse. On success it keeps the name and lists and stores the formatted phone, the lower-cased stripped intent, the stripped type, the title-cased location and the normalised numbers. Bedroom and bathroom numbers pass through unchanged, since `normalize_number` returns `float(x)` for a number. |
| `UserProfile.Title` | real-estate-agent-main/src/models/user_profile.py:88 | `str.title()` keeps the length; a character right after a letter is lower-cased and any other is upper-cased. |
| `PropertyRecommendation.FirstMissing` | real-estate-agent-main/src/models/property_recommendation.py:30-48 | No key is missing iff every key the constructor reads is present. A reported key is missing and is one of them. |
| `PropertyRecommendation.RecordOf` | real-estate-agent-main/src/models/property_recommendation.py:30-50 | A record is built iff every field is present with a value of its declared type. An int field also takes an integral float, and a float field an int. |
| `PropertyRecommendation.BuildKeepsValues` | real-estate-agent-main/src/models/property_recommendation.py:30-49 | The constructor call puts each dictionary value into its field: text fields hold the text unchanged, number fields hold the same number. |
| `PropertyRecommendation.RecordOfMetaOf` | real-estate-agent-main/src/models/property_recommendation.py:30-50 | Building a record from the metadata of a record gives that record back. |
| `PropertyRecommendation.MapPrefixSucceeds` | real-estate-agent-main/src/models/property_recommendation.py:29-51 | The mapping of the first n metadata entries succeeds iff every one of them gives a record. |
| `PropertyRecommendation.MapPrefixPointwise` | real-estate-agent-main/src/models/property_recommendation.py:29-51 | On success, record i is built from metadata entry i. |
| `PropertyRecommendation.MapPrefixFailureSticks` | real-estate-agent-main/src/models/property_recommendation.py:29-51 | Once an entry fails, mapping any longer prefix gives that same failure, so the first failing entry's error is the result. |
| `PropertyRecommendation.ParseChromaResults` | real-estate-agent-main/src/models/property_recommendation.py:24-53 | The loop over the zipped lists returns exactly the specified records. |
| `PropertyRecommendation.ParsedResultsShape` | real-estate-agent-main/src/models/property_recommendation.py:25-29 | Only the first inner lists are read. On success there are min(#documents, #metadatas) records, record i built from metadata i. |
| `PropertyRecommendation.DocumentsOnlyCount` | real-estate-agent-main/src/models/property_recommendation.py:29-49 | The document texts do not affect the records, only their number. |
| `PropertyRecommendation.RecordsRoundTrip` | real-estate-agent-main/src/models/property_recommendation.py:29-51 | Mapping the metadata of any records gives those records. |
| `RecommendPropertiesTool.MetaAdmitsBuild` | real-estate-agent-main/src/agent/tools/recommend_properties.py:47-57 | A record passes the filter exactly when the metadata it was built from does. |
| `RecommendPropertiesTool.FilterOf` | real-estate-agent-main/src/agent/tools/recommend_properties.py:36-57 | Building the filter fails iff `int()` of the size or budget text fails. |
| `RecommendPropertiesTool.NormalisedFilter` | real-estate-agent-main/src/agent/tools/recommend_properties.py:47-57 | For a normalised profile the filter is built. It uses the title-cased city and stripped type, size − 300, budget ± 50000, the bedrooms and the truncated bathrooms. |
| `RecommendPropertiesTool.Query` | real-estate-agent-main/src/agent/tools/recommend_properties.py:29-61 | After validation the answer is listings or an error; a normalisation error is passed on. |
| `RecommendPropertiesTool.RecommendProperties` | real-estate-agent-main/src/agent/tools/recommend_properties.py:18-61 | Validation errors come back as they are, and only then is the answer a list of errors. Otherwise the answer is the search on the defaulted, normalised profile. |
| `RecommendPropertiesTool.InvalidProfileSearchesNothing` | real-estate-agent-main/src/agent/tools/recommend_properties.py:25-27 | With validation errors the store is never consulted, and there are at most six messages. |
| `RecommendPropertiesTool.ValidatedFields` | real-estate-agent-main/src/models/user_profile.py:28-40 | A validated profile has a location, a type, an intent and an all-digit budget. |
| `RecommendPropertiesTool.ValidProfileNormalises` | real-estate-agent-main/src/agent/tools/recommend_properties.py:29-30 | For a validated profile, defaulting keeps location, type and budget. Normalisation then fails only on the size, and the budget becomes the value of its digits. |
| `RecommendPropertiesTool.ValidProfileFilter` | real-estate-agent-main/src/agent/tools/recommend_properties.py:29-57 | For a validated profile whose size normalises, the filter asks for the title-cased location and the stated type exactly, a size of at least the requested size − 300, a price between the budget's digits − 50000 and + 50000, at least the requested bedrooms and at least the truncated requested bathrooms. |
| `RecommendPropertiesTool.ValidProfileSearch` | real-estate-agent-main/src/agent/tools/recommend_properties.py:33-61 | For such a profile the store is searched once, with the normalised profile's text, that filter and three results, and the answer is the records built from the store's reply. |
| `RecommendPropertiesTool.ListingsHonourFilter` | real-estate-agent-main/src/agent/tools/recommend_properties.py:44-61 | If the store honours the filter, every recommended listing passes it, and there are no more listings than metadata entries. |
| `EmbeddingUtils.OrEmpty` | real-estate-agent-main/src/utils/embedding_utils.py:19-23 | `x or ''` gives the text when it is non-empty and "" otherwise. |
| `EmbeddingUtils.IntOrEmpty` | real-estate-agent-main/src/utils/embedding_utils.py:20 | A count renders as nothing iff it is missing or 0; any other count renders as `str(n)`. |
| `EmbeddingUtils.CountTextReadsBack` | real-estate-agent-main/src/utils/embedding_utils.py:20 | The text of a non-zero count reads back with `int()` as that count. |
| `EmbeddingUtils.FloatOrEmpty` | real-estate-agent-main/src/utils/embedding_utils.py:21 | A bathroom count renders as nothing when it is missing or 0.0, and as its `repr` otherwise. |
| `EmbeddingUtils.ProfileTextSegments` | real-estate-agent-main/src/utils/embedding_utils.py:17-26 | For every profile, the text is seven segments in order, each at its offset: the type and ", "; the bedrooms and " bedroom(s), "; the bathrooms and " bathroom(s), "; the budget and " budget, "; "in ", the location and ", "; "Must haves: ", the joined list and ", "; "Good to haves: " and the joined list. Nothing else is in the text. |
| `EmbeddingUtils.FalsyFieldsRenderAlike` | real-estate-agent-main/src/utils/embedding_utils.py:19-23 | A missing field and a falsy one give the same text. |
| `EmbeddingUtils.TextIgnoresContactAndSize` | real-estate-agent-main/src/utils/embedding_utils.py:17-26 | Name, phone, intent and size do not affect the text. |
| `LoadListings.GroupNatDigits` | real-estate-agent-main/src/data/load_listings.py:27-29 | Removing the commas of `{n:,}` gives `str(n)`. |
| `LoadListings.GroupedPriceNormalises` | real-estate-agent-main/src/data/load_listings.py:27 | A comma-grouped price reads back through the price normaliser as the same number. |
| `LoadListings.PartText` | real-estate-agent-main/src/data/load_listings.py:17-41 | Only the price, size and description fragments can fail. |
| `LoadListings.PartsUpTo` | real-estate-agent-main/src/data/load_listings.py:16-41 | After k fragments there are at most k parts, and at least one when k > 0. |
| `LoadListings.PartsFailureSticks` | real-estate-agent-main/src/data/load_listings.py:16-43 | A failing fragment fails the whole text. |
| `LoadListings.AppendPart` | real-estate-agent-main/src/data/load_listings.py:18-41 | Each `if ... append` step extends the parts exactly as specified. |
| `LoadListings.GeneratePropertyText` | real-estate-agent-main/src/data/load_listings.py:15-43 | The appends and the join give exactly the specified text: the present fragments in code order, joined by single spaces. |
| `LoadListings.TextStartsWithType` | real-estate-agent-main/src/data/load_listings.py:17 | The text starts with "<type> for sale", or "Property for sale" without a type. |
| `LoadListings.PluralUnlessOne` | real-estate-agent-main/src/data/load_listings.py:18-21 | "bedroom"/"bathroom" ends in "s" iff the count is not 1. |
| `LoadListings.PlaceNeedsBoth` | real-estate-agent-main/src/data/load_listings.py:24-25 | The "city, state." part appears iff both keys are present. |
| `LoadListings.RemovingKeyIsLocal` | real-estate-agent-main/src/data/load_listings.py:18-41 | An absent key removes exactly its own fragment; a missing type gives "Property for sale". |
| `LoadListings.PriceFragment` | real-estate-agent-main/src/data/load_listings.py:27 | A non-negative integer price renders as "Priced at $" followed by the comma-grouped number. |
| `LoadListings.Grouped` | real-estate-agent-main/src/data/load_listings.py:27-29 | `format(v, ',')` fails iff v is a text. An int gives its grouped digits, and a float printed with an exponent gives that text unchanged. |
| `LoadListings.SmallNegativeFloatKeepsSign` | real-estate-agent-main/src/data/load_listings.py:27-29 | `format(-0.5, ',')` is "-0.5": the sign survives although the integer part is 0. |
| `Text.StripEmptyIffBlank` | real-estate-agent-main/src/models/user_profile.py:22-28 | `s.strip()` is empty iff s is all whitespace, with Python's whitespace set (ASCII space, \t to \r, \x1c to \x1f, and the Unicode spaces). |
| `Text.IntToStringRoundTrip` | real-estate-agent-main/src/agent/tools/recommend_properties.py:51-53 | `int(str(i)) == i`, which the filter relies on to read back the normalised numbers. |
| `Text.Strip` | real-estate-agent-main/src/models/user_profile.py:97 | `strip()` returns no longer text, which neither starts nor ends with a character of Python's whitespace set. |
| `Text.IntOfStripped` | real-estate-agent-main/src/agent/tools/recommend_properties.py:51-53 | `int()` accepts a string of ASCII digits, optionally signed, in which single underscores may separate digits; its value is that of the digits. Anything else raises a `ValueError`. |
| `Text.NaturalTextRoundTrip` | real-estate-agent-main/src/agent/tools/recommend_properties.py:51-53 | `int(str(n)) == n` for every natural number. |
| `Text.NegativeTextRoundTrip` | real-estate-agent-main/src/agent/tools/recommend_properties.py:51-53 | `int(str(-n)) == -n` for every positive n. |
| `Text.UnderscoreAccepted` | real-estate-agent-main/src/agent/tools/recommend_properties.py:51-53 | `int("1_000")` is 1000. |
| `Text.DoubledUnderscoreRejected` | real-estate-agent-main/src/agent/tools/recommend_properties.py:51-53 | `int("1__000")` raises. |
| `Text.TrailingUnderscoreRejected` | real-estate-agent-main/src/agent/tools/recommend_properties.py:51-53 | `int("1000_")` raises. |
| `Text.UnicodeSpaceExamples` | real-estate-agent-main/src/models/user_profile.py:88 | `strip()` removes a trailing no-break space from "Austin\u00a0" and turns "\x1c" into the empty text. |
| `UserProfile.ParseRuns` | real-estate-agent-main/src/models/user_profile.py:109 | The list comprehension succeeds iff every run parses; it then keeps one value per run, in order. |
| `UserProfile.MaxScaled` | real-estate-agent-main/src/models/user_profile.py:110 | `int(max(...))` is at least every scaled run and equal to one of them. |
| `LoadListings.GroupNat` | real-estate-agent-main/src/data/load_listings.py:27 | `{n:,}` is non-empty and made of digits and commas only. |
| `LoadListings.GroupNatCommas` | real-estate-agent-main/src/data/load_listings.py:27-29 | In `{n:,}` a character is a comma exactly when its distance from the end is a multiple of four, so the digits stand in threes from the right. |
| `LoadListings.GroupedNumberText` | real-estate-agent-main/src/models/user_profile.py:97 | Lower-casing, removing commas and stripping a comma-grouped number leaves its plain digits. |
| `PyValues.Trunc` | real-estate-agent-main/src/agent/tools/recommend_properties.py:55 | `int()` of a float truncates toward zero. |

## Left out

- Time zones other than one fixed offset, DST gaps and folds, and seconds and microseconds. The midnight test looks at hours and minutes only.
- Comparisons between naive and aware datetimes. A busy entry without an offset would make Python raise; the model compares minutes.
- The two or three separate reads of the clock in one tool call are one `now` parameter.
- `dateparser.parse` is an uninterpreted parameter. `strftime` and `isoformat` texts are abstract parameters, except the weekday name that starts each rendered slot.
- The JSON text of the availability payload: the model returns the payload record itself.
- `AgentAvailability.StripRelativeWords`: `\w` and IGNORECASE are modelled on ASCII. Python also treats non-ASCII letters and digits as word characters and folds some non-ASCII letters.
- `UserProfile.ParseRun`: floats are exact decimals. Float rounding and very large exponents are not modelled.
- `UserProfile.Message`: the property-type message lists the four types in one fixed order. Python prints them in set iteration order.
- `UserProfile.ValidateUserProfile` collects the failed checks and maps them to messages at the end. The messages and their order are those of the appends.
- `UserProfile.NormalizeUserProfile`: pydantic turns the normalised numbers (strings such as "3" and "2.0") back into the int and float fields. The model stores the numbers directly.
- Other JSON value kinds (booleans, null, lists) in metadata and hook replies.
- `PropertyRecommendation.RecordOf`: pydantic's lax mode also coerces numeric strings (such as "500000") into int and float fields. The model rejects every string there.
- `UserProfile.Title` treats only ASCII letters as letters. Python's `title()` maps every Unicode letter, so "québec".title() is "Québec".
- `Text.Lower` lower-cases ASCII letters only; Python's `lower()` maps every Unicode letter.
- `Text.IsDigit` accepts ASCII digits only. Python's `isdigit` and `\d` also accept other Unicode digits.
- `Text.IntOfStripped` reads ASCII digits only. Python's `int()` also accepts other Unicode decimal digits.
- `Text.ParseInt` trims the whole `str.isspace` set, where `int()` trims ASCII whitespace and the Unicode spaces it maps to ' ' (so `int("\x1c5")` raises). The model parses only text that `str()` produced, which holds no such character.
- `LoadListings.Grouped`: a float's `repr` is a parameter of the model; inf and nan are not modelled.
- `RecommendPropertiesTool.Query`: a normalised profile always has every field the filter reads. The `TypeError` branch for a missing one never applies.
- `RecommendPropertiesTool.ListingsHonourFilter`: the listing store's filtering and ranking and the `n_results` limit are the store's behaviour, so they are premises of the lemma, not proved facts.
- Each tool takes its normalisation error as a `Failure`. In Python it is an exception raised out of the tool.
- `get_embedding`, `get_openai_embeddings`, the listing loader's module body (reading the data file, writing to the store, sleeping between batches), and `query_listings.py` are outside services.
- The web and chat front ends, the agent wiring and the cost report have no computable behaviour to model.

## Findings

| source | as written | input that shows it | evidently intended | confidence | as-written member | corrected member |
|---|---|---|---|---|---|---|
| real-estate-agent-main/src/utils/appointment_utils.py:59 | The busy query covers [anchor, anchor + 1 day). The grid starts at work start of the anchor's date (time_utils.py:30), before the anchor whenever the preference is after work start plus two hours. | Default configuration, a 09:00-10:00 meeting, preference 12:00 (anchor 10:00). The meeting ends at the anchor, so it is not fetched, and 09:00 is offered although it overlaps the meeting. | Fetch every block that can conflict with a grid slot of the anchor's date: [work start − buffer, work end + buffer) of that date. | not executed | `AgentAvailability.AsWrittenOffersBookedSlot` | `AgentAvailability.CorrectedWindowIsExact` |
