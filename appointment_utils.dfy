/** The calendar back end as the agent sees it: booking a showing (`send_appointment_to_n8n`)
    and reading the agent's busy blocks for one day (`fetch_busy_slots_from_n8n`). The HTTP
    round trip is an oracle: a function from the request to the reply, `None` when the request
    itself raises. */
module AppointmentUtils {
  import opened Wrappers
  import opened Clock
  import opened TimeUtils
  import opened UserProfile
  import opened PropertyRecommendation
  import opened Text

  // ---- send_appointment_to_n8n ----

  const FallbackMessage: string := "There was an issue scheduling the appointment. Please try again later."
  const DefaultConfirmation: string := "Your appointment has been scheduled."
  const ConfirmationKey: string := "confirmation_message"

  /** The `user` object of the booking payload. */
  datatype UserInfo = UserInfo(name: Option<string>, phone: Option<string>)

  /** The JSON body posted to book a showing. */
  datatype BookingPayload = BookingPayload(
    mode: string,
    listingId: string,
    start: DateTime,
    end: DateTime,
    title: string,
    description: string,
    user: UserInfo)

  /** A reply of the booking hook: its HTTP status and its body, `None` when the body is not a
      JSON object. */
  datatype BookingReply = BookingReply(status: int, body: Option<map<string, string>>)

  /** `raise_for_status` raises for a client error (4xx) or a server error (5xx) and for
      nothing else. */
  predicate IsHttpError(status: int) {
    400 <= status < 600
  }

  /** The event title "Showing for <name> (<address>, <city>)". */
  function EventTitle(profile: Profile, property: Record): string {
    "Showing for " + PyStr(profile.name) + " (" + property.address + ", " + property.city + ")"
  }

  /** Each field of the title stands at its place between the fixed words, and nothing else
      is in the title. */
  lemma EventTitleFields(profile: Profile, property: Record)
    ensures var r := EventTitle(profile, property);
      var name := PyStr(profile.name);
      var address := 12 + |name| + 2;
      var city := address + |property.address| + 2;
      && |r| == city + |property.city| + 1
      && Occurs(r, 0, "Showing for ") && Occurs(r, 12, name)
      && Occurs(r, address - 2, " (") && Occurs(r, address, property.address)
      && Occurs(r, city - 2, ", ") && Occurs(r, city, property.city)
      && r[|r| - 1] == ')'
  {
    SevenPiecesInPlace("Showing for ", PyStr(profile.name), " (", property.address, ", ", property.city, ")");
  }

  const DescriptionHeader: string := "Thank you for scheduling the showing with us. Here are the details: \n\n"

  /** The line "Property: <address>, <city>, <state>, <zip>", closed by a newline. */
  function PropertyLine(property: Record): string {
    "Property: " + property.address + ", " + property.city + ", " + property.state + ", " + property.zipCode + "\n"
  }

  /** Each part of the address stands at its place after "Property: ", the parts are
      separated by ", ", and the line ends with its newline. */
  lemma PropertyLineFields(property: Record)
    ensures var r := PropertyLine(property);
      var city := 10 + |property.address| + 2;
      var state := city + |property.city| + 2;
      var zip := state + |property.state| + 2;
      && |r| == zip + |property.zipCode| + 1
      && Occurs(r, 0, "Property: ") && Occurs(r, 10, property.address)
      && Occurs(r, city - 2, ", ") && Occurs(r, city, property.city)
      && Occurs(r, state - 2, ", ") && Occurs(r, state, property.state)
      && Occurs(r, zip - 2, ", ") && Occurs(r, zip, property.zipCode)
      && r[|r| - 1] == '\n'
  {
    NinePiecesInPlace("Property: ", property.address, ", ", property.city, ", ", property.state, ", ",
                      property.zipCode, "\n");
  }

  /** The event body; `when` renders the start time (strftime, left abstract). */
  function EventDescription(profile: Profile, property: Record, start: DateTime, when: DateTime -> string): string {
    DescriptionHeader
      + ("Property ID: " + property.listingId + "\n")
      + ("User: " + PyStr(profile.name) + "\n")
      + ("Phone: " + PyStr(profile.phone) + "\n")
      + PropertyLine(property)
      + "Appointment: " + when(start)
  }

  /** After the thank-you header come the lines of the listing's id, the name, the phone and
      the property, then "Appointment: " and the start time; nothing else is in the text. */
  lemma EventDescriptionLines(profile: Profile, property: Record, start: DateTime, when: DateTime -> string)
    ensures var r := EventDescription(profile, property, start, when);
      var idLine := "Property ID: " + property.listingId + "\n";
      var userLine := "User: " + PyStr(profile.name) + "\n";
      var phoneLine := "Phone: " + PyStr(profile.phone) + "\n";
      var id := |DescriptionHeader|;
      var user := id + |idLine|;
      var phone := user + |userLine|;
      var place := phone + |phoneLine|;
      var appointment := place + |PropertyLine(property)|;
      && |r| == appointment + 13 + |when(start)|
      && Occurs(r, 0, DescriptionHeader) && Occurs(r, id, idLine) && Occurs(r, user, userLine)
      && Occurs(r, phone, phoneLine) && Occurs(r, place, PropertyLine(property))
      && Occurs(r, appointment, "Appointment: ") && Occurs(r, appointment + 13, when(start))
  {
    SevenPiecesInPlace(DescriptionHeader,
      "Property ID: " + property.listingId + "\n",
      "User: " + PyStr(profile.name) + "\n",
      "Phone: " + PyStr(profile.phone) + "\n",
      PropertyLine(property), "Appointment: ", when(start));
  }

  /** The payload of a booking: it carries the listing, the times, the name and the phone
      exactly as given. */
  function Payload(profile: Profile, property: Record, start: DateTime, end: DateTime,
                   when: DateTime -> string): (p: BookingPayload)
    ensures p.mode == "schedule_appointment"
    ensures p.listingId == property.listingId && p.start == start && p.end == end
    ensures p.user == UserInfo(profile.name, profile.phone)
    ensures p.title == EventTitle(profile, property)
    ensures p.description == EventDescription(profile, property, start, when)
  {
    BookingPayload(
      mode := "schedule_appointment",
      listingId := property.listingId,
      start := start,
      end := end,
      title := EventTitle(profile, property),
      description := EventDescription(profile, property, start, when),
      user := UserInfo(profile.name, profile.phone))
  }

  /** What the tool answers for a booking reply: any failure (no reply, an error status, a body
      that is not a JSON object) gives the fallback text; otherwise the server's confirmation,
      or the default one when it sent none. */
  function BookingAnswer(reply: Option<BookingReply>): (r: string)
    ensures reply.None? ==> r == FallbackMessage
    ensures reply.Some? && IsHttpError(reply.value.status) ==> r == FallbackMessage
    ensures reply.Some? && !IsHttpError(reply.value.status) && reply.value.body.None? ==> r == FallbackMessage
    ensures reply.Some? && !IsHttpError(reply.value.status) && reply.value.body.Some? ==>
      r == (if ConfirmationKey in reply.value.body.value then reply.value.body.value[ConfirmationKey]
            else DefaultConfirmation)
  {
    if reply.None? || IsHttpError(reply.value.status) || reply.value.body.None? then FallbackMessage
    else if ConfirmationKey in reply.value.body.value then reply.value.body.value[ConfirmationKey]
    else DefaultConfirmation
  }

  /** `send_appointment_to_n8n`: posts the payload once and never raises; the answer is
      decided by the reply alone. */
  function SendAppointment(profile: Profile, property: Record, start: DateTime, end: DateTime,
                           when: DateTime -> string, post: BookingPayload -> Option<BookingReply>): (r: string)
    ensures r == BookingAnswer(post(Payload(profile, property, start, end, when)))
  {
    var payload := Payload(profile, property, start, end, when);
    BookingAnswer(post(payload))
  }

  /** The answer is one of three kinds: the fallback, the default confirmation or a text the
      server sent; the fallback comes back for every failed exchange. */
  lemma BookingAnswerKinds(reply: Option<BookingReply>)
    ensures var r := BookingAnswer(reply);
      || r == FallbackMessage
      || r == DefaultConfirmation
      || (reply.Some? && reply.value.body.Some? && r in reply.value.body.value.Values)
    ensures (reply.None? || IsHttpError(reply.value.status) || reply.value.body.None?) ==>
      BookingAnswer(reply) == FallbackMessage
  {
  }

  // ---- fetch_busy_slots_from_n8n ----

  /** The JSON body posted to read the busy blocks of one day. */
  datatype BusyQuery = BusyQuery(mode: string, start: DateTime, end: DateTime)

  /** One field of a busy entry: the key is missing (`item["start"]` raises KeyError), its text
      is not an ISO timestamp (`fromisoformat` raises ValueError), or the instant it names. */
  datatype Stamp = Missing | Malformed | At(minutes: int)

  /** One entry of a calendar's "busy" list. */
  datatype BusyItem = BusyItem(start: Stamp, end: Stamp)

  /** One calendar of the reply; `busy` is `None` when the key is missing. */
  datatype Calendar = Calendar(busy: Option<seq<BusyItem>>)

  /** The decoded reply; `calendars` is `None` when the key is missing, and otherwise lists the
      calendars in the order of the reply's dictionary. */
  datatype BusyBody = BusyBody(calendars: Option<seq<(string, Calendar)>>)

  datatype BusyReply = BusyReply(status: int, body: Option<BusyBody>)

  /** The query for the day that starts at `start`. */
  function BusyRequest(start: DateTime): (q: BusyQuery)
    ensures q.mode == "get_busy_slots" && q.start == start
    ensures q.end.minutes - q.start.minutes == MinutesPerDay && q.end.aware == start.aware
  {
    BusyQuery("get_busy_slots", start, DateTime(start.minutes + MinutesPerDay, start.aware))
  }

  /** The error reading one field raises. */
  function StampError(key: string, s: Stamp): string
    requires !s.At?
  {
    if s.Missing? then "KeyError: '" + key + "'" else "ValueError: Invalid isoformat string"
  }

  /** The busy block of one entry; the start is read (and converted) before the end. */
  function ItemBusy(item: BusyItem): (r: Result<Busy>)
    ensures r.Success? <==> item.start.At? && item.end.At?
    ensures r.Success? ==> r.value == Busy(item.start.minutes, item.end.minutes)
    ensures item.start.Missing? ==> r == Failure("KeyError: 'start'")
    ensures item.start.At? && item.end.Missing? ==> r == Failure("KeyError: 'end'")
    ensures (item.start.Malformed? || (item.start.At? && item.end.Malformed?)) ==>
      r == Failure("ValueError: Invalid isoformat string")
  {
    if !item.start.At? then Failure(StampError("start", item.start))
    else if !item.end.At? then Failure(StampError("end", item.end))
    else Success(Busy(item.start.minutes, item.end.minutes))
  }

  /** The busy blocks of a list of entries, in order; the first bad entry raises. */
  function ItemsBusy(items: seq<BusyItem>): (r: Result<seq<Busy>>)
    ensures r.Success? ==> |r.value| == |items|
  {
    if items == [] then Success([])
    else
      match ItemsBusy(items[..|items| - 1])
      case Failure(e) => Failure(e)
      case Success(bs) =>
        match ItemBusy(items[|items| - 1])
        case Failure(e) => Failure(e)
        case Success(b) => Success(bs + [b])
  }

  /** The entries convert exactly when each one does on its own. */
  lemma {:induction false} ItemsBusySucceedsIff(items: seq<BusyItem>)
    ensures ItemsBusy(items).Success? <==> forall k :: 0 <= k < |items| ==> ItemBusy(items[k]).Success?
  {
    if items != [] {
      var init := items[..|items| - 1];
      ItemsBusySucceedsIff(init);
      assert forall k :: 0 <= k < |init| ==> init[k] == items[k];
    }
  }

  /** The entries a calendar contributes: none when it has no "busy" key. */
  function CalendarItems(c: Calendar): seq<BusyItem> {
    c.busy.GetOr([])
  }

  /** The busy blocks of a list of calendars: each calendar's blocks, one calendar after another. */
  function CalendarsBusy(cals: seq<(string, Calendar)>): (r: Result<seq<Busy>>)
    ensures r.Success? <==> forall k :: 0 <= k < |cals| ==> ItemsBusy(CalendarItems(cals[k].1)).Success?
  {
    if cals == [] then Success([])
    else
      assert forall k :: 0 <= k < |cals| - 1 ==> cals[..|cals| - 1][k] == cals[k];
      match CalendarsBusy(cals[..|cals| - 1])
      case Failure(e) => Failure(e)
      case Success(bs) =>
        match ItemsBusy(CalendarItems(cals[|cals| - 1].1))
        case Failure(e) => Failure(e)
        case Success(more) => Success(bs + more)
  }

  /** What the fetch returns for a reply: a failed request, an error status or an undecodable
      body raises (nothing is caught here); a body without "calendars" gives no blocks. */
  function BusyOf(reply: Option<BusyReply>): (r: Result<seq<Busy>>)
    ensures reply.None? || IsHttpError(reply.value.status) || reply.value.body.None? ==> r.Failure?
    ensures (reply.Some? && !IsHttpError(reply.value.status) && reply.value.body.Some?
             && reply.value.body.value.calendars.None?) ==> r == Success([])
  {
    if reply.None? then Failure("RequestException")
    else if IsHttpError(reply.value.status) then Failure("HTTPError")
    else if reply.value.body.None? then Failure("JSONDecodeError")
    else CalendarsBusy(reply.value.body.value.calendars.GetOr([]))
  }

  lemma {:induction false} ItemsBusyFailureSticks(items: seq<BusyItem>, j: nat)
    requires j <= |items|
    requires ItemsBusy(items[..j]).Failure?
    ensures ItemsBusy(items) == ItemsBusy(items[..j])
    decreases |items| - j
  {
    if j < |items| {
      assert items[..|items| - 1][..j] == items[..j];
      ItemsBusyFailureSticks(items[..|items| - 1], j);
    } else {
      assert items[..j] == items;
    }
  }

  lemma {:induction false} CalendarsBusyFailureSticks(cals: seq<(string, Calendar)>, i: nat)
    requires i <= |cals|
    requires CalendarsBusy(cals[..i]).Failure?
    ensures CalendarsBusy(cals) == CalendarsBusy(cals[..i])
    decreases |cals| - i
  {
    if i < |cals| {
      assert cals[..|cals| - 1][..i] == cals[..i];
      CalendarsBusyFailureSticks(cals[..|cals| - 1], i);
    } else {
      assert cals[..i] == cals;
    }
  }

  /** One more entry: the blocks so far and that entry's block, or that entry's error. */
  lemma ItemsBusyStep(items: seq<BusyItem>, j: nat)
    requires j < |items| && ItemsBusy(items[..j]).Success?
    ensures ItemBusy(items[j]).Failure? ==> ItemsBusy(items[..j + 1]) == Failure(ItemBusy(items[j]).error)
    ensures ItemBusy(items[j]).Success? ==>
      ItemsBusy(items[..j + 1]) == Success(ItemsBusy(items[..j]).value + [ItemBusy(items[j]).value])
  {
    assert items[..j + 1][..j] == items[..j];
    assert items[..j + 1][j] == items[j];
  }

  /** `fetch_busy_slots_from_n8n`: posts the one-day query, then walks every calendar and every
      entry of its "busy" list, appending one block per entry. */
  method FetchBusySlots(start: DateTime, post: BusyQuery -> Option<BusyReply>) returns (r: Result<seq<Busy>>)
    ensures r == BusyOf(post(BusyRequest(start)))
  {
    var reply := post(BusyRequest(start));
    if reply.None? {
      return Failure("RequestException");
    }
    if IsHttpError(reply.value.status) {
      return Failure("HTTPError");
    }
    if reply.value.body.None? {
      return Failure("JSONDecodeError");
    }
    var calendars := reply.value.body.value.calendars.GetOr([]);
    var busySlots: seq<Busy> := [];
    for i := 0 to |calendars|
      invariant CalendarsBusy(calendars[..i]) == Success(busySlots)
    {
      assert calendars[..i + 1][..i] == calendars[..i];
      var items := CalendarItems(calendars[i].1);
      ghost var before := busySlots;
      for j := 0 to |items|
        invariant ItemsBusy(items[..j]).Success?
        invariant busySlots == before + ItemsBusy(items[..j]).value
      {
        var block := ItemBusy(items[j]);
        ItemsBusyStep(items, j);
        if block.Failure? {
          ItemsBusyFailureSticks(items, j + 1);
          CalendarsBusyFailureSticks(calendars, i + 1);
          return Failure(block.error);
        }
        busySlots := busySlots + [block.value];
      }
      assert items[..|items|] == items;
    }
    assert calendars[..|calendars|] == calendars;
    return Success(busySlots);
  }

  // ---- properties of the fetch ----

  /** The blocks of two runs of calendars are the blocks of the first, then of the second. */
  lemma {:induction false} CalendarsBusyAppend(a: seq<(string, Calendar)>, b: seq<(string, Calendar)>)
    requires CalendarsBusy(a).Success? && CalendarsBusy(b).Success?
    ensures CalendarsBusy(a + b) == Success(CalendarsBusy(a).value + CalendarsBusy(b).value)
  {
    if b == [] {
      assert a + b == a;
      assert CalendarsBusy(a).value + [] == CalendarsBusy(a).value;
    } else {
      var b' := b[..|b| - 1];
      assert (a + b)[..|a + b| - 1] == a + b';
      assert (a + b)[|a + b| - 1] == b[|b| - 1];
      assert CalendarsBusy(b').Success?;
      CalendarsBusyAppend(a, b');
      var more := ItemsBusy(CalendarItems(b[|b| - 1].1));
      assert more.Success?;
      assert CalendarsBusy(b).value == CalendarsBusy(b').value + more.value;
      assert CalendarsBusy(a + b) == Success(CalendarsBusy(a + b').value + more.value);
      var x, y := CalendarsBusy(a).value, CalendarsBusy(b').value;
      assert (x + y) + more.value == x + (y + more.value);
    }
  }

  /** A calendar without a "busy" key contributes nothing. */
  lemma CalendarWithoutBusy(cals: seq<(string, Calendar)>, id: string)
    requires CalendarsBusy(cals).Success?
    ensures CalendarsBusy(cals + [(id, Calendar(None))]) == CalendarsBusy(cals)
  {
    var all := cals + [(id, Calendar(None))];
    assert all[..|all| - 1] == cals;
    assert CalendarItems(all[|all| - 1].1) == [];
    assert CalendarsBusy(cals).value + [] == CalendarsBusy(cals).value;
  }

  /** A single calendar gives its entries' blocks in order. */
  lemma {:induction false} ItemsBusyPointwise(items: seq<BusyItem>)
    requires ItemsBusy(items).Success?
    ensures forall k :: 0 <= k < |items| ==> ItemBusy(items[k]) == Success(ItemsBusy(items).value[k])
  {
    if items != [] {
      var init := items[..|items| - 1];
      assert ItemsBusy(init).Success?;
      ItemsBusyPointwise(init);
    }
  }
}
