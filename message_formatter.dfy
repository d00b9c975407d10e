/**
 * `MessageFormatter`: turns a message payload (a JSON value) into the text shown to the user
 * and the suggested actions offered with it. A table keyed by `agent_type` picks one of seven
 * fixed-layout renderers; any exception a renderer raises is caught and replaced by
 * `(str(message_data), DEFAULT_ACTIONS)`.
 */
module Formatting {
  import opened Json

  /** One entry of `DEFAULT_ACTIONS`: title and value are the same prompt. */
  function Suggestion(t: string): Json
  {
    JObject([("title", JString(t)), ("value", JString(t))])
  }

  /** `DEFAULT_ACTIONS`, the four travel prompts offered when a message brings none. */
  const DefaultActions: Json := JArray([
    Suggestion("What activities can I do in Singapore?"),
    Suggestion("Tell me more about Singapore's culture"),
    Suggestion("What's the best time to visit Singapore?"),
    Suggestion("Recommend some local food in Singapore")
  ])

  datatype Formatter =
    | Activities
    | DestinationInfo
    | FlightBooking
    | HotelBooking
    | CarRental
    | DefaultAgent
    | GroupChat

  /** The dispatch table built in `MessageFormatter.__init__`. */
  const Formatters: map<string, Formatter> := map[
    "activities_booking" := Activities,
    "destination_info" := DestinationInfo,
    "flight_booking" := FlightBooking,
    "hotel_booking" := HotelBooking,
    "car_rental" := CarRental,
    "default_agent" := DefaultAgent,
    "group_chat_manager" := GroupChat
  ]

  /** The table names seven renderers under seven keys: each renderer is reachable by exactly one key. */
  lemma FormatterTable()
    ensures |Formatters| == 7
    ensures forall f: Formatter :: f in Formatters.Values
  {
    assert Formatters.Keys == {"activities_booking", "destination_info", "flight_booking", "hotel_booking",
      "car_rental", "default_agent", "group_chat_manager"};
    forall f: Formatter
      ensures f in Formatters.Values
    {
      var k := match f
        case Activities => "activities_booking"
        case DestinationInfo => "destination_info"
        case FlightBooking => "flight_booking"
        case HotelBooking => "hotel_booking"
        case CarRental => "car_rental"
        case DefaultAgent => "default_agent"
        case GroupChat => "group_chat_manager";
      assert Formatters[k] == f;
    }
  }

  /**
   * `self.formatters.get(message_data.get('agent_type', 'default_agent'), self.format_default)`.
   * A dict or list as `agent_type` cannot be looked up in a dict and raises TypeError.
   */
  function SelectFormatter(fs: Fields): (r: Outcome<Formatter>)
    ensures r.Raised? <==> HasKey(fs, "agent_type") && !Hashable(Lookup(fs, "agent_type").value)
    ensures r.Ok? ==> r.value == (var v := GetOr(fs, "agent_type", JString("default_agent"));
      if v.JString? && v.s in Formatters then Formatters[v.s] else DefaultAgent)
  {
    var agentType := GetOr(fs, "agent_type", JString("default_agent"));
    if !Hashable(agentType) then Raised(TypeError)
    else if agentType.JString? && agentType.s in Formatters then Ok(Formatters[agentType.s])
    else Ok(DefaultAgent)
  }

  /** A message without `agent_type` is rendered by `format_default`. */
  lemma SelectWithoutAgentType(fs: Fields)
    requires !HasKey(fs, "agent_type")
    ensures SelectFormatter(fs) == Ok(DefaultAgent)
  {
  }

  /** A string `agent_type` selects its table entry, and `format_default` when it has none. */
  lemma SelectByAgentType(fs: Fields, name: string)
    requires Lookup(fs, "agent_type") == Some(JString(name))
    ensures SelectFormatter(fs) == Ok(if name in Formatters then Formatters[name] else DefaultAgent)
  {
  }

  /** A message naming a known `agent_type` is formatted by that type's formatter. */
  lemma Dispatch(fs: Fields, name: string, f: Formatter)
    requires Lookup(fs, "agent_type") == Some(JString(name))
    requires name in Formatters && Formatters[name] == f
    ensures FormattedText(JObject(fs)) == ApplyFormatter(f, fs)
  {
    SelectByAgentType(fs, name);
  }

  /**
   * `data.get('data', {})`, on which every renderer then calls `.get`: a missing `data` is an
   * empty dict, and a `data` that is not a dict raises AttributeError.
   */
  function DataOf(fs: Fields): (r: Outcome<Fields>)
    ensures !HasKey(fs, "data") ==> r == Ok([])
    ensures HasKey(fs, "data") && r.Ok? ==> Lookup(fs, "data") == Some(JObject(r.value))
    ensures r.Raised? <==> HasKey(fs, "data") && !Lookup(fs, "data").value.JObject?
  {
    match Lookup(fs, "data")
    case None => Ok([])
    case Some(JObject(d)) => Ok(d)
    case Some(_) => Raised(AttributeError)
  }

  /** `f"{d.get(k, '')}"`. */
  function Field(d: Fields, k: string): string
  {
    PyStr(GetOr(d, k, JString("")))
  }

  /**
   * `f"{v:.2f}"`: a number renders (the rendering is kept opaque) unless it is an integer
   * beyond float range, which raises OverflowError; a bool renders as the integer it is, a
   * string raises ValueError and any other value TypeError.
   */
  function FormatPrice(v: Json): (r: Outcome<string>)
    ensures r.Ok? <==> (v.JNumber? && v.fixed2.Some?) || v.JBool?
    ensures v.JNumber? && v.fixed2.Some? ==> r == Ok(v.fixed2.value)
    ensures v.JNumber? && v.fixed2.None? ==> r == Raised(OverflowError)
    ensures v.JString? ==> r == Raised(ValueError)
  {
    match v
    case JNumber(_, fixed2) => if fixed2.Some? then Ok(fixed2.value) else Raised(OverflowError)
    case JBool(b) => Ok(if b then "1.00" else "0.00")
    case JString(_) => Raised(ValueError)
    case _ => Raised(TypeError)
  }

  /** `booking.get('total_price', '')` formatted with `.2f`: a missing price raises ValueError. */
  function Price(b: Fields): (r: Outcome<string>)
    ensures !HasKey(b, "total_price") ==> r == Raised(ValueError)
  {
    FormatPrice(GetOr(b, "total_price", JString("")))
  }

  // ---------------------------------------------------------------------------------------
  // format_destination_info

  /** The eleven entries joined by `format_destination_info`; `similar` is the joined list. */
  function DestinationLines(info: Fields, similar: string): (r: seq<string>)
    ensures |r| == 11 && r[10] == similar
    ensures r[9] == "\U{2708}\U{FE0F} Similar Destinations:"
  {
    [
      "\U{1F30F} " + Field(info, "city") + ", " + Field(info, "country") + "\n",
      "\U{1F4DD} Description:",
      Field(info, "description") + "\n",
      "\U{23F0} Best Time to Visit:",
      Field(info, "best_time_to_visit") + "\n",
      "\U{1F321}\U{FE0F} Average Temperature:",
      Field(info, "average_temperature") + "\n",
      "\U{1F4B0} Currency: " + Field(info, "currency"),
      "\U{1F5E3}\U{FE0F} Language: " + Field(info, "language") + "\n",
      "\U{2708}\U{FE0F} Similar Destinations:",
      similar
    ]
  }

  /**
   * `format_destination_info`: the eleven entries joined by newlines. A missing
   * `similar_destinations` joins to the empty string; a `data` that is not a dict raises
   * AttributeError, and a list holding a non-string (or a scalar) makes the join raise TypeError.
   */
  function FormatDestinationInfo(fs: Fields): (r: Outcome<Json>)
    ensures DataOf(fs).Raised? ==> r == Raised(AttributeError)
    ensures r.Raised? ==> r.error in {AttributeError, TypeError}
    ensures DataOf(fs).Ok? && !HasKey(DataOf(fs).value, "similar_destinations") ==>
      r == Ok(JString(Join("\n", DestinationLines(DataOf(fs).value, ""))))
  {
    match DataOf(fs)
    case Raised(e) => Raised(e)
    case Ok(info) =>
      match JoinValue(", ", GetOr(info, "similar_destinations", JArray([])))
      case Raised(e) => Raised(e)
      case Ok(similar) => Ok(JString(Join("\n", DestinationLines(info, similar))))
  }

  // ---------------------------------------------------------------------------------------
  // The three booking renderers

  /** The ten entries of `format_flight_booking`, from the heading to the booking reference. */
  function FlightLines(b: Fields, price: string): (r: seq<string>)
    ensures |r| == 10 && r[8] == "Total Price: $" + price
    ensures r[0] == "\U{2708}\U{FE0F} Flight Booking Details"
    ensures r[1] == "From: " + Field(b, "departure_city") && r[2] == "To: " + Field(b, "destination_city")
    ensures r[9] == "Booking Reference: " + Field(b, "booking_reference")
  {
    [
      "\U{2708}\U{FE0F} Flight Booking Details",
      "From: " + Field(b, "departure_city"),
      "To: " + Field(b, "destination_city"),
      "Departure: " + Field(b, "departure_date"),
      "Return: " + Field(b, "return_date"),
      "Airline: " + Field(b, "airline"),
      "Flight: " + Field(b, "flight_number"),
      "Passengers: " + Field(b, "number_of_passengers"),
      "Total Price: $" + price,
      "Booking Reference: " + Field(b, "booking_reference")
    ]
  }

  /** The eight entries of `format_hotel_booking`. */
  function HotelLines(b: Fields, price: string): (r: seq<string>)
    ensures |r| == 8 && r[6] == "Total Price: $" + price
    ensures r[0] == "\U{1F3E8} Hotel Booking Details"
    ensures r[1] == "City: " + Field(b, "city") && r[2] == "Hotel: " + Field(b, "hotel_name")
    ensures r[7] == "Booking Reference: " + Field(b, "booking_reference")
  {
    [
      "\U{1F3E8} Hotel Booking Details",
      "City: " + Field(b, "city"),
      "Hotel: " + Field(b, "hotel_name"),
      "Check-in: " + Field(b, "check_in_date"),
      "Check-out: " + Field(b, "check_out_date"),
      "Room Type: " + Field(b, "room_type"),
      "Total Price: $" + price,
      "Booking Reference: " + Field(b, "booking_reference")
    ]
  }

  /** The eight entries of `format_car_rental`. */
  function CarLines(b: Fields, price: string): (r: seq<string>)
    ensures |r| == 8 && r[6] == "Total Price: $" + price
    ensures r[0] == "\U{1F697} Car Rental Details"
    ensures r[1] == "City: " + Field(b, "rental_city") && r[5] == "Rental Company: " + Field(b, "company")
    ensures r[7] == "Booking Reference: " + Field(b, "booking_reference")
  {
    [
      "\U{1F697} Car Rental Details",
      "City: " + Field(b, "rental_city"),
      "Pickup: " + Field(b, "rental_start_date"),
      "Return: " + Field(b, "rental_end_date"),
      "Vehicle Type: " + Field(b, "car_type"),
      "Rental Company: " + Field(b, "company"),
      "Total Price: $" + price,
      "Booking Reference: " + Field(b, "booking_reference")
    ]
  }

  /** The entries of one of the three booking layouts. */
  function BookingLines(f: Formatter, b: Fields, price: string): (r: seq<string>)
    requires f in {FlightBooking, HotelBooking, CarRental}
    ensures |r| == (if f == FlightBooking then 10 else 8)
    ensures r[|r| - 2] == "Total Price: $" + price
    ensures r[|r| - 1] == "Booking Reference: " + Field(b, "booking_reference")
  {
    match f
    case FlightBooking => FlightLines(b, price)
    case HotelBooking => HotelLines(b, price)
    case CarRental => CarLines(b, price)
  }

  /** The booking keys each layout shows, besides `total_price`. */
  function BookingKeys(f: Formatter): seq<string>
  {
    match f
    case FlightBooking => ["departure_city", "destination_city", "departure_date", "return_date", "airline",
      "flight_number", "number_of_passengers", "booking_reference"]
    case HotelBooking => ["city", "hotel_name", "check_in_date", "check_out_date", "room_type", "booking_reference"]
    case _ => ["rental_city", "rental_start_date", "rental_end_date", "car_type", "company", "booking_reference"]
  }

  /** Two bookings that agree on the keys `ks` render each of them alike. */
  predicate AgreeOn(ks: seq<string>, b1: Fields, b2: Fields)
  {
    forall k :: k in ks ==> Field(b1, k) == Field(b2, k)
  }

  /** A booking layout shows nothing but its own keys and the price: other keys are ignored. */
  lemma BookingShowsOnlyItsKeys(f: Formatter, b1: Fields, b2: Fields, price: string)
    requires f in {FlightBooking, HotelBooking, CarRental}
    requires forall k :: k in BookingKeys(f) ==> Field(b1, k) == Field(b2, k)
    ensures BookingLines(f, b1, price) == BookingLines(f, b2, price)
  {
    assert AgreeOn(BookingKeys(f), b1, b2);
    match f
    case FlightBooking => FlightShowsOnlyItsKeys(b1, b2, price);
    case HotelBooking => HotelShowsOnlyItsKeys(b1, b2, price);
    case CarRental => CarShowsOnlyItsKeys(b1, b2, price);
  }

  lemma FlightShowsOnlyItsKeys(b1: Fields, b2: Fields, price: string)
    requires AgreeOn(BookingKeys(FlightBooking), b1, b2)
    ensures FlightLines(b1, price) == FlightLines(b2, price)
  {
    var ks := BookingKeys(FlightBooking);
    assert ks[0] in ks && ks[1] in ks && ks[2] in ks && ks[3] in ks;
    assert ks[4] in ks && ks[5] in ks && ks[6] in ks && ks[7] in ks;
  }

  lemma HotelShowsOnlyItsKeys(b1: Fields, b2: Fields, price: string)
    requires AgreeOn(BookingKeys(HotelBooking), b1, b2)
    ensures HotelLines(b1, price) == HotelLines(b2, price)
  {
    var ks := BookingKeys(HotelBooking);
    assert ks[0] in ks && ks[1] in ks && ks[2] in ks && ks[3] in ks && ks[4] in ks && ks[5] in ks;
  }

  lemma CarShowsOnlyItsKeys(b1: Fields, b2: Fields, price: string)
    requires AgreeOn(BookingKeys(CarRental), b1, b2)
    ensures CarLines(b1, price) == CarLines(b2, price)
  {
    var ks := BookingKeys(CarRental);
    assert ks[0] in ks && ks[1] in ks && ks[2] in ks && ks[3] in ks && ks[4] in ks && ks[5] in ks;
  }

  /** `format_flight_booking`, `format_hotel_booking` and `format_car_rental`. */
  function FormatBooking(f: Formatter, fs: Fields): (r: Outcome<Json>)
    requires f in {FlightBooking, HotelBooking, CarRental}
    ensures r.Raised? <==> DataOf(fs).Raised? || Price(DataOf(fs).value).Raised?
    ensures r.Raised? ==> r.error in {AttributeError, ValueError, OverflowError, TypeError}
    ensures r.Ok? ==> r.value == JString(Join("\n", BookingLines(f, DataOf(fs).value, Price(DataOf(fs).value).value)))
  {
    match DataOf(fs)
    case Raised(e) => Raised(e)
    case Ok(b) =>
      match Price(b)
      case Raised(e) => Raised(e)
      case Ok(p) => Ok(JString(Join("\n", BookingLines(f, b, p))))
  }

  // ---------------------------------------------------------------------------------------
  // format_group_chat and format_default

  /** `format_group_chat`: `"<sender>: <content>"`; only a non-dict `data` makes it raise. */
  function FormatGroupChat(fs: Fields): (r: Outcome<Json>)
    ensures r.Raised? <==> DataOf(fs).Raised?
    ensures r.Raised? ==> r.error == AttributeError
  {
    match DataOf(fs)
    case Raised(e) => Raised(e)
    case Ok(chat) => Ok(JString(PyStr(GetOr(chat, "sender", JString("Unknown"))) + ": " + Field(chat, "content")))
  }

  /** `format_default`: the `message` value itself when present, else `str(data.get('data', ''))`. */
  function FormatDefault(fs: Fields): (r: Outcome<Json>)
    ensures r.Ok?
    ensures HasKey(fs, "message") ==> Some(r.value) == Lookup(fs, "message")
    ensures !HasKey(fs, "message") && !HasKey(fs, "data") ==> r.value == JString("")
  {
    if HasKey(fs, "message") then Ok(Lookup(fs, "message").value)
    else Ok(JString(PyStr(GetOr(fs, "data", JString("")))))
  }

  // ---------------------------------------------------------------------------------------
  // format_activities: the specification of the grouping

  /** `activity.get('activity_type', 'Other')`. */
  function TypeOf(a: Fields): Json
  {
    GetOr(a, "activity_type", JString("Other"))
  }

  /** A dict whose type can be a dict key: an activity the grouping loop accepts. */
  predicate Acceptable(item: Json)
  {
    item.JObject? && Hashable(TypeOf(item.fields))
  }

  /**
   * The grouping loop's checks on the iterated items: each must be a dict (`.get`, else
   * AttributeError) whose type is hashable (else TypeError); the first offender decides.
   */
  function Records(items: seq<Json>): (r: Outcome<seq<Fields>>)
    decreases |items|
    ensures r.Ok? <==> forall i :: 0 <= i < |items| ==> Acceptable(items[i])
    ensures r.Raised? ==> r.error in {AttributeError, TypeError}
    ensures r.Ok? ==> |r.value| == |items| && forall i :: 0 <= i < |items| ==> items[i] == JObject(r.value[i])
  {
    if items == [] then Ok([])
    else
      var a := items[|items| - 1];
      match Records(items[..|items| - 1])
      case Raised(e) => Raised(e)
      case Ok(rs) =>
        if !a.JObject? then Raised(AttributeError)
        else if !Hashable(TypeOf(a.fields)) then Raised(TypeError)
        else Ok(rs + [a.fields])
  }

  lemma {:induction false} RecordsRaisedPrefix(items: seq<Json>, k: nat)
    requires k <= |items| && Records(items[..k]).Raised?
    ensures Records(items) == Records(items[..k])
    decreases |items|
  {
    if k < |items| {
      var n := |items| - 1;
      assert items[..n][..k] == items[..k];
      RecordsRaisedPrefix(items[..n], k);
    } else {
      assert items[..k] == items;
    }
  }

  /** The activity types, one per activity, in input order. */
  function Types(acts: seq<Fields>): (ts: seq<Json>)
    ensures |ts| == |acts| && forall i :: 0 <= i < |acts| ==> ts[i] == TypeOf(acts[i])
  {
    seq(|acts|, i requires 0 <= i < |acts| => TypeOf(acts[i]))
  }

  /** The keys of `activity_types` once the loop is done: each type once, first-seen order. */
  function DistinctTypes(acts: seq<Fields>): seq<Json>
    decreases |acts|
  {
    if acts == [] then []
    else
      var d := DistinctTypes(acts[..|acts| - 1]);
      var t := TypeOf(acts[|acts| - 1]);
      if t in d then d else d + [t]
  }

  /** `activity_types[t]`: the activities of type `t`, in input order. */
  function Group(acts: seq<Fields>, t: Json): seq<Fields>
    decreases |acts|
  {
    if acts == [] then []
    else Group(acts[..|acts| - 1], t) + (if TypeOf(acts[|acts| - 1]) == t then [acts[|acts| - 1]] else [])
  }

  /** The groups of `ts` one after another. */
  function Grouped(ts: seq<Json>, acts: seq<Fields>): seq<Fields>
    decreases |ts|
  {
    if ts == [] then [] else Grouped(ts[..|ts| - 1], acts) + Group(acts, ts[|ts| - 1])
  }

  const Exploring: string := "\U{1F3AF} Exploring "
  const Bullet: string := "\U{2022} "

  /** The heading entry of one group. */
  function GroupHeading(t: Json): string
  {
    "\n\U{1F4CD} " + PyStr(t)
  }

  /** Two entries per activity: its name, then its indented description. */
  function ItemLines(g: seq<Fields>): seq<string>
    decreases |g|
  {
    if g == [] then []
    else
      var a := g[|g| - 1];
      ItemLines(g[..|g| - 1]) + [Bullet + Field(a, "activity_name"), "  " + Field(a, "activity_description") + "\n"]
  }

  /** A heading and the item entries for each type of `ts`, in order. */
  function GroupLines(ts: seq<Json>, acts: seq<Fields>): seq<string>
    decreases |ts|
  {
    if ts == [] then []
    else
      var t := ts[|ts| - 1];
      GroupLines(ts[..|ts| - 1], acts) + [GroupHeading(t)] + ItemLines(Group(acts, t))
  }

  /** The entries `format_activities` joins with newlines. */
  function ActivityLines(destination: string, acts: seq<Fields>): seq<string>
  {
    [Exploring + destination] + GroupLines(DistinctTypes(acts), acts)
  }

  /** What `format_activities` returns or raises. */
  function ActivitiesText(fs: Fields): (r: Outcome<Json>)
    ensures r.Raised? ==> r.error in {AttributeError, TypeError}
    ensures r.Ok? ==> r.value.JString?
  {
    match DataOf(fs)
    case Raised(e) => Raised(e)
    case Ok(d) =>
      match Iterate(GetOr(d, "activities", JArray([])))
      case Raised(e) => Raised(e)
      case Ok(items) =>
        match Records(items)
        case Raised(e) => Raised(e)
        case Ok(acts) => Ok(JString(Join("\n", ActivityLines(Field(d, "destination_city"), acts))))
  }

  // ---------------------------------------------------------------------------------------
  // format_activities: what the grouping guarantees

  predicate NoDuplicates(ts: seq<Json>)
  {
    forall i, j :: 0 <= i < j < |ts| ==> ts[i] != ts[j]
  }

  /** The index of the first occurrence of `x`. */
  function IndexOf(s: seq<Json>, x: Json): (k: nat)
    requires x in s
    ensures k < |s| && s[k] == x && x !in s[..k]
  {
    if s[0] == x then 0
    else
      assert x in s[1..];
      var k := IndexOf(s[1..], x);
      assert s[..k + 1] == [s[0]] + s[1..][..k];
      k + 1
  }

  lemma {:induction false} IndexOfAppend(s: seq<Json>, x: Json, y: Json)
    requires y in s
    ensures y in s + [x] && IndexOf(s + [x], y) == IndexOf(s, y)
  {
    if s[0] != y {
      assert (s + [x])[1..] == s[1..] + [x];
      IndexOfAppend(s[1..], x, y);
    }
  }

  lemma {:induction false} IndexOfLast(s: seq<Json>, x: Json)
    requires x !in s
    ensures IndexOf(s + [x], x) == |s|
  {
    if s != [] {
      assert (s + [x])[1..] == s[1..] + [x];
      IndexOfLast(s[1..], x);
    }
  }

  /** Each type occurs once among the groups, and a type has a group exactly when some activity has it. */
  lemma {:induction false} DistinctTypesMembers(acts: seq<Fields>)
    ensures NoDuplicates(DistinctTypes(acts))
    ensures forall t :: t in DistinctTypes(acts) <==> t in Types(acts)
    decreases |acts|
  {
    if acts != [] {
      var p := acts[..|acts| - 1];
      var t := TypeOf(acts[|acts| - 1]);
      var d := DistinctTypes(p);
      DistinctTypesMembers(p);
      assert Types(acts) == Types(p) + [t];
      if t !in d {
        assert DistinctTypes(acts) == d + [t];
        forall i, j | 0 <= i < j < |d + [t]|
          ensures (d + [t])[i] != (d + [t])[j]
        {
          if j == |d| {
            assert (d + [t])[i] == d[i];
          } else {
            assert (d + [t])[i] == d[i] && (d + [t])[j] == d[j];
          }
        }
      }
    }
  }

  /**
   * The groups appear in order of the first appearance of their type (and, by
   * `DistinctTypesMembers`, once each, one per type present).
   */
  lemma {:induction false} DistinctTypesInFirstSeenOrder(acts: seq<Fields>)
    ensures forall t :: t in DistinctTypes(acts) ==> t in Types(acts)
    ensures forall i, j :: 0 <= i < j < |DistinctTypes(acts)| ==>
      IndexOf(Types(acts), DistinctTypes(acts)[i]) < IndexOf(Types(acts), DistinctTypes(acts)[j])
    decreases |acts|
  {
    DistinctTypesMembers(acts);
    if acts != [] {
      var p := acts[..|acts| - 1];
      var t := TypeOf(acts[|acts| - 1]);
      var d := DistinctTypes(p);
      DistinctTypesInFirstSeenOrder(p);
      DistinctTypesMembers(p);
      assert Types(acts) == Types(p) + [t];
      forall y | y in Types(p)
        ensures IndexOf(Types(acts), y) == IndexOf(Types(p), y)
      {
        IndexOfAppend(Types(p), t, y);
      }
      if t !in d {
        assert t !in Types(p);
        IndexOfLast(Types(p), t);
        forall i | 0 <= i < |d|
          ensures IndexOf(Types(acts), d[i]) < |p|
        {
          assert d[i] in Types(p);
        }
      }
    }
  }

  lemma {:induction false} GroupHasItsType(acts: seq<Fields>, t: Json)
    ensures forall a :: a in Group(acts, t) ==> TypeOf(a) == t
    decreases |acts|
  {
    if acts != [] {
      GroupHasItsType(acts[..|acts| - 1], t);
    }
  }

  lemma {:induction false} GroupOfAbsentType(acts: seq<Fields>, t: Json)
    requires t !in Types(acts)
    ensures Group(acts, t) == []
    decreases |acts|
  {
    if acts != [] {
      var p := acts[..|acts| - 1];
      assert Types(p) == Types(acts)[..|p|];
      assert TypeOf(acts[|acts| - 1]) == Types(acts)[|p|];
      GroupOfAbsentType(p, t);
    }
  }

  /** Appending one activity extends only the group of its own type. */
  lemma GroupSnoc(acts: seq<Fields>, a: Fields, t: Json)
    ensures Group(acts + [a], t) == Group(acts, t) + (if TypeOf(a) == t then [a] else [])
  {
    assert (acts + [a])[..|acts|] == acts;
  }

  /** Appending one activity adds its type at the end when it is new. */
  lemma DistinctTypesSnoc(acts: seq<Fields>, a: Fields)
    ensures DistinctTypes(acts + [a]) ==
      if TypeOf(a) in DistinctTypes(acts) then DistinctTypes(acts) else DistinctTypes(acts) + [TypeOf(a)]
  {
    assert (acts + [a])[..|acts|] == acts;
  }

  /** Dropping the last type keeps the rest duplicate-free and leaves the last one out. */
  lemma NoDuplicatesInit(ts: seq<Json>)
    requires NoDuplicates(ts) && ts != []
    ensures NoDuplicates(ts[..|ts| - 1]) && ts[|ts| - 1] !in ts[..|ts| - 1]
  {
    var q := ts[..|ts| - 1];
    forall i, j | 0 <= i < j < |q|
      ensures q[i] != q[j]
    {
      assert q[i] == ts[i] && q[j] == ts[j];
    }
    forall i | 0 <= i < |q|
      ensures q[i] != ts[|ts| - 1]
    {
      assert q[i] == ts[i];
    }
  }

  lemma {:induction false} GroupedAppend(ts: seq<Json>, acts: seq<Fields>, a: Fields)
    requires NoDuplicates(ts)
    ensures multiset(Grouped(ts, acts + [a])) ==
      multiset(Grouped(ts, acts)) + (if TypeOf(a) in ts then multiset{a} else multiset{})
    decreases |ts|
  {
    if ts != [] {
      var q := ts[..|ts| - 1];
      var t := ts[|ts| - 1];
      NoDuplicatesInit(ts);
      GroupedAppend(q, acts, a);
      GroupSnoc(acts, a, t);
      InitMembership(ts, TypeOf(a));
      MultisetStep(Grouped(q, acts), Grouped(q, acts + [a]), Group(acts, t), Group(acts + [a], t), a,
        TypeOf(a) in q, TypeOf(a) == t);
    }
  }

  /** An element of a non-empty sequence is in its initial part or is its last element. */
  lemma InitMembership<T>(s: seq<T>, x: T)
    requires s != []
    ensures x in s <==> x in s[..|s| - 1] || x == s[|s| - 1]
  {
    assert s == s[..|s| - 1] + [s[|s| - 1]];
  }

  /** The bookkeeping of one induction step of `GroupedAppend`, on plain sequences. */
  lemma MultisetStep(x: seq<Fields>, x2: seq<Fields>, y: seq<Fields>, y2: seq<Fields>, a: Fields, inX: bool, inY: bool)
    requires multiset(x2) == multiset(x) + (if inX then multiset{a} else multiset{})
    requires y2 == y + (if inY then [a] else [])
    requires !(inX && inY)
    ensures multiset(x2 + y2) == multiset(x + y) + (if inX || inY then multiset{a} else multiset{})
  {
  }

  /**
   * Each activity appears exactly once across the groups: concatenated, the groups are a
   * permutation of the activities.
   */
  lemma {:induction false} GroupsPartitionActivities(acts: seq<Fields>)
    ensures multiset(Grouped(DistinctTypes(acts), acts)) == multiset(acts)
    decreases |acts|
  {
    if acts != [] {
      var p := acts[..|acts| - 1];
      var a := acts[|acts| - 1];
      var d := DistinctTypes(p);
      assert acts == p + [a];
      GroupsPartitionActivities(p);
      DistinctTypesMembers(p);
      GroupedAppend(d, p, a);
      if TypeOf(a) !in d {
        var t := TypeOf(a);
        GroupOfAbsentType(p, t);
        assert Group(acts, t) == [a];
        assert (d + [t])[..|d|] == d;
      }
    }
  }

  lemma {:induction false} ItemLinesLength(g: seq<Fields>)
    ensures |ItemLines(g)| == 2 * |g|
    decreases |g|
  {
    if g != [] {
      ItemLinesLength(g[..|g| - 1]);
    }
  }

  lemma {:induction false} GroupLinesLength(ts: seq<Json>, acts: seq<Fields>)
    ensures |GroupLines(ts, acts)| == |ts| + 2 * |Grouped(ts, acts)|
    decreases |ts|
  {
    if ts != [] {
      GroupLinesLength(ts[..|ts| - 1], acts);
      ItemLinesLength(Group(acts, ts[|ts| - 1]));
    }
  }

  /** One destination entry, one heading per group and two entries per activity. */
  lemma ActivityLinesCount(destination: string, acts: seq<Fields>)
    ensures |ActivityLines(destination, acts)| == 1 + |DistinctTypes(acts)| + 2 * |acts|
  {
    GroupLinesLength(DistinctTypes(acts), acts);
    GroupsPartitionActivities(acts);
    assert |multiset(Grouped(DistinctTypes(acts), acts))| == |Grouped(DistinctTypes(acts), acts)|;
  }

  /** One step of the grouping loop keeps `typeOrder` and `activity_types` equal to their specification. */
  lemma GroupingStep(seen: seq<Fields>, order: seq<Json>, buckets: map<Json, seq<Fields>>, a: Fields)
    requires order == DistinctTypes(seen)
    requires forall t :: t in buckets <==> t in order
    requires forall t :: t in buckets ==> buckets[t] == Group(seen, t)
    ensures var t := TypeOf(a);
      var order' := if t in buckets then order else order + [t];
      var started := if t in buckets then buckets else buckets[t := []];
      var buckets' := started[t := started[t] + [a]];
      && order' == DistinctTypes(seen + [a])
      && (forall u :: u in buckets' <==> u in order')
      && (forall u :: u in buckets' ==> buckets'[u] == Group(seen + [a], u))
  {
    var t := TypeOf(a);
    DistinctTypesSnoc(seen, a);
    forall u ensures Group(seen + [a], u) == Group(seen, u) + (if t == u then [a] else []) {
      GroupSnoc(seen, a, u);
    }
    if t !in buckets {
      DistinctTypesMembers(seen);
      GroupOfAbsentType(seen, t);
    }
  }

  // ---------------------------------------------------------------------------------------
  // format_activities: the loops

  /**
   * `format_activities`, as written: one loop fills the `activity_types` dict (its insertion
   * order kept in `typeOrder`), nested loops then emit a heading per type and two entries per
   * activity.
   */
  method FormatActivities(fs: Fields) returns (r: Outcome<Json>)
    ensures r == ActivitiesText(fs)
  {
    var data := DataOf(fs);
    if data.Raised? {
      return Raised(data.error);
    }
    var iter := Iterate(GetOr(data.value, "activities", JArray([])));
    if iter.Raised? {
      return Raised(iter.error);
    }
    var destination := Field(data.value, "destination_city");
    var err, typeOrder, activityTypes := GroupByType(iter.value);
    if err.Some? {
      return Raised(err.value);
    }
    assert forall i :: 0 <= i < |typeOrder| ==> typeOrder[i] in typeOrder;
    var formattedText := RenderGroups(destination, typeOrder, activityTypes);
    BucketLinesAreGroupLines(typeOrder, activityTypes, Records(iter.value).value);
    r := Ok(JString(Join("\n", formattedText)));
  }

  /**
   * The first loop of `format_activities`: the `activity_types` dict, filled type by type
   * (`typeOrder` is its key order), or the exception an activity raises.
   */
  method GroupByType(activities: seq<Json>) returns (err: Option<PyError>, typeOrder: seq<Json>, activityTypes: map<Json, seq<Fields>>)
    ensures err.Some? <==> Records(activities).Raised?
    ensures err.Some? ==> Records(activities) == Raised(err.value)
    ensures err.None? ==> typeOrder == DistinctTypes(Records(activities).value)
    ensures err.None? ==> forall t :: t in activityTypes <==> t in typeOrder
    ensures err.None? ==> forall t :: t in activityTypes ==> activityTypes[t] == Group(Records(activities).value, t)
  {
    typeOrder := [];
    activityTypes := map[];
    ghost var seen: seq<Fields> := [];
    var i := 0;
    while i < |activities|
      invariant 0 <= i <= |activities|
      invariant Records(activities[..i]) == Ok(seen)
      invariant typeOrder == DistinctTypes(seen)
      invariant forall t :: t in activityTypes <==> t in typeOrder
      invariant forall t :: t in activityTypes ==> activityTypes[t] == Group(seen, t)
    {
      var activity := activities[i];
      assert activities[..i + 1][..i] == activities[..i];
      if !activity.JObject? {
        RecordsRaisedPrefix(activities, i + 1);
        return Some(AttributeError), typeOrder, activityTypes;
      }
      var activityType := TypeOf(activity.fields);
      if !Hashable(activityType) {
        RecordsRaisedPrefix(activities, i + 1);
        return Some(TypeError), typeOrder, activityTypes;
      }
      GroupingStep(seen, typeOrder, activityTypes, activity.fields);
      if activityType !in activityTypes {
        typeOrder := typeOrder + [activityType];
        activityTypes := activityTypes[activityType := []];
      }
      activityTypes := activityTypes[activityType := activityTypes[activityType] + [activity.fields]];
      seen := seen + [activity.fields];
      i := i + 1;
    }
    assert activities[..i] == activities;
    err := None;
  }

  /**
   * The rendering loops' view of `GroupLines`: each type's activities read from the dict
   * (a type the dict lacks renders no activities; that case does not arise).
   */
  function BucketLines(ts: seq<Json>, buckets: map<Json, seq<Fields>>): seq<string>
    decreases |ts|
  {
    if ts == [] then []
    else
      var t := ts[|ts| - 1];
      BucketLines(ts[..|ts| - 1], buckets) + [GroupHeading(t)] + ItemLines(if t in buckets then buckets[t] else [])
  }

  /** Once the dict holds every type's group, reading it renders the groups. */
  lemma {:induction false} BucketLinesAreGroupLines(ts: seq<Json>, buckets: map<Json, seq<Fields>>, acts: seq<Fields>)
    requires forall t :: t in ts ==> t in buckets && buckets[t] == Group(acts, t)
    ensures BucketLines(ts, buckets) == GroupLines(ts, acts)
    decreases |ts|
  {
    if ts != [] {
      assert forall t :: t in ts[..|ts| - 1] ==> t in ts;
      BucketLinesAreGroupLines(ts[..|ts| - 1], buckets, acts);
      assert ts[|ts| - 1] in ts;
    }
  }

  /** One pass of the outer rendering loop extends the rendered prefix by one group. */
  lemma BucketLinesStep(head: seq<string>, ts: seq<Json>, j: nat, buckets: map<Json, seq<Fields>>, items: seq<string>)
    requires j < |ts| && ts[j] in buckets && items == ItemLines(buckets[ts[j]])
    ensures head + BucketLines(ts[..j], buckets) + ([GroupHeading(ts[j])] + items) == head + BucketLines(ts[..j + 1], buckets)
  {
    assert ts[..j + 1][..j] == ts[..j];
    AppendAssoc(head, BucketLines(ts[..j], buckets), [GroupHeading(ts[j])] + items);
    AppendAssoc(BucketLines(ts[..j], buckets), [GroupHeading(ts[j])], items);
  }

  lemma AppendAssoc(a: seq<string>, b: seq<string>, c: seq<string>)
    ensures (a + b) + c == a + (b + c)
  {
  }

  lemma ItemLinesSnoc(g: seq<Fields>, a: Fields)
    ensures ItemLines(g + [a]) == ItemLines(g) + [Bullet + Field(a, "activity_name"), "  " + Field(a, "activity_description") + "\n"]
  {
    assert (g + [a])[..|g|] == g;
  }

  /** The outer loop of `format_activities`' rendering: a heading per type, then its activities. */
  method RenderGroups(destination: string, typeOrder: seq<Json>, activityTypes: map<Json, seq<Fields>>)
    returns (formattedText: seq<string>)
    requires forall i :: 0 <= i < |typeOrder| ==> typeOrder[i] in activityTypes
    ensures formattedText == [Exploring + destination] + BucketLines(typeOrder, activityTypes)
  {
    formattedText := [Exploring + destination];
    var j := 0;
    while j < |typeOrder|
      invariant 0 <= j <= |typeOrder|
      invariant formattedText == [Exploring + destination] + BucketLines(typeOrder[..j], activityTypes)
    {
      var typeName := typeOrder[j];
      var items := RenderItems(activityTypes[typeName]);
      BucketLinesStep([Exploring + destination], typeOrder, j, activityTypes, items);
      formattedText := formattedText + ([GroupHeading(typeName)] + items);
      j := j + 1;
    }
    assert typeOrder[..j] == typeOrder;
  }

  /** The inner loop: a bullet line and an indented description line per activity of one type. */
  method RenderItems(typeActivities: seq<Fields>) returns (lines: seq<string>)
    ensures lines == ItemLines(typeActivities)
  {
    lines := [];
    var k := 0;
    while k < |typeActivities|
      invariant 0 <= k <= |typeActivities|
      invariant lines == ItemLines(typeActivities[..k])
    {
      var activity := typeActivities[k];
      assert typeActivities[..k + 1] == typeActivities[..k] + [activity];
      ItemLinesSnoc(typeActivities[..k], activity);
      lines := lines + [Bullet + Field(activity, "activity_name"), "  " + Field(activity, "activity_description") + "\n"];
      k := k + 1;
    }
    assert typeActivities[..k] == typeActivities;
  }

  // ---------------------------------------------------------------------------------------
  // format_message

  /**
   * Runs the renderer the table picked. Only `format_default` can raise nothing at all and
   * return something other than a string (the `message` value as it is).
   */
  function ApplyFormatter(f: Formatter, fs: Fields): (r: Outcome<Json>)
    ensures f == DefaultAgent ==> r.Ok?
    ensures r.Ok? && f != DefaultAgent ==> r.value.JString?
    ensures r.Raised? ==> r.error in {AttributeError, TypeError, ValueError, OverflowError}
  {
    match f
    case Activities => ActivitiesText(fs)
    case DestinationInfo => FormatDestinationInfo(fs)
    case FlightBooking => FormatBooking(f, fs)
    case HotelBooking => FormatBooking(f, fs)
    case CarRental => FormatBooking(f, fs)
    case DefaultAgent => FormatDefault(fs)
    case GroupChat => FormatGroupChat(fs)
  }

  /**
   * The text computed inside `format_message`'s try block, or the exception raised there;
   * a payload that is not a dict has no `.get` and raises AttributeError.
   */
  function FormattedText(data: Json): (r: Outcome<Json>)
    ensures !data.JObject? ==> r == Raised(AttributeError)
    ensures r.Raised? ==> r.error in {AttributeError, TypeError, ValueError, OverflowError}
    ensures r.Ok? ==> data.JObject? && (r.value.JString? || SelectFormatter(data.fields) == Ok(DefaultAgent))
  {
    if !data.JObject? then Raised(AttributeError)
    else
      match SelectFormatter(data.fields)
      case Raised(e) => Raised(e)
      case Ok(f) => ApplyFormatter(f, data.fields)
  }

  /**
   * `format_message`: the formatted text and the suggested actions. It never raises: on any
   * exception it returns `str(message_data)` with the default actions; otherwise the payload's
   * own `suggested_actions` is passed through unchanged, and the defaults stand in when it has none.
   */
  function FormatMessage(data: Json): (r: (Json, Json))
    ensures FormattedText(data).Raised? ==> r == (JString(PyStr(data)), DefaultActions)
    ensures FormattedText(data).Ok? ==> r.0 == FormattedText(data).value
    ensures FormattedText(data).Ok? && !HasKey(data.fields, "suggested_actions") ==> r.1 == DefaultActions
    ensures FormattedText(data).Ok? && HasKey(data.fields, "suggested_actions") ==>
      Some(r.1) == Lookup(data.fields, "suggested_actions")
  {
    match FormattedText(data)
    case Raised(_) => (JString(PyStr(data)), DefaultActions)
    case Ok(text) => (text, GetOr(data.fields, "suggested_actions", DefaultActions))
  }

  /**
   * A flight, hotel or car message whose booking data has no `total_price` makes the `.2f`
   * format raise, so `format_message` falls back.
   */
  lemma BookingWithoutPriceFallsBack(fs: Fields, kind: string)
    requires kind in {"flight_booking", "hotel_booking", "car_rental"}
    requires Lookup(fs, "agent_type") == Some(JString(kind))
    requires DataOf(fs).Ok? ==> !HasKey(DataOf(fs).value, "total_price")
    ensures FormatMessage(JObject(fs)) == (JString(PyStr(JObject(fs))), DefaultActions)
  {
    Dispatch(fs, kind, Formatters[kind]);
    assert FormattedText(JObject(fs)).Raised?;
  }

  /** A priced booking renders its layout, the price entry holding the `.2f` rendering. */
  lemma BookingWithPrice(fs: Fields, kind: string, b: Fields, price: Json)
    requires kind in {"flight_booking", "hotel_booking", "car_rental"}
    requires Lookup(fs, "agent_type") == Some(JString(kind))
    requires DataOf(fs) == Ok(b) && Lookup(b, "total_price") == Some(price)
    requires price.JNumber?
    ensures price.fixed2.Some? && kind == "flight_booking" ==>
      FormatMessage(JObject(fs)).0 == JString(Join("\n", FlightLines(b, price.fixed2.value)))
    ensures price.fixed2.Some? && kind == "hotel_booking" ==>
      FormatMessage(JObject(fs)).0 == JString(Join("\n", HotelLines(b, price.fixed2.value)))
    ensures price.fixed2.Some? && kind == "car_rental" ==>
      FormatMessage(JObject(fs)).0 == JString(Join("\n", CarLines(b, price.fixed2.value)))
    ensures price.fixed2.None? ==> FormatMessage(JObject(fs)) == (JString(PyStr(JObject(fs))), DefaultActions)
  {
    var f := Formatters[kind];
    Dispatch(fs, kind, f);
    PricedBookingText(fs, f, b, price);
    if price.fixed2.Some? {
      var t := JString(Join("\n", BookingLines(f, b, price.fixed2.value)));
      assert FormatMessage(JObject(fs)).0 == t;
      BookingLayoutOfKind(kind, b, price.fixed2.value);
    }
  }

  /** The layout the table picks for each booking key. */
  lemma BookingLayoutOfKind(kind: string, b: Fields, price: string)
    requires kind in {"flight_booking", "hotel_booking", "car_rental"}
    ensures Formatters[kind] in {FlightBooking, HotelBooking, CarRental}
    ensures kind == "flight_booking" ==> BookingLines(Formatters[kind], b, price) == FlightLines(b, price)
    ensures kind == "hotel_booking" ==> BookingLines(Formatters[kind], b, price) == HotelLines(b, price)
    ensures kind == "car_rental" ==> BookingLines(Formatters[kind], b, price) == CarLines(b, price)
  {
    if kind == "flight_booking" {
      assert Formatters[kind] == FlightBooking;
    } else if kind == "hotel_booking" {
      assert Formatters[kind] == HotelBooking;
    } else {
      assert Formatters[kind] == CarRental;
    }
  }

  /** One step of `BookingWithPrice`: the booking renderer's own outcome. */
  lemma PricedBookingText(fs: Fields, f: Formatter, b: Fields, price: Json)
    requires f in {FlightBooking, HotelBooking, CarRental}
    requires DataOf(fs) == Ok(b) && Lookup(b, "total_price") == Some(price)
    requires price.JNumber?
    ensures price.fixed2.Some? ==> ApplyFormatter(f, fs) == Ok(JString(Join("\n", BookingLines(f, b, price.fixed2.value))))
    ensures price.fixed2.None? ==> ApplyFormatter(f, fs) == Raised(OverflowError)
  {
    assert Price(b) == FormatPrice(price);
  }

  /** With `format_default`, the text is the `message` value when present, else `str(data)`. */
  lemma DefaultAgentText(fs: Fields)
    requires SelectFormatter(fs) == Ok(DefaultAgent)
    ensures HasKey(fs, "message") ==> Some(FormatMessage(JObject(fs)).0) == Lookup(fs, "message")
    ensures !HasKey(fs, "message") && !HasKey(fs, "data") ==> FormatMessage(JObject(fs)).0 == JString("")
    ensures !HasKey(fs, "message") && HasKey(fs, "data") ==>
      FormatMessage(JObject(fs)).0 == JString(PyStr(Lookup(fs, "data").value))
    ensures FormatMessage(JObject(fs)).1 == GetOr(fs, "suggested_actions", DefaultActions)
  {
  }

  /** `"<sender>: <content>"`, with `Unknown` for a missing sender and nothing for missing content. */
  lemma GroupChatText(fs: Fields, chat: Fields)
    requires Lookup(fs, "agent_type") == Some(JString("group_chat_manager"))
    requires DataOf(fs) == Ok(chat)
    ensures FormatMessage(JObject(fs)).0 == JString(
      (if HasKey(chat, "sender") then PyStr(Lookup(chat, "sender").value) else "Unknown")
      + ": " + (if HasKey(chat, "content") then PyStr(Lookup(chat, "content").value) else ""))
  {
    Dispatch(fs, "group_chat_manager", GroupChat);
  }

  /**
   * A destination message with a list of strings as `similar_destinations` renders the fixed
   * labelled entries, then those strings joined with ", " as the last entry; a non-string in
   * the list makes the join raise and `format_message` falls back.
   */
  lemma DestinationSimilarLast(fs: Fields, info: Fields, similar: seq<Json>)
    requires Lookup(fs, "agent_type") == Some(JString("destination_info"))
    requires DataOf(fs) == Ok(info) && Lookup(info, "similar_destinations") == Some(JArray(similar))
    ensures (forall i :: 0 <= i < |similar| ==> similar[i].JString?) ==>
      FormatMessage(JObject(fs)).0 == JString(Join("\n", DestinationLines(info, Join(", ", Strings(similar).value))))
    ensures (exists i :: 0 <= i < |similar| && !similar[i].JString?) ==>
      FormatMessage(JObject(fs)) == (JString(PyStr(JObject(fs))), DefaultActions)
  {
    Dispatch(fs, "destination_info", DestinationInfo);
  }

  /** An activities message renders the grouped entries of `ActivityLines`. */
  lemma ActivitiesMessage(fs: Fields, d: Fields, items: seq<Json>)
    requires Lookup(fs, "agent_type") == Some(JString("activities_booking"))
    requires DataOf(fs) == Ok(d) && Lookup(d, "activities") == Some(JArray(items))
    ensures (forall i :: 0 <= i < |items| ==> Acceptable(items[i])) ==>
      FormatMessage(JObject(fs)).0 == JString(Join("\n", ActivityLines(Field(d, "destination_city"), Records(items).value)))
    ensures (exists i :: 0 <= i < |items| && !Acceptable(items[i])) ==>
      FormatMessage(JObject(fs)) == (JString(PyStr(JObject(fs))), DefaultActions)
  {
    Dispatch(fs, "activities_booking", Activities);
  }

  /** A payload that is not a dict falls back. */
  lemma NonObjectFallsBack(data: Json)
    requires !data.JObject?
    ensures FormatMessage(data) == (JString(PyStr(data)), DefaultActions)
  {
  }
}
