/**
 * GTFS-Flex service areas as the map shows them (src/flex/types.ts): the
 * feature properties, and the classifications read from them — area type
 * from the pickup / drop-off flags, advance notice from the GTFS-Flex
 * `booking_type` of `booking_rules.txt`, agency names, and booking days.
 */
module FlexTypes {
  import opened Wrappers

  datatype FlexAgency = FlexAgency(
    agencyId: string, agencyName: string, agencyTimezone: Option<string>, agencyUrl: Option<string>)

  datatype FlexRoute = FlexRoute(
    routeId: string, routeShortName: Option<string>, routeLongName: Option<string>,
    routeType: int, routeUrl: Option<string>)

  datatype BookingDays = BookingDays(
    monday: bool, tuesday: bool, wednesday: bool, thursday: bool, friday: bool, saturday: bool, sunday: bool)

  datatype FlexBookingRule = FlexBookingRule(
    bookingRuleId: string, bookingType: int, message: Option<string>, phoneNumber: Option<string>,
    infoUrl: Option<string>, priorNoticeLastDay: Option<int>, priorNoticeLastTime: Option<int>,
    priorNoticeLastTimeFormatted: Option<string>, bookingDays: Option<BookingDays>)

  datatype FlexAreaProperties = FlexAreaProperties(
    locationId: string, locationName: Option<string>,
    agencies: seq<FlexAgency>, agencyIds: seq<string>,
    routes: seq<FlexRoute>, routeIds: seq<string>, routeTypes: seq<int>,
    pickupAvailable: bool, pickupTypes: seq<int>,
    pickupBookingRuleIds: seq<string>, pickupBookingRules: seq<FlexBookingRule>,
    dropOffAvailable: bool, dropOffTypes: seq<int>,
    dropOffBookingRuleIds: seq<string>, dropOffBookingRules: seq<FlexBookingRule>,
    timeWindowStart: Option<int>, timeWindowStartFormatted: Option<string>,
    timeWindowEnd: Option<int>, timeWindowEndFormatted: Option<string>,
    tripIds: seq<string>, tripCount: nat, stopTimeCount: nat,
    bookingDays: Option<BookingDays>)

  /** A flex area feature; its polygon geometry is not part of this model. */
  datatype FlexAreaFeature = FlexAreaFeature(id: string, properties: FlexAreaProperties)

  /** `getFlexAreaType`: pickup only, drop-off only, or both (also when neither flag is set). */
  function GetFlexAreaType(feature: FlexAreaFeature): (r: string)
    ensures r == "PU only" <==> feature.properties.pickupAvailable && !feature.properties.dropOffAvailable
    ensures r == "DO only" <==> !feature.properties.pickupAvailable && feature.properties.dropOffAvailable
    ensures r == "PU and DO" <==> feature.properties.pickupAvailable == feature.properties.dropOffAvailable
  {
    var hasPickup := feature.properties.pickupAvailable;
    var hasDropoff := feature.properties.dropOffAvailable;
    if hasPickup && hasDropoff then "PU and DO"
    else if hasPickup then "PU only"
    else if hasDropoff then "DO only"
    else "PU and DO"
  }

  /** `bookingTypeToAdvanceNotice`: 0 real-time, 2 prior day(s), anything else same day. */
  function BookingTypeToAdvanceNotice(bookingType: int): (r: string)
    ensures r == "On-demand" <==> bookingType == 0
    ensures r == "More than 24 hours" <==> bookingType == 2
    ensures r == "Same day" <==> bookingType != 0 && bookingType != 2
  {
    match bookingType
    case 0 => "On-demand"
    case 1 => "Same day"
    case 2 => "More than 24 hours"
    case _ => "Same day"
  }

  /** `getFlexAdvanceNotice`: the first pickup rule decides, else the first drop-off rule, else same day. */
  function GetFlexAdvanceNotice(feature: FlexAreaFeature): (r: string)
    ensures r in {"On-demand", "Same day", "More than 24 hours"}
    ensures r == "On-demand" <==>
      (if |feature.properties.pickupBookingRules| > 0 then feature.properties.pickupBookingRules[0].bookingType == 0
       else |feature.properties.dropOffBookingRules| > 0 && feature.properties.dropOffBookingRules[0].bookingType == 0)
    ensures r == "More than 24 hours" <==>
      (if |feature.properties.pickupBookingRules| > 0 then feature.properties.pickupBookingRules[0].bookingType == 2
       else |feature.properties.dropOffBookingRules| > 0 && feature.properties.dropOffBookingRules[0].bookingType == 2)
  {
    var pickupRules := feature.properties.pickupBookingRules;
    var dropoffRules := feature.properties.dropOffBookingRules;
    if |pickupRules| > 0 then BookingTypeToAdvanceNotice(pickupRules[0].bookingType)
    else if |dropoffRules| > 0 then BookingTypeToAdvanceNotice(dropoffRules[0].bookingType)
    else "Same day"
  }

  /** `getFlexAgencyName`: the first agency's name, or 'Unknown Agency' when there is none or it is empty. */
  function GetFlexAgencyName(feature: FlexAreaFeature): (r: string)
    ensures r != ""
    ensures |feature.properties.agencies| > 0 && feature.properties.agencies[0].agencyName != "" ==>
      r == feature.properties.agencies[0].agencyName
    ensures |feature.properties.agencies| == 0 || feature.properties.agencies[0].agencyName == "" ==>
      r == "Unknown Agency"
  {
    var agencies := feature.properties.agencies;
    if |agencies| > 0 && agencies[0].agencyName != "" then agencies[0].agencyName else "Unknown Agency"
  }

  /** `getFlexAgencyNames`: every agency's name, in order. */
  function GetFlexAgencyNames(feature: FlexAreaFeature): (r: seq<string>)
    ensures |r| == |feature.properties.agencies|
    ensures forall i :: 0 <= i < |r| ==> r[i] == feature.properties.agencies[i].agencyName
  {
    var agencies := feature.properties.agencies;
    seq(|agencies|, i requires 0 <= i < |agencies| => agencies[i].agencyName)
  }

  /** The primary agency name is the first of the agency names whenever that name is non-empty. */
  lemma AgencyNameIsFirstName(feature: FlexAreaFeature)
    ensures var names := GetFlexAgencyNames(feature);
      GetFlexAgencyName(feature) == if |names| > 0 && names[0] != "" then names[0] else "Unknown Agency"
  {
  }

  /** The flag of a weekday numbered as `getDay()` numbers it (0 = Sunday). */
  function DayFlag(days: BookingDays, dayOfWeek: int): bool
    requires 0 <= dayOfWeek <= 6
  {
    match dayOfWeek
    case 0 => days.sunday
    case 1 => days.monday
    case 2 => days.tuesday
    case 3 => days.wednesday
    case 4 => days.thursday
    case 5 => days.friday
    case _ => days.saturday
  }

  /**
   * `isBookingAvailableOnDay`: without booking days, and for a day number
   * outside 0..6, booking counts as available; otherwise the day's flag.
   */
  function IsBookingAvailableOnDay(feature: FlexAreaFeature, dayOfWeek: int): (r: bool)
    ensures feature.properties.bookingDays.None? ==> r
    ensures dayOfWeek < 0 || dayOfWeek > 6 ==> r
    ensures feature.properties.bookingDays.Some? && 0 <= dayOfWeek <= 6 ==>
      (r <==> DayFlag(feature.properties.bookingDays.value, dayOfWeek))
  {
    var bookingDays := feature.properties.bookingDays;
    if bookingDays.None? then true
    else if dayOfWeek < 0 || dayOfWeek > 6 then true
    else DayFlag(bookingDays.value, dayOfWeek)
  }

  /** Booking is unavailable only on an in-range day whose flag is off. */
  lemma BookingUnavailableOnlyOnUnflaggedDay(feature: FlexAreaFeature, dayOfWeek: int)
    ensures !IsBookingAvailableOnDay(feature, dayOfWeek) <==>
      feature.properties.bookingDays.Some? && 0 <= dayOfWeek <= 6
      && !DayFlag(feature.properties.bookingDays.value, dayOfWeek)
  {
  }

  /** The short day names and their flags, Monday first. */
  const ShortDayNames: seq<string> := ["Mon", "Tue", "Wed", "Thu", "Fri", "Sat", "Sun"]

  function Available(d: BookingDays): (a: seq<bool>)
    ensures |a| == 7
  {
    [d.monday, d.tuesday, d.wednesday, d.thursday, d.friday, d.saturday, d.sunday]
  }

  /** `days.filter((_, i) => available[i])`. */
  function ActiveDays(names: seq<string>, available: seq<bool>): (r: seq<string>)
    requires |names| == |available|
    ensures |r| <= |names|
    ensures forall k :: 0 <= k < |r| ==> r[k] in names
    ensures r == [] <==> forall i :: 0 <= i < |available| ==> !available[i]
  {
    if names == [] then []
    else (if available[0] then [names[0]] else []) + ActiveDays(names[1..], available[1..])
  }

  /** `parts.join(', ')`. */
  function JoinComma(parts: seq<string>): string
  {
    if parts == [] then ""
    else if |parts| == 1 then parts[0]
    else parts[0] + ", " + JoinComma(parts[1..])
  }

  /**
   * `formatBookingDays`: 'Any day' for no information or every day,
   * 'Mon-Fri' and 'Sat-Sun' for exactly those days, 'No days' for none,
   * otherwise the available days from Monday to Sunday separated by ', '.
   */
  function FormatBookingDays(bookingDays: Option<BookingDays>): (r: string)
    ensures bookingDays.None? ==> r == "Any day"
    ensures bookingDays.Some? && r != "Any day" && r != "Mon-Fri" && r != "Sat-Sun" && r != "No days" ==>
      r == JoinComma(ActiveDays(ShortDayNames, Available(bookingDays.value)))
  {
    if bookingDays.None? then "Any day"
    else
      var available := Available(bookingDays.value);
      var weekdays := (forall i :: 0 <= i < 5 ==> available[i]) && !available[5] && !available[6];
      var everyday := forall i :: 0 <= i < 7 ==> available[i];
      var weekend := !(exists i :: 0 <= i < 5 && available[i]) && available[5] && available[6];
      if everyday then "Any day"
      else if weekdays then "Mon-Fri"
      else if weekend then "Sat-Sun"
      else
        var activeDays := ActiveDays(ShortDayNames, available);
        if |activeDays| == 0 then "No days"
        else JoinComma(activeDays)
  }

  predicate EveryDay(d: BookingDays)
  {
    d.monday && d.tuesday && d.wednesday && d.thursday && d.friday && d.saturday && d.sunday
  }

  predicate NoDay(d: BookingDays)
  {
    !d.monday && !d.tuesday && !d.wednesday && !d.thursday && !d.friday && !d.saturday && !d.sunday
  }

  predicate MondayToFriday(d: BookingDays)
  {
    d.monday && d.tuesday && d.wednesday && d.thursday && d.friday && !d.saturday && !d.sunday
  }

  predicate SaturdayAndSunday(d: BookingDays)
  {
    !d.monday && !d.tuesday && !d.wednesday && !d.thursday && !d.friday && d.saturday && d.sunday
  }

  lemma AvailablePatterns(d: BookingDays)
    ensures var a := Available(d);
      && ((forall i :: 0 <= i < 7 ==> a[i]) <==> EveryDay(d))
      && ((forall i :: 0 <= i < 7 ==> !a[i]) <==> NoDay(d))
      && (((forall i :: 0 <= i < 5 ==> a[i]) && !a[5] && !a[6]) <==> MondayToFriday(d))
      && ((!(exists i :: 0 <= i < 5 && a[i]) && a[5] && a[6]) <==> SaturdayAndSunday(d))
  {
    var a := Available(d);
    assert a[0] == d.monday && a[1] == d.tuesday && a[2] == d.wednesday && a[3] == d.thursday;
    assert a[4] == d.friday && a[5] == d.saturday && a[6] == d.sunday;
  }

  /**
   * Each label of `formatBookingDays` stands for exactly its pattern of
   * days; any other set of days is listed by name.
   */
  lemma FormatBookingDaysLabels(d: BookingDays)
    ensures var r := FormatBookingDays(Some(d));
      && (r == "Any day" <==> EveryDay(d))
      && (r == "No days" <==> NoDay(d))
      && (r == "Mon-Fri" <==> MondayToFriday(d))
      && (r == "Sat-Sun" <==> SaturdayAndSunday(d))
  {
    AvailablePatterns(d);
    var a := Available(d);
    var activeDays := ActiveDays(ShortDayNames, a);
    if |activeDays| > 0 {
      ShortNamesNotSpecial(activeDays);
    }
  }

  /** A three-letter day name starts with one of the letters M, T, W, F, S. */
  predicate ShortName(n: string)
  {
    |n| == 3 && (n[0] == 'M' || n[0] == 'T' || n[0] == 'W' || n[0] == 'F' || n[0] == 'S')
  }

  /** A comma-joined list of three-letter names is one name, or a name followed by a comma. */
  lemma {:induction false} JoinShape(parts: seq<string>)
    requires |parts| > 0
    requires forall i :: 0 <= i < |parts| ==> ShortName(parts[i])
    ensures var j := JoinComma(parts);
      |j| >= 4 ==> j[3] == ','
    ensures var j := JoinComma(parts);
      |j| >= 3 && (j[0] == 'M' || j[0] == 'T' || j[0] == 'W' || j[0] == 'F' || j[0] == 'S')
  {
    var j := JoinComma(parts);
    if |parts| > 1 {
      assert j == parts[0] + (", " + JoinComma(parts[1..]));
      assert j[0] == parts[0][0] && j[3] == ',';
    } else {
      assert j == parts[0];
    }
  }

  lemma ShortDayNamesShort(n: string)
    requires n in ShortDayNames
    ensures ShortName(n)
  {
  }

  lemma ShortNamesNotSpecial(activeDays: seq<string>)
    requires |activeDays| > 0
    requires forall i :: 0 <= i < |activeDays| ==> activeDays[i] in ShortDayNames
    ensures var j := JoinComma(activeDays);
      j != "Any day" && j != "No days" && j != "Mon-Fri" && j != "Sat-Sun"
  {
    forall i | 0 <= i < |activeDays|
      ensures ShortName(activeDays[i])
    {
      ShortDayNamesShort(activeDays[i]);
    }
    JoinShape(activeDays);
    ListedDaysNotALabel(JoinComma(activeDays));
  }

  lemma ListedDaysNotALabel(j: string)
    requires |j| >= 3 && (j[0] == 'M' || j[0] == 'T' || j[0] == 'W' || j[0] == 'F' || j[0] == 'S')
    requires |j| >= 4 ==> j[3] == ','
    ensures j != "Any day" && j != "No days" && j != "Mon-Fri" && j != "Sat-Sun"
  {
    assert "Any day"[0] == 'A' && "No days"[0] == 'N';
    assert "Mon-Fri"[3] == '-' && "Sat-Sun"[3] == '-';
  }
}
