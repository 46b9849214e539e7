/**
 * Scheduling rules of the appointment manager (src/app/appointments/page.tsx):
 * reading a FHIR bundle, extracting participant ids from references, the
 * provider double-booking check, the duration and form validators, the
 * FHIR date-time normaliser and the list filter.
 *
 * Timestamps are integer milliseconds.  `new Date(s).getTime()` is the
 * parameter `parse` (`None` stands for `NaN`, which makes every comparison
 * false); the two locale renderings of a date are parameters too.
 */
module Appointments {
  import opened Wrappers
  import opened Text
  import Seqs

  /** A participant: `p.actor?.reference`. */
  datatype Participant = Participant(reference: Option<string>)

  /**
   * An appointment resource, with the fields the rules read.  A missing
   * `participant` array behaves exactly like an empty one in every rule,
   * so it is the empty sequence here.
   */
  datatype Appointment = Appointment(
    id: Option<string>,
    status: Option<string>,
    typeText: Option<string>,
    start: Option<string>,
    end: Option<string>,
    participants: seq<Participant>)

  datatype Entry = Entry(resource: Option<Appointment>)

  datatype Bundle = Bundle(entry: Option<seq<Entry>>)

  /**
   * The date library: `new Date(s).getTime()` (`None` for `NaN`),
   * `toLocaleDateString("en-CA")` and `toLocaleDateString()`.
   */
  datatype Calendar = Calendar(
    parse: string -> Option<int>,
    isoDay: string -> string,
    localDay: string -> string)

  /** A string field is set and non-empty (JavaScript truthiness). */
  predicate Present(s: Option<string>) {
    s.Some? && s.value != ""
  }

  // ---------------------------------------------------------------------
  // parseBundleToAppointments
  // ---------------------------------------------------------------------

  /** An entry survives the filter: its resource and the resource's id are defined. */
  predicate Kept(e: Entry) {
    e.resource.Some? && e.resource.value.id.Some?
  }

  /** `entry.map(e => e.resource).filter(r => r !== undefined && r.id !== undefined)`. */
  function Resources(entries: seq<Entry>): (r: seq<Appointment>)
    ensures |r| <= |entries|
    ensures forall j :: 0 <= j < |r| ==> r[j].id.Some?
    ensures forall j :: 0 <= j < |r| ==> exists i :: 0 <= i < |entries| && entries[i].resource == Some(r[j])
    ensures forall i :: 0 <= i < |entries| && Kept(entries[i]) ==> entries[i].resource.value in r
  {
    if entries == [] then []
    else
      var rest := Resources(entries[1..]);
      assert forall j :: 0 <= j < |rest| ==> exists i :: 0 <= i < |entries| && entries[i].resource == Some(rest[j]) by {
        forall j | 0 <= j < |rest|
          ensures exists i :: 0 <= i < |entries| && entries[i].resource == Some(rest[j])
        {
          var i :| 0 <= i < |entries[1..]| && entries[1..][i].resource == Some(rest[j]);
          assert entries[i + 1].resource == Some(rest[j]);
        }
      }
      assert forall i :: 1 <= i < |entries| ==> entries[i] == entries[1..][i - 1];
      if Kept(entries[0]) then [entries[0].resource.value] + rest else rest
  }

  /** The filter keeps order: the resources of a concatenation are the concatenated resources. */
  lemma {:induction false} ResourcesAppend(a: seq<Entry>, b: seq<Entry>)
    ensures Resources(a + b) == Resources(a) + Resources(b)
  {
    if a == [] {
      assert a + b == b;
    } else {
      var ab := a + b;
      assert ab[0] == a[0] && ab[1..] == a[1..] + b;
      ResourcesAppend(a[1..], b);
    }
  }

  /** `parseBundleToAppointments`: no bundle or no `entry` gives `[]`. */
  function ParseBundle(bundle: Option<Bundle>): (r: seq<Appointment>)
    ensures bundle.None? || bundle.value.entry.None? ==> r == []
    ensures bundle.Some? && bundle.value.entry.Some? ==> r == Resources(bundle.value.entry.value)
  {
    if bundle.None? || bundle.value.entry.None? then [] else Resources(bundle.value.entry.value)
  }

  // ---------------------------------------------------------------------
  // extractIds
  // ---------------------------------------------------------------------

  datatype Kind = PatientKind | PractitionerKind | LocationKind

  /** `p.actor?.reference ?? ""`. */
  function RefOf(p: Participant): string {
    p.reference.GetOr("")
  }

  /** Which local a reference is written to; the tests run in this order. */
  function Classify(reference: string): Option<Kind> {
    if Contains(reference, "/Patient/") then Some(PatientKind)
    else if Contains(reference, "/Practitioner/") then Some(PractitionerKind)
    else if Contains(reference, "/Location/") then Some(LocationKind)
    else None
  }

  /** The participant is of kind `k` (its reference is classified as `k`). */
  predicate IsOfKind(p: Participant, k: Kind) {
    Classify(RefOf(p)) == Some(k)
  }

  /** The id a participant's reference carries: `reference.split("/").pop()`. */
  function IdOf(p: Participant): string {
    LastSegment(RefOf(p))
  }

  /** The id of kind `k`, as `extractIds` leaves it: the one the last participant of that kind wrote. */
  function LastOfKind(ps: seq<Participant>, k: Kind): Option<string> {
    Seqs.LastWhere(ps, p => IsOfKind(p, k), IdOf)
  }

  /**
   * The id of kind `k` exists iff some participant is of kind `k`, and it is
   * the last path segment of the reference of the last such participant.
   */
  lemma LastOfKindIsLast(ps: seq<Participant>, k: Kind)
    ensures LastOfKind(ps, k).Some? <==> exists i :: 0 <= i < |ps| && IsOfKind(ps[i], k)
    ensures LastOfKind(ps, k).Some? ==>
              exists i :: && 0 <= i < |ps| && IsOfKind(ps[i], k)
                          && LastOfKind(ps, k).value == LastSegment(RefOf(ps[i]))
                          && forall j :: i < j < |ps| ==> !IsOfKind(ps[j], k)
  {
    Seqs.LastWhereIsLast(ps, p => IsOfKind(p, k), IdOf);
  }

  /** Seeing one more participant: it overrides the id of its own kind and leaves the others. */
  lemma LastOfKindSnoc(ps: seq<Participant>, p: Participant, k: Kind)
    ensures LastOfKind(ps + [p], k) == if IsOfKind(p, k) then Some(IdOf(p)) else LastOfKind(ps, k)
  {
    Seqs.LastWhereSnoc(ps, p, q => IsOfKind(q, k), IdOf);
  }

  datatype Ids = Ids(patientId: Option<string>, providerId: Option<string>, locationId: Option<string>)

  /** The ids `extractIds` returns, as a value. */
  function IdsOf(ps: seq<Participant>): Ids {
    Ids(LastOfKind(ps, PatientKind), LastOfKind(ps, PractitionerKind), LastOfKind(ps, LocationKind))
  }

  /** `extractIds`: one pass over the participants, each overwriting the local of its kind. */
  method ExtractIds(participants: seq<Participant>) returns (ids: Ids)
    ensures ids == IdsOf(participants)
  {
    var patientId: Option<string> := None;
    var providerId: Option<string> := None;
    var locationId: Option<string> := None;
    for i := 0 to |participants|
      invariant patientId == LastOfKind(participants[..i], PatientKind)
      invariant providerId == LastOfKind(participants[..i], PractitionerKind)
      invariant locationId == LastOfKind(participants[..i], LocationKind)
    {
      LastOfKindSnoc(participants[..i], participants[i], PatientKind);
      LastOfKindSnoc(participants[..i], participants[i], PractitionerKind);
      LastOfKindSnoc(participants[..i], participants[i], LocationKind);
      assert participants[..i + 1] == participants[..i] + [participants[i]];
      var ref := RefOf(participants[i]);
      match Classify(ref) {
        case Some(PatientKind) => patientId := Some(LastSegment(ref));
        case Some(PractitionerKind) => providerId := Some(LastSegment(ref));
        case Some(LocationKind) => locationId := Some(LastSegment(ref));
        case None =>
      }
    }
    assert participants[..|participants|] == participants;
    ids := Ids(patientId, providerId, locationId);
  }

  // ---------------------------------------------------------------------
  // hasConflict
  // ---------------------------------------------------------------------

  /** `x < y` on two parsed times; `NaN` on either side makes it false. */
  predicate Before(x: Option<int>, y: Option<int>) {
    x.Some? && y.Some? && x.value < y.value
  }

  /** `ignoreId && a.id === ignoreId`. */
  predicate IsIgnored(a: Appointment, ignoreId: Option<string>) {
    Present(ignoreId) && a.id == ignoreId
  }

  /** Some participant reference contains `"/Practitioner/" + providerId`. */
  predicate HasProvider(a: Appointment, providerId: string) {
    exists i :: 0 <= i < |a.participants| &&
      a.participants[i].reference.Some? &&
      Contains(a.participants[i].reference.value, "/Practitioner/" + providerId)
  }

  /** The body of the `.some` callback for one booked appointment. */
  predicate Clashes(a: Appointment, providerId: string, s: Option<int>, e: Option<int>, ignoreId: Option<string>, parse: string -> Option<int>) {
    && !IsIgnored(a, ignoreId)
    && HasProvider(a, providerId)
    && Before(s, parse(a.end.GetOr("")))
    && Before(parse(a.start.GetOr("")), e)
  }

  /** `appointments.some(...)` with `s`, `e` the parsed proposed start and end. */
  function AnyClash(appts: seq<Appointment>, providerId: string, s: Option<int>, e: Option<int>, ignoreId: Option<string>, parse: string -> Option<int>): (r: bool)
    ensures r <==> exists i :: 0 <= i < |appts| && Clashes(appts[i], providerId, s, e, ignoreId, parse)
  {
    if appts == [] then false
    else
      var rest := AnyClash(appts[1..], providerId, s, e, ignoreId, parse);
      assert forall i :: 1 <= i < |appts| ==> appts[i] == appts[1..][i - 1];
      Clashes(appts[0], providerId, s, e, ignoreId, parse) || rest
  }

  /** `hasConflict(providerId, start, end, ignoreId)` over the loaded appointments. */
  function HasConflict(appts: seq<Appointment>, providerId: string, start: string, end: string, ignoreId: Option<string>, parse: string -> Option<int>): (r: bool)
    ensures r <==> exists i :: 0 <= i < |appts| && Clashes(appts[i], providerId, parse(start), parse(end), ignoreId, parse)
  {
    AnyClash(appts, providerId, parse(start), parse(end), ignoreId, parse)
  }

  /** An empty list never conflicts. */
  lemma NoAppointmentsNoConflict(providerId: string, start: string, end: string, ignoreId: Option<string>, parse: string -> Option<int>)
    ensures !HasConflict([], providerId, start, end, ignoreId, parse)
  {
  }

  /** Appointments of other providers never conflict. */
  lemma OtherProvidersNeverConflict(appts: seq<Appointment>, providerId: string, start: string, end: string, ignoreId: Option<string>, parse: string -> Option<int>)
    requires forall i :: 0 <= i < |appts| ==> !HasProvider(appts[i], providerId)
    ensures !HasConflict(appts, providerId, start, end, ignoreId, parse)
  {
  }

  /** The appointment being rescheduled (a non-empty `ignoreId`) is never counted. */
  lemma IgnoredNeverConflicts(appts: seq<Appointment>, providerId: string, start: string, end: string, ignoreId: Option<string>, parse: string -> Option<int>)
    requires Present(ignoreId)
    requires forall i :: 0 <= i < |appts| ==> appts[i].id == ignoreId
    ensures !HasConflict(appts, providerId, start, end, ignoreId, parse)
  {
  }

  /**
   * Intervals that do not overlap, including those that only touch
   * (`end == start'` or `start == end'`), do not conflict.
   */
  lemma DisjointNeverConflicts(appts: seq<Appointment>, providerId: string, start: string, end: string, ignoreId: Option<string>, parse: string -> Option<int>)
    requires parse(start).Some? && parse(end).Some?
    requires forall i :: 0 <= i < |appts| ==>
               var aS := parse(appts[i].start.GetOr(""));
               var aE := parse(appts[i].end.GetOr(""));
               (aE.Some? ==> aE.value <= parse(start).value) || (aS.Some? ==> parse(end).value <= aS.value)
    ensures !HasConflict(appts, providerId, start, end, ignoreId, parse)
  {
  }

  /** An appointment with no start or no end (parsed as `NaN`) never conflicts. */
  lemma MissingTimesNeverConflict(a: Appointment, providerId: string, start: string, end: string, ignoreId: Option<string>, parse: string -> Option<int>)
    requires parse("") == None
    requires a.start.None? || a.end.None?
    ensures !HasConflict([a], providerId, start, end, ignoreId, parse)
  {
  }

  /** A partial overlap with an appointment of the same provider is a conflict. */
  lemma OverlapConflicts(a: Appointment, providerId: string, start: string, end: string, ignoreId: Option<string>, parse: string -> Option<int>)
    requires !IsIgnored(a, ignoreId) && HasProvider(a, providerId)
    requires Before(parse(start), parse(a.end.GetOr(""))) && Before(parse(a.start.GetOr("")), parse(end))
    ensures HasConflict([a], providerId, start, end, ignoreId, parse)
  {
    assert Clashes([a][0], providerId, parse(start), parse(end), ignoreId, parse);
  }

  /**
   * The provider test is a substring test: provider "1" also matches an
   * appointment of provider "12".
   */
  lemma ProviderMatchIsBySubstring()
    ensures HasProvider(Appointment(None, None, None, None, None, [Participant(Some("/Practitioner/12"))]), "1")
  {
    var a := Appointment(None, None, None, None, None, [Participant(Some("/Practitioner/12"))]);
    var ref := "/Practitioner/12";
    assert ref[0..0 + |"/Practitioner/" + "1"|] == "/Practitioner/" + "1";
    assert OccursAt(ref, "/Practitioner/" + "1", 0);
    assert a.participants[0].reference == Some(ref);
  }

  // ---------------------------------------------------------------------
  // Validation
  // ---------------------------------------------------------------------

  /** `Math.round(ms / 60000)`: JavaScript rounds halves up, so this is `floor((ms + 30000) / 60000)`. */
  function RoundedMinutes(ms: int): (m: int)
    ensures 60000 * m - 30000 <= ms < 60000 * m + 30000
  {
    (ms + 30000) / 60000
  }

  datatype DurationError = BothRequired | EndNotAfterStart | NotFiveMinuteStep | BelowMinimum | AboveMaximum

  function DurationMessage(e: DurationError): string {
    match e
    case BothRequired => "Both start and end times are required"
    case EndNotAfterStart => "End time must be after start time"
    case NotFiveMinuteStep => "Appointment duration must be in 5-minute increments"
    case BelowMinimum => "Minimum appointment duration is 15 minutes"
    case AboveMaximum => "Maximum appointment duration is 8 hours"
  }

  const MinimumMinutes := 15
  const MaximumMinutes := 480

  /**
   * `validateDuration`; `None` is the `null` of an accepted duration.  An
   * unparseable date makes the minutes `NaN`, which fails the
   * 5-minute-increment test (`NaN % 5 !== 0`) after passing `<= 0`.
   */
  function ValidateDuration(start: string, end: string, parse: string -> Option<int>): (r: Option<DurationError>)
    ensures start == "" || end == "" ==> r == Some(BothRequired)
  {
    if start == "" || end == "" then Some(BothRequired)
    else if parse(start).None? || parse(end).None? then Some(NotFiveMinuteStep)
    else
      var minutes := RoundedMinutes(parse(end).value - parse(start).value);
      if minutes <= 0 then Some(EndNotAfterStart)
      else if minutes % 5 != 0 then Some(NotFiveMinuteStep)
      else if minutes < MinimumMinutes then Some(BelowMinimum)
      else if minutes > MaximumMinutes then Some(AboveMaximum)
      else None
  }

  /** The accepted durations are exactly the multiples of 5 minutes from 15 to 480, rounded to the minute. */
  lemma AcceptedDurations(start: string, end: string, parse: string -> Option<int>)
    ensures ValidateDuration(start, end, parse).None? <==>
              && start != "" && end != ""
              && parse(start).Some? && parse(end).Some?
              && var m := RoundedMinutes(parse(end).value - parse(start).value);
                 m % 5 == 0 && MinimumMinutes <= m <= MaximumMinutes
  {
  }

  /**
   * Which error a duration gets, in the order the checks are made: both
   * times are required; an unparseable time is refused for the 5-minute
   * step; then a non-positive rounded duration, a positive one off the
   * 5-minute step, 5 or 10 minutes, and a step above 8 hours each get their
   * own error.
   */
  lemma DurationErrorOrder(start: string, end: string, parse: string -> Option<int>)
    ensures ValidateDuration(start, end, parse) == Some(BothRequired) <==> start == "" || end == ""
    ensures start != "" && end != "" && (parse(start).None? || parse(end).None?) ==>
              ValidateDuration(start, end, parse) == Some(NotFiveMinuteStep)
    ensures start != "" && end != "" && parse(start).Some? && parse(end).Some? ==>
              var m := RoundedMinutes(parse(end).value - parse(start).value);
              && (ValidateDuration(start, end, parse) == Some(EndNotAfterStart) <==> m <= 0)
              && (ValidateDuration(start, end, parse) == Some(NotFiveMinuteStep) <==> m > 0 && m % 5 != 0)
              && (ValidateDuration(start, end, parse) == Some(BelowMinimum) <==> m == 5 || m == 10)
              && (ValidateDuration(start, end, parse) == Some(AboveMaximum) <==> m > MaximumMinutes && m % 5 == 0)
  {
  }

  /** An end that is not later than the start is reported as such, never as a step or bound error. */
  lemma EndNotLaterIsRefused(start: string, end: string, parse: string -> Option<int>)
    requires start != "" && end != "" && parse(start).Some? && parse(end).Some?
    requires parse(end).value <= parse(start).value
    ensures ValidateDuration(start, end, parse) == Some(EndNotAfterStart)
  {
    var m := RoundedMinutes(parse(end).value - parse(start).value);
    assert 60000 * m - 30000 <= parse(end).value - parse(start).value;
  }

  /** A duration of exactly `k` minutes rounds to `k`. */
  lemma WholeMinutes(k: int)
    ensures RoundedMinutes(k * 60000) == k
  {
    var m := RoundedMinutes(k * 60000);
    assert 60000 * m - 30000 <= k * 60000 < 60000 * m + 30000;
    assert m - 1 < k < m + 1;
  }

  /** Seven minutes are refused for not being a multiple of five; fifteen are accepted. */
  lemma SevenRefusedFifteenAccepted(start: string, end: string, parse: string -> Option<int>)
    requires start != "" && end != "" && parse(start).Some? && parse(end).Some?
    ensures parse(end).value - parse(start).value == 7 * 60000 ==> ValidateDuration(start, end, parse) == Some(NotFiveMinuteStep)
    ensures parse(end).value - parse(start).value == 15 * 60000 ==> ValidateDuration(start, end, parse) == None
  {
    WholeMinutes(7);
    WholeMinutes(15);
  }

  /** `validateRequired`: `null` unless the value is blank. */
  function ValidateRequired(value: string, fieldName: string): (r: Option<string>)
    ensures r.None? <==> !IsBlank(value)
    ensures r.Some? ==> r.value == fieldName + " is required"
  {
    if IsBlank(value) then Some(fieldName + " is required") else None
  }

  /** `validateDateTime` with the wall clock as the parameter `now`. */
  function ValidateDateTime(dateTime: string, parse: string -> Option<int>, now: int): (r: Option<string>)
    ensures r.None? <==> dateTime != "" && parse(dateTime).Some? && parse(dateTime).value >= now
  {
    if dateTime == "" then Some("Date and time is required")
    else if parse(dateTime).None? then Some("Invalid date format")
    else if parse(dateTime).value < now then Some("Cannot schedule appointments in the past")
    else None
  }

  datatype CreateForm = CreateForm(provider: string, patient: string, location: string, appointmentType: string, start: string, end: string)

  datatype FormField = ProviderField | PatientField | LocationField | TypeField | StartField | EndField

  /**
   * The error `validateCreateForm` reports on the start field: the
   * date-time error of the start, else -- only when the end date-time passed
   * too -- the duration error.
   */
  function StartError(form: CreateForm, parse: string -> Option<int>, now: int): (r: Option<string>)
    ensures ValidateDateTime(form.start, parse, now).Some? ==> r == ValidateDateTime(form.start, parse, now)
    ensures ValidateDateTime(form.start, parse, now).None? && ValidateDateTime(form.end, parse, now).Some? ==> r.None?
    ensures ValidateDateTime(form.start, parse, now).None? && ValidateDateTime(form.end, parse, now).None? ==>
              r == if ValidateDuration(form.start, form.end, parse).Some?
                   then Some(DurationMessage(ValidateDuration(form.start, form.end, parse).value)) else None
  {
    var startError := ValidateDateTime(form.start, parse, now);
    if startError.Some? then startError
    else if ValidateDateTime(form.end, parse, now).Some? then None
    else
      var durationError := ValidateDuration(form.start, form.end, parse);
      if durationError.Some? then Some(DurationMessage(durationError.value)) else None
  }

  /** The first part of `validateCreateForm`: an error for each blank required field. */
  method RequiredFieldErrors(form: CreateForm) returns (errors: map<FormField, string>)
    ensures errors.Keys <= {ProviderField, PatientField, LocationField, TypeField}
    ensures ProviderField in errors <==> IsBlank(form.provider)
    ensures PatientField in errors <==> IsBlank(form.patient)
    ensures LocationField in errors <==> IsBlank(form.location)
    ensures TypeField in errors <==> IsBlank(form.appointmentType)
    ensures ProviderField in errors ==> errors[ProviderField] == "Provider ID is required"
    ensures PatientField in errors ==> errors[PatientField] == "Patient ID is required"
    ensures LocationField in errors ==> errors[LocationField] == "Location ID is required"
    ensures TypeField in errors ==> errors[TypeField] == "Appointment type is required"
  {
    errors := map[];
    if IsBlank(form.provider) { errors := errors[ProviderField := "Provider ID is required"]; }
    if IsBlank(form.patient) { errors := errors[PatientField := "Patient ID is required"]; }
    if IsBlank(form.location) { errors := errors[LocationField := "Location ID is required"]; }
    if IsBlank(form.appointmentType) { errors := errors[TypeField := "Appointment type is required"]; }
  }

  /**
   * `validateCreateForm`: the four required fields, the two date-times, and
   * the duration only when both date-times passed; a duration error is
   * reported on the start field.  The form is valid iff no error was set.
   */
  method ValidateCreateForm(form: CreateForm, parse: string -> Option<int>, now: int)
    returns (valid: bool, errors: map<FormField, string>)
    ensures valid <==> errors == map[]
    ensures ProviderField in errors <==> IsBlank(form.provider)
    ensures PatientField in errors <==> IsBlank(form.patient)
    ensures LocationField in errors <==> IsBlank(form.location)
    ensures TypeField in errors <==> IsBlank(form.appointmentType)
    ensures ProviderField in errors ==> errors[ProviderField] == "Provider ID is required"
    ensures PatientField in errors ==> errors[PatientField] == "Patient ID is required"
    ensures LocationField in errors ==> errors[LocationField] == "Location ID is required"
    ensures TypeField in errors ==> errors[TypeField] == "Appointment type is required"
    ensures EndField in errors <==> ValidateDateTime(form.end, parse, now).Some?
    ensures EndField in errors ==> errors[EndField] == ValidateDateTime(form.end, parse, now).value
    ensures StartField in errors <==> StartError(form, parse, now).Some?
    ensures StartField in errors ==> errors[StartField] == StartError(form, parse, now).value
  {
    var required := RequiredFieldErrors(form);
    errors := required;

    var startError := ValidateDateTime(form.start, parse, now);
    if startError.Some? { errors := errors[StartField := startError.value]; }
    var endError := ValidateDateTime(form.end, parse, now);
    if endError.Some? { errors := errors[EndField := endError.value]; }

    if startError.None? && endError.None? {
      var durationError := ValidateDuration(form.start, form.end, parse);
      if durationError.Some? {
        errors := errors[StartField := DurationMessage(durationError.value)];
      }
    }
    assert forall f :: f in required ==> f in errors && errors[f] == required[f];
    valid := errors == map[];
  }

  // ---------------------------------------------------------------------
  // formatDateTimeForFHIR
  // ---------------------------------------------------------------------

  /** `formatDateTimeForFHIR`: a local `YYYY-MM-DDTHH:mm` gets seconds and the UTC designator. */
  function FormatForFhir(dateTime: string): (r: string)
    ensures r == dateTime || r == dateTime + ":00.000Z"
    ensures r != dateTime <==> dateTime != "" && 'Z' !in dateTime && '+' !in dateTime
  {
    if dateTime != "" && 'Z' !in dateTime && '+' !in dateTime then dateTime + ":00.000Z" else dateTime
  }

  /** Normalising twice is normalising once. */
  lemma FormatForFhirIdempotent(dateTime: string)
    ensures FormatForFhir(FormatForFhir(dateTime)) == FormatForFhir(dateTime)
  {
    var r := FormatForFhir(dateTime);
    if r != dateTime {
      assert r[|r| - 1] == 'Z';
    }
  }

  // ---------------------------------------------------------------------
  // filteredAppointments
  // ---------------------------------------------------------------------

  datatype Filters = Filters(date: string, provider: string, patient: string, status: string, appointmentType: string, search: string)

  const NoFilters := Filters("", "", "", "", "", "")

  /** Some participant reference, lower-cased, contains `marker`. */
  predicate SomeReferenceContains(a: Appointment, marker: string) {
    exists i :: 0 <= i < |a.participants| &&
      a.participants[i].reference.Some? &&
      Contains(Lower(a.participants[i].reference.value), marker)
  }

  /** `[id, status, type, patientId, providerId, date].join(' ').toLowerCase()`: absent parts join as "". */
  function SearchText(a: Appointment, cal: Calendar): string {
    var ids := IdsOf(a.participants);
    var day := if Present(a.start) then cal.localDay(a.start.value) else "";
    Lower(a.id.GetOr("") + " " + a.status.GetOr("") + " " + a.typeText.GetOr("") + " "
          + ids.patientId.GetOr("") + " " + ids.providerId.GetOr("") + " " + day)
  }

  /** The filter callback: every non-empty filter field must match. */
  predicate Matches(a: Appointment, f: Filters, cal: Calendar) {
    && (f.date != "" ==> (if Present(a.start) then cal.isoDay(a.start.value) else "") == f.date)
    && (f.status != "" ==> a.status.Some? && Contains(Lower(a.status.value), Lower(f.status)))
    && (f.appointmentType != "" ==> a.typeText.Some? && Contains(Lower(a.typeText.value), Lower(f.appointmentType)))
    && (f.provider != "" ==> SomeReferenceContains(a, "/practitioner/" + Lower(f.provider)))
    && (f.patient != "" ==> SomeReferenceContains(a, "/patient/" + Lower(f.patient)))
    && (f.search != "" ==> Contains(SearchText(a, cal), Lower(f.search)))
  }

  /** `filteredAppointments`. */
  function FilterAppointments(appts: seq<Appointment>, f: Filters, cal: Calendar): (r: seq<Appointment>)
    ensures forall i :: 0 <= i < |r| ==> r[i] in appts && Matches(r[i], f, cal)
    ensures forall i :: 0 <= i < |appts| && Matches(appts[i], f, cal) ==> appts[i] in r
    ensures Seqs.IsSubsequence(r, appts)
    ensures f == NoFilters ==> r == appts
  {
    Seqs.Filter(appts, a => Matches(a, f, cal))
  }
}
