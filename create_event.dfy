/** The "Create New Event" modal (frontend/src/components/CreateEvent.js):
    the form state, its change handlers, the required-field validator, the
    stock-image fallback, the 24-hour to 12-hour time formatter and the request
    payload that a valid submission posts. */
module CreateEvent {
  import opened Wrappers
  import opened Text
  import opened Lists

  /** The modal's `formData` state. */
  datatype EventForm = EventForm(
    title: string,
    description: string,
    category: string,
    date: string,
    startTime: string,
    endTime: string,
    location: string,
    schoolYears: seq<string>,
    genders: seq<string>,
    imageUrl: string)

  const EmptyForm: EventForm := EventForm("", "", "", "", "", "", "", [], [], "")

  const Categories: seq<string> :=
    ["Sports", "Music", "Art", "Technology", "Science", "Reading", "Gaming", "Cooking", "Travel"]
  const SchoolYearOptions: seq<string> := ["Freshman", "Sophomore", "Junior", "Senior", "Graduate"]
  const GenderOptions: seq<string> := ["Male", "Female", "Non-binary", "All"]

  /** The inputs wired to `handleChange`, and the two checkbox groups. */
  datatype TextField = Title | Description | Category | Date | StartTime | EndTime | Location | ImageUrl
  datatype ListField = SchoolYears | Genders

  /** The `name` attribute of each input, which is also its key in the error map. */
  function TextName(f: TextField): string
  {
    match f
    case Title => "title"
    case Description => "description"
    case Category => "category"
    case Date => "date"
    case StartTime => "startTime"
    case EndTime => "endTime"
    case Location => "location"
    case ImageUrl => "imageUrl"
  }

  function ListName(f: ListField): string
  {
    match f
    case SchoolYears => "schoolYears"
    case Genders => "genders"
  }

  function TextValue(form: EventForm, f: TextField): string
  {
    match f
    case Title => form.title
    case Description => form.description
    case Category => form.category
    case Date => form.date
    case StartTime => form.startTime
    case EndTime => form.endTime
    case Location => form.location
    case ImageUrl => form.imageUrl
  }

  function ListValue(form: EventForm, f: ListField): seq<string>
  {
    match f
    case SchoolYears => form.schoolYears
    case Genders => form.genders
  }

  /** `{ ...prev, [name]: value }` for a text input: only that field changes. */
  function WithText(form: EventForm, f: TextField, value: string): (r: EventForm)
    ensures TextValue(r, f) == value
    ensures forall g :: g != f ==> TextValue(r, g) == TextValue(form, g)
    ensures forall l :: ListValue(r, l) == ListValue(form, l)
  {
    match f
    case Title => form.(title := value)
    case Description => form.(description := value)
    case Category => form.(category := value)
    case Date => form.(date := value)
    case StartTime => form.(startTime := value)
    case EndTime => form.(endTime := value)
    case Location => form.(location := value)
    case ImageUrl => form.(imageUrl := value)
  }

  /** `{ ...prev, [field]: newValues }` for a checkbox group: only that list changes. */
  function WithList(form: EventForm, f: ListField, xs: seq<string>): (r: EventForm)
    ensures ListValue(r, f) == xs
    ensures forall l :: l != f ==> ListValue(r, l) == ListValue(form, l)
    ensures forall g :: TextValue(r, g) == TextValue(form, g)
  {
    match f
    case SchoolYears => form.(schoolYears := xs)
    case Genders => form.(genders := xs)
  }

  /** The `errors` state: field name to message; "" is a cleared error. */
  type ErrorMap = map<string, string>

  /** JavaScript truthiness of `errors[key]`: present and not the empty string. */
  predicate HasError(errors: ErrorMap, key: string)
  {
    key in errors && errors[key] != ""
  }

  /** `if (errors[key]) setErrors(prev => ({ ...prev, [key]: '' }))`: a set
      error is blanked (its key stays), every other entry is kept. */
  function ClearError(errors: ErrorMap, key: string): (r: ErrorMap)
    ensures !HasError(r, key)
    ensures r.Keys == errors.Keys
    ensures forall k :: k in r && k != key ==> r[k] == errors[k]
    ensures !HasError(errors, key) ==> r == errors
  {
    if HasError(errors, key) then errors[key := ""] else errors
  }

  /** The keys `validateForm` can report, in the order it checks them. */
  const RequiredKeys: seq<string> :=
    ["title", "description", "category", "date", "startTime", "endTime", "location", "schoolYears", "genders"]

  /** Whether the required field named `key` passes its check: the text
      fields must be non-blank after trimming, the selects and the time
      inputs non-empty, the checkbox groups non-empty. */
  predicate Filled(form: EventForm, key: string)
  {
    if key == "title" then Trim(form.title) != ""
    else if key == "description" then Trim(form.description) != ""
    else if key == "category" then form.category != ""
    else if key == "date" then form.date != ""
    else if key == "startTime" then form.startTime != ""
    else if key == "endTime" then form.endTime != ""
    else if key == "location" then Trim(form.location) != ""
    else if key == "schoolYears" then |form.schoolYears| > 0
    else if key == "genders" then |form.genders| > 0
    else true
  }

  /** The condition under which the form may be submitted. */
  predicate FormComplete(form: EventForm)
  {
    && Trim(form.title) != ""
    && Trim(form.description) != ""
    && form.category != ""
    && form.date != ""
    && form.startTime != ""
    && form.endTime != ""
    && Trim(form.location) != ""
    && |form.schoolYears| > 0
    && |form.genders| > 0
  }

  /** The message `validateForm` stores for a failing required field. */
  function RequiredMessage(key: string): (m: string)
    ensures m != ""
  {
    if key == "title" then "Title is required"
    else if key == "description" then "Description is required"
    else if key == "category" then "Category is required"
    else if key == "date" then "Date is required"
    else if key == "startTime" then "Start time is required"
    else if key == "endTime" then "End time is required"
    else if key == "location" then "Location is required"
    else if key == "schoolYears" then "Select at least one school year"
    else "Select at least one gender"
  }

  /** The checks of `validateForm` for `keys`, run in order into a fresh map:
      its keys are exactly the failing ones, each with its message. */
  function CheckFields(form: EventForm, keys: seq<string>): (errs: ErrorMap)
    ensures forall k :: k in errs <==> k in keys && !Filled(form, k)
    ensures forall k :: k in errs ==> errs[k] == RequiredMessage(k)
  {
    if |keys| == 0 then map[]
    else
      var e := CheckFields(form, keys[..|keys| - 1]);
      var k := keys[|keys| - 1];
      assert keys == keys[..|keys| - 1] + [k];
      if Filled(form, k) then e else e[k := RequiredMessage(k)]
  }

  /** `newErrors` of `validateForm`: a fresh map whose keys are exactly the
      failing required fields, each with a non-empty message. */
  function FormErrors(form: EventForm): (errs: ErrorMap)
    ensures forall k :: k in errs <==> k in RequiredKeys && !Filled(form, k)
    ensures forall k :: k in errs ==> errs[k] != ""
  {
    CheckFields(form, RequiredKeys)
  }

  /** `validateForm()` returns true exactly when every required field is
      filled; the new map never holds a `submit` entry. */
  lemma ValidateFormIff(form: EventForm)
    ensures FormErrors(form) == map[] <==> FormComplete(form)
    ensures "submit" !in FormErrors(form)
  {
    var errs := FormErrors(form);
    if FormComplete(form) {
      assert forall k :: k in RequiredKeys ==> Filled(form, k);
      assert errs.Keys == {};
    } else {
      var k: string;
      if Trim(form.title) == "" { k := "title"; }
      else if Trim(form.description) == "" { k := "description"; }
      else if form.category == "" { k := "category"; }
      else if form.date == "" { k := "date"; }
      else if form.startTime == "" { k := "startTime"; }
      else if form.endTime == "" { k := "endTime"; }
      else if Trim(form.location) == "" { k := "location"; }
      else if |form.schoolYears| == 0 { k := "schoolYears"; }
      else { k := "genders"; }
      assert k in RequiredKeys && !Filled(form, k);
      assert k in errs;
    }
  }

  /** A value an `<input type="time">` without a `step` attribute holds: "HH:MM". */
  predicate IsTimeValue(t: string)
  {
    && |t| == 5
    && IsDigit(t[0]) && IsDigit(t[1]) && t[2] == ':' && IsDigit(t[3]) && IsDigit(t[4])
    && 10 * DigitValue(t[0]) + DigitValue(t[1]) <= 23
    && 10 * DigitValue(t[3]) + DigitValue(t[4]) <= 59
  }

  /** What the time inputs can hold: nothing yet, or a time. */
  predicate TimeInput(t: string)
  {
    t == "" || IsTimeValue(t)
  }

  /** What the category `<select>` can hold: its empty placeholder option,
      or one of the listed categories. */
  predicate CategoryInput(c: string)
  {
    c == "" || c in Categories
  }

  /** `parseInt(hours)` of the part before the colon. */
  function HourOf(t: string): (h: nat)
    requires IsTimeValue(t)
    ensures h <= 23
  {
    10 * DigitValue(t[0]) + DigitValue(t[1])
  }

  /** `hour % 12 || 12`. */
  function TwelveHour(h: nat): (r: nat)
    ensures 1 <= r <= 12
    ensures r % 12 == h % 12
  {
    if h % 12 == 0 then 12 else h % 12
  }

  function Meridiem(h: nat): string
  {
    if h >= 12 then "PM" else "AM"
  }

  /** `formatTime`: "HH:MM" as "h:MM AM" or "h:MM PM". */
  function FormatTime(t: string): (r: string)
    requires IsTimeValue(t)
  {
    var h := HourOf(t);
    Decimal(TwelveHour(h)) + ":" + t[3..5] + " " + Meridiem(h)
  }

  /** A 12-hour clock reading: hour 1..12, the minutes as written, and PM or AM. */
  datatype ClockReading = ClockReading(hour12: nat, minutes: string, pm: bool)

  /** Reads a "h:MM AM" / "hh:MM PM" text back; the inverse direction of `FormatTime`. */
  function ReadDisplayTime(r: string): Option<ClockReading>
  {
    var i := IndexOf(r, ':');
    if i < 1 || i > 2 || |r| != i + 6 then None
    else
      var hh := r[..i];
      if !(forall k :: 0 <= k < |hh| ==> IsDigit(hh[k])) then None
      else if r[i + 3] != ' ' || !(r[i + 4..] == "AM" || r[i + 4..] == "PM") then None
      else Some(ClockReading(DigitsValue(hh), r[i + 1..i + 3], r[i + 4..] == "PM"))
  }

  /** The 24-hour hour a 12-hour reading denotes. */
  function To24Hour(c: ClockReading): nat
  {
    if c.pm then (if c.hour12 == 12 then 12 else c.hour12 + 12)
    else (if c.hour12 == 12 then 0 else c.hour12)
  }

  /** A text with one or two digits, ':', two characters, ' ' and "AM" or
      "PM" reads back into those parts. */
  lemma ReadDisplayTimeOf(r: string, i: nat)
    requires 1 <= i <= 2 && |r| == i + 6
    requires forall k :: 0 <= k < i ==> IsDigit(r[k])
    requires r[i] == ':' && r[i + 3] == ' ' && (r[i + 4..] == "AM" || r[i + 4..] == "PM")
    ensures ReadDisplayTime(r) == Some(ClockReading(DigitsValue(r[..i]), r[i + 1..i + 3], r[i + 4..] == "PM"))
  {
    IndexOfFirst(r, ':', i);
    var hh := r[..i];
    assert forall k :: 0 <= k < |hh| ==> IsDigit(hh[k]);
  }

  /** `formatTime` loses nothing: its text reads back as an hour in 1..12,
      "PM" exactly for hours 12..23, the minutes copied verbatim, and that
      reading denotes the original 24-hour hour. */
  lemma FormatTimeRoundTrip(t: string)
    requires IsTimeValue(t)
    ensures ReadDisplayTime(FormatTime(t)) == Some(ClockReading(TwelveHour(HourOf(t)), t[3..5], HourOf(t) >= 12))
    ensures To24Hour(ReadDisplayTime(FormatTime(t)).value) == HourOf(t)
  {
    var h := HourOf(t);
    var d := Decimal(TwelveHour(h));
    assert |d| <= 2 by {
      if TwelveHour(h) >= 10 {
        assert d == Decimal(TwelveHour(h) / 10) + [DigitChar(TwelveHour(h) % 10)];
      }
    }
    var tail := ":" + t[3..5] + " " + Meridiem(h);
    var r := d + tail;
    assert FormatTime(t) == r;
    var i := |d|;
    assert r[..i] == d;
    assert r[i] == tail[0] == ':';
    assert r[i + 1..i + 3] == tail[1..3] == t[3..5];
    assert r[i + 3] == tail[3] == ' ';
    assert r[i + 4..] == tail[4..] == Meridiem(h);
    ReadDisplayTimeOf(r, i);
    DecimalValue(TwelveHour(h));
    TwelveHourBack(h, t[3..5]);
  }

  /** The 12-hour hour and the meridiem together give the 24-hour hour back. */
  lemma TwelveHourBack(h: nat, minutes: string)
    requires h <= 23
    ensures To24Hour(ClockReading(TwelveHour(h), minutes, h >= 12)) == h
  {
    if h < 12 {
      assert h % 12 == h;
    } else {
      assert h % 12 == h - 12;
    }
  }

  lemma FormatTimeExamples()
    ensures FormatTime("00:15") == "12:15 AM"
    ensures FormatTime("12:00") == "12:00 PM"
    ensures FormatTime("23:59") == "11:59 PM"
  {
    assert HourOf("00:15") == 0 && TwelveHour(0) == 12;
    assert Decimal(12) == "12";
    assert HourOf("12:00") == 12;
    assert HourOf("23:59") == 23 && TwelveHour(23) == 11;
    assert Decimal(11) == "11";
  }

  /** `CATEGORY_STOCK_IMAGES`: three image URLs for each category. */
  type StockTable = map<string, seq<string>>

  predicate StockTableShape(stock: StockTable)
  {
    && stock.Keys == set c | c in Categories
    && (forall c :: c in stock ==> |stock[c]| == 3)
  }

  /** `CATEGORY_STOCK_IMAGES[category] || CATEGORY_STOCK_IMAGES['Sports']`. */
  function StockFor(stock: StockTable, category: string): (images: seq<string>)
    requires StockTableShape(stock)
    ensures |images| == 3
    ensures category in Categories ==> images == stock[category]
    ensures category !in Categories ==> images == stock["Sports"]
  {
    assert "Sports" in Categories;
    if category in stock then stock[category] else stock["Sports"]
  }

  /** The image rule of `validateImageUrl`: a blank URL is replaced by one of
      the category's stock images, any other URL is sent trimmed. */
  predicate ImageChoice(url: string, category: string, stock: StockTable, image: string)
    requires StockTableShape(stock)
  {
    if Trim(url) == "" then image in StockFor(stock, category) else image == Trim(url)
  }

  /** `validateImageUrl`; `Math.random` becomes a nondeterministic choice of index. */
  method ValidateImageUrl(url: string, category: string, stock: StockTable) returns (image: string)
    requires StockTableShape(stock)
    ensures ImageChoice(url, category, stock, image)
  {
    if url == "" || Trim(url) == "" {
      var images := StockFor(stock, category);
      var i :| 0 <= i < |images|;
      image := images[i];
    } else {
      image := Trim(url);
    }
  }

  /** The JSON body posted to `/api/events/create`. */
  datatype EventPayload = EventPayload(
    title: string,
    description: string,
    category: string,
    date: string,
    time: string,
    startTime: string,
    endTime: string,
    location: string,
    schoolYears: string,
    genders: string,
    image: string)

  /** `eventData` for a form and the image `validateImageUrl` picked: text
      fields as typed, the time range in 12-hour form, the selections joined
      by ", " in the order they were selected. */
  function Payload(form: EventForm, image: string): EventPayload
    requires IsTimeValue(form.startTime) && IsTimeValue(form.endTime)
  {
    EventPayload(
      form.title, form.description, form.category, form.date,
      FormatTime(form.startTime) + " - " + FormatTime(form.endTime),
      form.startTime, form.endTime, form.location,
      Join(form.schoolYears, ", "), Join(form.genders, ", "), image)
  }

  /** The server can recover both selections, in selection order, from the
      joined strings: no offered option contains a comma. */
  lemma PayloadSelectionsRoundTrip(form: EventForm, image: string)
    requires IsTimeValue(form.startTime) && IsTimeValue(form.endTime)
    requires |form.schoolYears| > 0 && |form.genders| > 0
    requires forall i :: 0 <= i < |form.schoolYears| ==> form.schoolYears[i] in SchoolYearOptions
    requires forall i :: 0 <= i < |form.genders| ==> form.genders[i] in GenderOptions
    ensures SplitCommaSpace(Payload(form, image).schoolYears) == form.schoolYears
    ensures SplitCommaSpace(Payload(form, image).genders) == form.genders
  {
    assert forall o :: o in SchoolYearOptions ==> ',' !in o;
    assert forall o :: o in GenderOptions ==> ',' !in o;
    JoinSplitRoundTrip(form.schoolYears);
    JoinSplitRoundTrip(form.genders);
  }

  /** What the server's reply to the create request amounts to: a 2xx reply
      with a JSON body, or anything that makes the request throw. */
  datatype ServerReply = Created | Failed

  const SubmitFailure: string := "Failed to create event. Please try again."

  /** The modal's state: `formData`, `errors` and `isSubmitting`. */
  class CreateEventModal {
    var formData: EventForm
    var errors: ErrorMap
    var isSubmitting: bool

    /** The time inputs only ever hold "" or an "HH:MM" value, and the
        category only "" or a listed category. */
    ghost predicate Valid()
      reads this
    {
      TimeInput(formData.startTime) && TimeInput(formData.endTime) && CategoryInput(formData.category)
    }

    constructor ()
      ensures Valid()
      ensures formData == EmptyForm && errors == map[] && !isSubmitting
    {
      formData := EmptyForm;
      errors := map[];
      isSubmitting := false;
    }

    /** `handleChange`: sets one field and clears that field's error if one was set. */
    method HandleChange(field: TextField, value: string)
      requires Valid()
      requires field == StartTime || field == EndTime ==> TimeInput(value)
      requires field == Category ==> CategoryInput(value)
      modifies this
      ensures Valid()
      ensures formData == WithText(old(formData), field, value)
      ensures errors == ClearError(old(errors), TextName(field))
      ensures isSubmitting == old(isSubmitting)
    {
      formData := WithText(formData, field, value);
      if HasError(errors, TextName(field)) {
        errors := errors[TextName(field) := ""];
      }
    }

    /** `handleCheckboxChange`: toggles `value` in one checkbox group and
        clears that group's error if one was set. */
    method HandleCheckboxChange(field: ListField, value: string)
      requires Valid()
      modifies this
      ensures Valid()
      ensures formData == WithList(old(formData), field, Toggle(ListValue(old(formData), field), value))
      ensures errors == ClearError(old(errors), ListName(field))
      ensures isSubmitting == old(isSubmitting)
    {
      var current := ListValue(formData, field);
      var next := if value in current then Without(current, value) else current + [value];
      formData := WithList(formData, field, next);
      if HasError(errors, ListName(field)) {
        errors := errors[ListName(field) := ""];
      }
    }

    /** `validateForm`: replaces the whole error map. */
    method ValidateForm() returns (ok: bool)
      modifies this`errors
      ensures errors == FormErrors(formData)
      ensures ok <==> FormComplete(formData)
    {
      errors := FormErrors(formData);
      ValidateFormIff(formData);
      ok := |errors| == 0;
    }

    /** `handleSubmit`: an invalid form posts nothing; a valid one posts the
        payload, then resets the form on success or records a `submit` error
        on failure. `sent` is the request body, if a request was made. */
    method HandleSubmit(stock: StockTable, reply: ServerReply) returns (sent: Option<EventPayload>)
      requires Valid() && StockTableShape(stock)
      modifies this
      ensures Valid()
      ensures sent.None? <==> !FormComplete(old(formData))
      ensures sent.None? ==>
        formData == old(formData) && errors == FormErrors(old(formData)) && isSubmitting == old(isSubmitting)
      ensures sent.Some? ==>
        && IsTimeValue(old(formData).startTime) && IsTimeValue(old(formData).endTime)
        && sent.value == Payload(old(formData), sent.value.image)
        && ImageChoice(old(formData).imageUrl, old(formData).category, stock, sent.value.image)
        && old(formData).category in Categories
        && !isSubmitting
      ensures sent.Some? && reply == Created ==> formData == EmptyForm && errors == map[]
      ensures sent.Some? && reply == Failed ==> formData == old(formData) && errors == map["submit" := SubmitFailure]
    {
      var ok := ValidateForm();
      if !ok {
        sent := None;
        return;
      }
      isSubmitting := true;
      var image := ValidateImageUrl(formData.imageUrl, formData.category, stock);
      sent := Some(Payload(formData, image));
      if reply == Created {
        formData := EmptyForm;
      } else {
        errors := map["submit" := SubmitFailure];
      }
      isSubmitting := false;
    }
  }
}
