/** Raw usage records of the dashboard, and the JavaScript value semantics
    the aggregation relies on (truthiness, isNaN, Number). */
module Records {

  datatype Option<+T> = None | Some(value: T)

  /** A point in time: milliseconds since the epoch, already shifted into
      the viewer's local time zone (the zone dayjs formats in). */
  type Timestamp = int

  /** A calendar day, counted in days since the epoch. It stands for the
      "YYYY-MM-DD" string key the dashboard groups by; two timestamps get
      the same key exactly when they have the same Day. */
  type Day = int

  const MillisPerDay: int := 86_400_000

  /** The calendar day a timestamp falls on: the number of whole days of
      MillisPerDay (86 400 000) milliseconds before t, counted from the epoch. */
  function DayOf(t: Timestamp): Day
  {
    t / 86_400_000
  }

  /** DayOf(t) is the day whose 24 hours contain t, and later instants never fall on earlier days. */
  lemma DayOfBounds(t: Timestamp, u: Timestamp)
    ensures DayOf(t) * MillisPerDay <= t < DayOf(t) * MillisPerDay + MillisPerDay
    ensures t <= u ==> DayOf(t) <= DayOf(u)
  {
  }

  /** The value found under one of the two optional numeric columns
      ("Number of Edits", "User Satisfaction Rating") of a JSON record. */
  datatype Field =
    | Absent                                      // key missing, or null
    | Num(n: real)                                // a JSON number
    | Text(text: string, asNumber: Option<real>)  // a JSON string; asNumber is the finite value of Number(text), None when that is NaN

  /** One event of the dataset. */
  datatype Record = Record(time: Timestamp, edits: Field, satisfaction: Field, role: string)

  /** The two averaged columns. */
  datatype Measure = Edits | Satisfaction

  function Reading(r: Record, m: Measure): Field
  {
    match m
    case Edits => r.edits
    case Satisfaction => r.satisfaction
  }

  /** JavaScript truthiness of the value: undefined, null, 0 and "" are falsy. */
  predicate Truthy(f: Field)
  {
    match f
    case Absent => false
    case Num(n) => n != 0.0
    case Text(s, _) => s != ""
  }

  /** JavaScript isNaN, which first converts its argument with Number:
      isNaN of a JSON number does not hold. For Absent this is isNaN(undefined),
      a missing key, which holds. A JSON null would give false instead
      (Number(null) is 0), but null is falsy, so the guard refuses it before
      isNaN matters and Contribution is the same for both. */
  predicate IsNaN(f: Field)
  {
    match f
    case Absent => true
    case Num(_) => false
    case Text(_, v) => v.None?
  }

  /** What one field adds to its day's running sum, or None when the guard
      `value && !isNaN(value)` rejects it and neither the sum nor the count
      of that column changes. */
  function Contribution(f: Field): (c: Option<real>)
    ensures c.Some? <==> Truthy(f) && !IsNaN(f)
    ensures c.Some? && f.Num? ==> c.value == f.n && c.value != 0.0
    ensures c.Some? && f.Text? ==> f.asNumber == c
  {
    match f
    case Absent => None
    case Num(n) => if n == 0.0 then None else Some(n)
    case Text(s, v) => if s == "" then None else v
  }

  /** Only the number 0 is a falsy reading: a non-empty string is truthy,
      so the string "0" passes the guard and is counted as a reading of 0. */
  lemma ZeroReadings()
    ensures Contribution(Num(0.0)) == None
    ensures Contribution(Text("0", Some(0.0))) == Some(0.0)
    ensures Contribution(Text("", Some(0.0))) == None
  {
  }
}
