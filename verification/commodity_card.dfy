/** The signal card: the relative label of a signal's creation time and the status
    cell. Time is abstracted to day indices: a timestamp falls on day `day` and the
    card is rendered on day `now`. Whether the day lies in the current week, and the
    weekday, time, ordinal day and month texts, come from the date library and are
    parameters here. */
module CommodityCard {

  /** The branch `formatCreatedAt` takes. */
  datatype Bucket = Today | Yesterday | SameWeek | DayOfMonth

  /** The texts the date library produces for the timestamp: the time of day
      (`toLocaleTimeString`), the weekday name ("EEEE"), the ordinal day and the
      month name ("do MMMM"). */
  datatype Texts = Texts(time: string, weekday: string, ordinalDay: string, month: string)

  /** The branch taken for a timestamp on `day` seen on `now`; `inSameWeek` is the
      answer of `isSameWeek(date, new Date())`. The branches are tried in the order
      today, yesterday, same week, and the first that applies wins. */
  function BucketOf(day: int, now: int, inSameWeek: bool): (b: Bucket)
    ensures b == Today <==> day == now
    ensures b == Yesterday <==> day == now - 1
    ensures b == SameWeek <==> day != now && day != now - 1 && inSameWeek
    ensures b == DayOfMonth <==> day != now && day != now - 1 && !inSameWeek
  {
    if day == now then Today
    else if day == now - 1 then Yesterday
    else if inSameWeek then SameWeek
    else DayOfMonth
  }

  /** `formatCreatedAt`: exactly one label, shaped after the branch taken. */
  function FormatCreatedAt(day: int, now: int, inSameWeek: bool, t: Texts): (caption: string)
    ensures BucketOf(day, now, inSameWeek) == Today ==> caption == "Today " + t.time
    ensures BucketOf(day, now, inSameWeek) == Yesterday ==> caption == "Yesterday " + t.time
    ensures BucketOf(day, now, inSameWeek) == SameWeek ==> caption == t.weekday + ", " + t.time
    ensures BucketOf(day, now, inSameWeek) == DayOfMonth ==> caption == t.ordinalDay + " " + t.month
  {
    if day == now then "Today " + t.time
    else if day == now - 1 then "Yesterday " + t.time
    else if inSameWeek then t.weekday + ", " + t.time
    else t.ordinalDay + " " + t.month
  }

  /** A timestamp of today is labelled "Today ..." whether or not it also counts as
      this week, so it never gets a weekday label. */
  lemma TodayPrecedesWeekday(day: int, now: int, inSameWeek: bool, t: Texts)
    requires day == now
    ensures FormatCreatedAt(day, now, inSameWeek, t) == "Today " + t.time
    ensures FormatCreatedAt(day, now, inSameWeek, t) == FormatCreatedAt(day, now, !inSameWeek, t)
  {
  }

  /** Every label but the date one ends with the time text; the date label does not
      depend on the time text at all. */
  lemma TimeShownUnlessDated(day: int, now: int, inSameWeek: bool, t: Texts, otherTime: string)
    ensures var caption := FormatCreatedAt(day, now, inSameWeek, t);
            BucketOf(day, now, inSameWeek) != DayOfMonth ==>
              |t.time| <= |caption| && caption[|caption| - |t.time|..] == t.time
    ensures BucketOf(day, now, inSameWeek) == DayOfMonth ==>
              FormatCreatedAt(day, now, inSameWeek, t.(time := otherTime)) == FormatCreatedAt(day, now, inSameWeek, t)
  {
  }

  /** The "Call Status" cell of the card: `status || "Open"`. */
  function StatusCell(status: string): (shown: string)
    ensures shown != ""
    ensures status != "" ==> shown == status
    ensures status == "" ==> shown == "Open"
  {
    if status == "" then "Open" else status
  }

  /** The detail modal shows the raw status, so the card and the modal disagree
      exactly when the status is empty. */
  lemma CardAndModalAgree(status: string)
    ensures StatusCell(status) == status <==> status != ""
  {
  }
}
