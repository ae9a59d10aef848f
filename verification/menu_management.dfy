/** The menu-item form of the admin menu page
    (src/pages/admin/MenuManagement.tsx): the weekday toggles, the image
    checks and the default form. Uploading, previews and saving are left
    out. */
module MenuManagement {
  import opened Wrappers
  import opened Types
  import opened Seqs
  import DateUtils
  import Menu

  function IsNotDay(d: DayOfWeek): DayOfWeek -> bool {
    (e: DayOfWeek) => e != d
  }

  /** `handleDayToggle`: a listed day is removed (every copy of it), an
      unlisted one is appended. */
  function DayToggle(days: seq<DayOfWeek>, d: DayOfWeek): (r: seq<DayOfWeek>)
    ensures d in days ==> d !in r && IsSubsequence(r, days)
    ensures d !in days ==> r == days + [d]
    ensures forall e :: e != d ==> (e in r <==> e in days)
    ensures d in days ==> forall e :: multiset(r)[e] == if e == d then 0 else multiset(days)[e]
    ensures d in days ==> |r| == |days| - multiset(days)[d]
  {
    if d in days then
      FilterIsSubsequence(days, IsNotDay(d));
      FilterMultiset(days, IsNotDay(d));
      FilterOutLength(days, d, IsNotDay(d));
      Filter(days, IsNotDay(d))
    else days + [d]
  }

  /** Toggling a day twice restores which days are listed, and restores the
      list itself when the day was not listed to begin with. */
  lemma ToggleTwice(days: seq<DayOfWeek>, d: DayOfWeek)
    ensures forall e :: e in DayToggle(DayToggle(days, d), d) <==> e in days
    ensures d !in days ==> DayToggle(DayToggle(days, d), d) == days
  {
    if d !in days {
      FilterAppend(days, [d], IsNotDay(d));
      FilterAll(days, IsNotDay(d));
    }
  }

  /** What choosing a file does. */
  datatype ImageVerdict = NoFile | TooLarge | NotAnImage | Accepted

  /** The size limit: one mebibyte. */
  const MaxImageBytes := 1024 * 1024

  predicate StartsWith(s: string, prefix: string) {
    |prefix| <= |s| && s[..|prefix|] == prefix
  }

  /** `handleImageChange`: the size is checked before the type, and only a
      file passing both is kept. The file is its size and MIME type. */
  function ImageCheck(file: Option<(int, string)>): (v: ImageVerdict)
    ensures v == NoFile <==> file.None?
    ensures v == TooLarge <==> file.Some? && file.value.0 > 1048576
    ensures v == NotAnImage <==> file.Some? && file.value.0 <= 1048576 && !StartsWith(file.value.1, "image/")
    ensures v == Accepted <==> file.Some? && file.value.0 <= 1048576 && StartsWith(file.value.1, "image/")
  {
    match file
    case None => NoFile
    case Some((size, mime)) =>
      if size > MaxImageBytes then TooLarge
      else if !StartsWith(mime, "image/") then NotAnImage
      else Accepted
  }

  /** The form's fields; the text inputs hold strings. */
  datatype MenuForm = MenuForm(
    name: string,
    description: string,
    price: string,
    category: string,
    sessionId: string,
    stock: string,
    isAvailable: bool,
    availableDays: seq<DayOfWeek>,
    imageUrl: string)

  /** The form as first shown and as `resetForm` leaves it: empty fields,
      available, every weekday. */
  function DefaultForm(): (f: MenuForm)
    ensures f.isAvailable && f.availableDays == AllDays
    ensures f.name == "" && f.price == "" && f.category == "" && f.stock == "" && f.imageUrl == ""
  {
    MenuForm("", "", "", "", "", "", true, AllDays, "")
  }

  /** An item saved from the default form is offered on every weekday, and
      the menu shows its days as "All days". */
  lemma DefaultFormOffersEveryDay(d: DayOfWeek)
    ensures DateUtils.IsAvailableOnDay(DefaultForm().availableDays, d)
    ensures Menu.FormatAvailableDays(Some(DefaultForm().availableDays)) == "All days"
  {
    assert d in AllDays by {
      match d
      case Monday => assert AllDays[0] == d;
      case Tuesday => assert AllDays[1] == d;
      case Wednesday => assert AllDays[2] == d;
      case Thursday => assert AllDays[3] == d;
      case Friday => assert AllDays[4] == d;
      case Saturday => assert AllDays[5] == d;
      case Sunday => assert AllDays[6] == d;
    }
  }
}
