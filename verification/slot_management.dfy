/** The pickup-slot admin page (src/pages/admin/SlotManagement.tsx): the
    utilisation badge and bar, the grouping by date, the summary cards and
    the delete rule. The slot list is the one the page loaded. */
module SlotManagement {
  import opened Wrappers
  import opened Types
  import opened Seqs

  /** A JavaScript number, as far as the utilisation ratio needs one: a
      finite value, an infinity, or NaN. Finite values are exact here. */
  datatype Num = Finite(v: real) | PosInf | NegInf | NaN

  /** `current / max` on integer operands: division by zero gives an
      infinity of the dividend's sign, or NaN for 0 / 0. */
  function Divide(a: int, b: int): (r: Num)
    ensures b != 0 ==> r == Finite(a as real / b as real)
    ensures b == 0 ==> (r == NaN <==> a == 0) && (r == PosInf <==> a > 0) && (r == NegInf <==> a < 0)
  {
    if b != 0 then Finite(a as real / b as real)
    else if a > 0 then PosInf
    else if a < 0 then NegInf
    else NaN
  }

  /** `n * 100`. */
  function Percent(n: Num): (r: Num)
    ensures r.Finite? <==> n.Finite?
    ensures n.Finite? ==> r.v == n.v * 100.0
    ensures !n.Finite? ==> r == n
  {
    match n
    case Finite(v) => Finite(v * 100.0)
    case _ => n
  }

  /** `n >= t`: false for NaN and minus infinity, true for plus infinity. */
  predicate AtLeast(n: Num, t: real) {
    match n
    case Finite(v) => v >= t
    case PosInf => true
    case NegInf => false
    case NaN => false
  }

  /** `Math.min(n, m)`: NaN if either is NaN. */
  function Min(n: Num, m: real): (r: Num)
    ensures n == NaN <==> r == NaN
    ensures n.Finite? ==> r == Finite(if n.v <= m then n.v else m)
    ensures n == PosInf ==> r == Finite(m)
    ensures n == NegInf ==> r == NegInf
  {
    match n
    case Finite(v) => Finite(if v <= m then v else m)
    case PosInf => Finite(m)
    case NegInf => NegInf
    case NaN => NaN
  }

  /** The badge variants. */
  datatype Variant = Destructive | Secondary | Default

  /** `getUtilizationColor`: the percentage is compared with 100 and 80. */
  function UtilizationColor(current: int, max: int): Variant {
    var pct := Percent(Divide(current, max));
    if AtLeast(pct, 100.0) then Destructive
    else if AtLeast(pct, 80.0) then Secondary
    else Default
  }

  /** The ratio's percentage compared with a threshold is the bookings
      compared with that share of the capacity. */
  lemma PercentAtLeast(current: int, max: int, t: real)
    requires max > 0
    ensures AtLeast(Percent(Divide(current, max)), t) <==> current as real * 100.0 >= t * max as real
  {
    var q := current as real / max as real;
    assert q * max as real == current as real;
    if q * 100.0 >= t {
      assert q * 100.0 * max as real >= t * max as real;
    } else {
      assert q * 100.0 * max as real < t * max as real;
    }
  }

  /** With a positive capacity: full (or over) is destructive, from 80% up to
      full is secondary, below 80% is the default. */
  lemma UtilizationBands(current: int, max: int)
    requires max > 0
    ensures UtilizationColor(current, max) == Destructive <==> current >= max
    ensures UtilizationColor(current, max) == Secondary <==> 4 * max <= 5 * current && current < max
    ensures UtilizationColor(current, max) == Default <==> 5 * current < 4 * max
  {
    PercentAtLeast(current, max, 100.0);
    PercentAtLeast(current, max, 80.0);
  }

  /** With no capacity the ratio is not a number: an empty slot shows the
      default badge and a slot with bookings the destructive one. */
  lemma ZeroCapacityBadge(current: int)
    ensures current == 0 ==> UtilizationColor(current, 0) == Default
    ensures current > 0 ==> UtilizationColor(current, 0) == Destructive
    ensures current < 0 ==> UtilizationColor(current, 0) == Default
  {
  }

  /** The bar's colour classes. */
  datatype BarColor = RedBar | YellowBar | PrimaryBar

  /** The bar compares the counts directly, with 80% of the capacity. */
  function UtilizationBar(current: int, max: int): BarColor {
    if current >= max then RedBar
    else if current as real >= max as real * 0.8 then YellowBar
    else PrimaryBar
  }

  /** With a positive capacity the bar and the badge agree band for band;
      for an empty slot with no capacity they do not. */
  lemma BarAgreesWithBadge(current: int, max: int)
    ensures max > 0 ==> (UtilizationBar(current, max) == RedBar <==> UtilizationColor(current, max) == Destructive)
    ensures max > 0 ==> (UtilizationBar(current, max) == YellowBar <==> UtilizationColor(current, max) == Secondary)
    ensures UtilizationBar(0, 0) == RedBar && UtilizationColor(0, 0) == Default
  {
    if max > 0 {
      UtilizationBands(current, max);
    }
  }

  /** The bar's width in percent: `Math.min(current / max * 100, 100)`. */
  function BarWidth(current: int, max: int): Num {
    Min(Percent(Divide(current, max)), 100.0)
  }

  /** With a positive capacity the width is a number of at most 100, and the
      exact utilisation while the slot is not over-booked; an empty slot of
      no capacity gets NaN, which is not capped. */
  lemma BarWidthCapped(current: int, max: int)
    ensures max > 0 ==> BarWidth(current, max).Finite? && BarWidth(current, max).v <= 100.0
    ensures max > 0 && current <= max ==> BarWidth(current, max) == Finite(current as real * 100.0 / max as real)
    ensures max == 0 && current > 0 ==> BarWidth(current, max) == Finite(100.0)
    ensures BarWidth(0, 0) == NaN
  {
    if max > 0 && current <= max {
      var q := current as real / max as real;
      PercentAtLeast(current, max, 100.0);
      assert q * 100.0 == current as real * 100.0 / max as real;
    }
  }

  // ---------------------------------------------------------------------
  // groupSlotsByDate
  // ---------------------------------------------------------------------

  /** One date's slots, as an entry of the grouped record. */
  datatype DateGroup = DateGroup(date: string, slots: seq<PickupSlot>)

  function OnDate(d: string): PickupSlot -> bool {
    (s: PickupSlot) => s.date == d
  }

  /** Position of the group for date `d`, if there is one. */
  function GroupIndex(groups: seq<DateGroup>, d: string): (r: Option<nat>)
    ensures r.Some? ==> r.value < |groups| && groups[r.value].date == d
    ensures r.None? ==> forall i :: 0 <= i < |groups| ==> groups[i].date != d
  {
    if groups == [] then None
    else if groups[0].date == d then Some(0)
    else match GroupIndex(groups[1..], d)
      case None => None
      case Some(k) => Some(k + 1)
  }

  /** One step of the `forEach`: the slot joins the entry of its date, or
      starts a new entry at the end. Entries keep their positions and
      dates. */
  function AddSlot(groups: seq<DateGroup>, s: PickupSlot): (r: seq<DateGroup>)
    ensures |groups| <= |r| <= |groups| + 1
    ensures forall i :: 0 <= i < |groups| ==> r[i].date == groups[i].date
    ensures GroupIndex(r, s.date).Some?
  {
    match GroupIndex(groups, s.date)
    case Some(j) => groups[j := DateGroup(s.date, groups[j].slots + [s])]
    case None =>
      var r := groups + [DateGroup(s.date, [s])];
      assert r[|groups|].date == s.date;
      r
  }

  /** `groups` is the grouping of `prefix`: one entry per date, in which
      exactly that date's slots stand in order, and an entry for every
      slot. */
  predicate GroupsOf(groups: seq<DateGroup>, prefix: seq<PickupSlot>) {
    && (forall i, j :: 0 <= i < j < |groups| ==> groups[i].date != groups[j].date)
    && (forall i :: 0 <= i < |groups| ==> groups[i].slots == Filter(prefix, OnDate(groups[i].date)))
    && (forall i :: 0 <= i < |groups| ==> groups[i].slots != [])
    && (forall k :: 0 <= k < |prefix| ==> GroupIndex(groups, prefix[k].date).Some?)
  }

  /** Adding the next slot keeps the dates distinct. */
  lemma AddSlotDistinct(groups: seq<DateGroup>, s: PickupSlot)
    requires forall i, j :: 0 <= i < j < |groups| ==> groups[i].date != groups[j].date
    ensures var r := AddSlot(groups, s);
      forall i, j :: 0 <= i < j < |r| ==> r[i].date != r[j].date
  {
  }

  /** Adding the next slot keeps every entry equal to its date's filter. */
  lemma AddSlotFilters(groups: seq<DateGroup>, prefix: seq<PickupSlot>, s: PickupSlot, next: seq<PickupSlot>)
    requires next == prefix + [s]
    requires forall i, j :: 0 <= i < j < |groups| ==> groups[i].date != groups[j].date
    requires forall i :: 0 <= i < |groups| ==> groups[i].slots == Filter(prefix, OnDate(groups[i].date))
    requires forall k :: 0 <= k < |prefix| ==> GroupIndex(groups, prefix[k].date).Some?
    ensures var r := AddSlot(groups, s);
      forall i :: 0 <= i < |r| ==> r[i].slots == Filter(next, OnDate(r[i].date))
  {
    var r := AddSlot(groups, s);
    forall i | 0 <= i < |r|
      ensures r[i].slots == Filter(next, OnDate(r[i].date))
    {
      AddSlotFilterAt(groups, prefix, s, i);
    }
  }

  /** The same, for the entry at position `i`. */
  lemma AddSlotFilterAt(groups: seq<DateGroup>, prefix: seq<PickupSlot>, s: PickupSlot, i: nat)
    requires forall i, j :: 0 <= i < j < |groups| ==> groups[i].date != groups[j].date
    requires forall i :: 0 <= i < |groups| ==> groups[i].slots == Filter(prefix, OnDate(groups[i].date))
    requires forall k :: 0 <= k < |prefix| ==> GroupIndex(groups, prefix[k].date).Some?
    requires i < |AddSlot(groups, s)|
    ensures AddSlot(groups, s)[i].slots == Filter(prefix + [s], OnDate(AddSlot(groups, s)[i].date))
  {
    var r := AddSlot(groups, s);
    var d := r[i].date;
    FilterAppend(prefix, [s], OnDate(d));
    FilterSingle(s, d);
    match GroupIndex(groups, s.date)
    case Some(j) =>
      if i == j {
        assert r[i].slots == groups[j].slots + [s];
      } else {
        assert r[i] == groups[i];
      }
    case None =>
      if i == |groups| {
        forall k | 0 <= k < |prefix| ensures prefix[k].date != s.date {
        }
        FilterNoDate(prefix, s.date);
      } else {
        assert r[i] == groups[i];
      }
  }

  /** A single slot filters to itself on its own date and to nothing on
      any other. */
  lemma FilterSingle(s: PickupSlot, d: string)
    ensures Filter([s], OnDate(d)) == if s.date == d then [s] else []
  {
    assert [s][1..] == [];
  }

  /** Adding the next slot keeps an entry for every slot seen. */
  lemma AddSlotCovers(groups: seq<DateGroup>, prefix: seq<PickupSlot>, s: PickupSlot, next: seq<PickupSlot>)
    requires next == prefix + [s]
    requires forall k :: 0 <= k < |prefix| ==> GroupIndex(groups, prefix[k].date).Some?
    ensures var r := AddSlot(groups, s);
      forall k :: 0 <= k < |next| ==> GroupIndex(r, next[k].date).Some?
  {
    var r := AddSlot(groups, s);
    forall k | 0 <= k < |next|
      ensures GroupIndex(r, next[k].date).Some?
    {
      if k < |prefix| {
        var j := GroupIndex(groups, prefix[k].date).value;
        assert r[j].date == prefix[k].date;
        GroupIndexFinds(r, prefix[k].date, j);
      }
    }
  }

  /** A date that some entry carries is found. */
  lemma GroupIndexFinds(groups: seq<DateGroup>, d: string, j: nat)
    requires j < |groups| && groups[j].date == d
    ensures GroupIndex(groups, d).Some?
  {
  }

  /** The whole step. */
  lemma AddSlotPreserves(groups: seq<DateGroup>, prefix: seq<PickupSlot>, s: PickupSlot, next: seq<PickupSlot>)
    requires next == prefix + [s]
    requires GroupsOf(groups, prefix)
    ensures GroupsOf(AddSlot(groups, s), next)
  {
    AddSlotDistinct(groups, s);
    AddSlotFilters(groups, prefix, s, next);
    AddSlotCovers(groups, prefix, s, next);
    AddSlotNonEmpty(groups, s);
  }

  /** Adding the next slot leaves no entry empty. */
  lemma AddSlotNonEmpty(groups: seq<DateGroup>, s: PickupSlot)
    requires forall i :: 0 <= i < |groups| ==> groups[i].slots != []
    ensures var r := AddSlot(groups, s);
      forall i :: 0 <= i < |r| ==> r[i].slots != []
  {
  }

  /** `groupSlotsByDate`: the `forEach` over the slots. Each date gets one
      entry, created when its first slot is met, so the entries follow the
      order in which dates first appear; each entry holds exactly that
      date's slots in their original order; every slot is in the entry of
      its date. */
  method GroupSlotsByDate(slots: seq<PickupSlot>) returns (groups: seq<DateGroup>)
    ensures |groups| <= |slots|
    ensures forall i, j :: 0 <= i < j < |groups| ==> groups[i].date != groups[j].date
    ensures forall i :: 0 <= i < |groups| ==> groups[i].slots == Filter(slots, OnDate(groups[i].date))
    ensures forall i :: 0 <= i < |groups| ==> groups[i].slots != []
    ensures forall k :: 0 <= k < |slots| ==> GroupIndex(groups, slots[k].date).Some?
    ensures GroupDates(groups) == FirstOccurrences(SlotDates(slots))
  {
    groups := [];
    var n := 0;
    ghost var seen: seq<PickupSlot> := [];
    while n < |slots|
      invariant n <= |slots| && seen == slots[..n]
      invariant GroupsOf(groups, seen)
      invariant GroupDates(groups) == FirstOccurrences(SlotDates(seen))
    {
      AddSlotPreserves(groups, seen, slots[n], seen + [slots[n]]);
      AddSlotOrder(groups, seen, slots[n], seen + [slots[n]]);
      groups := AddSlot(groups, slots[n]);
      seen := seen + [slots[n]];
      n := n + 1;
      PrefixGrows(slots, n);
    }
    WholeList(slots);
    assert |groups| == |GroupDates(groups)|;
  }

  /** The dates of the entries, in entry order. */
  function GroupDates(groups: seq<DateGroup>): seq<string> {
    seq(|groups|, i requires 0 <= i < |groups| => groups[i].date)
  }

  /** The dates of the slots, in slot order. */
  function SlotDates(slots: seq<PickupSlot>): seq<string> {
    seq(|slots|, i requires 0 <= i < |slots| => slots[i].date)
  }

  /** Each distinct element once, where it first appears. */
  function FirstOccurrences(s: seq<string>): (r: seq<string>)
    ensures |r| <= |s|
    decreases |s|
  {
    if s == [] then []
    else
      var front := FirstOccurrences(s[..|s| - 1]);
      if s[|s| - 1] in s[..|s| - 1] then front else front + [s[|s| - 1]]
  }

  /** Nothing is lost or invented by keeping first occurrences. */
  lemma {:induction false} FirstOccurrencesMembers(s: seq<string>, x: string)
    ensures x in FirstOccurrences(s) <==> x in s
    decreases |s|
  {
    if s != [] {
      var front := s[..|s| - 1];
      FirstOccurrencesMembers(front, x);
      assert s == front + [s[|s| - 1]];
    }
  }

  /** Adding a slot adds its date to the entry dates exactly when the date
      is new, as keeping first occurrences does. */
  lemma AddSlotOrder(groups: seq<DateGroup>, prefix: seq<PickupSlot>, s: PickupSlot, next: seq<PickupSlot>)
    requires next == prefix + [s]
    requires GroupDates(groups) == FirstOccurrences(SlotDates(prefix))
    ensures GroupDates(AddSlot(groups, s)) == FirstOccurrences(SlotDates(next))
  {
    var before := SlotDates(prefix);
    var after := SlotDates(next);
    assert after == before + [s.date];
    assert after[..|after| - 1] == before;
    FirstOccurrencesMembers(before, s.date);
    var r := AddSlot(groups, s);
    match GroupIndex(groups, s.date)
    case Some(j) =>
      assert GroupDates(groups)[j] == s.date;
      assert GroupDates(r) == GroupDates(groups);
    case None =>
      assert s.date !in GroupDates(groups);
      assert GroupDates(r) == GroupDates(groups) + [s.date];
  }

  /** The first `n` slots are the first `n - 1` and one more. */
  lemma PrefixGrows(slots: seq<PickupSlot>, n: nat)
    requires 0 < n <= |slots|
    ensures slots[..n] == slots[..n - 1] + [slots[n - 1]]
  {
  }

  lemma WholeList(slots: seq<PickupSlot>)
    ensures slots[..|slots|] == slots
  {
  }

  /** A date none of the slots carries filters to nothing. */
  lemma {:induction false} FilterNoDate(slots: seq<PickupSlot>, d: string)
    requires forall k :: 0 <= k < |slots| ==> slots[k].date != d
    ensures Filter(slots, OnDate(d)) == []
    decreases |slots|
  {
    if slots != [] {
      FilterNoDate(slots[1..], d);
    }
  }

  // ---------------------------------------------------------------------
  // Summary cards and the delete button
  // ---------------------------------------------------------------------

  function IsOpen(): PickupSlot -> bool { (s: PickupSlot) => s.isAvailable }
  function IsFull(): PickupSlot -> bool { (s: PickupSlot) => !s.isAvailable }

  /** The "Available Slots" and "Fully Booked" cards count complementary
      slots, so together they make the "Total Slots" card. */
  lemma CardsAddUp(slots: seq<PickupSlot>)
    ensures Count(slots, IsOpen()) + Count(slots, IsFull()) == |slots|
  {
    CountSplit(slots, IsOpen(), IsFull());
  }

  /** The "Total Bookings" card: the sum of the slots' bookings. */
  function TotalBookings(slots: seq<PickupSlot>): int {
    if slots == [] then 0 else slots[0].currentBookings + TotalBookings(slots[1..])
  }

  /** The delete button is enabled only for a slot with no bookings. */
  predicate CanDelete(s: PickupSlot) {
    !(s.currentBookings > 0)
  }

  function Deletable(): PickupSlot -> bool { (s: PickupSlot) => CanDelete(s) }

  /** Every booking sits in a slot that cannot be deleted: with no negative
      counts, the deletable slots hold no bookings and the others hold them
      all. */
  lemma {:induction false} BookingsAreInUndeletableSlots(slots: seq<PickupSlot>)
    requires forall k :: 0 <= k < |slots| ==> slots[k].currentBookings >= 0
    ensures TotalBookings(Filter(slots, Deletable())) == 0
    ensures TotalBookings(Filter(slots, (s: PickupSlot) => !CanDelete(s))) == TotalBookings(slots)
    decreases |slots|
  {
    if slots != [] {
      BookingsAreInUndeletableSlots(slots[1..]);
    }
  }

  /** With every slot within its capacity, the bookings never exceed the
      total capacity. */
  lemma {:induction false} BookingsWithinCapacity(slots: seq<PickupSlot>)
    requires forall k :: 0 <= k < |slots| ==> slots[k].currentBookings <= slots[k].maxCapacity
    ensures TotalBookings(slots) <= TotalCapacity(slots)
    decreases |slots|
  {
    if slots != [] {
      BookingsWithinCapacity(slots[1..]);
    }
  }

  function TotalCapacity(slots: seq<PickupSlot>): int {
    if slots == [] then 0 else slots[0].maxCapacity + TotalCapacity(slots[1..])
  }
}
