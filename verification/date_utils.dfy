/** Time arithmetic of src/lib/date-utils.ts over integer minutes.
    An instant or time of day that date-fns parses is an `Option<int>`:
    `None` stands for an unparsable text, which date-fns turns into an
    Invalid Date that every comparison rejects. */
module DateUtils {
  import opened Wrappers
  import opened Types

  /** Default cancellation window, in hours before pickup. */
  const DefaultCancelHours: int := 2

  /** A pickup slot must start at least this many minutes from now. */
  const MinLeadMinutes: int := 30

  /** Default spacing of pickup slots, in minutes. */
  const DefaultSlotInterval: int := 30

  /** Cancellation is allowed while more than `hoursBeforePickup` hours remain
      before pickup (src/lib/date-utils.ts:78-87). */
  function CanCancelOrder(pickup: Option<int>, now: int, hoursBeforePickup: int): (r: bool)
    ensures r ==> pickup.Some?
    ensures hoursBeforePickup >= 0 && r ==> pickup.value > now
  {
    match pickup
    case None => false
    case Some(at) => at - now > hoursBeforePickup * 60
  }

  /** `canCancelOrder` with its default of two hours. */
  function CanCancelOrderDefault(pickup: Option<int>, now: int): bool {
    CanCancelOrder(pickup, now, DefaultCancelHours)
  }

  /** With the default window, cancellation needs strictly more than 120
      minutes: exactly two hours ahead is already too late, and an unparsable
      pickup or one at or before now never qualifies. */
  lemma CancelWindowBoundary(pickup: Option<int>, now: int)
    ensures CanCancelOrderDefault(pickup, now) <==> pickup.Some? && pickup.value - now > 120
    ensures CanCancelOrderDefault(Some(now + 120), now) == false
    ensures CanCancelOrderDefault(Some(now + 121), now) == true
    ensures pickup.Some? && pickup.value <= now ==> !CanCancelOrderDefault(pickup, now)
    ensures CanCancelOrderDefault(None, now) == false
  {
  }

  /** Cancellation stays allowed when asked earlier or for a later pickup. */
  lemma CancelMonotone(at: int, at2: int, now: int, now2: int, hours: int)
    requires CanCancelOrder(Some(at), now, hours)
    requires now2 <= now && at <= at2
    ensures CanCancelOrder(Some(at2), now2, hours)
  {
  }

  /** Ordering is open while now is strictly before the session start minus
      the cutoff (src/lib/date-utils.ts:43-49). */
  function CanPlaceOrder(sessionStart: Option<int>, cutoffMinutes: int, now: int): (r: bool)
    ensures r ==> sessionStart.Some? && now + cutoffMinutes < sessionStart.value
    ensures sessionStart.Some? && now + cutoffMinutes < sessionStart.value ==> r
  {
    match sessionStart
    case None => false
    case Some(start) => now < start - cutoffMinutes
  }

  /** Now lies strictly between the session's start and end
      (src/lib/date-utils.ts:34-40). */
  function IsWithinSessionTime(start: Option<int>, end: Option<int>, now: int): (r: bool)
    ensures r <==> start.Some? && end.Some? && start.value < now < end.value
  {
    start.Some? && end.Some? && now > start.value && now < end.value
  }

  /** Both ends of a session are excluded. */
  lemma SessionBoundsExcluded(start: int, end: int)
    ensures !IsWithinSessionTime(Some(start), Some(end), start)
    ensures !IsWithinSessionTime(Some(start), Some(end), end)
  {
  }

  /** The weekday of the date is one of the listed days
      (src/lib/date-utils.ts:95-98); the weekday itself is an input. */
  function IsAvailableOnDay(availableDays: seq<DayOfWeek>, day: DayOfWeek): (r: bool)
    ensures r <==> exists i :: 0 <= i < |availableDays| && availableDays[i] == day
  {
    day in availableDays
  }

  /** The `k`-th point of the grid `start, start + interval, ...`. */
  function GridPoint(start: int, interval: int, k: nat): int {
    start + k * interval
  }

  /** `t` is a point of the grid from `start` in steps of `interval`, before `end`. */
  ghost predicate OnGrid(start: int, end: int, interval: int, t: int) {
    t < end && exists k: nat :: t == GridPoint(start, interval, k)
  }

  /** A grid point that is also at least `MinLeadMinutes` after now. */
  ghost predicate OfferedSlot(start: int, end: int, interval: int, now: int, t: int) {
    OnGrid(start, end, interval, t) && t - now >= MinLeadMinutes
  }

  /** A multiple of a positive number that lies in [0, m) is zero. */
  lemma SmallMultiple(d: int, m: int)
    requires m > 0 && 0 <= d * m < m
    ensures d == 0
  {
  }

  /** Between two consecutive grid points there is no other grid point. */
  lemma GridStep(start: int, interval: int, k: nat, t: int)
    requires interval > 0
    requires GridPoint(start, interval, k) <= t < GridPoint(start, interval, k) + interval
    requires exists j: nat :: t == GridPoint(start, interval, j)
    ensures t == GridPoint(start, interval, k)
  {
    var j: nat :| t == GridPoint(start, interval, j);
    assert t - GridPoint(start, interval, k) == (j - k) * interval;
    SmallMultiple(j - k, interval);
  }

  /** One turn of the slot loop: the offered grid points seen so far grow by
      the current point exactly when it is far enough ahead. */
  lemma AdvanceGrid(s: int, e: int, interval: int, now: int, k: nat, slots: seq<int>, next: seq<int>)
    requires interval > 0 && GridPoint(s, interval, k) < e
    requires forall t :: t in slots <==>
      OfferedSlot(s, e, interval, now, t) && t < GridPoint(s, interval, k)
    requires next == if GridPoint(s, interval, k) - now >= MinLeadMinutes
      then slots + [GridPoint(s, interval, k)] else slots
    ensures GridPoint(s, interval, k + 1) == GridPoint(s, interval, k) + interval
    ensures forall t :: t in next <==>
      OfferedSlot(s, e, interval, now, t) && t < GridPoint(s, interval, k + 1)
  {
    var cur := GridPoint(s, interval, k);
    assert GridPoint(s, interval, k + 1) == cur + interval;
    forall t
      ensures t in next <==> OfferedSlot(s, e, interval, now, t) && t < cur + interval
    {
      if t < cur {
        assert t in next <==> t in slots;
      } else if t == cur {
        assert OnGrid(s, e, interval, t);
      } else {
        assert t !in slots;
        assert t !in next;
        if t < cur + interval && OfferedSlot(s, e, interval, now, t) {
          GridStep(s, interval, k, t);
        }
      }
    }
  }

  /** The pickup times of a session (src/lib/date-utils.ts:52-75): the grid
      from `start` in steps of `interval` strictly before `end`, keeping only
      points at least 30 minutes after now. Points that are too soon are
      dropped, never moved. With an unparsable start or end nothing is offered. */
  method GetTimeSlots(start: Option<int>, end: Option<int>, now: int, interval: int)
      returns (slots: seq<int>)
    requires start.Some? && end.Some? && start.value < end.value ==> interval > 0
    ensures start.None? || end.None? || start.value >= end.value ==> slots == []
    ensures interval > 0 && start.Some? && end.Some? ==>
      forall t :: t in slots <==> OfferedSlot(start.value, end.value, interval, now, t)
    ensures forall i, j :: 0 <= i < j < |slots| ==> slots[i] < slots[j]
    ensures forall i :: 0 <= i < |slots| ==> slots[i] - now >= MinLeadMinutes
  {
    slots := [];
    if start.None? || end.None? || start.value >= end.value {
      if interval > 0 && start.Some? && end.Some? {
        forall t | OnGrid(start.value, end.value, interval, t)
          ensures false
        {
          var k: nat :| t == GridPoint(start.value, interval, k);
        }
      }
      return;
    }
    var s, e := start.value, end.value;
    var current := s;
    ghost var k: nat := 0;
    while current < e
      invariant current == GridPoint(s, interval, k)
      invariant forall i :: 0 <= i < |slots| ==> slots[i] < current && slots[i] - now >= MinLeadMinutes
      invariant forall i, j :: 0 <= i < j < |slots| ==> slots[i] < slots[j]
      invariant forall t :: t in slots <==> OfferedSlot(s, e, interval, now, t) && t < current
      decreases e - current
    {
      var next := if current - now >= MinLeadMinutes then slots + [current] else slots;
      AdvanceGrid(s, e, interval, now, k, slots, next);
      slots := next;
      current := current + interval;
      k := k + 1;
    }
  }
}
