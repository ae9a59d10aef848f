/** The featured items of the home page (src/pages/Home.tsx): the menu
    items offered today, the first four of them. Today's weekday is an
    input. */
module Home {
  import opened Types
  import opened Seqs
  import DateUtils

  function OfferedOn(day: DayOfWeek): MenuItem -> bool {
    (m: MenuItem) => DateUtils.IsAvailableOnDay(m.availableDays, day)
  }

  /** `slice(0, 4)`: at most the first four. */
  function Take(s: seq<MenuItem>, n: nat): (r: seq<MenuItem>)
    ensures |r| == if |s| < n then |s| else n
    ensures r == s[..|r|]
  {
    if |s| <= n then s else s[..n]
  }

  /** `loadFeaturedItems`. */
  function FeaturedItems(items: seq<MenuItem>, today: DayOfWeek): (r: seq<MenuItem>)
    ensures |r| <= 4
    ensures forall i :: 0 <= i < |r| ==> today in r[i].availableDays
    ensures |r| <= Count(items, OfferedOn(today))
    ensures r == Filter(items, OfferedOn(today))[..|r|]
    ensures Count(items, OfferedOn(today)) >= 4 ==> |r| == 4
    ensures Count(items, OfferedOn(today)) < 4 ==> r == Filter(items, OfferedOn(today))
  {
    Take(Filter(items, OfferedOn(today)), 4)
  }

  /** The featured items appear in the menu's order and come from it. */
  lemma FeaturedInMenuOrder(items: seq<MenuItem>, today: DayOfWeek)
    ensures IsSubsequence(FeaturedItems(items, today), items)
  {
    var all := Filter(items, OfferedOn(today));
    FilterIsSubsequence(items, OfferedOn(today));
    PrefixIsSubsequence(all, |FeaturedItems(items, today)|, items);
  }

  /** A prefix of a subsequence is a subsequence. */
  lemma {:induction false} PrefixIsSubsequence(a: seq<MenuItem>, k: nat, b: seq<MenuItem>)
    requires k <= |a| && IsSubsequence(a, b)
    ensures IsSubsequence(a[..k], b)
    decreases |b|
  {
    if k > 0 {
      assert b != [];
      if a[0] == b[0] {
        PrefixIsSubsequence(a[1..], k - 1, b[1..]);
        assert a[..k][1..] == a[1..][..k - 1];
      } else {
        PrefixIsSubsequence(a, k, b[1..]);
      }
    }
  }
}
