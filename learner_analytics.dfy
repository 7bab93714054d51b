/**
 * The learner-analytics page's weekly engagement streak and graded schedule:
 * a day counts as active when any of its four activity counts is positive, the
 * most-recent-first timeline is cut into consecutive seven-day buckets, and
 * the streak is the number of leading buckets holding an active day.
 */
module LearnerAnalytics {
  import opened Base

  // ---------------------------------------------------------------------------
  // Daily activity
  // ---------------------------------------------------------------------------

  /** One entry of an engagement timeline: the day's four activity counts. */
  datatype DailyActivity = DailyActivity(problemsAttempted: int, problemsCompleted: int,
                                         discussionContributions: int, videosViewed: int)

  /** has_activity: some count of the day is positive. */
  predicate HasActivity(day: DailyActivity) {
    || day.problemsAttempted > 0
    || day.problemsCompleted > 0
    || day.discussionContributions > 0
    || day.videosViewed > 0
  }

  // ---------------------------------------------------------------------------
  // Seven-day buckets
  // ---------------------------------------------------------------------------

  /** The slices `days[i:i + 7]` for i = 0, 7, 14, ... below the length. */
  function SevenDayBuckets<T>(days: seq<T>): seq<seq<T>>
    decreases |days|
  {
    if |days| == 0 then []
    else if |days| <= 7 then [days]
    else [days[..7]] + SevenDayBuckets(days[7..])
  }

  function Min(a: int, b: int): int {
    if a <= b then a else b
  }

  /** Bucket k is Python's clamped slice `days[7 * k:7 * k + 7]`, and there are ceil(len / 7) of them. */
  lemma {:induction false} BucketAt<T>(days: seq<T>, k: nat)
    ensures |SevenDayBuckets(days)| == (|days| + 6) / 7
    ensures k < |SevenDayBuckets(days)| ==>
              7 * k < |days| &&
              SevenDayBuckets(days)[k] == days[7 * k .. Min(7 * k + 7, |days|)]
    decreases |days|
  {
    if |days| > 7 {
      var rest := days[7..];
      if k == 0 {
        BucketAt(rest, 0);
      } else {
        BucketAt(rest, k - 1);
        if k < |SevenDayBuckets(days)| {
          assert SevenDayBuckets(days)[k] == SevenDayBuckets(rest)[k - 1];
          assert rest[7 * (k - 1) .. Min(7 * (k - 1) + 7, |rest|)]
              == days[7 * k .. Min(7 * k + 7, |days|)];
        }
      }
    }
  }

  /** Every bucket holds one to seven days, and all but the last hold exactly seven. */
  lemma {:induction false} BucketSizes<T>(days: seq<T>)
    ensures forall k :: 0 <= k < |SevenDayBuckets(days)| ==>
              1 <= |SevenDayBuckets(days)[k]| <= 7
    ensures forall k :: 0 <= k < |SevenDayBuckets(days)| - 1 ==> |SevenDayBuckets(days)[k]| == 7
    decreases |days|
  {
    if |days| > 7 {
      BucketSizes(days[7..]);
    }
  }

  /** The pieces in order, glued back together. */
  function Flatten<T>(pieces: seq<seq<T>>): seq<T> {
    if pieces == [] then [] else pieces[0] + Flatten(pieces[1..])
  }

  /** The buckets put back together are the days: nothing dropped, duplicated or moved. */
  lemma {:induction false} BucketsFlatten<T>(days: seq<T>)
    ensures Flatten(SevenDayBuckets(days)) == days
    decreases |days|
  {
    if |days| > 7 {
      var buckets := SevenDayBuckets(days);
      assert buckets[1..] == SevenDayBuckets(days[7..]);
      BucketsFlatten(days[7..]);
      assert days[..7] + days[7..] == days;
    } else if |days| > 0 {
      assert SevenDayBuckets(days)[1..] == [];
    }
  }

  // ---------------------------------------------------------------------------
  // The week streak
  // ---------------------------------------------------------------------------

  /** `any(has_activity(day) for day in bucket)`. */
  predicate AnyActive(bucket: seq<DailyActivity>) {
    exists i :: 0 <= i < |bucket| && HasActivity(bucket[i])
  }

  /** How many buckets, from the first, hold an active day before the first that holds none. */
  function LeadingActive(buckets: seq<seq<DailyActivity>>): nat {
    if buckets == [] || !AnyActive(buckets[0]) then 0 else 1 + LeadingActive(buckets[1..])
  }

  /** The streak calculate_week_streak promises for a timeline. */
  function WeekStreak(days: seq<DailyActivity>): nat {
    LeadingActive(SevenDayBuckets(days))
  }

  /**
   * The streak is n exactly when the first n buckets are active and bucket n,
   * if there is one, is not: counting stops at the first inactive bucket.
   */
  lemma {:induction false} LeadingActiveIff(buckets: seq<seq<DailyActivity>>, n: nat)
    ensures LeadingActive(buckets) == n <==>
              && n <= |buckets|
              && (forall k :: 0 <= k < n ==> AnyActive(buckets[k]))
              && (n < |buckets| ==> !AnyActive(buckets[n]))
  {
    if buckets != [] && n > 0 {
      var rest := buckets[1..];
      LeadingActiveIff(rest, n - 1);
      if n <= |buckets| {
        assert forall k :: 0 <= k < n - 1 ==> rest[k] == buckets[k + 1];
        assert n - 1 < |rest| ==> rest[n - 1] == buckets[n];
        if forall k :: 0 <= k < n ==> AnyActive(buckets[k]) {
          assert AnyActive(buckets[0]);
          assert forall k :: 0 <= k < n - 1 ==> AnyActive(rest[k]);
        }
      }
    }
  }

  /** The streak never exceeds the number of weeks, and reaches it exactly when every week is active. */
  lemma WeekStreakBound(days: seq<DailyActivity>)
    ensures WeekStreak(days) <= (|days| + 6) / 7
    ensures WeekStreak(days) == (|days| + 6) / 7 <==>
              forall k :: 0 <= k < |SevenDayBuckets(days)| ==> AnyActive(SevenDayBuckets(days)[k])
  {
    var buckets := SevenDayBuckets(days);
    BucketAt(days, 0);
    LeadingActiveIff(buckets, WeekStreak(days));
    LeadingActiveIff(buckets, |buckets|);
  }

  /** The streak has begun exactly when some day among the first (up to) seven is active. */
  lemma StreakStartsIffFirstWeekActive(days: seq<DailyActivity>)
    ensures WeekStreak(days) >= 1 <==> exists i :: 0 <= i < Min(7, |days|) && HasActivity(days[i])
  {
    if days != [] {
      FirstBucket(days);
      var first := SevenDayBuckets(days)[0];
      assert forall i :: 0 <= i < |first| ==> first[i] == days[i];
    }
  }

  /** A timeline on which no day has activity has no streak, however long it is. */
  lemma InactiveTimelineNoStreak(days: seq<DailyActivity>)
    requires forall i :: 0 <= i < |days| ==> !HasActivity(days[i])
    ensures WeekStreak(days) == 0
  {
    StreakStartsIffFirstWeekActive(days);
  }

  /** A timeline on which every day has activity has the full streak of ceil(len / 7) weeks. */
  lemma ActiveTimelineFullStreak(days: seq<DailyActivity>)
    requires forall i :: 0 <= i < |days| ==> HasActivity(days[i])
    ensures WeekStreak(days) == (|days| + 6) / 7
  {
    WeekStreakBound(days);
    forall k | 0 <= k < |SevenDayBuckets(days)|
      ensures AnyActive(SevenDayBuckets(days)[k])
    {
      BucketAt(days, k);
      assert SevenDayBuckets(days)[k][0] == days[7 * k];
    }
  }

  /** calculate_week_streak: walk the buckets and stop at the first without activity. */
  method CalculateWeekStreak(dailyActivities: seq<DailyActivity>) returns (weekStreak: nat)
    ensures weekStreak == WeekStreak(dailyActivities)
    ensures dailyActivities == [] ==> weekStreak == 0
  {
    weekStreak := 0;
    var sevenDayBuckets := SevenDayBuckets(dailyActivities);
    for i := 0 to |sevenDayBuckets|
      invariant weekStreak == i
      invariant forall k :: 0 <= k < i ==> AnyActive(sevenDayBuckets[k])
    {
      if AnyActive(sevenDayBuckets[i]) {
        weekStreak := weekStreak + 1;
      } else {
        LeadingActiveIff(sevenDayBuckets, i);
        return;
      }
    }
    LeadingActiveIff(sevenDayBuckets, |sevenDayBuckets|);
  }

  // ---------------------------------------------------------------------------
  // The engagement timeline
  // ---------------------------------------------------------------------------

  /** `list(reversed(s))`. */
  function Reversed<T>(s: seq<T>): (r: seq<T>)
    ensures |r| == |s|
    ensures forall i :: 0 <= i < |s| ==> r[i] == s[|s| - 1 - i]
  {
    if s == [] then [] else Reversed(s[1..]) + [s[0]]
  }

  /** Reversing twice gives the timeline back. */
  lemma ReversedTwice<T>(s: seq<T>)
    ensures Reversed(Reversed(s)) == s
  {
    assert forall i :: 0 <= i < |s| ==> Reversed(Reversed(s))[i] == s[i];
  }

  /**
   * The first bucket of the reversed timeline is the latest seven days (or
   * fewer), newest first: the streak counts back from the most recent day.
   */
  lemma LatestWeekFirst(days: seq<DailyActivity>)
    requires days != []
    ensures SevenDayBuckets(Reversed(days))[0] == Reversed(days[|days| - Min(7, |days|)..])
  {
    FirstBucket(Reversed(days));
    ReversedSuffix(days, Min(7, |days|));
  }

  /** The first bucket is the first seven entries, or all of them when there are fewer. */
  lemma FirstBucket<T>(s: seq<T>)
    requires s != []
    ensures SevenDayBuckets(s)[0] == s[..Min(7, |s|)]
  {
    if |s| <= 7 {
      assert s[..|s|] == s;
    }
  }

  /** The reversal of the last m entries is the first m entries of the reversal. */
  lemma {:induction false} ReversedSuffix<T>(s: seq<T>, m: nat)
    requires m <= |s|
    ensures Reversed(s[|s| - m..]) == Reversed(s)[..m]
  {
    if m == |s| {
      assert s[0..] == s;
      assert Reversed(s)[..|s|] == Reversed(s);
    } else {
      var rest := s[1..];
      ReversedSuffix(rest, m);
      assert rest[|rest| - m..] == s[|s| - m..];
      assert (Reversed(rest) + [s[0]])[..m] == Reversed(rest)[..m];
    }
  }

  /**
   * consecutive_weeks_of_course_activity_for_user, with the cache read and the
   * analytics response as inputs: a cached timeline that is missing or empty
   * is fetched again; a response without days gives 0 and caches nothing;
   * otherwise the days are reversed to most-recent-first, cached, and the
   * streak is computed over them. `fetched` says whether the response was
   * requested, `stored` what was written to the cache.
   */
  method ConsecutiveWeeksOfCourseActivity(cached: Option<seq<DailyActivity>>, responseDays: Option<seq<DailyActivity>>)
    returns (weeks: nat, fetched: bool, stored: Option<seq<DailyActivity>>)
    ensures fetched <==> cached.None? || cached.value == []
    ensures !fetched ==> weeks == WeekStreak(cached.value) && stored == None
    ensures fetched && (responseDays.None? || responseDays.value == []) ==> weeks == 0 && stored == None
    ensures fetched && responseDays.Some? && responseDays.value != [] ==>
              stored == Some(Reversed(responseDays.value)) && weeks == WeekStreak(Reversed(responseDays.value))
  {
    var timeline := cached.GetOr([]);
    fetched := false;
    stored := None;
    if timeline == [] {
      fetched := true;
      if responseDays.None? || responseDays.value == [] {
        return 0, fetched, stored;
      }
      var dataOrderedByDateDescending := Reversed(responseDays.value);
      stored := Some(dataOrderedByDateDescending);
      timeline := dataOrderedByDateDescending;
    }
    weeks := CalculateWeekStreak(timeline);
  }

  // ---------------------------------------------------------------------------
  // The graded schedule
  // ---------------------------------------------------------------------------

  /** A point in time as the course blocks API returns it. */
  datatype Moment = Moment(epochSeconds: int)

  /** A sequential block with the fields get_schedule requests. */
  datatype Block = Block(displayName: string, format: string, graded: bool, due: Option<Moment>)

  /** A scheduled block as get_schedule returns it: its due date rendered in ISO 8601. */
  datatype ScheduledBlock = ScheduledBlock(displayName: string, format: string, graded: bool, due: string)

  /** The block is graded and has a due date. */
  predicate IsScheduled(block: Block) {
    block.graded && block.due.Some?
  }

  /** The block with its due date replaced by the date's isoformat(). */
  function WithIsoDue(block: Block, isoformat: Moment -> string): ScheduledBlock
    requires block.due.Some?
  {
    ScheduledBlock(block.displayName, block.format, block.graded, isoformat(block.due.value))
  }

  /**
   * get_schedule's filter, with the blocks API result as input: exactly the
   * graded blocks that have a due date, under their own locations, with the
   * due date rendered.
   */
  method GetSchedule(blocks: map<string, Block>, isoformat: Moment -> string)
    returns (gradedBlocks: map<string, ScheduledBlock>)
    ensures gradedBlocks.Keys == set location | location in blocks && IsScheduled(blocks[location])
    ensures forall location :: location in gradedBlocks ==>
              IsScheduled(blocks[location]) && gradedBlocks[location] == WithIsoDue(blocks[location], isoformat)
  {
    gradedBlocks := map[];
    var remaining := blocks.Keys;
    while remaining != {}
      invariant remaining <= blocks.Keys
      invariant gradedBlocks.Keys == set location | location in blocks && location !in remaining
                                                    && IsScheduled(blocks[location])
      invariant forall location :: location in gradedBlocks ==>
                  IsScheduled(blocks[location]) && gradedBlocks[location] == WithIsoDue(blocks[location], isoformat)
      decreases remaining
    {
      var location :| location in remaining;
      var block := blocks[location];
      if block.graded && block.due.Some? {
        gradedBlocks := gradedBlocks[location := WithIsoDue(block, isoformat)];
      }
      remaining := remaining - {location};
    }
  }
}
