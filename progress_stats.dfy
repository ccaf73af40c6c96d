/** The `ProgressStats` entity and its `EmotionTrend` and `SkillUsage` value
    objects: a user's statistics over a date range. Counters are JavaScript
    numbers and are modelled as `real`. */
module Progress {
  import opened Common
  import opened Ids

  datatype Trend = Increasing | Decreasing | Stable

  datatype EmotionTrend = EmotionTrend(emotionName: string, averageIntensity: real, trend: Trend)

  datatype SkillUsage = SkillUsage(skillId: string, skillName: string, count: real)

  /** `validate`: the user id, the two dates, their order, then the three
      counters; the first failing check gives the message. */
  function ValidateStats(userId: string, startDate: Date, endDate: Date,
                         totalDiaryEntries: real, totalExercisesCompleted: real, streakDays: real): (r: Outcome)
    ensures r.Pass? <==>
      && !IsBlank(userId)
      && startDate.Time? && endDate.Time? && startDate.ms <= endDate.ms
      && totalDiaryEntries >= 0.0 && totalExercisesCompleted >= 0.0 && streakDays >= 0.0
    ensures IsBlank(userId) ==> r == Fail("User ID cannot be empty")
    ensures !IsBlank(userId) && startDate.InvalidDate? ==> r == Fail("Invalid start date")
    ensures !IsBlank(userId) && startDate.Time? && endDate.InvalidDate? ==> r == Fail("Invalid end date")
    ensures !IsBlank(userId) && startDate.Time? && endDate.Time? && startDate.ms > endDate.ms ==>
      r == Fail("Start date cannot be after end date")
    ensures !IsBlank(userId) && startDate.Time? && endDate.Time? && startDate.ms <= endDate.ms ==>
      && (totalDiaryEntries < 0.0 ==> r == Fail("Total diary entries cannot be negative"))
      && (totalDiaryEntries >= 0.0 && totalExercisesCompleted < 0.0 ==>
            r == Fail("Total exercises completed cannot be negative"))
      && (totalDiaryEntries >= 0.0 && totalExercisesCompleted >= 0.0 && streakDays < 0.0 ==>
            r == Fail("Streak days cannot be negative"))
  {
    if IsBlank(userId) then Fail("User ID cannot be empty")
    else if startDate.InvalidDate? then Fail("Invalid start date")
    else if endDate.InvalidDate? then Fail("Invalid end date")
    else if startDate.ms > endDate.ms then Fail("Start date cannot be after end date")
    else if totalDiaryEntries < 0.0 then Fail("Total diary entries cannot be negative")
    else if totalExercisesCompleted < 0.0 then Fail("Total exercises completed cannot be negative")
    else if streakDays < 0.0 then Fail("Streak days cannot be negative")
    else Pass
  }

  /** `x || 0` on a number: a missing value or zero gives zero. */
  function OrZero(x: Option<real>): (r: real)
    ensures x.None? ==> r == 0.0
    ensures x.Some? ==> r == x.value
  {
    if x.Some? then x.value else 0.0
  }

  datatype StatsProps = StatsProps(
    id: Option<string>,
    userId: string,
    startDate: Date,
    endDate: Date,
    emotionTrends: Option<seq<EmotionTrend>>,
    skillUsage: Option<seq<SkillUsage>>,
    totalDiaryEntries: Option<real>,
    totalExercisesCompleted: Option<real>,
    streakDays: Option<real>)

  class ProgressStats {
    const id: UniqueId
    const userId: string
    const startDate: Date
    const endDate: Date
    var emotionTrends: seq<EmotionTrend>
    var skillUsage: seq<SkillUsage>
    var totalDiaryEntries: real
    var totalExercisesCompleted: real
    var streakDays: real

    ghost predicate Valid()
      reads this
    {
      id.Valid() &&
      ValidateStats(userId, startDate, endDate, totalDiaryEntries, totalExercisesCompleted, streakDays).Pass?
    }

    /** The constructor after `validate` has passed. */
    constructor (id: UniqueId, userId: string, startDate: Date, endDate: Date,
                 emotionTrends: seq<EmotionTrend>, skillUsage: seq<SkillUsage>,
                 totalDiaryEntries: real, totalExercisesCompleted: real, streakDays: real)
      requires id.Valid()
      requires ValidateStats(userId, startDate, endDate, totalDiaryEntries, totalExercisesCompleted, streakDays).Pass?
      ensures Valid()
      ensures this.id == id && this.userId == userId && this.startDate == startDate && this.endDate == endDate
      ensures this.emotionTrends == emotionTrends && this.skillUsage == skillUsage
      ensures this.totalDiaryEntries == totalDiaryEntries
      ensures this.totalExercisesCompleted == totalExercisesCompleted && this.streakDays == streakDays
    {
      this.id, this.userId, this.startDate, this.endDate := id, userId, startDate, endDate;
      this.emotionTrends, this.skillUsage := emotionTrends, skillUsage;
      this.totalDiaryEntries, this.totalExercisesCompleted, this.streakDays :=
        totalDiaryEntries, totalExercisesCompleted, streakDays;
    }

    /** `ProgressStats.create`: missing lists become empty and missing counters zero. */
    static method Create(props: StatsProps, rnd: nat -> Nibble) returns (r: Result<ProgressStats>)
      ensures var v := ValidateStats(props.userId, props.startDate, props.endDate,
                                     OrZero(props.totalDiaryEntries), OrZero(props.totalExercisesCompleted),
                                     OrZero(props.streakDays));
        (r.Err? <==> v.Fail?) && (v.Fail? ==> r.error == v.error)
      ensures r.Ok? ==>
        && fresh(r.value) && r.value.Valid()
        && r.value.id == NewUniqueId(props.id, rnd)
        && r.value.userId == props.userId
        && r.value.startDate == props.startDate && r.value.endDate == props.endDate
        && r.value.emotionTrends == props.emotionTrends.GetOr([])
        && r.value.skillUsage == props.skillUsage.GetOr([])
        && r.value.totalDiaryEntries == OrZero(props.totalDiaryEntries)
        && r.value.totalExercisesCompleted == OrZero(props.totalExercisesCompleted)
        && r.value.streakDays == OrZero(props.streakDays)
    {
      var diary, exercises, streak :=
        OrZero(props.totalDiaryEntries), OrZero(props.totalExercisesCompleted), OrZero(props.streakDays);
      var v := ValidateStats(props.userId, props.startDate, props.endDate, diary, exercises, streak);
      if v.Fail? {
        return Err(v.error);
      }
      var s := new ProgressStats(NewUniqueId(props.id, rnd), props.userId, props.startDate, props.endDate,
                                 props.emotionTrends.GetOr([]), props.skillUsage.GetOr([]),
                                 diary, exercises, streak);
      return Ok(s);
    }

    /** `updateEmotionTrends`: replaces the list without checks. */
    method UpdateEmotionTrends(emotionTrends: seq<EmotionTrend>)
      requires Valid()
      modifies this`emotionTrends
      ensures Valid() && this.emotionTrends == emotionTrends
    {
      this.emotionTrends := emotionTrends;
    }

    /** `updateSkillUsage`: replaces the list without checks. */
    method UpdateSkillUsage(skillUsage: seq<SkillUsage>)
      requires Valid()
      modifies this`skillUsage
      ensures Valid() && this.skillUsage == skillUsage
    {
      this.skillUsage := skillUsage;
    }

    /** `incrementDiaryEntries`: the counter grows by one and stays non-negative. */
    method IncrementDiaryEntries()
      requires Valid()
      modifies this`totalDiaryEntries
      ensures Valid()
      ensures totalDiaryEntries == old(totalDiaryEntries) + 1.0 && totalDiaryEntries >= 1.0
    {
      totalDiaryEntries := totalDiaryEntries + 1.0;
    }

    /** `incrementExercisesCompleted`: the counter grows by one and stays non-negative. */
    method IncrementExercisesCompleted()
      requires Valid()
      modifies this`totalExercisesCompleted
      ensures Valid()
      ensures totalExercisesCompleted == old(totalExercisesCompleted) + 1.0 && totalExercisesCompleted >= 1.0
    {
      totalExercisesCompleted := totalExercisesCompleted + 1.0;
    }

    /** `updateStreakDays`: a negative value is rejected and the old one kept. */
    method UpdateStreakDays(streakDays: real) returns (r: Outcome)
      requires Valid()
      modifies this`streakDays
      ensures Valid()
      ensures r.Fail? <==> streakDays < 0.0
      ensures r.Fail? ==> r.error == "Streak days cannot be negative" && this.streakDays == old(this.streakDays)
      ensures r.Pass? ==> this.streakDays == streakDays
    {
      if streakDays < 0.0 {
        return Fail("Streak days cannot be negative");
      }
      this.streakDays := streakDays;
      return Pass;
    }
  }
}
