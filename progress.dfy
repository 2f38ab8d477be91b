/** The progress page: the overall yearly-goal percentage, the per-category bars, the
    goal form's schema and its initial values, and the page's own wisdom helpers. */
module Progress {
  import opened Common
  import UserCard

  /** A count of the yearly goal as the page receives it: absent, `null`, or a number. */
  datatype Count = Undefined | Null | Value(n: real)

  /** A count read with a fallback of 0 (absent, `null` and 0 all give 0). */
  function OrZero(c: Count): real {
    if c.Value? then c.n else 0.0
  }

  datatype GoalView = GoalView(
    booksTarget: Count, coursesTarget: Count, debatesTarget: Count, podcastsTarget: Count,
    booksCompleted: Count, coursesCompleted: Count, debatesCompleted: Count, podcastsCompleted: Count)

  datatype Category = Books | Courses | Debates | Podcasts

  function Target(g: GoalView, c: Category): Count {
    match c
    case Books => g.booksTarget
    case Courses => g.coursesTarget
    case Debates => g.debatesTarget
    case Podcasts => g.podcastsTarget
  }

  function Completed(g: GoalView, c: Category): Count {
    match c
    case Books => g.booksCompleted
    case Courses => g.coursesCompleted
    case Debates => g.debatesCompleted
    case Podcasts => g.podcastsCompleted
  }

  function TotalTargets(g: GoalView): real {
    OrZero(g.booksTarget) + OrZero(g.coursesTarget) + OrZero(g.debatesTarget) + OrZero(g.podcastsTarget)
  }

  function TotalCompleted(g: GoalView): real {
    OrZero(g.booksCompleted) + OrZero(g.coursesCompleted) + OrZero(g.debatesCompleted) + OrZero(g.podcastsCompleted)
  }

  /** `getProgressPercentage()`: completed over targets, in percent, 0 without a goal or targets. Not clamped. */
  function ProgressPercentage(goal: Option<GoalView>): (p: real)
    ensures goal.None? ==> p == 0.0
    ensures goal.Some? && TotalTargets(goal.value) <= 0.0 ==> p == 0.0
    ensures goal.Some? && TotalTargets(goal.value) > 0.0 ==>
      p * TotalTargets(goal.value) == 100.0 * TotalCompleted(goal.value)
  {
    match goal
    case None => 0.0
    case Some(g) =>
      var targets := TotalTargets(g);
      if targets > 0.0 then (TotalCompleted(g) / targets) * 100.0 else 0.0
  }

  /** With targets set, the percentage passes 100 exactly when more was completed than targeted,
      and is 100 exactly when the two totals agree. */
  lemma ProgressAgainstHundred(g: GoalView)
    requires TotalTargets(g) > 0.0
    ensures ProgressPercentage(Some(g)) > 100.0 <==> TotalCompleted(g) > TotalTargets(g)
    ensures ProgressPercentage(Some(g)) == 100.0 <==> TotalCompleted(g) == TotalTargets(g)
    ensures TotalCompleted(g) >= 0.0 ==> ProgressPercentage(Some(g)) >= 0.0
  {
    var p := ProgressPercentage(Some(g));
    var t := TotalTargets(g);
    var c := TotalCompleted(g);
    assert (p - 100.0) * t == 100.0 * (c - t);
    SignOfProduct(p - 100.0, t);
    SignOfProduct(p, t);
  }

  /** Multiplying by a positive number keeps the sign. */
  lemma SignOfProduct(a: real, t: real)
    requires t > 0.0
    ensures a > 0.0 <==> a * t > 0.0
    ensures a == 0.0 <==> a * t == 0.0
  {
    if a > 0.0 {
      assert a * t > 0.0;
    } else if a < 0.0 {
      assert (-a) * t > 0.0;
    }
  }

  /** The goal with each absent or `null` count replaced by 0. */
  function Normalized(g: GoalView): GoalView {
    GoalView(Value(OrZero(g.booksTarget)), Value(OrZero(g.coursesTarget)),
             Value(OrZero(g.debatesTarget)), Value(OrZero(g.podcastsTarget)),
             Value(OrZero(g.booksCompleted)), Value(OrZero(g.coursesCompleted)),
             Value(OrZero(g.debatesCompleted)), Value(OrZero(g.podcastsCompleted)))
  }

  /** Absent and `null` counts weigh in the overall percentage exactly as 0 does. */
  lemma MissingCountsAreZero(g: GoalView)
    ensures ProgressPercentage(Some(Normalized(g))) == ProgressPercentage(Some(g))
  {
  }

  /** One category's bar: completed over target in percent when the target is a positive number,
      0 otherwise. Dividing `null` gives 0 but dividing an absent count gives NaN. */
  function BarValue(goal: Option<GoalView>, c: Category): (v: JsNum)
    ensures (goal.None? || !Target(goal.value, c).Value? || Target(goal.value, c).n <= 0.0) ==> v == Num(0.0)
    ensures v.NaN? <==> goal.Some? && Target(goal.value, c).Value? && Target(goal.value, c).n > 0.0
                        && Completed(goal.value, c).Undefined?
    ensures v.Num? && goal.Some? && Target(goal.value, c).Value? && Target(goal.value, c).n > 0.0 ==>
      v.value * Target(goal.value, c).n == 100.0 * OrZero(Completed(goal.value, c))
  {
    match goal
    case None => Num(0.0)
    case Some(g) =>
      match Target(g, c)
      case Value(t) =>
        if t > 0.0 then
          match Completed(g, c)
          case Undefined => NaN
          case Null => Num(0.0)
          case Value(done) => Num((done / t) * 100.0)
        else Num(0.0)
      case _ => Num(0.0)
  }

  /** When every category has a positive target and a completed count, the overall percentage
      is the target-weighted mean of the four bars. */
  lemma OverallIsWeightedMeanOfBars(g: GoalView)
    requires forall c :: Target(g, c).Value? && Target(g, c).n > 0.0 && Completed(g, c).Value?
    ensures var w := Target(g, Books).n * BarValue(Some(g), Books).value
                   + Target(g, Courses).n * BarValue(Some(g), Courses).value
                   + Target(g, Debates).n * BarValue(Some(g), Debates).value
                   + Target(g, Podcasts).n * BarValue(Some(g), Podcasts).value;
      ProgressPercentage(Some(g)) * TotalTargets(g) == w
  {
    assert Target(g, Books).Value? && Target(g, Courses).Value? && Target(g, Debates).Value? && Target(g, Podcasts).Value?;
    assert Completed(g, Books).Value? && Completed(g, Courses).Value?;
    assert Completed(g, Debates).Value? && Completed(g, Podcasts).Value?;
    assert Target(g, Books).n > 0.0 && Target(g, Courses).n > 0.0;
    assert Target(g, Debates).n > 0.0 && Target(g, Podcasts).n > 0.0;
  }

  /** `yearlyGoalSchema`: the year is a number and the four targets are numbers of at least 0. */
  predicate GoalSchemaAccepts(form: map<string, JsValue>) {
    && Property(form, "year").JsNumber?
    && NonNegativeNumber(Property(form, "booksTarget"))
    && NonNegativeNumber(Property(form, "coursesTarget"))
    && NonNegativeNumber(Property(form, "podcastsTarget"))
    && NonNegativeNumber(Property(form, "debatesTarget"))
  }

  predicate NonNegativeNumber(v: JsValue) {
    v.JsNumber? && v.n >= 0.0
  }

  /** The goal form's initial values: the selected year and the stored targets, `|| 0`. */
  function FormDefaults(year: real, goal: Option<GoalView>): map<string, JsValue> {
    map["year" := JsNumber(year),
        "booksTarget" := JsNumber(if goal.Some? then OrZero(goal.value.booksTarget) else 0.0),
        "coursesTarget" := JsNumber(if goal.Some? then OrZero(goal.value.coursesTarget) else 0.0),
        "podcastsTarget" := JsNumber(if goal.Some? then OrZero(goal.value.podcastsTarget) else 0.0),
        "debatesTarget" := JsNumber(if goal.Some? then OrZero(goal.value.debatesTarget) else 0.0)]
  }

  /** The form starts out acceptable exactly when no stored target is negative. */
  lemma FormDefaultsAccepted(year: real, goal: Option<GoalView>)
    ensures GoalSchemaAccepts(FormDefaults(year, goal)) <==>
      goal.None? || forall c :: OrZero(Target(goal.value, c)) >= 0.0
  {
    if goal.Some? && GoalSchemaAccepts(FormDefaults(year, goal)) {
      forall c ensures OrZero(Target(goal.value, c)) >= 0.0 {
        assert Property(FormDefaults(year, goal), "booksTarget").n >= 0.0;
        assert Property(FormDefaults(year, goal), "coursesTarget").n >= 0.0;
        assert Property(FormDefaults(year, goal), "podcastsTarget").n >= 0.0;
        assert Property(FormDefaults(year, goal), "debatesTarget").n >= 0.0;
      }
    }
    if goal.Some? && forall c :: OrZero(Target(goal.value, c)) >= 0.0 {
      assert OrZero(Target(goal.value, Books)) >= 0.0 && OrZero(Target(goal.value, Courses)) >= 0.0;
      assert OrZero(Target(goal.value, Debates)) >= 0.0 && OrZero(Target(goal.value, Podcasts)) >= 0.0;
    }
  }

  /** The page's own copy of `getWisdomLevel`. */
  function WisdomLevel(score: real): string {
    if score >= 800.0 then "PhD Level"
    else if score >= 600.0 then "Master's Level"
    else if score >= 400.0 then "College Senior+"
    else if score >= 200.0 then "College Junior"
    else "High School"
  }

  /** The page's own copy of `getWisdomPercentile`. */
  function WisdomPercentile(score: real): string {
    if score >= 800.0 then "95th"
    else if score >= 600.0 then "87th"
    else if score >= 400.0 then "70th"
    else if score >= 200.0 then "50th"
    else "25th"
  }

  /** The page's copies agree with the user card's on every score. */
  lemma WisdomCopiesAgree(score: real)
    ensures WisdomLevel(score) == UserCard.WisdomLevel(score)
    ensures WisdomPercentile(score) == UserCard.WisdomPercentile(score)
  {
  }
}
