/** The staff evaluation screen: each member's average rating, star display and trend,
    and the evaluation form with its submit guard and reset. */
module StaffEvaluation {

  import opened Wrappers
  import opened Types
  import Text
  import Seqs
  import Performance

  /** `getStaffPerformance`: the member's entries, in recorded order. */
  function StaffPerformance(data: seq<PerformanceMetrics>, userId: string): seq<PerformanceMetrics>
  {
    Seqs.Filter(data, (p: PerformanceMetrics) => p.userId == userId)
  }

  /** `getAverageRating`. */
  function AverageRating(data: seq<PerformanceMetrics>, userId: string): real
  {
    var ps := StaffPerformance(data, userId);
    if |ps| == 0 then 0.0 else Seqs.Sum(Performance.Ratings(ps)) / |ps| as real
  }

  /** With no entries the average is 0; otherwise it lies within any bounds of the
      member's ratings. */
  lemma AverageRatingBounds(data: seq<PerformanceMetrics>, userId: string, lo: real, hi: real)
    ensures StaffPerformance(data, userId) == [] ==> AverageRating(data, userId) == 0.0
    ensures var ps := StaffPerformance(data, userId);
      ps != [] && (forall i :: 0 <= i < |ps| ==> lo <= ps[i].rating <= hi) ==>
        lo <= AverageRating(data, userId) <= hi
  {
    var ps := StaffPerformance(data, userId);
    if ps != [] && (forall i :: 0 <= i < |ps| ==> lo <= ps[i].rating <= hi) {
      Seqs.MeanBounds(Performance.Ratings(ps), lo, hi);
    }
  }

  /** An entry of another member does not change the average. */
  lemma AverageRatingOwnEntries(data: seq<PerformanceMetrics>, userId: string, other: PerformanceMetrics)
    requires other.userId != userId
    ensures StaffPerformance(data + [other], userId) == StaffPerformance(data, userId)
    ensures AverageRating(data + [other], userId) == AverageRating(data, userId)
  {
    var p := (q: PerformanceMetrics) => q.userId == userId;
    Seqs.FilterAppend(data, [other], p);
    assert Seqs.Filter([other], p) == [] + Seqs.Filter([], p);
    assert Seqs.Filter(data, p) + [] == Seqs.Filter(data, p);
  }

  // ---------------------------------------------------------------------------
  // The trend on a staff card
  // ---------------------------------------------------------------------------

  /** `getPerformanceTrend` as written: over the last seven entries, the sum of the last
      three is divided by 3 and the sum of the others by `length - 3`. With three
      entries the second quotient is 0/0, which is NaN and fails every comparison. */
  function TrendAsWritten(ps: seq<PerformanceMetrics>): Performance.Trend
  {
    var w := Seqs.LastN(ps, 7);
    var n := |w|;
    if n < 2 then Performance.Stable
    else if n == 3 then Performance.Stable
    else
      var recent := Seqs.Sum(Performance.Ratings(Seqs.LastN(w, 3))) / 3.0;
      var previous := Seqs.Sum(Performance.Ratings(w[..if n > 3 then n - 3 else 0])) / (n - 3) as real;
      Compare(recent, previous)
  }

  /** Improving when the recent figure is more than 0.2 above the previous one,
      declining when it is more than 0.2 below. */
  function Compare(recent: real, previous: real): Performance.Trend
  {
    if recent > previous + 0.2 then Performance.Improving
    else if recent < previous - 0.2 then Performance.Declining
    else Performance.Stable
  }

  /** The trend of a window with true averages: the mean of its last three entries
      against the mean of the ones before them, and stable when there are none before. */
  function WindowTrend(w: seq<PerformanceMetrics>): Performance.Trend
  {
    var n := |w|;
    if n < 4 then Performance.Stable
    else Compare(Performance.Average(Performance.Ratings(w[n - 3..])), Performance.Average(Performance.Ratings(w[..n - 3])))
  }

  /** The corrected card trend: the true-average trend of the last seven entries. */
  function StaffTrend(ps: seq<PerformanceMetrics>): Performance.Trend
  {
    WindowTrend(Seqs.LastN(ps, 7))
  }

  /** Both trends look only at the last seven entries. */
  lemma TrendWindow(ps: seq<PerformanceMetrics>)
    ensures TrendAsWritten(ps) == TrendAsWritten(Seqs.LastN(ps, 7))
    ensures StaffTrend(ps) == StaffTrend(Seqs.LastN(ps, 7))
  {
    assert Seqs.LastN(Seqs.LastN(ps, 7), 7) == Seqs.LastN(ps, 7);
  }

  /** The card's trend is stable for fewer than two entries and for three; from four
      entries on it is the true-average trend. */
  lemma TrendAsWrittenRules(ps: seq<PerformanceMetrics>)
    ensures |ps| < 2 || |ps| == 3 ==> TrendAsWritten(ps) == Performance.Stable
    ensures |ps| >= 4 ==> TrendAsWritten(ps) == StaffTrend(ps)
  {
    var w := Seqs.LastN(ps, 7);
    var n := |w|;
    if n >= 4 {
      assert Seqs.LastN(w, 3) == w[n - 3..];
      var recent := Seqs.Sum(Performance.Ratings(w[n - 3..]));
      var previous := Seqs.Sum(Performance.Ratings(w[..n - 3]));
      assert Performance.Average(Performance.Ratings(w[n - 3..])) == recent / 3.0;
      assert Performance.Average(Performance.Ratings(w[..n - 3])) == previous / (n - 3) as real;
    }
  }

  /** With two entries the card divides their sum by 3 and compares it with 0, so two
      equal ratings of at least 1 (every daily rating is) read as improving, while the
      true-average trend calls them stable. */
  lemma TwoEqualRatingsImproving(ps: seq<PerformanceMetrics>)
    requires |ps| == 2 && ps[0].rating == ps[1].rating >= 1.0
    ensures TrendAsWritten(ps) == Performance.Improving
    ensures StaffTrend(ps) == Performance.Stable
  {
    var w := Seqs.LastN(ps, 7);
    assert w == ps;
    assert Seqs.LastN(w, 3) == ps;
    var r := Performance.Ratings(ps);
    assert Seqs.Sum(r) == Seqs.Sum(r[..1]) + r[1];
    assert r[..1][..0] == [];
    assert Seqs.Sum(r[..1]) == r[0];
    assert w[..0] == [];
  }

  /** The true-average trend of one fixed rating is stable. */
  lemma StaffTrendConstant(ps: seq<PerformanceMetrics>, c: real)
    requires forall i :: 0 <= i < |ps| ==> ps[i].rating == c
    ensures StaffTrend(ps) == Performance.Stable
  {
    var w := Seqs.LastN(ps, 7);
    var n := |w|;
    if n >= 4 {
      Seqs.MeanBounds(Performance.Ratings(w[n - 3..]), c, c);
      Seqs.MeanBounds(Performance.Ratings(w[..n - 3]), c, c);
    }
  }

  /** Reflecting every rating (`c - rating`) swaps improving and declining. */
  lemma StaffTrendReflect(ps: seq<PerformanceMetrics>, qs: seq<PerformanceMetrics>, c: real)
    requires |ps| == |qs|
    requires forall i :: 0 <= i < |ps| ==> qs[i].rating == c - ps[i].rating
    ensures StaffTrend(qs) == Performance.Mirror(StaffTrend(ps))
  {
    var v := Seqs.LastN(ps, 7);
    var w := Seqs.LastN(qs, 7);
    assert forall i :: 0 <= i < |w| ==> w[i].rating == c - v[i].rating by {
      assert v == ps[|ps| - |v|..] && w == qs[|qs| - |w|..];
    }
    WindowReflect(v, w, c);
  }

  /** Reflected ratings give the mirrored window trend. */
  lemma WindowReflect(v: seq<PerformanceMetrics>, w: seq<PerformanceMetrics>, c: real)
    requires |v| == |w|
    requires forall i :: 0 <= i < |w| ==> w[i].rating == c - v[i].rating
    ensures WindowTrend(w) == Performance.Mirror(WindowTrend(v))
  {
    var n := |w|;
    if n >= 4 {
      Performance.AverageReflect(Performance.Ratings(v[n - 3..]), Performance.Ratings(w[n - 3..]), c);
      Performance.AverageReflect(Performance.Ratings(v[..n - 3]), Performance.Ratings(w[..n - 3]), c);
    }
  }

  /** On exactly six entries the card's true-average trend is `utils/performance`'s
      trend; the two differ from seven entries on, where the card compares with four. */
  lemma StaffTrendMatchesUtility(ps: seq<PerformanceMetrics>)
    requires |ps| == 6
    ensures StaffTrend(ps) == Performance.PerformanceTrend(ps)
  {
    assert Seqs.LastN(ps, 7) == ps;
    assert Seqs.LastN(ps, 3) == ps[3..];
    assert Performance.Previous(ps) == ps[..3];
  }

  // ---------------------------------------------------------------------------
  // Stars
  // ---------------------------------------------------------------------------

  /** `Math.round`: halves round up. */
  function Round(x: real): int
  {
    (x + 0.5).Floor
  }

  /** The rounded value is within one half of `x`; rounding keeps 1 to 5 within 1 to 5. */
  lemma RoundRules(x: real)
    ensures x - 0.5 < Round(x) as real <= x + 0.5
    ensures 1.0 <= x <= 5.0 ==> 1 <= Round(x) <= 5
    ensures Round(x.Floor as real) == x.Floor
  {
  }

  /** Which of the five stars are filled for a rating: star `k` (from 1) when `k <= rating`. */
  function Stars(rating: int): (stars: seq<bool>)
    ensures |stars| == 5
  {
    seq(5, k requires 0 <= k < 5 => k + 1 <= rating)
  }

  function FilledCount(rating: int): nat
  {
    if rating < 0 then 0 else if rating > 5 then 5 else rating
  }

  /** The filled stars are a prefix: the first `rating` of them, capped to 0 and 5. */
  lemma StarsRules(rating: int)
    ensures Stars(rating) == seq(FilledCount(rating), _ => true) + seq(5 - FilledCount(rating), _ => false)
  {
    var c := FilledCount(rating);
    var expected := seq(c, _ => true) + seq(5 - c, _ => false);
    assert forall k :: 0 <= k < 5 ==> Stars(rating)[k] == expected[k];
  }

  /** What a staff card shows. */
  datatype StaffCard = StaffCard(
    username: string,
    role: string,
    stars: seq<bool>,
    trend: Performance.Trend,
    latest: Option<PerformanceMetrics>)

  /** The card of one member, showing the trend as the card computes it. */
  function Card(member: User, data: seq<PerformanceMetrics>): StaffCard
  {
    var ps := StaffPerformance(data, member.id);
    StaffCard(member.username, member.role, Stars(Round(AverageRating(data, member.id))),
              TrendAsWritten(ps), if ps == [] then None else Some(ps[|ps| - 1]))
  }

  /** The card names its member and shows the member's own trend: stable for fewer
      than two entries and for three, the true-average trend from four entries on,
      and "improving" for two equal ratings of at least 1. */
  lemma CardTrend(member: User, data: seq<PerformanceMetrics>)
    ensures Card(member, data).username == member.username && Card(member, data).role == member.role
    ensures var ps := StaffPerformance(data, member.id);
      (|ps| < 2 || |ps| == 3 ==> Card(member, data).trend == Performance.Stable)
      && (|ps| >= 4 ==> Card(member, data).trend == StaffTrend(ps))
      && (|ps| == 2 && ps[0].rating == ps[1].rating >= 1.0 ==> Card(member, data).trend == Performance.Improving)
  {
    var ps := StaffPerformance(data, member.id);
    TrendAsWrittenRules(ps);
    if |ps| == 2 && ps[0].rating == ps[1].rating >= 1.0 {
      TwoEqualRatingsImproving(ps);
    }
  }

  /** A member without entries shows no filled star, no latest metrics and a stable
      trend. */
  lemma CardWithoutEntries(member: User, data: seq<PerformanceMetrics>)
    requires StaffPerformance(data, member.id) == []
    ensures Card(member, data).stars == seq(5, _ => false)
    ensures Card(member, data).latest.None? && Card(member, data).trend == Performance.Stable
  {
    assert AverageRating(data, member.id) == 0.0;
    assert Round(0.0) == 0;
    StarsRules(0);
    assert seq(0, _ => true) + seq(5, _ => false) == seq(5, _ => false);
  }

  /** A member whose ratings are all between 1 and 5 shows between one and five filled
      stars, as many as the rounded average, and the latest entry. */
  lemma CardStars(member: User, data: seq<PerformanceMetrics>)
    requires var ps := StaffPerformance(data, member.id);
      ps != [] && forall i :: 0 <= i < |ps| ==> 1.0 <= ps[i].rating <= 5.0
    ensures var n := Round(AverageRating(data, member.id));
      1 <= n <= 5 && Card(member, data).stars == seq(n, _ => true) + seq(5 - n, _ => false)
    ensures var ps := StaffPerformance(data, member.id);
      Card(member, data).latest == Some(ps[|ps| - 1])
  {
    AverageRatingBounds(data, member.id, 1.0, 5.0);
    StarsOfAverage(AverageRating(data, member.id));
  }

  /** An average between 1 and 5 fills between one and five stars, a prefix. */
  lemma StarsOfAverage(avg: real)
    requires 1.0 <= avg <= 5.0
    ensures var n := Round(avg);
      1 <= n <= 5 && Stars(n) == seq(n, _ => true) + seq(5 - n, _ => false)
  {
    RoundRules(avg);
    StarsRules(Round(avg));
  }

  // ---------------------------------------------------------------------------
  // The evaluation form
  // ---------------------------------------------------------------------------

  /** What submitting the form does: nothing without a selected member, an error for
      blank notes, or a call of `onEvaluate` with the member, rating and notes. */
  datatype EvaluateOutcome = NothingSelected | NotesMissing | Submitted(userId: string, rating: int, notes: string)

  function EvaluateOutcomeOf(selected: Option<string>, rating: int, notes: string): EvaluateOutcome
  {
    if !Truthy(selected) then NothingSelected
    else if Text.Trim(notes) == "" then NotesMissing
    else Submitted(selected.value, rating, notes)
  }

  /** The alert each outcome raises, as title and message. */
  function AlertOf(outcome: EvaluateOutcome): Option<(string, string)>
  {
    match outcome
    case NothingSelected => None
    case NotesMissing => Some(("Error", "Please provide evaluation notes"))
    case Submitted(_, _, _) => Some(("Success", "Evaluation submitted successfully"))
  }

  /** A submission happens exactly when a member is selected and the notes hold a
      non-white-space character; it carries the selection, the rating and the notes as
      typed. Blank notes are refused only once a member is selected. */
  lemma EvaluateRules(selected: Option<string>, rating: int, notes: string)
    ensures EvaluateOutcomeOf(selected, rating, notes).Submitted?
      <==> Truthy(selected) && exists i :: 0 <= i < |notes| && !Text.IsWhitespace(notes[i])
    ensures EvaluateOutcomeOf(selected, rating, notes).NotesMissing?
      <==> Truthy(selected) && forall i :: 0 <= i < |notes| ==> Text.IsWhitespace(notes[i])
    ensures EvaluateOutcomeOf(selected, rating, notes).Submitted? ==>
      EvaluateOutcomeOf(selected, rating, notes) == Submitted(selected.value, rating, notes)
    ensures AlertOf(EvaluateOutcomeOf(selected, rating, notes)).None? <==> !Truthy(selected)
  {
    Text.TrimEmptyIffBlank(notes);
  }

  /** The form's state: the member being evaluated, the chosen stars and the notes. */
  class EvaluationForm {
    var selectedStaff: Option<string>
    var evaluationRating: int
    var evaluationNotes: string

    constructor()
      ensures selectedStaff == None && evaluationRating == 5 && evaluationNotes == ""
    {
      selectedStaff := None;
      evaluationRating := 5;
      evaluationNotes := "";
    }

    /** "Evaluate Now" on a card. */
    method Select(userId: string)
      modifies this
      ensures selectedStaff == Some(userId)
      ensures evaluationRating == old(evaluationRating) && evaluationNotes == old(evaluationNotes)
    {
      selectedStaff := Some(userId);
    }

    /** Pressing star `star` of the form. */
    method SetRating(star: int)
      modifies this
      ensures evaluationRating == star
      ensures selectedStaff == old(selectedStaff) && evaluationNotes == old(evaluationNotes)
    {
      evaluationRating := star;
    }

    method SetNotes(text: string)
      modifies this
      ensures evaluationNotes == text
      ensures selectedStaff == old(selectedStaff) && evaluationRating == old(evaluationRating)
    {
      evaluationNotes := text;
    }

    /** "Cancel" closes the form and keeps the rating and notes. */
    method Cancel()
      modifies this
      ensures selectedStaff == None
      ensures evaluationRating == old(evaluationRating) && evaluationNotes == old(evaluationNotes)
    {
      selectedStaff := None;
    }

    /** `handleEvaluate`: on success the form returns to its initial state; otherwise
        nothing changes. */
    method HandleEvaluate() returns (outcome: EvaluateOutcome)
      modifies this
      ensures outcome == EvaluateOutcomeOf(old(selectedStaff), old(evaluationRating), old(evaluationNotes))
      ensures outcome.Submitted? ==> selectedStaff == None && evaluationRating == 5 && evaluationNotes == ""
      ensures !outcome.Submitted? ==>
        selectedStaff == old(selectedStaff) && evaluationRating == old(evaluationRating)
        && evaluationNotes == old(evaluationNotes)
    {
      if !Truthy(selectedStaff) {
        return NothingSelected;
      }
      if Text.Trim(evaluationNotes) == "" {
        return NotesMissing;
      }
      outcome := Submitted(selectedStaff.value, evaluationRating, evaluationNotes);
      selectedStaff := None;
      evaluationRating := 5;
      evaluationNotes := "";
    }
  }
}
