/** The records the admin pages read and the pure pieces of their `getData`
    aggregation: sums and means, score bands, colours, percentages and the
    face shown beside each question's mean. */
module Survey {
  import opened Wrappers

  /** A row of the access table; only how many there are matters. */
  datatype AccessRow = AccessRow

  /** A row of the response table, with the fields the aggregation reads. */
  datatype Response = Response(
    created_at: string,
    nps_score: int,
    q1: int, q2: int, q3: int, q4: int, q5: int)

  /** A numeric field of a response: the overall score or one of the five questions. */
  datatype Field = NpsScore | Q1 | Q2 | Q3 | Q4 | Q5

  /** A JavaScript number as this code can produce it: a finite value, or the
      NaN of `0 / 0`. */
  datatype Number = Num(value: real) | NaN

  /** `question` is `Q1` .. `Q5`. */
  datatype Media = Media(question: string, avg: Number)

  /** The faces of the question list, from worst to best. */
  datatype Face = Disappointed | Neutral | Slight | Grinning | HeartEyes

  /** The value of a field of a response: its overall score or its answer to one question. */
  function Value(r: Response, f: Field): int
  {
    match f
    case NpsScore => r.nps_score
    case Q1 => r.q1
    case Q2 => r.q2
    case Q3 => r.q3
    case Q4 => r.q4
    case Q5 => r.q5
  }

  /** The field of question `i`. */
  function Question(i: int): Field
    requires 1 <= i <= 5
  {
    if i == 1 then Q1 else if i == 2 then Q2 else if i == 3 then Q3 else if i == 4 then Q4 else Q5
  }

  /** The label of question `i`: `Q` followed by its digit. */
  function QuestionLabel(i: int): string
    requires 1 <= i <= 5
  {
    ['Q', (('0' as int) + i) as char]
  }

  /** The number of rows a read returned, 0 when it returned none. */
  function Length<T>(rows: Option<seq<T>>): nat
  {
    match rows
    case None => 0
    case Some(s) => |s|
  }

  /** The rows a read returned, none when it returned no data. */
  function Rows(respostas: Option<seq<Response>>): seq<Response>
  {
    match respostas
    case None => []
    case Some(s) => s
  }

  /** The total of field `f` over `rows`, summed from left to right. */
  function Sum(rows: seq<Response>, f: Field): int
  {
    if rows == [] then 0 else Sum(rows[..|rows| - 1], f) + Value(rows[|rows| - 1], f)
  }

  /** The mean of field `f` over the rows read, 0 when the read returned no
      data. The guard tests only for row data being absent, so a present but
      empty list divides 0 by 0. */
  function Mean(respostas: Option<seq<Response>>, f: Field): (m: Number)
    ensures respostas.None? ==> m == Num(0.0)
    ensures respostas == Some([]) ==> m == NaN
    ensures respostas.Some? && |respostas.value| > 0 ==>
      m.Num? && m.value * |respostas.value| as real == Sum(respostas.value, f) as real
  {
    match respostas
    case None => Num(0.0)
    case Some(rows) =>
      if |rows| == 0 then NaN  // 0 / 0
      else Num(Sum(rows, f) as real / |rows| as real)
  }

  /** The histogram key of a score. Every score falls in exactly one band,
      out-of-range scores included. */
  function Band(score: int): (b: string)
    ensures b == "0-3" <==> score <= 3
    ensures b == "4-7" <==> 4 <= score <= 7
    ensures b == "8-10" <==> score > 7
  {
    if score <= 3 then "0-3" else if score <= 7 then "4-7" else "8-10"
  }

  /** The slice colour of a histogram key: each upper band has a colour of its
      own, and every other key is red. */
  function Fill(range: string): (c: string)
    ensures c == "#EF4444" || c == "#F59E0B" || c == "#10B981"
    ensures c == "#F59E0B" <==> range == "4-7"
    ensures c == "#10B981" <==> range == "8-10"
  {
    if range == "4-7" then "#F59E0B" else if range == "8-10" then "#10B981" else "#EF4444"
  }

  /** The share of `count` in `total`, in percent, 0 when the total is 0. */
  function Percentage(count: nat, total: nat): (p: real)
    ensures total == 0 ==> p == 0.0
    ensures total > 0 ==> p * total as real == 100.0 * count as real
    ensures count <= total ==> 0.0 <= p <= 100.0
  {
    if total > 0 then (count as real / total as real) * 100.0 else 0.0
  }

  /** JavaScript's `a < b`: false whenever `a` is NaN. */
  predicate Less(a: Number, b: real)
  {
    a.Num? && a.value < b
  }

  /** The position of a face in the scale, worst first. */
  function Rank(f: Face): nat
  {
    match f
    case Disappointed => 0
    case Neutral => 1
    case Slight => 2
    case Grinning => 3
    case HeartEyes => 4
  }

  /** The face shown for a mean: the chain of `<` tests against 2, 3, 4 and 5.
      A finite mean gets the face whose interval `[Rank + 1, Rank + 2)` holds it,
      the outer two intervals open-ended; NaN fails every test and gets the top face. */
  function Emoji(avg: Number): (f: Face)
    ensures avg.Num? ==> (Rank(f) == 0 || (Rank(f) + 1) as real <= avg.value)
    ensures avg.Num? ==> (Rank(f) == 4 || avg.value < (Rank(f) + 2) as real)
    ensures avg.NaN? ==> f == HeartEyes
  {
    if Less(avg, 2.0) then Disappointed
    else if Less(avg, 3.0) then Neutral
    else if Less(avg, 4.0) then Slight
    else if Less(avg, 5.0) then Grinning
    else HeartEyes
  }

  /** Red for the low band, yellow for the middle one, green for the top one. */
  lemma BandColour(score: int)
    ensures score <= 3 ==> Fill(Band(score)) == "#EF4444"
    ensures 4 <= score <= 7 ==> Fill(Band(score)) == "#F59E0B"
    ensures score > 7 ==> Fill(Band(score)) == "#10B981"
  {
  }

  /** When every value of field `f` lies in `lo..hi`, the sum over `n` rows lies in `lo * n..hi * n`. */
  lemma {:induction false} SumBounds(rows: seq<Response>, f: Field, lo: int, hi: int)
    requires forall i :: 0 <= i < |rows| ==> lo <= Value(rows[i], f) <= hi
    ensures lo * |rows| <= Sum(rows, f) <= hi * |rows|
  {
    if rows != [] {
      var n := |rows| - 1;
      SumBounds(rows[..n], f, lo, hi);
      assert lo * |rows| == lo * n + lo;
      assert hi * |rows| == hi * n + hi;
    }
  }

  lemma QuotientBounds(m: real, n: nat, s: int, lo: int, hi: int)
    requires n > 0 && m * n as real == s as real && lo * n <= s <= hi * n
    ensures lo as real <= m <= hi as real
  {
    var x, y := (lo * n) as real, (hi * n) as real;
    assert x == lo as real * n as real && y == hi as real * n as real;
  }

  /** The mean of answers that all lie in `lo..hi` lies in `lo..hi` too. */
  lemma MeanBounds(rows: seq<Response>, f: Field, lo: int, hi: int)
    requires |rows| > 0
    requires forall i :: 0 <= i < |rows| ==> lo <= Value(rows[i], f) <= hi
    ensures Mean(Some(rows), f).Num?
    ensures lo as real <= Mean(Some(rows), f).value <= hi as real
  {
    SumBounds(rows, f, lo, hi);
    QuotientBounds(Mean(Some(rows), f).value, |rows|, Sum(rows, f), lo, hi);
  }

  /** A higher mean never gets a worse face. */
  lemma EmojiMonotone(x: real, y: real)
    requires x <= y
    ensures Rank(Emoji(Num(x))) <= Rank(Emoji(Num(y)))
  {
  }

  /** Exactly one face fits a finite mean's interval. */
  lemma EmojiUnique(x: real, f: Face)
    requires Rank(f) == 0 || (Rank(f) + 1) as real <= x
    requires Rank(f) == 4 || x < (Rank(f) + 2) as real
    ensures f == Emoji(Num(x))
  {
  }
}
