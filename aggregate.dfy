/** `getData` of the admin pages: the totals, the means, the per-day series and
    the score histogram computed from the two table reads. The day key is the
    browser's date formatting of `created_at` (`toDateString` on one page,
    `toLocaleDateString` on the other), passed in as `dateKey`. */
module Aggregation {
  import opened Wrappers
  import opened Counting
  import opened Survey

  /** One bar of the per-day chart. */
  datatype DayCount = DayCount(date: string, count: nat)

  /** One slice of the score pie. */
  datatype NoteSlice = NoteSlice(nota: string, count: nat, fill: string, percentage: real)

  datatype DashboardData = DashboardData(
    totalAcessos: nat,
    totalRespostas: nat,
    npsGeral: Number,
    medias: seq<Media>,
    chartDataDia: seq<DayCount>,
    chartDataNotas: seq<NoteSlice>,
    respostas: seq<Response>)

  /** The keys of the per-day `reduce`, one per row. */
  function DayKeys(rows: seq<Response>, dateKey: string -> string): seq<string>
  {
    seq(|rows|, i requires 0 <= i < |rows| => dateKey(rows[i].created_at))
  }

  /** The keys of the histogram `reduce`, one per row. */
  function BandKeys(rows: seq<Response>): seq<string>
  {
    seq(|rows|, i requires 0 <= i < |rows| => Band(rows[i].nps_score))
  }

  /** The five question means, labelled `Q1` to `Q5`. */
  function Medias(respostas: Option<seq<Response>>): seq<Media>
  {
    seq(5, j requires 0 <= j < 5 => Media(QuestionLabel(j + 1), Mean(respostas, Question(j + 1))))
  }

  /** The per-day tally's entries as chart bars, in the tally's order. */
  function ChartDays(t: seq<Entry>): seq<DayCount>
  {
    seq(|t|, i requires 0 <= i < |t| => DayCount(t[i].key, t[i].count))
  }

  /** The band tally's entries as pie slices, each given its band's colour and
      its share of `total`. */
  function ChartNotes(t: seq<Entry>, total: nat): seq<NoteSlice>
  {
    seq(|t|, i requires 0 <= i < |t| =>
      NoteSlice(t[i].key, t[i].count, Fill(t[i].key), Percentage(t[i].count, total)))
  }

  /** What `getData` returns for the rows it read. */
  function Aggregate(acessos: Option<seq<AccessRow>>, respostas: Option<seq<Response>>,
                     dateKey: string -> string): DashboardData
  {
    var rows := Rows(respostas);
    DashboardData(
      Length(acessos),
      Length(respostas),
      Mean(respostas, NpsScore),
      Medias(respostas),
      ChartDays(Tally(DayKeys(rows, dateKey))),
      ChartNotes(Tally(BandKeys(rows)), Length(respostas)),
      rows)
  }

  function DayTotal(days: seq<DayCount>): nat
  {
    if days == [] then 0 else DayTotal(days[..|days| - 1]) + days[|days| - 1].count
  }

  function NoteTotal(notes: seq<NoteSlice>): nat
  {
    if notes == [] then 0 else NoteTotal(notes[..|notes| - 1]) + notes[|notes| - 1].count
  }

  function PercentTotal(notes: seq<NoteSlice>): real
  {
    if notes == [] then 0.0 else PercentTotal(notes[..|notes| - 1]) + notes[|notes| - 1].percentage
  }

  /** The dates of the per-day bars, in order. */
  function Dates(days: seq<DayCount>): seq<string>
  {
    seq(|days|, i requires 0 <= i < |days| => days[i].date)
  }

  /** The labels of the histogram slices, in order. */
  function Notas(notes: seq<NoteSlice>): seq<string>
  {
    seq(|notes|, i requires 0 <= i < |notes| => notes[i].nota)
  }

  /** `getData` after the two reads: the totals, the means, and the two
      tallies counted into their dictionaries. */
  method GetData(acessos: Option<seq<AccessRow>>, respostas: Option<seq<Response>>,
                 dateKey: string -> string) returns (d: DashboardData)
    ensures d == Aggregate(acessos, respostas, dateKey)
    ensures d.totalRespostas == |d.respostas|
    ensures DayTotal(d.chartDataDia) == d.totalRespostas
    ensures NoteTotal(d.chartDataNotas) == d.totalRespostas
  {
    var totalAcessos := Length(acessos);
    var totalRespostas := Length(respostas);
    var npsGeral := Mean(respostas, NpsScore);
    var medias := Medias(respostas);
    var rows := Rows(respostas);
    var respostasPorDia := CountBy(DayKeys(rows, dateKey));
    var distribuicaoNotas := CountBy(BandKeys(rows));
    d := DashboardData(totalAcessos, totalRespostas, npsGeral, medias,
                       ChartDays(respostasPorDia), ChartNotes(distribuicaoNotas, totalRespostas), rows);
    DayTallyTotal(acessos, respostas, dateKey);
    HistogramTotal(acessos, respostas, dateKey);
  }

  lemma {:induction false} DayTotalOfTally(t: seq<Entry>)
    ensures DayTotal(ChartDays(t)) == TotalCount(t)
  {
    if t != [] {
      DayTotalOfTally(t[..|t| - 1]);
      assert ChartDays(t)[..|t| - 1] == ChartDays(t[..|t| - 1]);
    }
  }

  lemma {:induction false} NoteTotalOfTally(t: seq<Entry>, total: nat)
    ensures NoteTotal(ChartNotes(t, total)) == TotalCount(t)
  {
    if t != [] {
      NoteTotalOfTally(t[..|t| - 1], total);
      assert ChartNotes(t, total)[..|t| - 1] == ChartNotes(t[..|t| - 1], total);
    }
  }

  /** The sum of the percentages of the slices over `t`, with `total` responses. */
  function Shares(t: seq<Entry>, total: nat): real
  {
    if t == [] then 0.0 else Shares(t[..|t| - 1], total) + Percentage(t[|t| - 1].count, total)
  }

  lemma {:induction false} PercentTotalIsShares(t: seq<Entry>, total: nat)
    ensures PercentTotal(ChartNotes(t, total)) == Shares(t, total)
  {
    if t != [] {
      PercentTotalIsShares(t[..|t| - 1], total);
      assert ChartNotes(t, total)[..|t| - 1] == ChartNotes(t[..|t| - 1], total);
    }
  }

  /** Percentages of one total add up like the counts they stand for. */
  lemma PercentageAdditive(a: nat, b: nat, n: nat)
    requires n > 0
    ensures Percentage(a, n) + Percentage(b, n) == Percentage(a + b, n)
  {
    var x, y, m := a as real, b as real, n as real;
    assert x / m + y / m == (x + y) / m;
  }

  /** The whole of a positive total is 100 percent of it. */
  lemma PercentageOfWhole(n: nat)
    requires n > 0
    ensures Percentage(n, n) == 100.0
  {
    var m := n as real;
    assert m / m == 1.0;
  }

  lemma {:induction false} SharesTotal(t: seq<Entry>, total: nat)
    requires total > 0
    ensures Shares(t, total) == Percentage(TotalCount(t), total)
  {
    if t != [] {
      var init, last := t[..|t| - 1], t[|t| - 1];
      SharesTotal(init, total);
      PercentageAdditive(TotalCount(init), last.count, total);
    }
  }

  /** The totals are the lengths of the reads, 0 for an absent read, and the
      rows handed back are the rows read, or none. */
  lemma Totals(acessos: Option<seq<AccessRow>>, respostas: Option<seq<Response>>, dateKey: string -> string)
    ensures var d := Aggregate(acessos, respostas, dateKey);
      && d.totalAcessos == (if acessos.Some? then |acessos.value| else 0)
      && d.totalRespostas == (if respostas.Some? then |respostas.value| else 0)
      && d.respostas == (if respostas.Some? then respostas.value else [])
      && d.totalRespostas == |d.respostas|
  {
  }

  /** Exactly five means, labelled `Q1` to `Q5` in order, each the mean of its question. */
  lemma MediasShape(respostas: Option<seq<Response>>)
    ensures |Medias(respostas)| == 5
    ensures Medias(respostas)[0] == Media("Q1", Mean(respostas, Q1))
    ensures Medias(respostas)[1] == Media("Q2", Mean(respostas, Q2))
    ensures Medias(respostas)[2] == Media("Q3", Mean(respostas, Q3))
    ensures Medias(respostas)[3] == Media("Q4", Mean(respostas, Q4))
    ensures Medias(respostas)[4] == Media("Q5", Mean(respostas, Q5))
  {
  }

  /** With no response data at all, every mean is 0 and both charts are empty. */
  lemma AbsentResponses(acessos: Option<seq<AccessRow>>, dateKey: string -> string)
    ensures var d := Aggregate(acessos, None, dateKey);
      && d.totalRespostas == 0 && d.npsGeral == Num(0.0)
      && (forall m :: m in d.medias ==> m.avg == Num(0.0))
      && d.chartDataDia == [] && d.chartDataNotas == [] && d.respostas == []
  {
  }

  /** A present but empty response list passes the guard and divides 0 by 0:
      every mean is NaN, and each question then shows the top face. */
  lemma EmptyResponses(acessos: Option<seq<AccessRow>>, dateKey: string -> string)
    ensures var d := Aggregate(acessos, Some([]), dateKey);
      && d.totalRespostas == 0 && d.npsGeral == NaN
      && (forall m :: m in d.medias ==> m.avg == NaN && Emoji(m.avg) == HeartEyes)
      && d.chartDataDia == [] && d.chartDataNotas == []
  {
  }

  /** The per-day counts add up to the number of responses. */
  lemma DayTallyTotal(acessos: Option<seq<AccessRow>>, respostas: Option<seq<Response>>, dateKey: string -> string)
    ensures DayTotal(Aggregate(acessos, respostas, dateKey).chartDataDia)
         == Aggregate(acessos, respostas, dateKey).totalRespostas
  {
    var keys := DayKeys(Rows(respostas), dateKey);
    DayTotalOfTally(Tally(keys));
    TallyTotal(keys);
  }

  /** One bar per distinct day key, none twice, in the order the days first
      appear among the responses, each counting the responses of its day. */
  lemma DayTally(acessos: Option<seq<AccessRow>>, respostas: Option<seq<Response>>, dateKey: string -> string)
    ensures var days := Aggregate(acessos, respostas, dateKey).chartDataDia;
            var keys := DayKeys(Rows(respostas), dateKey);
      && (forall k :: k in Dates(days) <==> k in keys)
      && NoDuplicates(Dates(days))
      && InFirstSeenOrder(keys, Dates(days))
      && (forall i :: 0 <= i < |days| ==>
            days[i].count == Occurrences(keys, days[i].date) && days[i].count >= 1)
  {
    var keys := DayKeys(Rows(respostas), dateKey);
    TallyEntries(keys);
    TallyFirstSeenOrder(keys);
    assert Dates(ChartDays(Tally(keys))) == Keys(Tally(keys));
  }

  /** Two responses whose timestamps give the same day key share one bar, which counts both. */
  lemma SameDayCollapses(acessos: Option<seq<AccessRow>>, rows: seq<Response>, dateKey: string -> string,
                         i: nat, j: nat)
    requires i < j < |rows|
    requires dateKey(rows[i].created_at) == dateKey(rows[j].created_at)
    ensures var days := Aggregate(acessos, Some(rows), dateKey).chartDataDia;
            var day := dateKey(rows[i].created_at);
      && day in Dates(days)
      && (forall e :: 0 <= e < |days| && days[e].date == day ==> days[e].count >= 2)
      && (forall e, f :: 0 <= e < |days| && 0 <= f < |days| && days[e].date == day && days[f].date == day
            ==> e == f)
  {
    var keys := DayKeys(rows, dateKey);
    TallySameKeyCollapses(keys, i, j);
    assert Dates(ChartDays(Tally(keys))) == Keys(Tally(keys));
  }

  /** The histogram counts add up to the number of responses. */
  lemma HistogramTotal(acessos: Option<seq<AccessRow>>, respostas: Option<seq<Response>>, dateKey: string -> string)
    ensures NoteTotal(Aggregate(acessos, respostas, dateKey).chartDataNotas)
         == Aggregate(acessos, respostas, dateKey).totalRespostas
  {
    var keys := BandKeys(Rows(respostas));
    NoteTotalOfTally(Tally(keys), Length(respostas));
    TallyTotal(keys);
  }

  /** Distinct band keys are at most three. */
  lemma AtMostThreeBands(d: seq<string>)
    requires NoDuplicates(d)
    requires forall i :: 0 <= i < |d| ==> d[i] == "0-3" || d[i] == "4-7" || d[i] == "8-10"
    ensures |d| <= 3
  {
    NoDuplicatesCardinality(d);
    var members := set k | k in d;
    SubsetCardinality(members, {"0-3", "4-7", "8-10"});
  }

  /** The slices over the band tally of `rows`, with `n` as the total. */
  lemma BandSlices(rows: seq<Response>, n: nat)
    ensures var notes := ChartNotes(Tally(BandKeys(rows)), n);
            var keys := BandKeys(rows);
      && |notes| <= 3
      && (forall k :: k in Notas(notes) <==> k in keys)
      && NoDuplicates(Notas(notes))
      && InFirstSeenOrder(keys, Notas(notes))
      && (forall i :: 0 <= i < |notes| ==>
            (notes[i].nota == "0-3" || notes[i].nota == "4-7" || notes[i].nota == "8-10")
            && notes[i].count == Occurrences(keys, notes[i].nota) && notes[i].count >= 1
            && notes[i].fill == Fill(notes[i].nota))
  {
    var keys := BandKeys(rows);
    var t := Tally(keys);
    var notes := ChartNotes(t, n);
    TallyEntries(keys);
    TallyFirstSeenOrder(keys);
    assert Notas(notes) == Keys(t);
    forall i | 0 <= i < |notes|
      ensures notes[i].nota == "0-3" || notes[i].nota == "4-7" || notes[i].nota == "8-10"
    {
      assert Keys(t)[i] in keys;
    }
    AtMostThreeBands(Keys(t));
  }

  /** The histogram lists each band some response falls in, and no other, once
      each and in the order the bands first occur among the responses. Each
      slice counts the responses of its band and carries its label's colour,
      so there are at most three slices. */
  lemma Histogram(acessos: Option<seq<AccessRow>>, respostas: Option<seq<Response>>, dateKey: string -> string)
    ensures var notes := Aggregate(acessos, respostas, dateKey).chartDataNotas;
            var keys := BandKeys(Rows(respostas));
      && |notes| <= 3
      && (forall i :: 0 <= i < |Rows(respostas)| ==> Band(Rows(respostas)[i].nps_score) in Notas(notes))
      && (forall k :: k in Notas(notes) ==> k in keys)
      && NoDuplicates(Notas(notes))
      && InFirstSeenOrder(keys, Notas(notes))
      && (forall i :: 0 <= i < |notes| ==>
            (notes[i].nota == "0-3" || notes[i].nota == "4-7" || notes[i].nota == "8-10")
            && notes[i].count == Occurrences(keys, notes[i].nota) && notes[i].count >= 1
            && notes[i].fill == Fill(notes[i].nota))
  {
    var rows := Rows(respostas);
    var keys := BandKeys(rows);
    BandSlices(rows, Length(respostas));
    forall i | 0 <= i < |rows|
      ensures Band(rows[i].nps_score) in keys
    {
      assert keys[i] == Band(rows[i].nps_score);
    }
  }

  lemma {:induction false} NoteCountBounded(notes: seq<NoteSlice>, i: nat)
    requires i < |notes|
    ensures notes[i].count <= NoteTotal(notes)
  {
    if i < |notes| - 1 {
      NoteCountBounded(notes[..|notes| - 1], i);
    }
  }

  /** Each slice's percentage is its share of `n`, between 0 and 100, when the
      slices count `n` keys. */
  lemma BandPercentageBounds(keys: seq<string>, n: nat)
    requires n == |keys|
    ensures var notes := ChartNotes(Tally(keys), n);
      forall i :: 0 <= i < |notes| ==>
        notes[i].percentage == Percentage(notes[i].count, n) && 0.0 <= notes[i].percentage <= 100.0
  {
    var notes := ChartNotes(Tally(keys), n);
    TallyTotal(keys);
    NoteTotalOfTally(Tally(keys), n);
    forall i | 0 <= i < |notes|
      ensures notes[i].count <= n
    {
      NoteCountBounded(notes, i);
    }
  }

  /** Slices whose counts add up to `n > 0` have percentages adding up to 100. */
  lemma PercentSum(t: seq<Entry>, n: nat)
    requires n > 0 && TotalCount(t) == n
    ensures PercentTotal(ChartNotes(t, n)) == 100.0
  {
    PercentTotalIsShares(t, n);
    SharesTotal(t, n);
    PercentageOfWhole(n);
  }

  /** Each percentage is its band's share of the responses; with responses
      they add up to 100, and with none there is no slice at all. */
  lemma Percentages(acessos: Option<seq<AccessRow>>, respostas: Option<seq<Response>>, dateKey: string -> string)
    ensures var d := Aggregate(acessos, respostas, dateKey);
      && (forall i :: 0 <= i < |d.chartDataNotas| ==>
            d.chartDataNotas[i].percentage == Percentage(d.chartDataNotas[i].count, d.totalRespostas)
            && 0.0 <= d.chartDataNotas[i].percentage <= 100.0)
      && (d.totalRespostas > 0 ==> PercentTotal(d.chartDataNotas) == 100.0)
      && (d.totalRespostas == 0 ==> d.chartDataNotas == [])
  {
    var keys := BandKeys(Rows(respostas));
    var n := Length(respostas);
    BandPercentageBounds(keys, n);
    if n > 0 {
      TallyTotal(keys);
      PercentSum(Tally(keys), n);
    }
  }

  lemma {:induction false} DistinctOfConstant(s: seq<string>, b: string)
    requires |s| > 0
    requires forall i :: 0 <= i < |s| ==> s[i] == b
    ensures Distinct(s) == [b]
  {
    if |s| > 1 {
      DistinctOfConstant(s[..|s| - 1], b);
    }
  }

  lemma {:induction false} OccurrencesOfConstant(s: seq<string>, b: string)
    requires forall i :: 0 <= i < |s| ==> s[i] == b
    ensures Occurrences(s, b) == |s|
  {
    if s != [] {
      var init := s[..|s| - 1];
      OccurrencesOfConstant(init, b);
      assert s == init + [b];
    }
  }

  lemma SingleBandTally(keys: seq<string>, b: string)
    requires |keys| > 0
    requires forall i :: 0 <= i < |keys| ==> keys[i] == b
    ensures ChartNotes(Tally(keys), |keys|) == [NoteSlice(b, |keys|, Fill(b), 100.0)]
  {
    DistinctOfConstant(keys, b);
    OccurrencesOfConstant(keys, b);
    assert Tally(keys) == [Entry(b, |keys|)];
    PercentageOfWhole(|keys|);
  }

  /** When every score falls in the same band, the histogram is that one band
      with all the responses and 100 percent. */
  lemma SingleBand(acessos: Option<seq<AccessRow>>, rows: seq<Response>, dateKey: string -> string, b: string)
    requires |rows| > 0
    requires forall r :: r in rows ==> Band(r.nps_score) == b
    ensures Aggregate(acessos, Some(rows), dateKey).chartDataNotas == [NoteSlice(b, |rows|, Fill(b), 100.0)]
  {
    var keys := BandKeys(rows);
    forall i | 0 <= i < |keys| ensures keys[i] == b {
      assert rows[i] in rows;
    }
    SingleBandTally(keys, b);
  }

  lemma ThreeBandsTally()
    ensures ChartNotes(Tally(["0-3", "4-7", "8-10"]), 3) == [
      NoteSlice("0-3", 1, "#EF4444", 100.0 / 3.0),
      NoteSlice("4-7", 1, "#F59E0B", 100.0 / 3.0),
      NoteSlice("8-10", 1, "#10B981", 100.0 / 3.0)]
  {
    var keys := ["0-3", "4-7", "8-10"];
    assert keys[0][0] == '0' && keys[1][0] == '4' && keys[2][0] == '8';
    TallyOfNoDuplicates(keys);
    assert Percentage(1, 3) == 100.0 / 3.0;
  }

  /** Scores 2, 5 and 9 give one response in each band, a third of the pie each. */
  lemma ThreeBandsExample(acessos: Option<seq<AccessRow>>, dateKey: string -> string, t: string)
    ensures var rows := [Response(t, 2, 3, 3, 3, 3, 3), Response(t, 5, 3, 3, 3, 3, 3), Response(t, 9, 3, 3, 3, 3, 3)];
      Aggregate(acessos, Some(rows), dateKey).chartDataNotas == [
        NoteSlice("0-3", 1, "#EF4444", 100.0 / 3.0),
        NoteSlice("4-7", 1, "#F59E0B", 100.0 / 3.0),
        NoteSlice("8-10", 1, "#10B981", 100.0 / 3.0)]
  {
    var rows := [Response(t, 2, 3, 3, 3, 3, 3), Response(t, 5, 3, 3, 3, 3, 3), Response(t, 9, 3, 3, 3, 3, 3)];
    assert BandKeys(rows) == ["0-3", "4-7", "8-10"];
    ThreeBandsTally();
  }

  /** Two responses answering question 1 with 2 and 4 give it a mean of exactly 3. */
  lemma QuestionMeanExample(acessos: Option<seq<AccessRow>>, dateKey: string -> string, t: string)
    ensures var rows := [Response(t, 10, 2, 5, 5, 5, 5), Response(t, 10, 4, 5, 5, 5, 5)];
      Aggregate(acessos, Some(rows), dateKey).medias[0] == Media("Q1", Num(3.0))
  {
    var rows := [Response(t, 10, 2, 5, 5, 5, 5), Response(t, 10, 4, 5, 5, 5, 5)];
    assert rows[..1] == [rows[0]] && rows[..1][..0] == [];
    assert Sum(rows[..1], Q1) == 2;
    assert Sum(rows, Q1) == 6;
  }
}
