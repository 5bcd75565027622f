# NPS survey dashboard: the response aggregation

The admin pages of this survey dashboard read two tables from a hosted store:
the access log (`acessos`) and the survey responses (`respostas`). They then
compute, in `getData`:

- the number of accesses and of responses;
- the mean overall score (`npsGeral`);
- the mean of each of the five questions (`medias`, labelled `Q1`..`Q5`);
- the number of responses per day (`chartDataDia`), keyed by the browser's
  date formatting of `created_at`;
- a histogram of the overall score in three bands, `0-3`, `4-7` and `8-10`
  (`chartDataNotas`), each with a colour and a percentage.

Beside each question's mean, the page shows one of five faces, chosen by
comparing the mean with 2, 3, 4 and 5.

`getData` appears twice, once in `app/admin/page.tsx:49-96` and once in
`app/admin/dashboard/page.tsx:48-95`. The two copies differ in one call only:
the day key comes from `toDateString` in the first and from
`toLocaleDateString` in the second. `toDateString` depends on the time zone,
and `toLocaleDateString` on both the time zone and the locale. The model
therefore takes the day key as a function parameter, `dateKey`. One model
therefore covers both copies. The face classifier is also the same expression
in both files (`page.tsx:178`, `dashboard/page.tsx:134`). The table below
cites whichever copy it names.

Files:

- `wrappers.dfy`: `Option`. A table read returns `None` when the store gives
  back `null` data.
- `counting.dfy` (module `Counting`): the counting dictionary built by the two
  `reduce` calls, which add one to each row's key, and read back with
  `Object.entries`.
  - `CountBy` is the loop. It keeps a map of counts and the list of keys in
    insertion order.
  - It is proved equal to `Tally(keys)`, a reference definition. `Tally` lists
    the distinct keys in first-seen order, each with its number of occurrences
    (a multiset count).
  - Lemmas prove what the dashboard depends on: the counts sum to the number
    of keys, each key appears once, counts are at least 1, keys come in
    first-seen order, and equal keys collapse into one entry.
- `survey.dfy` (module `Survey`): the response record and the means over it.
  JavaScript numbers are modelled as `Number = Num(real) | NaN`. This file
  also holds the score bands, the colours, the guarded percentage and the face
  classifier. `Less` models JavaScript's `<`, which is false whenever NaN is
  involved.
- `aggregate.dfy` (module `Aggregation`): the whole `getData` result.
  - `Aggregate` is its reference definition, a function.
  - `GetData` is the method that runs the two counting loops. It is proved
    equal to `Aggregate`.
  - The other members are lemmas about the totals, means, day series and
    histogram.

### Edge cases of the code

- **Means of an empty list.** The guard in front of each mean
  (`respostas ? … / totalRespostas : 0`) tests only whether the row data is
  absent. With an empty but present list the guard passes, and each mean is
  `0 / 0`, which is NaN: see `Survey.Mean` and `Aggregation.EmptyResponses`.
  Every `<` test against NaN is false, so each question then shows the top
  face. Percentages never divide by 0: with no responses the histogram has no
  slices, so no percentage is computed.
- **Histogram size.** The histogram does not always have three slices. A band
  appears only when some response falls in it, so there are between 0 and 3
  slices: see `Aggregation.Histogram` and `Aggregation.SingleBand`.
- **Out-of-range scores.** The bands are not limited to scores 0 to 10.
  Negative scores fall in `0-3`, and scores above 10 fall in `8-10`: see
  `Survey.Band`.

## Model

| member | source | states |
|---|---|---|
| `Counting.CountBy` | app/admin/page.tsx:62-69 | The in-place tally loop returns exactly the `Object.entries` of the reference dictionary, `Tally(keys)`: the distinct keys in first-seen order, each with its number of occurrences. |
| `Counting.TallyTotal` | app/admin/page.tsx:63-67 | The counts of a tally add up to the number of keys tallied. |
| `Counting.TallyEntries` | app/admin/page.tsx:63-69 | Specifies `Tally`, the reference dictionary. Each entry's key occurs among the keys, and its count is that key's number of occurrences, at least 1. No key is listed twice. Every key that occurs has an entry. |
| `Counting.TallyFirstSeenOrder` | app/admin/dashboard/page.tsx:68 | Entries come out in the order their keys first occur, which is the insertion order that `Object.entries` follows. |
| `Counting.TallySameKeyCollapses` | app/admin/dashboard/page.tsx:62-66 | Two occurrences of one key give exactly one entry for that key, with a count of at least 2. |
| `Counting.DistinctElements` | app/admin/page.tsx:65 | A key is in the insertion-order list exactly when it occurs among the keys. |
| `Counting.DistinctNoDuplicates` | app/admin/page.tsx:65 | The insertion-order list never holds a key twice. |
| `Survey.Mean` | app/admin/page.tsx:55 | Absent rows give 0. A present but empty list gives NaN (0 / 0). Otherwise the result is finite, and the result times the row count equals the sum of the field. |
| `Survey.SumBounds` | app/admin/page.tsx:55-59 | The `reduce` sum `Sum` of a field over `n` rows lies between `lo * n` and `hi * n` when every value lies in `lo..hi`. |
| `Survey.MeanBounds` | app/admin/dashboard/page.tsx:54-58 | The mean of a field over a nonempty list is finite and lies in `lo..hi` when every value does. For example, answers from 1 to 5 give a mean from 1 to 5. |
| `Survey.Percentage` | app/admin/page.tsx:83 | A total of 0 gives 0. Otherwise the percentage times the total is 100 times the count, and a count within the total gives a value between 0 and 100. |
| `Survey.Band` | app/admin/page.tsx:73-75 | The band key of a score. A score is in `0-3` exactly when it is at most 3, in `4-7` exactly when it is 4 to 7, and in `8-10` exactly when it is above 7. This includes scores outside 0..10. |
| `Survey.Fill` | app/admin/page.tsx:80-82 | A slice's colour is always one of the three. It is yellow `#F59E0B` exactly for `4-7` and green `#10B981` exactly for `8-10`. Every other key, `0-3` included, is red. |
| `Survey.BandColour` | app/admin/page.tsx:80-82 | A slice's colour follows from its scores' band: red `#EF4444` for at most 3, yellow `#F59E0B` for 4 to 7, green `#10B981` above 7. |
| `Survey.Emoji` | app/admin/page.tsx:178 | A finite mean gets the face whose interval holds it. The intervals are [k+1, k+2) for face rank k, with the lowest open below and the highest open above. NaN gets the top face. |
| `Survey.EmojiMonotone` | app/admin/dashboard/page.tsx:134 | A higher mean never gets a worse face. |
| `Survey.EmojiUnique` | app/admin/dashboard/page.tsx:134 | Only one face fits a finite mean's interval, so the classifier's face is the only possible one. |
| `Aggregation.GetData` | app/admin/page.tsx:49-96 | `getData` after the reads returns `Aggregate` of the rows read, the returned object of lines 87-95. Its response total is the number of rows returned. The per-day counts and the histogram counts both add up to the response total. |
| `Aggregation.Totals` | app/admin/page.tsx:53-54 | Specifies `Length` and `Rows` as `Aggregate` uses them. The totals are the lengths of the two reads, 0 for an absent read. The rows handed back (line 94) are the rows read, or none. |
| `Aggregation.MediasShape` | app/admin/page.tsx:57-60 | Specifies `Medias`: exactly five means, labelled `Q1`..`Q5` in order. The i-th is the mean of question i. |
| `Aggregation.AbsentResponses` | app/admin/dashboard/page.tsx:52-59 | With no response data, the response total is 0, every mean is 0, both charts are empty and no rows are returned. |
| `Aggregation.EmptyResponses` | app/admin/page.tsx:54-60 | With an empty but present response list, the response total is 0, `npsGeral` and every question mean are NaN, each question shows the top face, and both charts are empty. |
| `Aggregation.DayTallyTotal` | app/admin/dashboard/page.tsx:62-68 | The per-day counts add up to the number of responses. |
| `Aggregation.DayTally` | app/admin/page.tsx:63-69 | Specifies `ChartDays` of the day tally. A day has a bar exactly when some response has that day key. No day appears twice, and bars come in the order their days first occur. Each bar counts the responses with its day key, at least 1. |
| `Aggregation.SameDayCollapses` | app/admin/dashboard/page.tsx:62-68 | Two responses with the same day key share one bar: that day has exactly one bar, and it counts at least 2. |
| `Aggregation.HistogramTotal` | app/admin/dashboard/page.tsx:71-78 | The histogram counts add up to the number of responses. |
| `Aggregation.Histogram` | app/admin/page.tsx:72-85 | Specifies `ChartNotes` of the band tally. At most three slices, each labelled `0-3`, `4-7` or `8-10`. Every response's band has a slice, and every slice's band is some response's. No band appears twice, and slices come in the order their bands first occur among the responses. Each slice counts the responses in its band (at least 1) and carries its label's colour. |
| `Aggregation.Percentages` | app/admin/dashboard/page.tsx:82 | Each slice's percentage is its count over the response total, times 100, and lies between 0 and 100. With responses, the percentages sum to 100. With none, there are no slices. |
| `Aggregation.SingleBand` | app/admin/page.tsx:72-85 | When every score falls in one band, the histogram is that single slice, with all the responses, its colour and 100 percent. For example, all scores 10 give `8-10` only. |
| `Aggregation.ThreeBandsExample` | app/admin/dashboard/page.tsx:71-84 | Scores 2, 5 and 9 give the slices `0-3`, `4-7`, `8-10` in that order. Each has count 1, its colour and 100/3 percent. |
| `Aggregation.QuestionMeanExample` | app/admin/dashboard/page.tsx:56-59 | Two responses answering question 1 with 2 and 4 give `Q1` a mean of exactly 3. |

## Left out

- The two table reads (`supabase.from(...).select('*')`) are network I/O. Their
  results are the inputs of `GetData`: `None` when the store returns `null`
  data, otherwise the rows. A read error is not told apart from absent data,
  as in the code.
- Parsing and formatting dates (`new Date(...)`, `toDateString`,
  `toLocaleDateString`, `toLocaleString`) depends on locale and time zone. The
  day key is the parameter `dateKey`. Nothing is assumed about it beyond its
  being a function of `created_at`.
- `Object.entries` lists keys that look like array indices ("0", "42")
  before all other keys, in numeric order. Keys that coincide with
  `Object.prototype` properties ("constructor", …) would not start from an
  empty count. The model assumes neither case. The band labels never hit
  them, and no date formatting produces them.
- IEEE floating point is not modelled. Means and percentages are exact reals.
  Sums are exact integers, with no 2^53 limit. NaN is the only special value
  the code can produce: the row count is 0 only when the sum is 0, so
  ±Infinity cannot occur.
- Display formatting (`toFixed`, the `duration / 1000` column, the face
  glyphs) is left out. The faces are the datatype `Survey.Face`.
- React state and effects, and all JSX: the charts, tooltips and the response
  table.
- The response fields the aggregation does not read (`nome`, `telefone`,
  `duration`, `origem`) are not in the `Response` record. The rows returned
  in `respostas` are the rows read, as far as the modelled fields go.
- `app/admin/login/page.tsx` is a wrapper over the identity service's
  sign-in call and a redirect. It has no local logic to model.
