# EcoTrack live statistics, modelled in Dafny

EcoTrack's server answers `GET /statistics` by reading every challenge
document from the `challenges` collection and walking them once with
`forEach`, keeping two running totals:

- `totalParticipants` adds each challenge's `participants`, a missing or
  null value counting as 0 (`c.participants || 0`);
- `totalImpact` adds one number per challenge, read from its
  `impactMetric` string: the first run of ASCII digits (`/\d+/`) read as a
  decimal, or 0 when the field is absent or holds no digit.

The route answers `{totalParticipants, totalImpact}`. If anything throws,
it answers status 500 with `{error: "Failed to fetch statistics"}`. Two
things can throw: the store fetch, and a document whose `impactMetric` is
present but not a string (it has no `match` method). One such document
fails the whole request. No partial totals are returned.

The project has three modules:

- `Wrappers` (Wrappers.dfy): `Option` and `Result`.
- `DigitRuns` (DigitRuns.dfy): the pure string part of line 52.
  `MatchDigits` is `s.match(/\d+/)?.[0]`; it is proved to find exactly the
  leftmost maximal digit run. `DigitsValue` is `parseFloat` of such a run.
  It is tied to its inverse `Decimal` by round-trip lemmas in both
  directions.
- `Statistics` (Statistics.dfy): the documents, the per-challenge
  contribution `ImpactOf`, and the specification function `Total` (a sum
  over the list). `ComputeTotals` is the `forEach` loop with its two
  accumulators, proved against `Total`. `GetStatistics` is the whole route
  with its error responses. Lemmas about `Total` give the rest:
  concatenation, each document counted once, monotonicity of the impact
  total, and independence from the order the store returns documents in.

The code reads `impactMetric` as a string and returns one `totalImpact`
number. A document whose `impactMetric` is an object such as
`{unit, value}`, or any other non-string value, is `NonText` and makes the
route answer 500 (`Statistics.GetStatistics`). Of the metrics that do not
fail, an absent/null one and a digit-free string fall back to the `|| 0`
default and add 0; a string whose first digit run is all zeros ("0 kg")
also adds 0, because that run reads as 0.

## Model

| member | source | states |
|---|---|---|
| `DigitRuns.FirstDigitIndex` | index.js:52 | the index where `/\d+/` starts looking succeeds: no digit before it, a digit at it, or the end of the string |
| `DigitRuns.LeadingDigits` | index.js:52 | the greedy `\d+` run from a position: every character in it is a digit and the next one is not |
| `DigitRuns.MatchDigits` | index.js:52 | `match` yields null exactly when the string has no ASCII digit; otherwise it yields the leftmost maximal digit run |
| `DigitRuns.FirstRunUnique` | index.js:52 | a string has at most one leftmost maximal digit run, so the match is well defined |
| `DigitRuns.MatchDigitsComplete` | index.js:52 | every leftmost maximal digit run is what `match` returns (with `MatchDigits`'s ensures: an if-and-only-if) |
| `DigitRuns.DigitsValue` | index.js:52 | `parseFloat` of an n-digit run is a non-negative integer below 10^n |
| `DigitRuns.DigitsValueDecimal` | index.js:52 | reading the decimal spelling of n gives back n |
| `DigitRuns.DecimalDigitsValue` | index.js:52 | a digit run without a leading zero is the decimal spelling of its own value |
| `DigitRuns.DigitsValueAppend` | index.js:52 | a run is read positionally: the value of a + b is value(a) * 10^len(b) + value(b) |
| `DigitRuns.LeadingZerosIgnored` | index.js:52 | leading zeros do not change the value read |
| `Statistics.ParticipantsOfCount` | index.js:49 | `ParticipantsOf` writes out the JavaScript default with its falsy test; an absent or null count adds 0, and any integer adds itself, since 0 is the only falsy integer and the default then gives 0 anyway |
| `Statistics.ImpactOf` | index.js:52 | absent or null metric adds 0; a string with no digit adds 0; a non-string metric throws a TypeError, and nothing else throws |
| `Statistics.ImpactOfFirstRun` | index.js:52 | a string metric adds the value of its first digit run, whatever text (other runs included) follows it |
| `Statistics.ImpactOfDecimal` | index.js:52 | a number written in decimal after digit-free text, and ended by a non-digit or the end, is the number added |
| `Statistics.DecimalPointStopsRun` | index.js:52 | "2.5 kg" adds 2 |
| `Statistics.SecondRunIgnored` | index.js:52 | "10 kg / 3 trees" adds 10 |
| `Statistics.MinusSignIgnored` | index.js:52 | "-5 kg" adds 5: the pattern has no sign |
| `Statistics.LeadingZerosRun` | index.js:52 | "007 trees" adds 7 |
| `Statistics.ComputeTotals` | index.js:45-54 | the loop throws exactly when some document's metric is present but not a string; otherwise its two accumulators end equal to the participants sum and the impact sum over the whole list |
| `Statistics.GetStatistics` | index.js:38-64 | status 500 with "Failed to fetch statistics" exactly when the fetch fails or some metric is not a string; otherwise the JSON totals are the sums over all documents; an empty collection gives 0 and 0 |
| `Statistics.TotalAppend` | index.js:48-54 | the totals over a concatenation are the componentwise sum of the totals of the parts |
| `Statistics.VisitedOnce` | index.js:48-54 | each document's participants and impact are counted exactly once in the totals |
| `Statistics.NoImpactStillCounts` | index.js:49-53 | a document with no metric, or a digit-free one, leaves totalImpact unchanged but still adds its participants |
| `Statistics.ImpactNeverDecreases` | index.js:52-53 | the impact total over a longer prefix is at least the one over a shorter prefix |
| `Statistics.TotalPermutation` | index.js:44-54 | the totals, and whether the request fails, do not depend on the order the store returns the documents in |

## Left out

- HTTP plumbing (index.js:1-9, 32-34, 67-69): Express, CORS, JSON body parsing, the liveness route and `app.listen`.
- The MongoDB client and its connection (index.js:6, 11-29, 40-44): the fetched documents are an input, `Fetch`. `Rejected` stands for any failure of `find({}).toArray()`.
- Console logging (index.js:24, 26, 61).
- `DigitsValue`: `parseFloat` yields a double. Runs above 2^53 lose precision in JavaScript and are exact here. A run whose value is about 1.798 × 10^308 or more (for example, any run with 310 or more significant digits) makes `parseFloat` return Infinity; `totalImpact` is then Infinity, and `res.json` sends it as `null`. `totalImpact` and `totalParticipants` are also doubles in the source and unbounded integers here.
- `ParticipantsOf`: `participants` is typed as an optional integer. Other JavaScript values are not modelled: a string turns `+=` into concatenation. A NaN count is falsy and adds 0, like a missing one.
- `ImpactOf`: a non-string metric is assumed to have no `match` method. An object carrying its own `match` function is not modelled.
- In the source, the loop adds a throwing document's participants before the throw. The model does the same, but the partial sum is discarded in both, so nothing observable depends on it.
