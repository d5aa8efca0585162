# Horoscope generator: the deterministic core

This project models, in Dafny, the deterministic logic of `HoroscopeGenerator`
in `RaspberryPiOs/src/scripts/horoscope.py`. The script prints a random "horoscope" for a birth date. Around its
random draws and text templates sits a small amount of real logic:

- **Sun-sign resolution** (`get_zodiac_sign`). A first-match scan over a
  twelve-entry table of (month, day) ranges. Both bounds are anchored to the
  birth year, and the last entry is the fallback when nothing matches.
- **Compatibility score** (`calculate_compatibility`). A random base plus 0.1
  for a shared element and 0.1 for a shared quality, capped at 1.0.
- **Tables and their shape.** The sign table, the 12 × 5 × 5 prediction bank,
  the colour table keyed by sign name, the five pieces of advice and the ten
  chart bodies.
- **Degree-to-sign lookup.** `zodiac_signs[floor(degrees / 30)]` places each
  chart body in a 30-degree sector.

Every random draw (`random.choice`, `random.uniform`, `random.randint`) is a
parameter with the range the draw guarantees as a precondition. Python's
exceptions are values: `Results.Result` carries `ValueError` (an impossible
`datetime.date`) and `IndexError` (a list index out of range).

Modules, leaf first:

- `Results`: `Result`, `Option` and Python list indexing.
- `Calendar`: `datetime.date` validity and ordering.
- `Zodiac`: `ZodiacSign` and resolution over any table.
- `Signs`: the concrete table and everything resolution does with it.
- `Compatibility`: the score.
- `Chart`: `CelestialBody`, `AstrologicalChart` and the sector lookup.
- `Predictions`: the prediction bank, the colours and the advice.
- `Horoscope`: the generator and one report.

## The Capricorn range

Capricorn is stored as (12, 22)–(1, 19). Anchored to one year, its start date
falls after its end date, so the test `start <= birth_date <= end` never holds
for it. No other range holds December 22 – January 19 either. Those dates fall
through to the fallback and resolve to Рыбы (Pisces), and Козерог is never
returned. The model keeps this behaviour: `Zodiac.SunSign` is the code as
written, and the chart and report use it, because they model what the program
prints. The stored bounds `(12, 22), (1, 19)` at line 63 show the intent:
Capricorn was meant to hold December 22 – January 19, including December 31
and January 1. The comparison at line 85 does not honour that, and this model
follows the code. The wrap-aware resolution that was evidently meant is defined beside it
(`Zodiac.ResolveWrapping`) and proved to partition the year (see Findings).

Both resolvers are compared against an independent reference zodiac,
`Signs.ReferenceIndex`. It is built from the cusp day of each month and the
sign that begins in that month. It is not a range scan.

## Model

| member | source | states |
|---|---|---|
| Results.PyIndex | RaspberryPiOs/src/scripts/horoscope.py:123 | Python list indexing succeeds exactly for indices in [-n, n); a non-negative index selects that element, a negative one counts from the end, and anything else raises IndexError |
| Calendar.DateLeTotalOrder | RaspberryPiOs/src/scripts/horoscope.py:85 | `<=` on dates, lexicographic on (year, month, day), is reflexive, antisymmetric, transitive and total |
| Calendar.SameYearOrder | RaspberryPiOs/src/scripts/horoscope.py:83-85 | comparing two dates of the same year is comparing their (month, day) pairs lexicographically |
| Calendar.MakeDate | RaspberryPiOs/src/scripts/horoscope.py:83-84 | `datetime.date(year, month, day)` succeeds exactly when year is 1..9999, month is 1..12 and day fits the month (leap years included); otherwise it raises ValueError |
| Zodiac.FirstInRange | RaspberryPiOs/src/scripts/horoscope.py:82-86 | the index found is the first at or after the start whose range holds the (month, day) under lexicographic order; no earlier entry holds it; none is found exactly when no remaining entry holds it |
| Zodiac.Scan | RaspberryPiOs/src/scripts/horoscope.py:82-86 | the loop with dates anchored to the birth year raises ValueError exactly when some bound is an impossible date in that year before the first matching entry; otherwise it finds the same index as the year-free first-match test |
| Zodiac.ResolveMonthDay | RaspberryPiOs/src/scripts/horoscope.py:82-87 | the result is a table entry: the first entry whose range holds the date, or the last entry when none does |
| Zodiac.SunSign | RaspberryPiOs/src/scripts/horoscope.py:81-87 | `get_zodiac_sign` returns the first-match sign with the last-entry fallback (`zodiac_signs[-1]`), stated on month and day alone; on a non-empty table it cannot raise when every bound exists in the birth year and its only possible error is ValueError; on an empty table the fallback raises IndexError |
| Zodiac.SunSignIgnoresYear | RaspberryPiOs/src/scripts/horoscope.py:83-85 | two birthdays with the same month and day get the same sign, whatever their years, provided every bound exists in both years |
| Zodiac.ResolveWrapping | RaspberryPiOs/src/scripts/horoscope.py:63 | corrected resolution: a range whose start lies after its end wraps the year end; first match with the same fallback |
| Signs.TableShape | RaspberryPiOs/src/scripts/horoscope.py:52-66 | the table has twelve signs with distinct names; elements cycle fire, earth, air, water and qualities cycle cardinal, fixed, mutable in table order; each range starts the day after the previous one ends, Aries following Pisces |
| Signs.BoundsExistEveryYear | RaspberryPiOs/src/scripts/horoscope.py:54-65 | every bound in the table is a valid date in every year 1..9999 (none is February 29 or beyond day 28), so building the bound dates never raises |
| Signs.SunSignTotal | RaspberryPiOs/src/scripts/horoscope.py:81-87 | on the real table `get_zodiac_sign` never raises for any date, and its answer depends only on month and day |
| Signs.CapricornRangeEmpty | RaspberryPiOs/src/scripts/horoscope.py:63 | Capricorn's range (12,22)–(1,19) holds no valid month-day, so the comparison at line 85 is never true for it |
| Signs.InRangeIsReference | RaspberryPiOs/src/scripts/horoscope.py:54-65 | a table range that holds a date is the reference zodiac's sign for that date, and is never Capricorn's |
| Signs.RangesDisjoint | RaspberryPiOs/src/scripts/horoscope.py:54-65 | no date lies in two ranges of the table |
| Signs.RangesCover | RaspberryPiOs/src/scripts/horoscope.py:54-65 | every date from January 20 to December 21 lies in the reference sign's range, and that sign is not Capricorn |
| Signs.ResolveOutsideCapricornSeason | RaspberryPiOs/src/scripts/horoscope.py:81-87 | from January 20 to December 21 resolution returns exactly the reference zodiac's sign |
| Signs.ResolveInCapricornSeason | RaspberryPiOs/src/scripts/horoscope.py:82-87 | from December 22 to January 19 no range matches, so resolution returns the last entry, Рыбы |
| Signs.SunSignNeverCapricorn | RaspberryPiOs/src/scripts/horoscope.py:82-87 | for every birth date the result is one of the twelve entries and is never Козерог |
| Signs.CapricornSeasonIsPisces | RaspberryPiOs/src/scripts/horoscope.py:82-87 | every birth date from December 22 to January 19, in any year, resolves to Рыбы |
| Signs.AriesCusp | RaspberryPiOs/src/scripts/horoscope.py:54-65 | March 21 resolves to Овен and March 20 to Рыбы |
| Signs.JulyFourthIsCancer | RaspberryPiOs/src/scripts/horoscope.py:57 | July 4, 1990 resolves to Рак |
| Signs.LeapDayIsPisces | RaspberryPiOs/src/scripts/horoscope.py:65 | February 29, 2020 resolves to Рыбы |
| Signs.NewYearIsPisces | RaspberryPiOs/src/scripts/horoscope.py:82-87 | December 31 and January 1 resolve to Рыбы through the fallback |
| Signs.WrappingRangesPartition | RaspberryPiOs/src/scripts/horoscope.py:54-65 | with wrap-aware membership exactly one range holds each valid date: the reference sign's |
| Signs.WrappingResolveIsReference | RaspberryPiOs/src/scripts/horoscope.py:54-65 | corrected resolution returns the reference sign for every valid date, Capricorn included |
| Signs.WrappingExampleDates | RaspberryPiOs/src/scripts/horoscope.py:63-64 | corrected resolution sends December 31 and January 1 to Козерог and January 20 to Водолей |
| Compatibility.Score | RaspberryPiOs/src/scripts/horoscope.py:95-99 | for a base in [0.5, 1.0] the score lies in [0.5, 1.0] and is at least the base and at most base + 0.2; it equals the base when neither element nor quality is shared; below the cap it is the base plus 0.1 per shared attribute; it is 1.0 once base plus bonuses reaches 1.0 |
| Compatibility.ScoreSymmetric | RaspberryPiOs/src/scripts/horoscope.py:97-98 | swapping the two signs leaves the score unchanged |
| Compatibility.ScoreMonotoneInBase | RaspberryPiOs/src/scripts/horoscope.py:96-99 | a larger base never yields a smaller score |
| Compatibility.SelfScore | RaspberryPiOs/src/scripts/horoscope.py:97-99 | a sign scored against itself shares both attributes and scores min(base + 0.2, 1.0) |
| Chart.PlanetPositions | RaspberryPiOs/src/scripts/horoscope.py:34-39 | exactly ten bodies, the i-th being the i-th name and symbol of the fixed list placed at the i-th drawn longitude |
| Chart.GenerateChart | RaspberryPiOs/src/scripts/horoscope.py:89-93 | the sun sign is the resolved sign of the birth date and never Capricorn; ascendant and moon are the picked table entries; the chart has ten bodies, body i having the i-th name and symbol and sitting at the i-th drawn longitude, in [0, 360) |
| Chart.BodiesDistinct | RaspberryPiOs/src/scripts/horoscope.py:35-38 | the fixed body list has ten entries with pairwise distinct names and symbols |
| Chart.SectorIndex | RaspberryPiOs/src/scripts/horoscope.py:123 | the index k satisfies 30k <= degrees < 30(k + 1) |
| Chart.PlanetSign | RaspberryPiOs/src/scripts/horoscope.py:123 | the lookup succeeds exactly for longitudes in [-360, 360); in [0, 360) it is the table entry of the longitude's sector |
| Chart.SectorInTable | RaspberryPiOs/src/scripts/horoscope.py:123 | every longitude in [0, 360) gives an index in [0, 11], its sector starts at 30 times that index, and the lookup cannot raise |
| Chart.SectorExamples | RaspberryPiOs/src/scripts/horoscope.py:123 | 0° is Овен, 359.999° is Рыбы, and exactly 360° raises IndexError |
| Predictions.Templates | RaspberryPiOs/src/scripts/horoscope.py:72-78 | five distinct sentences per sign and aspect, each naming that aspect and one attribute of the sign (ruler, element, quality or name) |
| Predictions.StoreSign | RaspberryPiOs/src/scripts/horoscope.py:71-78 | after one sign's inner loop, its name maps every aspect to that sign's five templates; other names are untouched; the name is added only if there is at least one aspect |
| Predictions.LoadPredictions | RaspberryPiOs/src/scripts/horoscope.py:68-79 | the bank's keys are the sign names (none when there are no aspects); each key maps exactly the aspects; every entry has five templates; each name holds the templates of the last sign with that name |
| Predictions.ColorsCoverSigns | RaspberryPiOs/src/scripts/horoscope.py:46-50 | the colour table is keyed by exactly the twelve sign names, so the lookup at line 111 cannot fail; Рак's colour is серебряный |
| Predictions.DailyAdvice | RaspberryPiOs/src/scripts/horoscope.py:133-141 | five pieces of advice, the first three naming the sign's element, quality and ruler |
| Predictions.AspectsDistinct | RaspberryPiOs/src/scripts/horoscope.py:44 | the aspect list has five distinct entries |
| Horoscope.DistinctNamesCount | RaspberryPiOs/src/scripts/horoscope.py:70-72 | a sign list with distinct names has as many distinct names as signs |
| Horoscope.TableBankComplete | RaspberryPiOs/src/scripts/horoscope.py:70-78 | since the table's names are distinct, every sign keeps its own templates for every aspect |
| Horoscope.TableBankSize | RaspberryPiOs/src/scripts/horoscope.py:68-79 | the bank built from the table has 12 names of 5 aspects each |
| Horoscope.NewGenerator | RaspberryPiOs/src/scripts/horoscope.py:42-50 | the constructed generator holds the table, the five aspects and the colour table, and a bank of 12 names × 5 aspects × 5 templates in which every sign and aspect is present |
| Horoscope.ReadyLookup | RaspberryPiOs/src/scripts/horoscope.py:107 | for every sign of the table and every aspect, the lookup `predictions[sign.name][aspect]` is present and holds that sign's templates |
| Horoscope.SelectPredictions | RaspberryPiOs/src/scripts/horoscope.py:106-108 | one prediction per aspect, in aspect order, each the picked template of the sun sign for that aspect |
| Horoscope.Placements | RaspberryPiOs/src/scripts/horoscope.py:122-124 | each body is listed with the sign of its 30-degree sector, found without error |
| Horoscope.GenerateHoroscope | RaspberryPiOs/src/scripts/horoscope.py:101-131 | the report carries the given current date; its sun sign is the resolved sign; it has one prediction per aspect, each the picked template of the sun sign for that aspect; the lucky number is the drawn one, in 1..100; the lucky colour is the sun sign's colour; it has ten planet placements, body i having the i-th name and symbol at the i-th drawn longitude, with its sector's sign; the compatibility with the moon sign is the score for the drawn base, in [0.5, 1.0]; the advice is the picked one of the sun sign's five |

## Left out

- The interactive loop (`HoroscopeApp.run`), `input`/`print`, `strptime` parsing and `date.today()`: terminal I/O. The birth date arrives as a valid `Calendar.CalendarDate`, and the current date is a parameter.
- colorama colour and style codes and the exact Russian sentence wording: presentation only. Sentences (`Predictions.Template`, `Predictions.Advice`) keep their skeleton and the values each is built from. The aspect is kept as listed, not lower-cased. Element and quality are enumerations, not their Russian words. The report is a structured value, not text.
- The random draws themselves. Each is a parameter with its range as a precondition: indices for `random.choice`, reals for `random.uniform`, an integer in 1..100 for `random.randint`.
- Compatibility.Score: computed over exact reals, not IEEE doubles. The float sums `base + 0.1 + 0.1` may round differently, and no bound here depends on that.
- Chart.GenerateChart: assumes every drawn longitude lies in [0, 360). `random.uniform(0, 360)` could in principle return 360.0 through rounding. `Chart.PlanetSign` shows that this one value would raise IndexError.
- Float formatting (`:.2f`, `:.2%`) and `strftime` in the report header: presentation only.

## Findings

| source | as written | input that shows it | evidently intended | confidence | as-written member | corrected member |
|---|---|---|---|---|---|---|
| RaspberryPiOs/src/scripts/horoscope.py:63 | Capricorn's range (12,22)–(1,19) is tested as `start <= birth <= end` with both ends in the birth year, which is never true, so December 22 – January 19 falls back to Рыбы | 1999-12-31 (or any date from December 22 to January 19) resolves to Рыбы | a range whose start is after its end wraps the year end, so these dates resolve to Козерог and the twelve ranges partition the year | high; not executed | Signs.CapricornSeasonIsPisces | Signs.WrappingResolveIsReference |

The corrected resolver is `Zodiac.ResolveWrapping`. `Signs.WrappingRangesPartition`
proves it partitions the year. The chart and report models keep the as-written
`Zodiac.SunSign`, because they describe the program's actual output.
