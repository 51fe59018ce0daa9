# Shipping controller: bounded city match and shipping quote

This project models the two pieces of real logic in the robot-shop shipping
service's `Controller`:

- **`match(code, text)`**: the bounded city search. Search text shorter than
  three characters is refused with BAD_REQUEST before the city repository is
  asked. Otherwise the repository's answer is shaped. A list of more than ten
  cities is cut to its first **nine** (`subList(0, 9)`). A list of ten or fewer
  is returned whole. So ten cities come back as ten, and eleven come back as
  nine. The model keeps this behaviour as written and pins it down in
  `Controller.ElevenBecomesNine`.
- **`caclc(id)`**: the shipping quote. An id with no city gives NOT_FOUND.
  Otherwise the calculator gives a whole distance from the fixed warehouse
  origin (51.164896, 7.068792), and the cost is `Math.rint(distance * 5) / 100.0`
  dollars. The product is already an integer, so rounding does nothing. The
  cost is exactly five cents per unit of distance. The model keeps cost in
  integer cents. It also models `Math.rint` on exact reals (round half to even)
  to show that the rounding step is a no-op.

The city repository is the datatype `Domain.CityStore`. It holds two supplied
functions: `findById`, which may return nothing, and `matchText`. The distance
calculator is a supplied function `Domain.Calculator` from a city and an origin
to a natural number. Because they are parameters, "the store is never asked" is
stated as independence: two different stores give the same reply.

Files:

- `wrappers.dfy`: `Option` and `Result`.
- `domain.dfy`: `Coordinate`, `City`, `Ship`, `Err`, `CityStore`, `Calculator`.
- `rounding.dfy`: `Rint`, a model of Java's `Math.rint`.
- `controller.dfy`: `Match`, `Calc` and their properties.

## Model

| member | source | states |
|---|---|---|
| Rounding.Rint | shipping/src/main/java/com/instana/robotshop/shipping/Controller.java:127 | The result is an integer within one half of the argument. When two integers are equally near, it is the even one. |
| Rounding.RintUnique | shipping/src/main/java/com/instana/robotshop/shipping/Controller.java:127 | Any integer strictly closer than one half to the argument is the rounded value. |
| Rounding.RintOfInteger | shipping/src/main/java/com/instana/robotshop/shipping/Controller.java:126-127 | Rounding an integral value returns that value, so "avoid rounding" holds. |
| Rounding.RintMonotone | shipping/src/main/java/com/instana/robotshop/shipping/Controller.java:127 | Rounding preserves the order of its arguments. |
| Controller.Shape | shipping/src/main/java/com/instana/robotshop/shipping/Controller.java:105-109 | The shaped list is a prefix of the store's answer and never longer than ten. An answer of at most ten is unchanged. A longer answer leaves exactly nine. |
| Controller.Match | shipping/src/main/java/com/instana/robotshop/shipping/Controller.java:91-110 | The search fails exactly when the text has fewer than three characters, and then with BAD_REQUEST. On success the reply is a prefix of the store's answer for this code and text, at most ten long. |
| Controller.ShortTextIgnoresStore | shipping/src/main/java/com/instana/robotshop/shipping/Controller.java:95-99 | For short text, any two stores give the same BAD_REQUEST reply. The length check comes before the store call. |
| Controller.MatchAsksStoreOnce | shipping/src/main/java/com/instana/robotshop/shipping/Controller.java:99-109 | For text of three or more characters the search succeeds. Its reply depends only on the store's answer for exactly this code and text. |
| Controller.MatchLength | shipping/src/main/java/com/instana/robotshop/shipping/Controller.java:105-109 | The reply length is 9 when the store returns more than 10 cities. Otherwise it equals the store's count. |
| Controller.ElevenBecomesNine | shipping/src/main/java/com/instana/robotshop/shipping/Controller.java:105-107 | Ten cities come back whole. Ten plus one come back as the first nine of the ten, so the reply shrinks. |
| Controller.ShapeIdempotent | shipping/src/main/java/com/instana/robotshop/shipping/Controller.java:105-109 | Shaping an already shaped list changes nothing. |
| Controller.MatchReply | shipping/src/main/java/com/instana/robotshop/shipping/Controller.java:91-110 | Building the reply element by element over the retained part of the store's answer gives exactly the `Match` reply. |
| Controller.CostCents | shipping/src/main/java/com/instana/robotshop/shipping/Controller.java:127 | The rounded price in cents of a non-negative distance is non-negative. |
| Controller.CostDollars | shipping/src/main/java/com/instana/robotshop/shipping/Controller.java:127 | The price in dollars, cents divided by 100, is non-negative. |
| Controller.CostIsExact | shipping/src/main/java/com/instana/robotshop/shipping/Controller.java:125-127 | The rounded price is exactly 5 × distance cents, which is distance × 0.05 dollars. |
| Controller.CostMonotone | shipping/src/main/java/com/instana/robotshop/shipping/Controller.java:127 | A longer distance never costs less. |
| Controller.Calc | shipping/src/main/java/com/instana/robotshop/shipping/Controller.java:112-132 | The quote fails exactly when the store finds no city for the id, and then with NOT_FOUND. On success the distance is the calculator's distance from the city to the fixed home coordinate. The cost is 5 cents per unit of that same distance. |
| Controller.NotFoundIgnoresCalculator | shipping/src/main/java/com/instana/robotshop/shipping/Controller.java:119-122 | An unknown id gives NOT_FOUND whatever the calculator would say, and no quote is produced. |
| Controller.QuoteOrdering | shipping/src/main/java/com/instana/robotshop/shipping/Controller.java:125-128 | Of two successful quotes, the one with the shorter or equal distance has the non-negative, lower or equal cost. |

## Left out

- `memory`, `free` and `bytesGlobal` (Controller.java:30, 45-59): a shared byte-array list for memory-pressure diagnostics, with no logic.
- `health`, `count`, `codes`, `cities` (Controller.java:61-89): constants or direct repository passthroughs.
- `confirm` and its commented-out variants (Controller.java:134-222): an HTTP call to the cart service, JSON parsing, tracing annotations and wall-clock latency.
- `dispatch` (Controller.java:224-252): builds a response map with a timestamp and emits tracing tags.
- `getenv` and `CART_URL` (Controller.java:28, 38-43): environment plumbing.
- `Calculator` is not part of this model. Its great-circle distance is double-precision trigonometry. Here it is a supplied function returning a non-negative integer.
- `CityRepository` is not part of this model. Its matching and lookup semantics are supplied functions.
- Logging, Spring routing, and the mapping of errors to HTTP responses beyond the two statuses BAD_REQUEST and NOT_FOUND.
- Controller.Match: the text length is counted in Unicode characters. Java's `String.length()` counts UTF-16 code units, so a character outside the Basic Multilingual Plane counts as two there.
- Controller.CostDollars: the division by `100.0` is exact here. In Java it is rounded to the nearest double.
- Controller.CostCents: `distance * 5` is exact here. In Java it is a 64-bit `long` product converted to `double`, which is exact only while it stays below 2^53. Real distances on Earth are far below that.
- Controller.Calc: the city id is an unbounded integer rather than a Java `long`.
