# Movie recommendation service: routing, provenance and the exposure audit

This project models two parts of a movie recommendation service in Dafny.

- **Serving** (`app/server.py`, module `Gateway`). Each request for
  `/recommend/{user_id}` asks the LaunchDarkly flag `"ab-testing"` for a model
  token, keyed by `str(user_id)`. The flag's default is `"model_a"`.
  - The tokens `"model_b"` to `"model_e"` select their own model. Every other
    token selects the baseline `model_a`.
  - The selected model's ranked item ids are converted to strings.
  - The service builds a provenance dict and a `log_provenance` call from the
    same selected model.
  - The whole handler is the pure function `GetRecommendations`. The flag
    service, the loaded models and the clock are its parameters.
  - `str` on integers is modelled in module `IntString`, together with its
    inverse.
- **Fairness audit** (`analysis/fairness/exposure_check.py`, module
  `Exposure`).
  - Rating rows are grouped into a count per user (`RatingCounts`).
  - A user with at most 5 ratings is light (`IsLight`). A user with no
    ratings counts 0.
  - Exposure log entries are folded into two genre counters by nested loops
    (`GatherGenreCounts`, with `CountEntry` for one entry).
  - The counters are normalised (`ToProbs`) and a divergence is summed over
    the light genres (`Divergence`). `Audit` runs all of this in order.
  - `collections.Counter` is modelled in module `Counters` as a
    `map<K, nat>`. A missing key reads 0 there, and `Total` is the sum of the
    values.

Each specification function is related by a lemma to an independent description:
- A counter is described by the multiset of occurrences it tallies
  (`Tallies`), and `TalliesUnique` shows that this fixes the counter.
- Conversion to strings has a parse inverse (`ToStringsRoundTrip`).
- Routing has the token naming each model (`RouteToken`).

## Model

| member | source | states |
|---|---|---|
| `Gateway.Assignment` | app/server.py:54 | without an answer from the flag service the token is the default `"model_a"`, which is not one of the override tokens; otherwise it is the service's answer |
| `Gateway.Route` | app/server.py:57-67 | the selected model is `model_a` exactly when the token is not one of `"model_b"`, `"model_c"`, `"model_d"`, `"model_e"`; otherwise it is the model that this token names |
| `Gateway.Token` | app/server.py:57-67 | only `model_a`'s token lies outside the override tokens |
| `Gateway.RouteToken` | app/server.py:54-67 | every model's own token routes back to that model, and `"model_a"` routes to the baseline |
| `Gateway.RouteSeparates` | app/server.py:59-67 | two different override tokens select two different models, neither of them the baseline |
| `Gateway.DefaultIsBaseline` | app/server.py:54-57 | when the flag service has no answer, the baseline serves |
| `Gateway.SelectedModel` | app/server.py:57-70 | `selected_model` is the `model_a` handle unless the token is one of the four override tokens, and then it is the handle that token names (`Resolve` after `Route`) |
| `Gateway.ToStrings` | app/server.py:73 | the converted list has the model's length, and element i is `str` of item i |
| `Gateway.ToStringsRoundTrip` | app/server.py:73 | the item ids can be read back exactly from the converted list, so nothing is reordered, dropped or duplicated |
| `Gateway.ToStringsInjective` | app/server.py:73 | two different item lists never convert to the same list of strings |
| `Gateway.GetRecommendations` | app/server.py:52-92 | the model is the one routed from the flag's answer for `("ab-testing", str(user_id))`. `num_recommendations` equals the length of the returned list. The list given to `log_provenance` is the returned list. Both records carry this user and the model and data versions of the model that produced the list. The returned list is exactly `[str(rec) for rec in recommendations]` of that model's output, and it reads back as that output |
| `Gateway.UnknownTokenServedByBaseline` | app/server.py:54-90 | an unknown token such as `"model_z"`, or no answer at all, is served by `model_a`, and both provenance records name `model_a`'s versions |
| `IntString.NatStr` | app/server.py:73 | a natural number renders as a non-empty run of digits with no leading zero |
| `IntString.Str` | app/server.py:73 | `str(n)` is non-empty and starts with '-' exactly for negative `n` |
| `IntString.DigitValue` | app/server.py:73 | a digit's value is below 10, and rendering that value gives the digit back |
| `IntString.StrRoundTrip` | app/server.py:73 | `str(n)` is a numeral that parses back to `n` |
| `IntString.StrInjective` | app/server.py:73 | different integers render differently |
| `Counters.Inc` | analysis/fairness/exposure_check.py:26 | `counter[k] += 1` adds `k` to the keys and raises its count by one. Every other count stays the same, and no stored count is zero |
| `Counters.TotalInc` | analysis/fairness/exposure_check.py:26 | one increment raises the sum of the counts by exactly one |
| `Counters.TotalRemove` | analysis/fairness/exposure_check.py:32 | the sum of the counts can be split off at any key, so it does not depend on the order in which the keys are visited |
| `Counters.TalliesUnique` | analysis/fairness/exposure_check.py:17-28 | only one counter tallies a given multiset of occurrences |
| `Counters.TalliesIncluded` | analysis/fairness/exposure_check.py:25-28 | tallies of nested multisets have nested keys and smaller counts |
| `Exposure.RatingCounts` | analysis/fairness/exposure_check.py:13 | each user's count is the number of rows carrying that `User_ID`. Users without rows are absent, and no stored count is zero |
| `Exposure.RatingCountsTotal` | analysis/fairness/exposure_check.py:13 | the counts over all users add up to the number of rating rows |
| `Exposure.LightIffFewRatings` | analysis/fairness/exposure_check.py:8-14 | a user is light iff they have at most 5 rating rows, so 5 is light and 6 is not |
| `Exposure.AbsentUserIsLight` | analysis/fairness/exposure_check.py:14 | a user absent from the ratings has no count, reads 0 and is light |
| `Exposure.IsLight` | analysis/fairness/exposure_check.py:14 | a user is light iff their count, read as 0 when absent, is at most 5 (stated by `LightIffFewRatings` and `AbsentUserIsLight`) |
| `Exposure.LightEntries` | analysis/fairness/exposure_check.py:27 | the light entries are drawn from the log, and each of them belongs to a light user |
| `Exposure.LightEntriesComplete` | analysis/fairness/exposure_check.py:25-27 | an entry of a light user occurs among the light entries exactly as often as in the log, and an entry of any other user does not occur there, so the filter drops nothing it should keep |
| `Exposure.CountEntry` | analysis/fairness/exposure_check.py:25-28 | each genre occurrence of the entry, repeats included, adds one to `all_genres`, and also to `light_genres` if the user is light. A non-light user's entry leaves `light_genres` unchanged |
| `Exposure.GatherGenreCounts` | analysis/fairness/exposure_check.py:17-28 | `all_genres` tallies every genre occurrence of the log, and `light_genres` those of light users' entries. Their totals are the sums of `len(genres)`. Every light key is a global key with a count at least as large. With no entries both counters are empty |
| `Exposure.LightOccurrencesIncluded` | analysis/fairness/exposure_check.py:25-28 | light users' genre occurrences are among all genre occurrences |
| `Exposure.OccurrencesPermutation` | analysis/fairness/exposure_check.py:20-26 | the genre occurrences of a log do not depend on the order of its entries |
| `Exposure.LightEntriesPermutation` | analysis/fairness/exposure_check.py:20-28 | reordering the log reorders its light entries and does not change which ones they are |
| `Exposure.GenreCountsOrderIndependent` | analysis/fairness/exposure_check.py:20-28 | any two orders of the same entries give the same two counters |
| `Exposure.SumValues` | analysis/fairness/exposure_check.py:32 | `sum(counter.values())` is the total of the counter |
| `Exposure.ToProbs` | analysis/fairness/exposure_check.py:31-33 | the keys are kept, and each probability is the genre's count over the total, between 0 (exclusive) and 1. An empty counter gives an empty map and nothing is divided |
| `Exposure.Lookup` | analysis/fairness/exposure_check.py:41 | a genre's global probability when it has one; when every global probability is non-zero, the divisor it returns, `1e-12` included, is never zero |
| `Exposure.Term` | analysis/fairness/exposure_check.py:42 | one summand `p * log(p / q)`, defined for a non-zero `q`; a genre with the same probability for light users as globally contributes 0 |
| `Exposure.KlSumRemove` | analysis/fairness/exposure_check.py:39-42 | the divergence sum can be split off at any light genre, so the order of iteration does not change it |
| `Exposure.Divergence` | analysis/fairness/exposure_check.py:39-42 | the accumulated value is the sum of `p * log(p / q)` over the light genres, where `q` is the global probability or `1e-12`. An empty light distribution gives 0 |
| `Exposure.Audit` | analysis/fairness/exposure_check.py:11-42 | each distribution gives a genre its share of the occurrences. Every light genre has a global probability, so the `1e-12` fallback is never used. With no light occurrences the result is 0. With no entries both distributions are empty and the result is 0, not a failure |

## Behaviour of the code worth noting

- With no log entries, both counters stay empty and `to_probs` returns `{}`
  without dividing. The divergence loop never runs, and the script prints
  `0.000`. It does not fail (`Exposure.Audit`).
- A log line without `user_id` or `genres` raises `KeyError` and stops the run.
- The logged dict carries `num_recommendations` but not the list. The
  `log_provenance` call carries the list but no count and no timestamp. Both
  are modelled, and they are proved consistent.
- A fallback to `model_a` is visible only through the log line of the token
  received (app/server.py:55).

## Left out

- LaunchDarkly client set-up and `variation` (app/server.py:7-16, 52-54) are a network call. The flag service is the parameter `flags`, and the default it substitutes is `Assignment(None)`.
- Loading the five `SVDRecommender`s and their internals (app/server.py:18-36) are not visible. Each model is its two version strings plus a total `recommend` function, and the model file paths are not modelled.
- Only the ranked item ids of `recommend`'s result are modelled. The second component is discarded by the handler. The item ids are modelled as integers.
- A model that raises inside `recommend` is not modelled: `recommend` is total here.
- FastAPI routing, `Path` validation and `RecommendationsResponse` (app/server.py:1, 38-48, 92) are HTTP transport. The response is the list in `Served.recommendations`.
- `logger` calls and `datetime.utcnow()` (app/server.py:18-36, 55, 77, 83) are I/O and the clock. The timestamp is a parameter, and the ISO formatting is not modelled.
- `log_provenance` persistence (app/server.py:85-90) is not part of this model. Only the arguments of the call are modelled (`ProvenanceEntry`).
- `pd.read_csv`, `glob`, `open` and `json.loads` (analysis/fairness/exposure_check.py:12, 20-23) are file I/O. The ratings are their `User_ID` column, and the logs are one sequence of entries. The order of the log files does not matter, as `GenreCountsOrderIndependent` shows.
- `groupby("User_ID")` drops rows whose `User_ID` is missing (analysis/fairness/exposure_check.py:13). The model's `seq<UserId>` cannot represent a missing id, so `RatingCountsTotal`'s "counts add up to the number of rows" means the rows that have an id.
- Floating point: probabilities and the divergence are exact reals, and `math.log` is the parameter `ln`. Rounding is therefore not modelled, and neither is the order-dependence of float sums.
- Exposure.ToProbs: does not state that the probabilities sum to 1. It requires positive stored counts, which every counter built by the loop has. An all-zero non-empty counter, which would raise `ZeroDivisionError`, cannot arise.
- Exposure.Divergence: requires every global probability to be non-zero. `to_probs` of a counter with positive counts guarantees this. A zero there would raise `ZeroDivisionError` in the code. It also requires every light probability to be positive; `math.log` raises `ValueError` otherwise, and `to_probs` of a counter with positive counts guarantees this too.
- The `print` formatting to three decimals (analysis/fairness/exposure_check.py:44) is output only.
- Concurrency of requests and of provenance appends does not appear in the handler's code.
