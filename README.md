# Creature data aggregator — a Dafny model

This project models `fetch_pokemon_full_data`, the single function of a small
client for a public Pokémon REST API. Given a creature name and an HTTP
client, the function:

1. builds the creature URL from a fixed base URL, the `/pokemon/` segment and
   the lower-cased name, and GETs it, returning `None` on any status other
   than 200;
2. reads the creature's base stats into a dict keyed by stat name, its type
   names into a list, and its move list, returning `None` when the move list
   is empty;
3. GETs the URL of the first move only, returning `None` on any status other
   than 200;
4. reads the move's power, type name and name, each with a default used only
   when the key is absent (50, "normal", "tackle"), and the effect text of the
   first English effect entry (null when there is none);
5. returns one record with the creature's upstream name, stats, types and the
   move sub-record.

The model is pure Dafny, matching the source, which has no state and no loops:

- `wrappers.dfy` — `Option` and `Result`.
- `py_json.dfy` (module `PyJson`) — decoded JSON as a datatype in which an
  object is a map, so an absent key and an explicit `null` are different; the
  Python operations the function applies to it (subscripting, `dict.get`,
  truthiness, iterating in a comprehension, list and dict comprehensions),
  with the exceptions they raise.
- `pokeapi_client.dfy` (module `PokeApiClient`) — the URL, the two readers
  and `FetchFullData`. The HTTP client is the pure function
  `get: string -> Response` and the base URL is the parameter `base`. The
  result `Fetch` holds the outcome and the trace of requested URLs in order.
  The outcome is either the value returned (`Some(record)` or `None`) or a
  Python exception raised by a malformed body.
- `pokeapi_client_properties.dfy` — lemmas on requests, early exits, move
  choice, defaults and the success record.
- `pokeapi_client_example.dfy` — a concrete creature with two stats, two types
  and one move, asked for in upper case, and the record it yields.

Notes on what the code does, where it goes beyond the upstream API's
documented field types and the evident intent:

- Power is documented as an integer and names as strings. The code
  passes on whatever JSON value the body holds, including an explicit null, so
  the record's fields are JSON values.
- The early exit is meant for an empty move list. The code tests Python
  falsiness, so a null, `0`, `false`, `""` or `{}` move list also gives `None`
  without a second request.
- A call makes two requests only when it reaches the move. It makes one
  when it stops after the creature response.
- A name is meant to be non-empty. The code does not check it.

## Model

| member | source | states |
|---|---|---|
| `PyJson.Collect` | src/pokeapi_client.py:23-24 | A list comprehension succeeds exactly when every element does. It then has one result per element, in order. Otherwise it raises the exception of the first failing element. |
| `PyJson.FromPairsIsLastWins` | src/pokeapi_client.py:23 | The dict built from the key/value pairs has exactly the keys of the pairs. A repeated key holds the value of its last pair. |
| `PokeApiClient.Lower` | src/pokeapi_client.py:18 | Lower-casing keeps the length and lower-cases each character in place (ASCII). |
| `PokeApiClient.CreatureUrl` | src/pokeapi_client.py:18 | The creature URL is the base URL, then `/pokemon/`, then a suffix that has no upper-case letter and differs from the name only in case. |
| `PokeApiClient.ReadCreatureFields` | src/pokeapi_client.py:22-25 | A creature body that reads without exception is a dict with `stats`, `types` and `moves`. The move list is taken verbatim. The types are the type names in list order. The base stats map each stat name to the `base_stat` of its last entry. |
| `PokeApiClient.FirstMoveUrl` | src/pokeapi_client.py:29 | A move URL is found exactly when the move list is a non-empty list whose first entry has a string `url` under `move`. It is that first entry's URL. |
| `PokeApiClient.FirstEnglishEffect` | src/pokeapi_client.py:37-44 | No English entry gives null. A first English entry (all earlier ones readable and not English) gives its `effect`. An unreadable language tag before any English entry raises its exception. |
| `PokeApiClient.ReadMoveFields` | src/pokeapi_client.py:33-44 | A move body reads exactly when it is a dict, its `type` (if present) is a dict and the effect search does not raise. Power, name and type name are then the body's values when the key is present, even a null, and 50, "tackle", "normal" only when it is absent. The effect is the first English effect, or null when `effect_entries` is absent. |
| `PokeApiClient.FetchFullData` | src/pokeapi_client.py:6-55 | Every run requests the creature URL first and at most one more URL. A second request happens only after a 200 creature response whose body reads, and it goes to the URL of the first move. A returned record implies two requests, both answered 200. |
| `PokeApiClientProperties.LowerIdempotent` | src/pokeapi_client.py:18 | Lower-casing an already lower-cased name changes nothing. |
| `PokeApiClientProperties.LowerIgnoresCase` | src/pokeapi_client.py:18 | Two names have the same lower-case form if and only if they differ only in case. |
| `PokeApiClientProperties.FetchIgnoresCase` | src/pokeapi_client.py:18-19 | Names that differ only in case produce the same request and the same whole result. |
| `PokeApiClientProperties.CreatureFailureStopsEarly` | src/pokeapi_client.py:19-21 | A non-200 creature response gives `None` after exactly one request. The move URL is never requested. |
| `PokeApiClientProperties.NoMovesStopsEarly` | src/pokeapi_client.py:25-27 | A 200 creature response whose stats and types read and whose move list is empty (falsy) gives `None` after exactly one request. |
| `PokeApiClientProperties.OnlyFirstMoveRequested` | src/pokeapi_client.py:28-30 | Whenever a second request happens, the move list is a non-empty list and the request goes to the URL of its first entry. |
| `PokeApiClientProperties.FirstMoveUrlIsRequested` | src/pokeapi_client.py:28-30 | After a readable 200 creature response, a list whose first entry has a URL leads to the requests creature URL then that URL. Later entries play no part. |
| `PokeApiClientProperties.MoveFailureGivesNone` | src/pokeapi_client.py:30-32 | A non-200 move response gives `None` after the two requests, although the creature was fetched. |
| `PokeApiClientProperties.NoneMeansOneOfThreeFailures` | src/pokeapi_client.py:19-32 | `None` is returned if and only if the creature request failed, the creature has no moves, or the move request failed. |
| `PokeApiClientProperties.NullPowerIsKept` | src/pokeapi_client.py:34 | A `power` that is present but null stays null. The default 50 does not replace it. |
| `PokeApiClientProperties.EffectIndependentOfOtherFields` | src/pokeapi_client.py:34-44 | Two readable move bodies that differ only in `effect_entries` give the same power, type name and name. |
| `PokeApiClientProperties.FirstEnglishEffectCases` | src/pokeapi_client.py:37-44 | The effect search ends in one of three ways: no English entry and null, the first English entry's `effect`, or the exception of an unreadable language tag met before any English entry. |
| `PokeApiClientProperties.SuccessPath` | src/pokeapi_client.py:18-55 | After two 200 responses with readable bodies, a non-empty move list and an upstream `name`, the result is the record built from the upstream name, the creature's stats and types and the move read from the second response. The requests are the creature URL and then the move URL. |
| `PokeApiClientProperties.SuccessRecordFields` | src/pokeapi_client.py:45-55 | A returned record has the body's upstream `name`, not the caller's string. Its types match the list in length and order. Its base stats take the last value of a repeated stat name. Its move is what the second response's body says. |
| `PokeApiClientExample.HappyPathExample` | src/pokeapi_client.py:18-55 | With stats hp 45 and attack 49, types grass and poison, and a move with power 55, type grass, name vine-whip and an English effect, the name "BULBASAUR" yields exactly that record after requesting the lower-cased creature URL and the move URL. |

## Left out

- Asynchronous execution and the real HTTP client are out. The client is the pure function `get`, and the trace of requested URLs stands in for its side effects. Timeouts, transport exceptions and retries are not modelled.
- Decoding the response body into JSON is a library call and is out. Each response carries an already decoded body. The model does not cover a body that fails to decode.
- The value of the base URL comes from `src/constants`, which is not part of this model. It is the opaque parameter `base`.
- Lower: only ASCII letters are lower-cased. Python's Unicode lower-casing of other characters is not modelled.
- JSON numbers are integers. Floating-point values are not modelled.
- Dict keys in the base stats are compared as JSON values. Python's equality of `True` with `1` as dict keys is not modelled.
- Malformed bodies raise Python exceptions in the source. The model gives each one as a `Failure` outcome with its exception kind (KeyError, TypeError or AttributeError), without the message. `PyJson.Index0` can also give IndexError, but the one index taken, the first move, comes after the falsiness test, so `FetchFullData` never yields it. Any request made before the exception stays in the trace.
- A move URL that is not a string is rejected by the HTTP library. The model treats that as a TypeError raised before any second request.
- FromPairsIsLastWins: states the keys of the base-stats dict and the last-wins value of each, but not the dict's key order. Python keeps each stat name where it first appears in `stats`; the model's `map` has no order, and the same holds for the base stats stated by ReadCreatureFields, SuccessRecordFields and the returned record.
- ReadCreatureFields: states what a body that reads successfully yields. Which exception a malformed creature body raises is fixed by the definitions, not stated as a separate property.
- ReadMoveFields: states what a readable move body yields. Which exception a malformed move body raises is fixed by the definitions, not stated as a separate property.
- Concurrency between calls is out. The function shares no state.
