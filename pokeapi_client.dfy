/**
 * The creature data aggregator: given a GET transport and a creature name, it
 * fetches the creature resource, then the resource of the creature's first
 * move, and assembles one record from the two.
 *
 * The transport is the pure function `get`; every request the aggregator
 * issues is listed, in order, in the `requests` trace of the result, so that
 * which requests happen can be stated. Python exceptions raised while reading
 * a malformed body are `Failure` outcomes, kept apart from the `None` that the
 * function returns on purpose.
 */
module PokeApiClient {
  import opened Wrappers
  import opened PyJson

  /** The part of an HTTP response the aggregator looks at: status and decoded body. */
  datatype Response = Response(status: int, body: Json)

  /** The `move` sub-record of the result. */
  datatype MoveSummary = MoveSummary(name: Json, power: Json, moveType: Json, effect: Json)

  /** The record returned on success. */
  datatype CreatureRecord = CreatureRecord(
    name: Json,
    baseStats: map<Json, Json>,
    types: seq<Json>,
    move: MoveSummary)

  /** What one call does: the value it returns or the exception it raises, and the URLs it requested. */
  datatype Fetch = Fetch(outcome: Result<Option<CreatureRecord>, PyError>, requests: seq<string>)

  /** The fields read from the creature body before the move is fetched. */
  datatype CreatureData = CreatureData(baseStats: map<Json, Json>, types: seq<Json>, moves: Json)

  const HttpOk := 200
  const CreaturePath := "/pokemon/"
  const DefaultPower := JInt(50)
  const DefaultMoveType := JStr("normal")
  const DefaultMoveName := JStr("tackle")
  const English := JStr("en")

  // ---------------------------------------------------------------------------
  // The request URL

  predicate IsUpper(c: char)
  {
    'A' <= c <= 'Z'
  }

  /** Python's `str.lower` on one character, for the ASCII range. */
  function LowerChar(c: char): char
  {
    if IsUpper(c) then (c as int - 'A' as int + 'a' as int) as char else c
  }

  /** Two names that differ at most in the case of their letters. */
  ghost predicate EqualIgnoringCase(a: string, b: string)
  {
    |a| == |b| && forall i :: 0 <= i < |a| ==> LowerChar(a[i]) == LowerChar(b[i])
  }

  /** Python's `str.lower`, for the ASCII range. */
  function Lower(s: string): (r: string)
    ensures |r| == |s|
    ensures forall i :: 0 <= i < |s| ==> r[i] == LowerChar(s[i])
  {
    if s == [] then [] else [LowerChar(s[0])] + Lower(s[1..])
  }

  /** The creature URL: the base URL, the `/pokemon/` segment and the lower-cased name. */
  function CreatureUrl(base: string, name: string): (url: string)
    ensures |url| == |base + CreaturePath| + |name|
    ensures url[..|base + CreaturePath|] == base + CreaturePath
    ensures EqualIgnoringCase(url[|base + CreaturePath|..], name)
    ensures forall i :: |base + CreaturePath| <= i < |url| ==> !IsUpper(url[i])
  {
    var url := base + CreaturePath + Lower(name);
    assert url[|base + CreaturePath|..] == Lower(name);
    url
  }

  // ---------------------------------------------------------------------------
  // Reading the creature body

  /**
   * One entry of the base-stats comprehension: the name of the entry's `stat` as
   * key and its `base_stat` as value; an unhashable key raises TypeError when it
   * is inserted.
   */
  function StatEntry(stat: Json): Result<(Json, Json), PyError>
  {
    var s :- Subscript(stat, "stat");
    var key :- Subscript(s, "name");
    var value :- Subscript(stat, "base_stat");
    if Hashable(key) then Success((key, value)) else Failure(TypeError)
  }

  /** One entry of the types comprehension: the name of the entry's `type`. */
  function TypeName(t: Json): Result<Json, PyError>
  {
    var ty :- Subscript(t, "type");
    Subscript(ty, "name")
  }

  /** The statements that read `base_stats`, `types` and `moves` from the creature body, in order. */
  function ReadCreature(data: Json): Result<CreatureData, PyError>
  {
    var statList :- Subscript(data, "stats");
    var stats :- IterateSubscripted(statList);
    var pairs :- Collect(StatEntry, stats);
    var typeList :- Subscript(data, "types");
    var typeEntries :- IterateSubscripted(typeList);
    var types :- Collect(TypeName, typeEntries);
    var moves :- Subscript(data, "moves");
    Success(CreatureData(FromPairs(pairs), types, moves))
  }

  /** The URL of a move reference, the `url` of its `move`, which the transport accepts only as a string. */
  function MoveUrlOf(m: Json): Result<string, PyError>
  {
    var move :- Subscript(m, "move");
    var url :- Subscript(move, "url");
    if url.JStr? then Success(url.s) else Failure(TypeError)
  }

  /** The URL the second request goes to: that of the move list's first entry, chosen by position only. */
  function FirstMoveUrl(moves: Json): (r: Result<string, PyError>)
    ensures r.Success? <==> moves.JArr? && |moves.items| > 0 && MoveUrlOf(moves.items[0]).Success?
    ensures r.Success? ==> r == MoveUrlOf(moves.items[0])
  {
    var first :- Index0(moves);
    MoveUrlOf(first)
  }

  // ---------------------------------------------------------------------------
  // Reading the move body

  /** The language tag of an effect entry: the `name` of its `language`. */
  function Language(e: Json): Result<Json, PyError>
  {
    var language :- Subscript(e, "language");
    Subscript(language, "name")
  }

  /** Every entry before position `n` has a readable language tag that is not English. */
  ghost predicate NoEnglishBefore(entries: seq<Json>, n: int)
    requires n <= |entries|
  {
    forall j :: 0 <= j < n ==> Language(entries[j]).Success? && Language(entries[j]) != Success(English)
  }

  /** Position `i` holds the first English entry. */
  ghost predicate FirstEnglishAt(entries: seq<Json>, i: int)
  {
    0 <= i < |entries| && NoEnglishBefore(entries, i) && Language(entries[i]) == Success(English)
  }

  /** Position `i` holds the first entry whose language tag cannot be read, before any English one. */
  ghost predicate FirstUnreadableAt(entries: seq<Json>, i: int)
  {
    0 <= i < |entries| && NoEnglishBefore(entries, i) && Language(entries[i]).Failure?
  }

  /**
   * The `effect` of the first entry whose language tag is "en", or null when no
   * entry is English. The search is lazy: entries after the first English one
   * are never read, so they cannot raise.
   */
  function FirstEnglishEffect(entries: seq<Json>): (r: Result<Json, PyError>)
    ensures NoEnglishBefore(entries, |entries|) ==> r == Success(JNull)
    ensures forall i :: FirstEnglishAt(entries, i) ==> r == Subscript(entries[i], "effect")
    ensures forall i :: FirstUnreadableAt(entries, i) ==> r == Failure(Language(entries[i]).error)
  {
    if entries == [] then Success(JNull)
    else
      var language :- Language(entries[0]);
      if language == English then Subscript(entries[0], "effect")
      else FirstEnglishEffect(entries[1..])
  }

  /** The statements that read the move's power, type, name and effect from the move body, in order. */
  function ReadMove(moveData: Json): Result<MoveSummary, PyError>
  {
    var power :- GetOr(moveData, "power", DefaultPower);
    var typeObj :- GetOr(moveData, "type", JObj(map[]));
    var moveType :- GetOr(typeObj, "name", DefaultMoveType);
    var name :- GetOr(moveData, "name", DefaultMoveName);
    var entryList :- GetOr(moveData, "effect_entries", JArr([]));
    var entries :- IterateSubscripted(entryList);
    var effect :- FirstEnglishEffect(entries);
    Success(MoveSummary(name, power, moveType, effect))
  }

  // ---------------------------------------------------------------------------
  // What the two readers extract

  /**
   * `c` holds what the creature body says: `moves` verbatim, the types in list
   * order, and the base stats as the dict in which each stat name holds the
   * value of its last entry.
   */
  ghost predicate CreatureFieldsRead(data: Json, c: CreatureData)
  {
    && data.JObj?
    && "stats" in data.fields && "types" in data.fields && "moves" in data.fields
    && c.moves == data.fields["moves"]
    && (var stats := IterateSubscripted(data.fields["stats"]);
        && stats.Success?
        && (forall i :: 0 <= i < |stats.value| ==> StatEntry(stats.value[i]).Success?)
        && IsLastWinsDict(c.baseStats, Collect(StatEntry, stats.value).value))
    && (var entries := IterateSubscripted(data.fields["types"]);
        && entries.Success?
        && |c.types| == |entries.value|
        && forall i :: 0 <= i < |entries.value| ==> TypeName(entries.value[i]) == Success(c.types[i]))
  }

  /** Whenever the creature body reads without exception, the result holds what the body says. */
  lemma ReadCreatureFields(data: Json)
    ensures ReadCreature(data).Success? ==> CreatureFieldsRead(data, ReadCreature(data).value)
  {
    if ReadCreature(data).Success? {
      var stats := IterateSubscripted(data.fields["stats"]).value;
      FromPairsIsLastWins(Collect(StatEntry, stats).value);
    }
  }

  /** `value` is `fields[key]` when the key is present, and `default` only when it is absent. */
  ghost predicate PresentOrDefault(fields: map<string, Json>, key: string, default: Json, value: Json)
  {
    && (key in fields ==> value == fields[key])
    && (key !in fields ==> value == default)
  }

  /** The move body has the shape the reader needs: a dict whose `type`, if present, is a dict, and whose effect search ends without exception. */
  ghost predicate MoveReadable(moveData: Json)
  {
    && moveData.JObj?
    && ("type" in moveData.fields ==> moveData.fields["type"].JObj?)
    && (var entries := IterateSubscripted(GetOr(moveData, "effect_entries", JArr([])).value);
        entries.Success? && FirstEnglishEffect(entries.value).Success?)
  }

  /**
   * `m` holds what the move body says: power, name and the type's name, each
   * replaced by its default only when the key is absent, and the effect of the
   * first English entry (null when `effect_entries` is absent).
   */
  ghost predicate MoveFieldsRead(moveData: Json, m: MoveSummary)
  {
    && moveData.JObj?
    && PresentOrDefault(moveData.fields, "power", DefaultPower, m.power)
    && PresentOrDefault(moveData.fields, "name", DefaultMoveName, m.name)
    && ("type" !in moveData.fields ==> m.moveType == DefaultMoveType)
    && ("type" in moveData.fields ==>
          moveData.fields["type"].JObj? && PresentOrDefault(moveData.fields["type"].fields, "name", DefaultMoveType, m.moveType))
    && ("effect_entries" !in moveData.fields ==> m.effect == JNull)
    && ("effect_entries" in moveData.fields ==>
          var entries := IterateSubscripted(moveData.fields["effect_entries"]);
          entries.Success? && FirstEnglishEffect(entries.value) == Success(m.effect))
  }

  /** The move body reads without exception exactly when it is readable, and the result then holds what the body says. */
  lemma ReadMoveFields(moveData: Json)
    ensures ReadMove(moveData).Success? <==> MoveReadable(moveData)
    ensures ReadMove(moveData).Success? ==> MoveFieldsRead(moveData, ReadMove(moveData).value)
  {
  }

  // ---------------------------------------------------------------------------
  // The pipeline

  /**
   * The whole aggregator, with the transport `get` and the base URL `base`:
   * creature request, reading of stats, types and moves, the early exits, the
   * request for the first move, reading of the move and assembly of the record.
   */
  function FetchFullData(get: string -> Response, base: string, name: string): (r: Fetch)
    ensures 1 <= |r.requests| <= 2 && r.requests[0] == CreatureUrl(base, name)
    ensures |r.requests| == 2 ==>
              && get(r.requests[0]).status == HttpOk
              && ReadCreature(get(r.requests[0]).body).Success?
              && FirstMoveUrl(ReadCreature(get(r.requests[0]).body).value.moves) == Success(r.requests[1])
    ensures r.outcome.Success? && r.outcome.value.Some? ==> |r.requests| == 2 && get(r.requests[1]).status == HttpOk
  {
    var url := CreatureUrl(base, name);
    var resp := get(url);
    if resp.status != HttpOk then Fetch(Success(None), [url])
    else
      var creature := ReadCreature(resp.body);
      if creature.Failure? then Fetch(Failure(creature.error), [url])
      else if Falsy(creature.value.moves) then Fetch(Success(None), [url])
      else
        var moveUrl := FirstMoveUrl(creature.value.moves);
        if moveUrl.Failure? then Fetch(Failure(moveUrl.error), [url])
        else
          var moveResp := get(moveUrl.value);
          if moveResp.status != HttpOk then Fetch(Success(None), [url, moveUrl.value])
          else
            var move := ReadMove(moveResp.body);
            if move.Failure? then Fetch(Failure(move.error), [url, moveUrl.value])
            else
              var creatureName := Subscript(resp.body, "name");
              if creatureName.Failure? then Fetch(Failure(creatureName.error), [url, moveUrl.value])
              else
                var record := CreatureRecord(creatureName.value, creature.value.baseStats, creature.value.types, move.value);
                Fetch(Success(Some(record)), [url, moveUrl.value])
  }
}
