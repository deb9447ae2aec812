/**
 * Properties of `PokeApiClient.FetchFullData`: which requests it issues, when it
 * returns `None`, which move it chooses, the default rules and the shape of
 * the record it returns.
 */
module PokeApiClientProperties {
  import opened Wrappers
  import opened PyJson
  import opened PokeApiClient

  /** The body of the creature response for `name`. */
  ghost function CreatureBody(get: string -> Response, base: string, name: string): Json
  {
    get(CreatureUrl(base, name)).body
  }

  // ---------------------------------------------------------------------------
  // Case normalisation

  /** Lower-casing twice is lower-casing once. */
  lemma LowerIdempotent(s: string)
    ensures Lower(Lower(s)) == Lower(s)
  {
    assert forall i :: 0 <= i < |s| ==> Lower(Lower(s))[i] == Lower(s)[i];
  }

  /** Two names have the same lower-case form exactly when they differ only in case. */
  lemma LowerIgnoresCase(a: string, b: string)
    ensures EqualIgnoringCase(a, b) <==> Lower(a) == Lower(b)
  {
    if Lower(a) == Lower(b) {
      assert forall i :: 0 <= i < |a| ==> LowerChar(a[i]) == Lower(a)[i] == Lower(b)[i] == LowerChar(b[i]);
    }
  }

  /** Names that differ only in case produce the same request and the same result. */
  lemma FetchIgnoresCase(get: string -> Response, base: string, a: string, b: string)
    requires EqualIgnoringCase(a, b)
    ensures CreatureUrl(base, a) == CreatureUrl(base, b)
    ensures FetchFullData(get, base, a) == FetchFullData(get, base, b)
  {
    LowerIgnoresCase(a, b);
  }

  // ---------------------------------------------------------------------------
  // Early exits and the request trace

  /** A non-200 creature response gives `None` after exactly one request. */
  lemma CreatureFailureStopsEarly(get: string -> Response, base: string, name: string)
    requires get(CreatureUrl(base, name)).status != HttpOk
    ensures FetchFullData(get, base, name) == Fetch(Success(None), [CreatureUrl(base, name)])
  {
  }

  /** An empty (falsy) move list gives `None` and no move request. */
  lemma NoMovesStopsEarly(get: string -> Response, base: string, name: string)
    requires get(CreatureUrl(base, name)).status == HttpOk
    requires ReadCreature(CreatureBody(get, base, name)).Success?
    requires Falsy(CreatureBody(get, base, name).fields["moves"])
    ensures FetchFullData(get, base, name) == Fetch(Success(None), [CreatureUrl(base, name)])
  {
  }

  /** The second request, whenever there is one, is for the URL of the first entry of the move list. */
  lemma OnlyFirstMoveRequested(get: string -> Response, base: string, name: string)
    ensures var r := FetchFullData(get, base, name);
            |r.requests| == 2 ==>
              var body := CreatureBody(get, base, name);
              && body.JObj? && "moves" in body.fields
              && body.fields["moves"].JArr? && |body.fields["moves"].items| >= 1
              && MoveUrlOf(body.fields["moves"].items[0]) == Success(r.requests[1])
  {
  }

  /** Once the creature is read, a move list whose first entry has a URL leads to a request for that URL, whatever follows it. */
  lemma FirstMoveUrlIsRequested(get: string -> Response, base: string, name: string, moveUrl: string)
    requires get(CreatureUrl(base, name)).status == HttpOk
    requires ReadCreature(CreatureBody(get, base, name)).Success?
    requires CreatureBody(get, base, name).fields["moves"].JArr?
    requires |CreatureBody(get, base, name).fields["moves"].items| >= 1
    requires MoveUrlOf(CreatureBody(get, base, name).fields["moves"].items[0]) == Success(moveUrl)
    ensures FetchFullData(get, base, name).requests == [CreatureUrl(base, name), moveUrl]
  {
    var moves := CreatureBody(get, base, name).fields["moves"];
    assert ReadCreature(CreatureBody(get, base, name)).value.moves == moves;
    assert !Falsy(moves);
    assert FirstMoveUrl(moves) == Success(moveUrl);
  }

  /** A non-200 move response gives `None`, even though the creature was fetched. */
  lemma MoveFailureGivesNone(get: string -> Response, base: string, name: string, moveUrl: string)
    requires get(CreatureUrl(base, name)).status == HttpOk
    requires ReadCreature(CreatureBody(get, base, name)).Success?
    requires FirstMoveUrl(CreatureBody(get, base, name).fields["moves"]) == Success(moveUrl)
    requires get(moveUrl).status != HttpOk
    ensures FetchFullData(get, base, name) == Fetch(Success(None), [CreatureUrl(base, name), moveUrl])
  {
  }

  /**
   * `None` is returned for exactly three reasons, which the caller cannot tell
   * apart: the creature request failed, the creature has no moves, or the move
   * request failed.
   */
  lemma NoneMeansOneOfThreeFailures(get: string -> Response, base: string, name: string)
    ensures var body := CreatureBody(get, base, name);
            var creature := ReadCreature(body);
            FetchFullData(get, base, name).outcome == Success(None) <==>
              || get(CreatureUrl(base, name)).status != HttpOk
              || (creature.Success? && Falsy(creature.value.moves))
              || (creature.Success? && !Falsy(creature.value.moves)
                  && FirstMoveUrl(creature.value.moves).Success?
                  && get(FirstMoveUrl(creature.value.moves).value).status != HttpOk)
  {
  }

  // ---------------------------------------------------------------------------
  // The move sub-record

  /** A `power` that is present but null stays null: the default 50 is only for an absent key. */
  lemma NullPowerIsKept(moveData: Json)
    requires ReadMove(moveData).Success?
    requires "power" in moveData.fields && moveData.fields["power"] == JNull
    ensures ReadMove(moveData).value.power == JNull
  {
  }

  /** The effect entries decide only the effect: power, type and name do not depend on them. */
  lemma EffectIndependentOfOtherFields(m1: Json, m2: Json)
    requires ReadMove(m1).Success? && ReadMove(m2).Success?
    requires m1.fields - {"effect_entries"} == m2.fields - {"effect_entries"}
    ensures ReadMove(m1).value.power == ReadMove(m2).value.power
    ensures ReadMove(m1).value.moveType == ReadMove(m2).value.moveType
    ensures ReadMove(m1).value.name == ReadMove(m2).value.name
  {
    var f1, f2 := m1.fields, m2.fields;
    forall k | k != "effect_entries"
      ensures (k in f1 <==> k in f2) && (k in f1 ==> f1[k] == f2[k])
    {
      assert k in f1 <==> k in f1 - {"effect_entries"};
      assert k in f2 <==> k in f2 - {"effect_entries"};
      if k in f1 {
        assert f1[k] == (f1 - {"effect_entries"})[k];
        assert f2[k] == (f2 - {"effect_entries"})[k];
      }
    }
  }

  /**
   * The effect search ends in one of three ways: no English entry (the
   * effect is null), a first English entry (its `effect`), or an unreadable
   * language tag before any English entry (the exception it raises).
   */
  lemma {:induction false} FirstEnglishEffectCases(entries: seq<Json>)
    ensures var r := FirstEnglishEffect(entries);
            || (NoEnglishBefore(entries, |entries|) && r == Success(JNull))
            || (exists i :: FirstEnglishAt(entries, i) && r == Subscript(entries[i], "effect"))
            || (exists i :: FirstUnreadableAt(entries, i) && r == Failure(Language(entries[i]).error))
  {
    if entries != [] && Language(entries[0]).Success? && Language(entries[0]) != Success(English) {
      var rest := entries[1..];
      FirstEnglishEffectCases(rest);
      if NoEnglishBefore(rest, |rest|) {
        assert NoEnglishBefore(entries, |entries|) by {
          forall j | 0 <= j < |entries| ensures Language(entries[j]).Success? && Language(entries[j]) != Success(English) {
            if j > 0 { assert entries[j] == rest[j - 1]; }
          }
        }
      } else if i :| FirstEnglishAt(rest, i) && FirstEnglishEffect(rest) == Subscript(rest[i], "effect") {
        assert FirstEnglishAt(entries, i + 1) by {
          forall j | 0 <= j < i + 1 ensures Language(entries[j]).Success? && Language(entries[j]) != Success(English) {
            if j > 0 { assert entries[j] == rest[j - 1]; }
          }
        }
      } else {
        var i :| FirstUnreadableAt(rest, i) && FirstEnglishEffect(rest) == Failure(Language(rest[i]).error);
        assert FirstUnreadableAt(entries, i + 1) by {
          forall j | 0 <= j < i + 1 ensures Language(entries[j]).Success? && Language(entries[j]) != Success(English) {
            if j > 0 { assert entries[j] == rest[j - 1]; }
          }
        }
      }
    } else if entries != [] && Language(entries[0]) == Success(English) {
      assert FirstEnglishAt(entries, 0);
    } else if entries != [] {
      assert FirstUnreadableAt(entries, 0);
    }
  }

  // ---------------------------------------------------------------------------
  // The success record

  /**
   * A returned record carries the upstream `name` (not the caller's string), the
   * base stats as a dict in which a repeated stat name keeps the later value,
   * the types in response order, and the move read from the second response.
   */
  lemma SuccessRecordFields(get: string -> Response, base: string, name: string)
    ensures var r := FetchFullData(get, base, name);
            r.outcome.Success? && r.outcome.value.Some? ==>
              var rec := r.outcome.value.value;
              var body := CreatureBody(get, base, name);
              && body.JObj? && "name" in body.fields && rec.name == body.fields["name"]
              && CreatureFieldsRead(body, CreatureData(rec.baseStats, rec.types, body.fields["moves"]))
              && |r.requests| == 2
              && MoveFieldsRead(get(r.requests[1]).body, rec.move)
  {
    var r := FetchFullData(get, base, name);
    var body := CreatureBody(get, base, name);
    if r.outcome.Success? && r.outcome.value.Some? {
      ReadCreatureFields(body);
      ReadMoveFields(get(r.requests[1]).body);
    }
  }

  /**
   * When both requests succeed, the creature has a move and every field read
   * succeeds, the record is returned, assembled from the upstream name, the
   * creature's stats and types and the move read from the second response.
   * (The converse, that a returned record implies these steps, is
   * NoneMeansOneOfThreeFailures together with SuccessRecordFields.)
   */
  lemma SuccessPath(get: string -> Response, base: string, name: string,
                    creature: CreatureData, moveUrl: string, move: MoveSummary, upstreamName: Json)
    requires get(CreatureUrl(base, name)).status == HttpOk
    requires ReadCreature(CreatureBody(get, base, name)) == Success(creature)
    requires !Falsy(creature.moves)
    requires FirstMoveUrl(creature.moves) == Success(moveUrl)
    requires get(moveUrl).status == HttpOk
    requires ReadMove(get(moveUrl).body) == Success(move)
    requires Subscript(CreatureBody(get, base, name), "name") == Success(upstreamName)
    ensures FetchFullData(get, base, name) == Fetch(
              Success(Some(CreatureRecord(upstreamName, creature.baseStats, creature.types, move))),
              [CreatureUrl(base, name), moveUrl])
  {
  }
}
