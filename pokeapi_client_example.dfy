/**
 * A worked example of `PokeApiClient.FetchFullData`: a creature with two stats,
 * two types and one move, asked for in upper case.
 */
module PokeApiClientExample {
  import opened Wrappers
  import opened PyJson
  import opened PokeApiClient
  import opened PokeApiClientProperties

  const ExampleBase := "https://api.example"
  const ExampleMoveUrl := "https://api.example/move/22"

  /** A creature with stats hp 45 and attack 49, types grass and poison, and one move. */
  function ExampleCreature(): Json
  {
    JObj(map[
      "name" := JStr("bulbasaur"),
      "stats" := JArr([
        JObj(map["stat" := JObj(map["name" := JStr("hp")]), "base_stat" := JInt(45)]),
        JObj(map["stat" := JObj(map["name" := JStr("attack")]), "base_stat" := JInt(49)])]),
      "types" := JArr([
        JObj(map["type" := JObj(map["name" := JStr("grass")])]),
        JObj(map["type" := JObj(map["name" := JStr("poison")])])]),
      "moves" := JArr([JObj(map["move" := JObj(map["name" := JStr("vine-whip"), "url" := JStr(ExampleMoveUrl)])])])])
  }

  /** The move: power 55, type grass, name vine-whip and one English effect. */
  function ExampleMove(): Json
  {
    JObj(map[
      "name" := JStr("vine-whip"),
      "power" := JInt(55),
      "type" := JObj(map["name" := JStr("grass")]),
      "effect_entries" := JArr([
        JObj(map["effect" := JStr("Whips..."), "language" := JObj(map["name" := JStr("en")])])])])
  }

  lemma ExampleLower()
    ensures Lower("BULBASAUR") == "bulbasaur"
  {
  }

  lemma ExampleUrl()
    ensures CreatureUrl(ExampleBase, "BULBASAUR") == ExampleBase + "/pokemon/bulbasaur"
  {
    ExampleLower();
  }

  lemma ExampleStats()
    ensures var pairs := [(JStr("hp"), JInt(45)), (JStr("attack"), JInt(49))];
            && Collect(StatEntry, ExampleCreature().fields["stats"].items) == Success(pairs)
            && FromPairs(pairs) == map[JStr("hp") := JInt(45), JStr("attack") := JInt(49)]
  {
    var stats := ExampleCreature().fields["stats"].items;
    var pairs := [(JStr("hp"), JInt(45)), (JStr("attack"), JInt(49))];
    var f: Json -> Result<(Json, Json), PyError> := StatEntry;
    assert |stats| == 2;
    assert f(stats[0]) == Success(pairs[0]);
    assert f(stats[1]) == Success(pairs[1]);
    var c := Collect(StatEntry, stats);
    assert c.Success?;
    assert c.value == pairs;
    assert pairs[..1] == [pairs[0]] && pairs[..1][..0] == [];
  }

  lemma ExampleTypes()
    ensures Collect(TypeName, ExampleCreature().fields["types"].items) == Success([JStr("grass"), JStr("poison")])
  {
    var types := ExampleCreature().fields["types"].items;
    var f: Json -> Result<Json, PyError> := TypeName;
    assert |types| == 2;
    assert f(types[0]) == Success(JStr("grass"));
    assert f(types[1]) == Success(JStr("poison"));
    var c := Collect(TypeName, types);
    assert c.Success?;
    assert c.value == [JStr("grass"), JStr("poison")];
  }

  lemma ExampleCreatureRead()
    ensures ReadCreature(ExampleCreature()) == Success(CreatureData(
              map[JStr("hp") := JInt(45), JStr("attack") := JInt(49)],
              [JStr("grass"), JStr("poison")],
              ExampleCreature().fields["moves"]))
  {
    ExampleStats();
    ExampleTypes();
  }

  lemma ExampleName()
    ensures Subscript(ExampleCreature(), "name") == Success(JStr("bulbasaur"))
    ensures !Falsy(ExampleCreature().fields["moves"])
  {
  }

  lemma ExampleFirstMove()
    ensures FirstMoveUrl(ExampleCreature().fields["moves"]) == Success(ExampleMoveUrl)
  {
    var moves := ExampleCreature().fields["moves"];
    assert MoveUrlOf(moves.items[0]) == Success(ExampleMoveUrl);
  }

  lemma ExampleMoveRead()
    ensures ReadMove(ExampleMove()) == Success(MoveSummary(JStr("vine-whip"), JInt(55), JStr("grass"), JStr("Whips...")))
  {
    var entries := ExampleMove().fields["effect_entries"].items;
    assert Language(entries[0]) == Success(English);
    assert FirstEnglishEffect(entries) == Success(JStr("Whips..."));
  }

  /**
   * With any transport that serves the example creature and move with status
   * 200, asking for the creature in upper case yields the full record after
   * two requests: the creature URL (which `ExampleUrl` spells out) and the move URL.
   */
  lemma HappyPathExample(get: string -> Response)
    requires get(CreatureUrl(ExampleBase, "BULBASAUR")) == Response(200, ExampleCreature())
    requires get(ExampleMoveUrl) == Response(200, ExampleMove())
    ensures FetchFullData(get, ExampleBase, "BULBASAUR") == Fetch(
              Success(Some(CreatureRecord(
                JStr("bulbasaur"),
                map[JStr("hp") := JInt(45), JStr("attack") := JInt(49)],
                [JStr("grass"), JStr("poison")],
                MoveSummary(JStr("vine-whip"), JInt(55), JStr("grass"), JStr("Whips..."))))),
              [CreatureUrl(ExampleBase, "BULBASAUR"), ExampleMoveUrl])
  {
    var creature := CreatureData(
      map[JStr("hp") := JInt(45), JStr("attack") := JInt(49)],
      [JStr("grass"), JStr("poison")],
      ExampleCreature().fields["moves"]);
    var move := MoveSummary(JStr("vine-whip"), JInt(55), JStr("grass"), JStr("Whips..."));
    ExampleCreatureRead();
    ExampleFirstMove();
    ExampleMoveRead();
    ExampleName();
    SuccessPath(get, ExampleBase, "BULBASAUR", creature, ExampleMoveUrl, move, JStr("bulbasaur"));
  }
}
