/** An actor: a scripted map object with a position, a set of parameters
    and a table of event interpreters, one slot per event the engine knows.
    Its script is read once per (map, script) key into a cache shared by
    all actors, and each event the script declares fills one slot.

    The interpreter behind a slot is modelled by the block it runs, its
    loop flag and how many times it was started and notified of a new
    frame. The scene the actor lives in is a recorder of the calls the
    actor makes on it. The script files are an abstract map from path to
    what parsing that file yields. */
module Actors {
  import opened Common

  /** The five event names an actor answers to. */
  const EVENT_NAMES: set<string> := {"spawn", "actionPressed", "characterEnteredTile", "characterTouchEvent", "loop"}

  /** The interpreter of the "loop" event is started on spawn. */
  const LOOP_EVENT := "loop"

  const SCRIPT_EXTENSION := ".cantalscript"

  /** The only condition function a script may call. */
  const IN_PARAMETERS := "inParameters"

  // ---------------------------------------------------------------------
  // Script values

  datatype Literal = OrientationLiteral(orientation: string) | IntLiteral(n: int)
                   | StringLiteral(value: string) | BooleanLiteral(text: string)

  /** A boolean expression of a condition, or anything else handed to the
      condition callback. */
  datatype Expression = BooleanExpr(text: string) | FunctionCall(name: string, params: seq<Literal>) | OtherExpression

  datatype Statement = CallStatement(name: string, params: seq<Literal>) | IfStatement(condition: Expression, body: seq<Statement>)

  /** `event <name>() { ... }` */
  datatype ScriptEvent = ScriptEvent(name: string, block: seq<Statement>)

  datatype ScriptData = ScriptData(events: seq<ScriptEvent>)

  datatype ActorError =
    | UnknownEvent(name: string)
    | DuplicateEvent(name: string)
    | ScriptNotFound(script: string)
    | NoScriptData(script: string)
    | UnknownFunction(name: string)
    | UnknownExpression
    | MissingParameter
    | IllegalParameter(param: Literal)

  /** An interpreter of one event's block. */
  datatype Interpreter = Interpreter(block: seq<Statement>, loop: bool, runs: nat, frames: nat)
  {
    function Run(): Interpreter { this.(runs := runs + 1) }
    function NewFrame(): Interpreter { this.(frames := frames + 1) }
  }

  type EventTable = map<string, Option<Interpreter>>

  /** The interpreter an event of a script installs: it runs the event's
      block and loops exactly when the event is the loop event. */
  function Install(e: ScriptEvent): Interpreter
  {
    Interpreter(e.block, e.name == LOOP_EVENT, 0, 0)
  }

  /** Every installed interpreter is a loop exactly when it sits under the
      loop event. */
  ghost predicate LoopFlagged(t: EventTable)
  {
    forall k :: k in t && t[k].Some? ==> (t[k].value.loop <==> k == LOOP_EVENT)
  }

  // ---------------------------------------------------------------------
  // Cache key and path

  /** The cache key: the map name, a dot, the script name and the
      extension. */
  function CacheKey(mapName: string, script: string): (k: string)
    ensures |k| == |mapName| + 1 + |script| + |SCRIPT_EXTENSION|
    ensures k[..|mapName|] == mapName && k[|mapName|] == '.'
    ensures k[|mapName| + 1..|k| - |SCRIPT_EXTENSION|] == script
  {
    mapName + "." + script + SCRIPT_EXTENSION
  }

  /** The script file, joined under the actors directory and the map's
      directory with '/'. */
  function ScriptPath(actorsPath: string, mapName: string, script: string): string
  {
    actorsPath + "/" + mapName + "/" + script + SCRIPT_EXTENSION
  }

  /** Without a '.' in the map name, the key names one (map, script) pair. */
  lemma CacheKeyInjective(m1: string, s1: string, m2: string, s2: string)
    requires '.' !in m1 && '.' !in m2
    requires CacheKey(m1, s1) == CacheKey(m2, s2)
    ensures m1 == m2 && s1 == s2
  {
    var k := CacheKey(m1, s1);
    assert m1 == k[..|m1|] == m2;
  }

  /** A '.' in the map name lets two different script files share one
      cache entry: map `a.b` with script `c` and map `a` with script `b.c`
      have the same key, for every `a`, `b` and `c`, but their files lie
      in different directories. */
  lemma DotInMapNameSharesEntry(actorsPath: string, a: string, b: string, c: string)
    ensures CacheKey(a + "." + b, c) == CacheKey(a, b + "." + c)
    ensures ScriptPath(actorsPath, a + "." + b, c) != ScriptPath(actorsPath, a, b + "." + c)
  {
    var k := |actorsPath| + 1 + |a|;
    assert ScriptPath(actorsPath, a + "." + b, c) == actorsPath + "/" + a + "." + b + "/" + c + SCRIPT_EXTENSION;
    assert ScriptPath(actorsPath, a + "." + b, c)[k] == '.';
    assert ScriptPath(actorsPath, a, b + "." + c) == actorsPath + "/" + a + "/" + b + "." + c + SCRIPT_EXTENSION;
    assert ScriptPath(actorsPath, a, b + "." + c)[k] == '/';
  }

  // ---------------------------------------------------------------------
  // Filling the event table

  /** One event of a script: an unknown name or an already filled slot is
      an error and leaves the table as it is. */
  function InstallEvent(t: EventTable, e: ScriptEvent): (EventTable, Outcome<ActorError>)
  {
    if e.name !in t then (t, Fail(UnknownEvent(e.name)))
    else if t[e.name].Some? then (t, Fail(DuplicateEvent(e.name)))
    else (t[e.name := Some(Install(e))], Pass)
  }

  /** The events in order, stopping at the first error with the table
      filled so far. */
  function InstallEvents(t: EventTable, events: seq<ScriptEvent>): (EventTable, Outcome<ActorError>)
  {
    if events == [] then (t, Pass)
    else
      var (t', r) := InstallEvents(t, events[..|events| - 1]);
      if r.Fail? then (t', r) else InstallEvent(t', events[|events| - 1])
  }

  /** The events a table accepts in one go: known names, free slots, no
      name twice. */
  ghost predicate Installable(t: EventTable, events: seq<ScriptEvent>)
  {
    (forall i :: 0 <= i < |events| ==> events[i].name in t && t[events[i].name].None?)
    && (forall i, j :: 0 <= i < j < |events| ==> events[i].name != events[j].name)
  }

  /** The table after installing every event of an installable script. */
  ghost predicate InstalledAll(t: EventTable, events: seq<ScriptEvent>, t': EventTable)
  {
    t'.Keys == t.Keys
    && (forall i :: 0 <= i < |events| ==> events[i].name in t' && t'[events[i].name] == Some(Install(events[i])))
    && (forall k :: k in t && (forall i :: 0 <= i < |events| ==> events[i].name != k) ==> t'[k] == t[k])
  }

  /** Loading succeeds exactly on an installable script, and then installs
      each event under its name and leaves every other slot alone. */
  lemma {:induction false} InstallEventsPass(t: EventTable, events: seq<ScriptEvent>)
    ensures InstallEvents(t, events).1.Pass? <==> Installable(t, events)
    ensures InstallEvents(t, events).1.Pass? ==> InstalledAll(t, events, InstallEvents(t, events).0)
  {
    if events != [] {
      var n := |events| - 1;
      var init, e := events[..n], events[n];
      assert events == init + [e];
      InstallEventsPass(t, init);
      InstallableSnoc(t, init, e);
      var (t', r) := InstallEvents(t, init);
      if r.Pass? {
        assert e.name in t' && t'[e.name].None? <==>
               e.name in t && t[e.name].None? && (forall i :: 0 <= i < n ==> init[i].name != e.name);
        if Installable(t, events) {
          InstalledAllSnoc(t, init, e, t');
        }
      }
    }
  }

  lemma InstallableSnoc(t: EventTable, init: seq<ScriptEvent>, e: ScriptEvent)
    ensures Installable(t, init + [e]) <==>
              Installable(t, init) && e.name in t && t[e.name].None?
              && (forall i :: 0 <= i < |init| ==> init[i].name != e.name)
  {
    var events := init + [e];
    if Installable(t, init) && e.name in t && t[e.name].None?
       && (forall i :: 0 <= i < |init| ==> init[i].name != e.name) {
      forall i, j | 0 <= i < j < |events| ensures events[i].name != events[j].name {
        assert events[i] == init[i];
        if j < |init| {
          assert events[j] == init[j];
        }
      }
    }
    if Installable(t, events) {
      forall i | 0 <= i < |init| ensures init[i].name != e.name {
        assert events[i] == init[i] && events[|init|] == e;
      }
      forall i | 0 <= i < |init| ensures init[i].name in t && t[init[i].name].None? {
        assert events[i] == init[i];
      }
      forall i, j | 0 <= i < j < |init| ensures init[i].name != init[j].name {
        assert events[i] == init[i] && events[j] == init[j];
      }
      assert events[|init|] == e;
    }
  }

  lemma InstalledAllSnoc(t: EventTable, init: seq<ScriptEvent>, e: ScriptEvent, t': EventTable)
    requires InstalledAll(t, init, t')
    requires e.name in t && forall i :: 0 <= i < |init| ==> init[i].name != e.name
    ensures InstalledAll(t, init + [e], t'[e.name := Some(Install(e))])
  {
    var events := init + [e];
    var t'' := t'[e.name := Some(Install(e))];
    forall i | 0 <= i < |events| ensures events[i].name in t'' && t''[events[i].name] == Some(Install(events[i])) {
      if i < |init| {
        assert events[i] == init[i];
      }
    }
    forall k | k in t && (forall i :: 0 <= i < |events| ==> events[i].name != k) ensures t''[k] == t[k] {
      forall i | 0 <= i < |init| ensures init[i].name != k {
        assert events[i] == init[i];
      }
      assert events[|init|] == e;
    }
  }

  /** The table keeps its slots and its loop flags whatever happens. */
  lemma {:induction false} InstallEventsKeeps(t: EventTable, events: seq<ScriptEvent>)
    requires LoopFlagged(t)
    ensures InstallEvents(t, events).0.Keys == t.Keys
    ensures LoopFlagged(InstallEvents(t, events).0)
  {
    if events != [] {
      InstallEventsKeeps(t, events[..|events| - 1]);
    }
  }

  /** A failed load stops at the first event the table refuses: every event
      before it was installed, and the error names that event. */
  lemma {:induction false} InstallEventsFail(t: EventTable, events: seq<ScriptEvent>)
    requires InstallEvents(t, events).1.Fail?
    ensures exists k :: 0 <= k < |events| && InstallEvents(t, events[..k]).1.Pass?
              && InstallEvents(t, events) == InstallEvent(InstallEvents(t, events[..k]).0, events[k])
  {
    var n := |events| - 1;
    assert events[..n + 1] == events;
    if InstallEvents(t, events[..n]).1.Fail? {
      InstallEventsFail(t, events[..n]);
      var k :| 0 <= k < n && InstallEvents(t, events[..n][..k]).1.Pass?
                && InstallEvents(t, events[..n]) == InstallEvent(InstallEvents(t, events[..n][..k]).0, events[..n][k]);
      assert events[..n][..k] == events[..k];
    }
  }

  /** A second load of the same script into the table it filled always
      fails: its first event's slot is taken. */
  lemma SecondLoadFails(t: EventTable, events: seq<ScriptEvent>)
    requires events != [] && InstallEvents(t, events).1.Pass?
    ensures InstallEvents(InstallEvents(t, events).0, events).1 == Fail(DuplicateEvent(events[0].name))
  {
    InstallEventsPass(t, events);
    var t' := InstallEvents(t, events).0;
    assert t'[events[0].name].Some?;
    assert events[..1] == [events[0]];
    assert InstallEvents(t', events[..1]).1 == Fail(DuplicateEvent(events[0].name));
    StopsAfterFail(t', events, 1);
  }

  /** Once loading has failed, later events change nothing. */
  lemma {:induction false} StopsAfterFail(t: EventTable, events: seq<ScriptEvent>, k: nat)
    requires k <= |events| && InstallEvents(t, events[..k]).1.Fail?
    ensures InstallEvents(t, events) == InstallEvents(t, events[..k])
    decreases |events| - k
  {
    if k < |events| {
      assert events[..k + 1][..k] == events[..k];
      StopsAfterFail(t, events, k + 1);
    } else {
      assert events[..k] == events;
    }
  }

  /** `update`: every installed interpreter is told a new frame began. */
  function NewFrames(t: EventTable): (t': EventTable)
  {
    map k | k in t :: if t[k].Some? then Some(t[k].value.NewFrame()) else None
  }

  /** `spawn`: the loop interpreter, when there is one, is started. */
  function RunLoop(t: EventTable): EventTable
  {
    if LOOP_EVENT in t && t[LOOP_EVENT].Some? then t[LOOP_EVENT := Some(t[LOOP_EVENT].value.Run())] else t
  }

  /** Neither spawning nor a new frame moves, adds or empties a slot, nor
      changes any interpreter's block or loop flag. */
  lemma RunAndFramesKeepSlots(t: EventTable)
    requires LoopFlagged(t)
    ensures NewFrames(t).Keys == t.Keys && RunLoop(t).Keys == t.Keys
    ensures LoopFlagged(NewFrames(t)) && LoopFlagged(RunLoop(t))
    ensures forall k :: k in t ==> (NewFrames(t)[k].Some? <==> t[k].Some?) && (RunLoop(t)[k].Some? <==> t[k].Some?)
    ensures forall k :: k in t && t[k].Some? ==>
              (NewFrames(t)[k].value.block == t[k].value.block && NewFrames(t)[k].value.frames == t[k].value.frames + 1)
    ensures forall k :: k in t && t[k].Some? && k != LOOP_EVENT ==> RunLoop(t)[k] == t[k]
  {
  }

  // ---------------------------------------------------------------------
  // The scene and the cache

  datatype SceneCall = SpawnActor(x: int, y: int) | DespawnActor(x: int, y: int)
                     | UpdateActorPosition(oldX: int, oldY: int, newX: int, newY: int)

  /** The scene as an actor sees it: its map name and a log of the calls
      the actor makes on it. */
  class ActorScene {
    const mapName: string
    var calls: seq<SceneCall>

    constructor (mapName: string)
      ensures this.mapName == mapName && calls == []
    {
      this.mapName := mapName;
      calls := [];
    }

    method Record(c: SceneCall)
      modifies this`calls
      ensures calls == old(calls) + [c]
    {
      calls := calls + [c];
    }
  }

  /** The parsed scripts shared by all actors, by cache key. */
  class ScriptCache {
    /** The directory holding one directory of scripts per map. */
    const actorsPath: string
    var entries: map<string, Option<ScriptData>>

    constructor (actorsPath: string)
      ensures this.actorsPath == actorsPath && entries == map[]
    {
      this.actorsPath := actorsPath;
      entries := map[];
    }
  }

  // ---------------------------------------------------------------------
  // The actor

  class Actor {
    const scene: ActorScene
    const cache: ScriptCache
    var posX: int
    var posY: int
    const script: Option<string>
    var spawned: bool
    /** The names of the actor's parameters: conditions look only at those. */
    const parameters: set<string>
    var lastUpdateDate: int
    var eventScripts: EventTable

    /** Every slot of the table is an event name, every event name has a
        slot, and loop flags match the slots. */
    ghost predicate Valid()
      reads this`eventScripts
    {
      eventScripts.Keys == EVENT_NAMES && LoopFlagged(eventScripts)
    }

    constructor (scene: ActorScene, cache: ScriptCache, x: int, y: int, parameters: set<string>, script: Option<string>)
      ensures this.scene == scene && this.cache == cache && posX == x && posY == y
      ensures this.parameters == parameters && this.script == script
      ensures !spawned && lastUpdateDate == 0
      ensures eventScripts.Keys == EVENT_NAMES
      ensures forall k :: k in eventScripts ==> eventScripts[k] == None
      ensures Valid()
    {
      this.scene := scene;
      this.cache := cache;
      posX := x;
      posY := y;
      this.script := script;
      spawned := false;
      this.parameters := parameters;
      lastUpdateDate := 0;
      eventScripts := map["spawn" := None, "actionPressed" := None, "characterEnteredTile" := None,
                          "characterTouchEvent" := None, "loop" := None];
    }

    /** Tells every installed interpreter that a new frame began. */
    method Update()
      requires Valid()
      modifies this`eventScripts
      ensures eventScripts == NewFrames(old(eventScripts))
      ensures Valid()
    {
      ghost var t0 := eventScripts;
      var keys := eventScripts.Keys;
      while keys != {}
        invariant keys <= t0.Keys && eventScripts.Keys == t0.Keys
        invariant forall k :: k in t0 ==> eventScripts[k] == if k in keys then t0[k] else NewFrames(t0)[k]
        decreases keys
      {
        var k :| k in keys;
        var interpreter := eventScripts[k];
        if interpreter.Some? {
          eventScripts := eventScripts[k := Some(interpreter.value.NewFrame())];
        }
        keys := keys - {k};
      }
      assert eventScripts == NewFrames(t0);
      RunAndFramesKeepSlots(t0);
    }

    /** Installs one interpreter per event of the script: fails, with the
        events before it installed, on an unknown or repeated event. */
    method InstallScript(events: seq<ScriptEvent>) returns (r: Outcome<ActorError>)
      modifies this`eventScripts
      ensures (eventScripts, r) == InstallEvents(old(eventScripts), events)
    {
      ghost var t0 := eventScripts;
      var i := 0;
      while i < |events|
        invariant 0 <= i <= |events|
        invariant (eventScripts, Pass) == InstallEvents(t0, events[..i])
      {
        var e := events[i];
        assert events[..i + 1][..i] == events[..i];
        if e.name !in eventScripts {
          r := Fail(UnknownEvent(e.name));
          StopsAfterFail(t0, events, i + 1);
          return;
        }
        if eventScripts[e.name].Some? {
          r := Fail(DuplicateEvent(e.name));
          StopsAfterFail(t0, events, i + 1);
          return;
        }
        eventScripts := eventScripts[e.name := Some(Install(e))];
        i := i + 1;
      }
      assert events[..i] == events;
      r := Pass;
    }

    /** Reads the script through the cache, parsing its file only when its
        key is missing, then installs its events. Without a script nothing
        happens. */
    method Load(scripts: map<string, Option<ScriptData>>) returns (r: Outcome<ActorError>)
      requires Valid()
      modifies this`eventScripts, cache`entries
      ensures Valid()
      ensures script.None? ==> r == Pass && eventScripts == old(eventScripts) && cache.entries == old(cache.entries)
      ensures script.Some? ==>
        var key := CacheKey(scene.mapName, script.value);
        var path := ScriptPath(cache.actorsPath, scene.mapName, script.value);
        && cache.entries == (if key in old(cache.entries) || path !in scripts then old(cache.entries)
                            else old(cache.entries)[key := scripts[path]])
        && (key !in old(cache.entries) && path !in scripts ==>
              r == Fail(ScriptNotFound(script.value)) && eventScripts == old(eventScripts))
        && (key in cache.entries && cache.entries[key].None? ==>
              r == Fail(NoScriptData(script.value)) && eventScripts == old(eventScripts))
        && (key in cache.entries && cache.entries[key].Some? ==>
              (eventScripts, r) == InstallEvents(old(eventScripts), cache.entries[key].value.events))
    {
      if script.None? {
        return Pass;
      }
      var key := CacheKey(scene.mapName, script.value);
      if key !in cache.entries {
        var path := ScriptPath(cache.actorsPath, scene.mapName, script.value);
        if path !in scripts {
          return Fail(ScriptNotFound(script.value));
        }
        cache.entries := cache.entries[key := scripts[path]];
      }
      var data := cache.entries[key];
      if data.None? {
        return Fail(NoScriptData(script.value));
      }
      InstallEventsKeeps(eventScripts, data.value.events);
      r := InstallScript(data.value.events);
    }

    /** Joins the scene and starts the loop interpreter; a spawned actor is
        left as it is. */
    method Spawn()
      requires Valid()
      modifies this`spawned, this`eventScripts, scene`calls
      ensures Valid() && spawned
      ensures old(spawned) ==> eventScripts == old(eventScripts) && scene.calls == old(scene.calls)
      ensures !old(spawned) ==> eventScripts == RunLoop(old(eventScripts))
                                && scene.calls == old(scene.calls) + [SpawnActor(posX, posY)]
    {
      if !spawned {
        spawned := true;
        scene.Record(SpawnActor(posX, posY));
        var loop := eventScripts[LOOP_EVENT];
        if loop.Some? {
          eventScripts := eventScripts[LOOP_EVENT := Some(loop.value.Run())];
        }
        RunAndFramesKeepSlots(old(eventScripts));
      }
    }

    /** Leaves the scene; an actor that is not spawned is left as it is. */
    method Despawn()
      modifies this`spawned, scene`calls
      ensures !spawned
      ensures scene.calls == old(scene.calls) + if old(spawned) then [DespawnActor(posX, posY)] else []
    {
      if spawned {
        spawned := false;
        scene.Record(DespawnActor(posX, posY));
      }
    }

    method Unload()
      modifies this`spawned, scene`calls
      ensures !spawned
      ensures scene.calls == old(scene.calls) + if old(spawned) then [DespawnActor(posX, posY)] else []
    {
      Despawn();
    }

    /** Tells the scene the actor moves, then moves it. */
    method SetPosition(x: int, y: int)
      modifies this`posX, this`posY, scene`calls
      ensures posX == x && posY == y
      ensures scene.calls == old(scene.calls) + [UpdateActorPosition(old(posX), old(posY), x, y)]
    {
      scene.Record(UpdateActorPosition(posX, posY, x, y));
      posX := x;
      posY := y;
    }

    /** `isInParameters`: whether the first parameter, which must be a
        string, names one of the actor's parameters. */
    function IsInParameters(params: seq<Literal>): (r: Result<bool, ActorError>)
      ensures params == [] <==> r == Err(MissingParameter)
      ensures r.Ok? <==> params != [] && params[0].StringLiteral?
      ensures r.Ok? ==> (r.value <==> params[0].value in parameters)
    {
      if params == [] then Err(MissingParameter)
      else if !params[0].StringLiteral? then Err(IllegalParameter(params[0]))
      else Ok(params[0].value in parameters)
    }

    /** Evaluates a script condition: a boolean literal by its text, a call
        by the one known condition function; anything else is an error. */
    function ConditionCallback(expr: Expression): (r: Result<bool, ActorError>)
      ensures r == Ok(true) <==>
                expr == BooleanExpr("true")
                || (expr.FunctionCall? && expr.name == IN_PARAMETERS && expr.params != []
                    && expr.params[0].StringLiteral? && expr.params[0].value in parameters)
      ensures r.Ok? <==>
                expr.BooleanExpr?
                || (expr.FunctionCall? && expr.name == IN_PARAMETERS && expr.params != [] && expr.params[0].StringLiteral?)
      ensures expr.FunctionCall? && expr.name != IN_PARAMETERS ==> r == Err(UnknownFunction(expr.name))
    {
      match expr
      case BooleanExpr(text) => Ok(text == "true")
      case FunctionCall(name, params) =>
        if name != IN_PARAMETERS then Err(UnknownFunction(name)) else IsInParameters(params)
      case OtherExpression => Err(UnknownExpression)
    }
  }
}
