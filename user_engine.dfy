/**
 * The userscript scan engine service: a registry from engine name to a Lua
 * predicate over bytes, and a "scan all" that runs every engine on the same
 * bytes and collects the names of those that matched.
 */
module UserEngines {
  import opened Wrappers
  import opened Bytes
  import opened UserscriptApi
  import opened LuaHosts

  /** What calling a Lua engine function produces: its return value converted to a boolean by Lua truthiness, or a raised error. */
  datatype CallResult = Returned(matched: bool) | Raised(error: LuaError)

  /** A registered engine: a Lua function taking the bytes as a Lua string. */
  type Engine = Bytes -> CallResult

  datatype Error =
    | NoLuaVm
    | NoUserEngine
    | EngineInvocation(engine: string, source: LuaError)

  predicate NoDuplicates(s: seq<string>) {
    forall i, j :: 0 <= i < j < |s| ==> s[i] != s[j]
  }

  /** The names of the registered engines that answer `true` for `content`. */
  function MatchSet(engines: map<string, Engine>, content: Bytes): set<string> {
    set name | name in engines && engines[name](content) == Returned(true)
  }

  /** No engine raises an error on `content`. */
  predicate AllReturn(engines: map<string, Engine>, content: Bytes) {
    forall name :: name in engines ==> engines[name](content).Returned?
  }

  /**
   * The replies `ScanBytes` may give. Engines run in an unspecified order, so
   * the matches may come in any order, and when several engines raise, any
   * one of them may be the one reported.
   */
  ghost predicate ScanReply(engines: map<string, Engine>, content: Bytes, vmRunning: bool,
                            r: Result<seq<string>, Error>)
  {
    if !vmRunning then r == Failure(NoLuaVm)
    else match r
      case Success(names) =>
        && AllReturn(engines, content)
        && NoDuplicates(names)
        && (forall name :: name in names <==> name in MatchSet(engines, content))
      case Failure(e) =>
        && e.EngineInvocation?
        && e.engine in engines
        && engines[e.engine](content) == Raised(e.source)
  }

  class UserEngine {
    /** Registered engines by name. */
    var engines: map<string, Engine>
    /** The Lua environment that owns the engine functions (a weak reference). */
    const lua: LuaHost

    /** `UserEngine::spawn`: no engines registered. */
    constructor Spawn(vm: LuaHost)
      ensures engines == map[] && lua == vm
    {
      engines := map[];
      lua := vm;
    }

    /** `UserEngine::spawn_with_capacity`: no engines registered, whatever the capacity. */
    constructor SpawnWithCapacity(vm: LuaHost, capacity: nat)
      ensures engines == map[] && lua == vm
    {
      engines := map[];
      lua := vm;
    }

    /**
     * Actor startup: registers the engine API when the Lua environment is
     * running and succeeds either way. The request is sent without waiting for
     * a reply, so a failure to set the global is not seen here.
     */
    method OnStart(running: set<object>, setFailure: Option<LuaError>) returns (r: Outcome<Error>)
      modifies lua
      ensures r == Pass
      ensures lua in running && setFailure.None? ==>
        lua.globals == old(lua.globals)[UserEngineApi.Name() := UserEngineApi]
      ensures lua !in running || setFailure.Some? ==> lua.globals == old(lua.globals)
      ensures lua.warnings == old(lua.warnings)
    {
      if lua in running {
        var init := DefaultInitScript(UserEngineApi);
        var _ := lua.RegisterUserApiAsDocumented(UserEngineApi, init, setFailure);
      }
      r := Pass;
    }

    /** `RegisterUserEngine`: inserts or replaces one entry; never fails. */
    method Register(name: string, spec: Engine)
      modifies this
      ensures engines == old(engines)[name := spec]
    {
      engines := engines[name := spec];
    }

    /**
     * `ScanBytes`: runs every engine on `content`. `NoLuaVm` when the Lua
     * environment is gone; the first engine that raises aborts the scan.
     */
    method ScanBytes(running: set<object>, content: Bytes) returns (r: Result<seq<string>, Error>)
      ensures ScanReply(engines, content, lua in running, r)
    {
      if lua !in running {
        return Failure(NoLuaVm);
      }
      var results: seq<string> := [];
      var pending := engines.Keys;
      while pending != {}
        invariant pending <= engines.Keys
        invariant forall name :: name in engines && name !in pending ==> engines[name](content).Returned?
        invariant forall name :: name in results <==>
          name in engines && name !in pending && engines[name](content) == Returned(true)
        invariant NoDuplicates(results)
        decreases pending
      {
        var name :| name in pending;
        match engines[name](content)
        case Raised(error) =>
          return Failure(EngineInvocation(name, error));
        case Returned(matched) =>
          if matched {
            results := results + [name];
          }
        pending := pending - {name};
      }
      r := Success(results);
    }

    /** The startup handshake: replies unit and changes nothing. */
    method Ping()
      ensures engines == old(engines)
    {
    }
  }

  /** With the Lua environment running, a scan succeeds exactly when no engine raises. */
  lemma ScanSucceedsIffAllReturn(engines: map<string, Engine>, content: Bytes, r: Result<seq<string>, Error>)
    requires ScanReply(engines, content, true, r)
    ensures r.Success? <==> AllReturn(engines, content)
  {
    if r.Failure? {
      assert !engines[r.error.engine](content).Returned?;
    }
  }

  lemma {:induction false} DistinctCount(s: seq<string>)
    requires NoDuplicates(s)
    ensures |set x | x in s| == |s|
  {
    if s != [] {
      var rest := s[1..];
      assert NoDuplicates(rest);
      DistinctCount(rest);
      assert (set x | x in s) == (set x | x in rest) + {s[0]};
      assert s[0] !in (set x | x in rest);
    }
  }

  /** A successful scan names each matching engine exactly once. */
  lemma ScanReplyCount(engines: map<string, Engine>, content: Bytes, r: Result<seq<string>, Error>)
    requires ScanReply(engines, content, true, r) && r.Success?
    ensures |r.value| == |MatchSet(engines, content)|
  {
    DistinctCount(r.value);
    assert (set x | x in r.value) == MatchSet(engines, content);
  }

  /** When at most one engine matches, a successful reply is fully determined. */
  lemma ScanReplyOfMatchSet(engines: map<string, Engine>, content: Bytes, r: Result<seq<string>, Error>, name: string)
    requires ScanReply(engines, content, true, r) && r.Success?
    ensures MatchSet(engines, content) == {} ==> r.value == []
    ensures MatchSet(engines, content) == {name} ==> r.value == [name]
  {
    ScanReplyCount(engines, content, r);
    if MatchSet(engines, content) == {name} {
      assert |r.value| == 1;
      assert r.value[0] in MatchSet(engines, content);
    }
  }

  /** Registering a name again replaces its engine: only the latest one decides for that name. */
  lemma RegisterReplaces(engines: map<string, Engine>, name: string, spec: Engine, content: Bytes)
    ensures MatchSet(engines[name := spec], content) ==
      (MatchSet(engines, content) - {name}) + (if spec(content) == Returned(true) then {name} else {})
  {
  }

  /** `needle` occurs in `haystack` at offset `i`. */
  predicate OccursAt(haystack: Bytes, needle: Bytes, i: int) {
    0 <= i <= |haystack| - |needle| && haystack[i..i + |needle|] == needle
  }

  /** `haystack` holds `needle` at some offset. */
  predicate Contains(haystack: Bytes, needle: Bytes) {
    exists i :: 0 <= i <= |haystack| && OccursAt(haystack, needle, i)
  }

  lemma AbsentFirstByte(haystack: Bytes, needle: Bytes)
    requires needle != [] && needle[0] !in haystack
    ensures !Contains(haystack, needle)
  {
    forall i | 0 <= i <= |haystack| - |needle| ensures !OccursAt(haystack, needle, i) {
      assert haystack[i] != needle[0];
      assert haystack[i..i + |needle|][0] == haystack[i];
    }
  }

  /** A test engine that never matches. */
  function AlwaysFalse(content: Bytes): CallResult {
    Returned(false)
  }

  /** A test engine that always matches. */
  function AlwaysTrue(content: Bytes): CallResult {
    Returned(true)
  }

  /** A test engine that matches payloads holding `Hello World`. */
  function HelloWorld(content: Bytes): CallResult {
    Returned(Contains(content, Ascii("Hello World")))
  }

  /** The payloads of the engine registration test (split only to keep each literal short). */
  const Payload1: string := "adosif8hhpauoiwehrsdblkj" + "basbldkjfhpaiouwhlfjd"
  const Payload2: string := "984wh9rauhwibehgdi" + "Hello Worldaodikjfakjskdhaj"
  const Payload3: string := "oaisjdhioq82ihwodjsnlfkj" + "slkjdoaisjpdijadnljsd"

  lemma HasNoCapitalH(s: string)
    requires IsAscii(s) && 'H' !in s
    ensures !Contains(Ascii(s), Ascii("Hello World"))
  {
    var hay := Ascii(s);
    var needle := Ascii("Hello World");
    assert needle[0] as int == 'H' as int;
    forall i | 0 <= i < |hay| ensures hay[i] != needle[0] {
      assert s[i] != 'H';
    }
    AbsentFirstByte(hay, needle);
  }

  lemma Payload2HasHelloWorld()
    ensures IsAscii(Payload2) && Contains(Ascii(Payload2), Ascii("Hello World"))
  {
    assert IsAscii(Payload2);
    var d := Ascii(Payload2);
    assert d[18..29] == Ascii("Hello World");
    assert OccursAt(d, Ascii("Hello World"), 18);
  }

  /** The engines the test registers. */
  function TestEngines(): map<string, Engine> {
    map["alwaysfalse" := AlwaysFalse, "alwaystrue" := AlwaysTrue, "helloworld" := HelloWorld]
  }

  /** With the test engines, `alwaystrue` always matches and `helloworld` matches exactly the payloads holding `Hello World`. */
  lemma TestMatchSet(content: Bytes)
    ensures MatchSet(TestEngines(), content) ==
      {"alwaystrue"} + (if Contains(content, Ascii("Hello World")) then {"helloworld"} else {})
  {
    var m := TestEngines();
    var expected := {"alwaystrue"} + (if Contains(content, Ascii("Hello World")) then {"helloworld"} else {});
    forall name ensures name in MatchSet(m, content) <==> name in expected {
      if name == "alwaysfalse" {
        assert m[name] == AlwaysFalse;
      } else if name == "alwaystrue" {
        assert m[name] == AlwaysTrue;
      } else if name == "helloworld" {
        assert m[name] == HelloWorld;
      } else {
        assert name !in m;
      }
    }
  }

  /** Only `alwaystrue` matches a payload without `Hello World`. */
  lemma NoGreetingMatchSet(s: string)
    requires IsAscii(s) && 'H' !in s
    ensures MatchSet(TestEngines(), Ascii(s)) == {"alwaystrue"}
  {
    HasNoCapitalH(s);
    TestMatchSet(Ascii(s));
  }

  /** Both `alwaystrue` and `helloworld` match the second payload. */
  lemma GreetingMatchSet()
    ensures IsAscii(Payload2) && MatchSet(TestEngines(), Ascii(Payload2)) == {"alwaystrue", "helloworld"}
  {
    Payload2HasHelloWorld();
    TestMatchSet(Ascii(Payload2));
  }

  /** The first and third payloads are plain ASCII without a capital `H`. */
  lemma PlainPayloads()
    ensures IsAscii(Payload1) && 'H' !in Payload1
    ensures IsAscii(Payload3) && 'H' !in Payload3
  {
  }

  lemma TestMatchSets()
    ensures IsAscii(Payload1) && IsAscii(Payload2) && IsAscii(Payload3)
    ensures MatchSet(TestEngines(), Ascii(Payload1)) == {"alwaystrue"}
    ensures MatchSet(TestEngines(), Ascii(Payload2)) == {"alwaystrue", "helloworld"}
    ensures MatchSet(TestEngines(), Ascii(Payload3)) == {"alwaystrue"}
  {
    PlainPayloads();
    NoGreetingMatchSet(Payload1);
    NoGreetingMatchSet(Payload3);
    GreetingMatchSet();
  }

  /** One scan of the test's registry: it succeeds with one name per matching engine. */
  method ScanTestPayload(service: UserEngine, content: Bytes) returns (r: Result<seq<string>, Error>)
    requires service.engines == TestEngines()
    ensures r.Success? && |r.value| == |MatchSet(TestEngines(), content)|
  {
    r := service.ScanBytes({service.lua}, content);
    ScanReplyCount(TestEngines(), content, r);
  }

  /**
   * Three engines registered, three payloads scanned: one, two and one
   * matches respectively.
   */
  method RegisterUserEnginesScenario() returns (r1: Result<seq<string>, Error>,
                                                r2: Result<seq<string>, Error>,
                                                r3: Result<seq<string>, Error>)
    ensures r1.Success? && |r1.value| == 1
    ensures r2.Success? && |r2.value| == 2
    ensures r3.Success? && |r3.value| == 1
  {
    var vm := new LuaHost();
    var service := new UserEngine.Spawn(vm);
    service.Register("alwaysfalse", AlwaysFalse);
    service.Register("alwaystrue", AlwaysTrue);
    service.Register("helloworld", HelloWorld);
    assert service.engines == TestEngines();
    TestMatchSets();

    r1 := ScanTestPayload(service, Ascii(Payload1));
    r2 := ScanTestPayload(service, Ascii(Payload2));
    r3 := ScanTestPayload(service, Ascii(Payload3));
  }
}
