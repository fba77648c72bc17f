/**
 * The scan manager service: drains the item queue, runs every user engine on
 * each item, and collects one result per (item, matching engine). Items that
 * cannot be loaded or scanned are skipped with a warning.
 */
module ScanManager {
  import opened Wrappers
  import opened Bytes
  import opened DataItems
  import opened UserscriptApi
  import opened LuaHosts
  import opened ScanResults
  import QueueErrors
  import ItemQueue
  import UserEngines

  datatype Error =
    | NoLuaVm
    | NoQueue
    | NoUserEngine
    | NoScanMgr

  /** The `Display` text of each error. */
  function Message(e: Error): string {
    match e
    case NoLuaVm => "the lua virtual machine is not running"
    case NoQueue => "the global scan queue service is not running"
    case NoUserEngine => "the userscript scan engine service is not running"
    case NoScanMgr => "the scan manager service is not running"
  }

  /** What happened to one dequeued item. */
  datatype ItemOutcome =
    | LoadFailed(error: QueueErrors.Error)
    | Loaded(item: Realized, reply: Result<seq<string>, UserEngines.Error>)

  /** One result per engine name, in the given order, all for the same item. */
  function Tag(names: seq<string>, item: DataItemResult): (rs: seq<ScanResult>)
    ensures |rs| == |names|
  {
    if names == [] then [] else Tag(names[..|names| - 1], item) + [ScanResult(names[|names| - 1], item)]
  }

  /** The results an item contributes: one per engine name in a successful reply, in reply order. */
  function ItemResults(o: ItemOutcome): seq<ScanResult> {
    if o.Loaded? && o.reply.Success? then Tag(o.reply.value, DataItemResult(o.item.name, o.item.path))
    else []
  }

  /** The results of a sequence of items, in dequeue order. */
  function Results(os: seq<ItemOutcome>): seq<ScanResult> {
    if os == [] then [] else Results(os[..|os| - 1]) + ItemResults(os[|os| - 1])
  }

  /** The warning for an item that could not be loaded: it ends with the load error's message. */
  function LoadWarning(e: QueueErrors.Error): (r: string)
    ensures |r| >= |QueueErrors.Message(e)| && r[|r| - |QueueErrors.Message(e)|..] == QueueErrors.Message(e)
  {
    "failed to load data item: " + QueueErrors.Message(e)
  }

  /**
   * The escape a path's `Debug` text gives one character. The path formatter
   * escapes each character as `char::escape_debug` does: both quotes and the
   * backslash are escaped, as are the control characters with a short escape.
   */
  function EscapeChar(c: char): string {
    if c == '"' then "\\\""
    else if c == '\'' then "\\'"
    else if c == '\\' then "\\\\"
    else if c == '\n' then "\\n"
    else if c == '\r' then "\\r"
    else if c == '\t' then "\\t"
    else if c == '\0' then "\\0"
    else [c]
  }

  /** The `Debug` text of a path's characters, without the surrounding quotes. */
  function EscapeDebug(s: string): (r: string)
    ensures '"' in s || '\'' in s || '\\' in s || '\n' in s || '\r' in s || '\t' in s || '\0' in s || r == s
  {
    if s == [] then [] else EscapeChar(s[0]) + EscapeDebug(s[1..])
  }

  /** The character a backslash escape stands for. */
  function Unescaped(c: char): char {
    if c == 'n' then '\n' else if c == 'r' then '\r' else if c == 't' then '\t' else if c == '0' then '\0' else c
  }

  /** Reads escaped text back: a backslash and the character after it stand for one character. */
  function Unescape(s: string): string {
    if s == [] then []
    else if s[0] == '\\' && |s| >= 2 then [Unescaped(s[1])] + Unescape(s[2..])
    else [s[0]] + Unescape(s[1..])
  }

  /** One escaped character reads back as itself, whatever follows it. */
  lemma UnescapeChar(c: char, tail: string)
    ensures Unescape(EscapeChar(c) + tail) == [c] + Unescape(tail)
  {
    var head := EscapeChar(c);
    if |head| == 2 {
      assert head[0] == '\\' && Unescaped(head[1]) == c;
      assert (head + tail)[2..] == tail;
    } else {
      assert head == [c] && c != '\\';
      assert (head + tail)[1..] == tail;
    }
  }

  /** Escaping loses nothing: the escaped text reads back as the original. */
  lemma {:induction false} EscapeRoundTrip(s: string)
    ensures Unescape(EscapeDebug(s)) == s
  {
    if s != [] {
      EscapeRoundTrip(s[1..]);
      UnescapeChar(s[0], EscapeDebug(s[1..]));
    }
  }

  /** The `Debug` text of an optional path: `None`, or `Some("...")` with the path escaped. */
  function DebugOptionPath(p: Option<Path>): (r: string)
    ensures p.None? <==> r == "None"
    ensures p.Some? ==> |r| >= 8 && r[..6] == "Some(\"" && r[|r| - 2..] == "\")" && Unescape(r[6..|r| - 2]) == p.value
  {
    match p
    case None => "None"
    case Some(path) =>
      var r := "Some(\"" + EscapeDebug(path) + "\")";
      assert r[6..|r| - 2] == EscapeDebug(path);
      EscapeRoundTrip(path);
      r
  }

  /** Different paths, or a path and none, never print alike. */
  lemma DebugOptionPathInjective(p: Option<Path>, q: Option<Path>)
    requires DebugOptionPath(p) == DebugOptionPath(q)
    ensures p == q
  {
  }

  /** A single quote in a path is escaped: the path `it's` is written `it\'s`. */
  lemma SingleQuoteEscaped()
    ensures EscapeDebug("it's") == "it\\'s"
  {
    assert EscapeDebug("s") == "s";
    assert EscapeDebug("'s") == "\\'" + "s";
    assert EscapeDebug("t's") == "t" + "\\'s";
  }

  /** The warning for an item the engines could not scan, naming it and ending with its path's `Debug` text. */
  function ScanWarning(name: string, path: Option<Path>): (r: string)
    ensures |r| >= 26 + |name| && r[26..26 + |name|] == name
    ensures |r| >= |DebugOptionPath(path)| && r[|r| - |DebugOptionPath(path)|..] == DebugOptionPath(path)
  {
    "failed to scan data item `" + name + "`.\n  HINT: is the path accessible?\n        " + DebugOptionPath(path)
  }

  /** A load warning and a scan warning never coincide, so a warning tells which step failed. */
  lemma WarningsTellFailureKind(e: QueueErrors.Error, name: string, path: Option<Path>)
    ensures LoadWarning(e) != ScanWarning(name, path)
  {
    assert LoadWarning(e)[10] == 'l';
    assert ScanWarning(name, path)[10] == 's';
  }

  /** The warnings an item contributes: one for a load or scan failure, none otherwise. */
  function ItemWarnings(o: ItemOutcome): seq<string> {
    match o
    case LoadFailed(e) => [LoadWarning(e)]
    case Loaded(x, reply) => if reply.Failure? then [ScanWarning(x.name, x.path)] else []
  }

  /** The warnings of a sequence of items, in dequeue order. */
  function Warnings(os: seq<ItemOutcome>): seq<string> {
    if os == [] then [] else Warnings(os[..|os| - 1]) + ItemWarnings(os[|os| - 1])
  }

  /** Appending an item appends its results and its warnings. */
  lemma Snoc(os: seq<ItemOutcome>, o: ItemOutcome)
    ensures Results(os + [o]) == Results(os) + ItemResults(o)
    ensures Warnings(os + [o]) == Warnings(os) + ItemWarnings(o)
  {
    assert (os + [o])[..|os|] == os;
  }

  lemma {:induction false} TagAt(names: seq<string>, item: DataItemResult, j: int)
    requires 0 <= j < |names|
    ensures Tag(names, item)[j] == ScanResult(names[j], item)
  {
    if j < |names| - 1 {
      TagAt(names[..|names| - 1], item, j);
    }
  }

  /** Results are only ever appended: the results of the first `i` items are a prefix of all the results. */
  lemma {:induction false} ResultsPrefix(os: seq<ItemOutcome>, i: nat)
    requires i <= |os|
    ensures Results(os[..i]) <= Results(os)
  {
    if i < |os| {
      var init := os[..|os| - 1];
      assert os[..i] == init[..i];
      ResultsPrefix(init, i);
    } else {
      assert os[..i] == os;
    }
  }

  /** Where the results of item `k` start: after those of every earlier item. */
  function Offset(os: seq<ItemOutcome>, k: nat): nat
    requires k <= |os|
  {
    |Results(os[..k])|
  }

  /** The results of item `k` sit, contiguous and in reply order, at its offset. */
  lemma ResultsBlock(os: seq<ItemOutcome>, k: nat)
    requires k < |os|
    ensures Offset(os, k) + |ItemResults(os[k])| <= |Results(os)|
    ensures Results(os)[Offset(os, k)..Offset(os, k) + |ItemResults(os[k])|] == ItemResults(os[k])
  {
    var upTo := os[..k + 1];
    assert upTo[..k] == os[..k];
    assert upTo[k] == os[k];
    assert Results(upTo) == Results(os[..k]) + ItemResults(os[k]);
    ResultsPrefix(os, k + 1);
  }

  /** Results of an earlier-dequeued item come before those of any later item. */
  lemma OffsetMonotone(os: seq<ItemOutcome>, k1: nat, k2: nat)
    requires k1 < k2 <= |os|
    ensures Offset(os, k1) + |ItemResults(os[k1])| <= Offset(os, k2)
  {
    var upTo := os[..k2];
    assert upTo[..k1 + 1] == os[..k1 + 1];
    assert os[..k1 + 1][..k1] == os[..k1];
    assert os[..k1 + 1][k1] == os[k1];
    assert Results(os[..k1 + 1]) == Results(os[..k1]) + ItemResults(os[k1]);
    ResultsPrefix(upTo, k1 + 1);
  }

  /** A result in the reply came from some item: the one at the returned index. */
  lemma {:induction false} ProducingItem(os: seq<ItemOutcome>, r: ScanResult) returns (k: nat)
    requires r in Results(os)
    ensures k < |os| && r in ItemResults(os[k])
  {
    var init := os[..|os| - 1];
    assert Results(os) == Results(init) + ItemResults(os[|os| - 1]);
    if r in ItemResults(os[|os| - 1]) {
      k := |os| - 1;
    } else {
      k := ProducingItem(init, r);
      assert os[k] == init[k];
    }
  }

  /** Every result an item produces is in the reply. */
  lemma ProducedIsReported(os: seq<ItemOutcome>, k: nat, r: ScanResult)
    requires k < |os| && r in ItemResults(os[k])
    ensures r in Results(os)
  {
    ResultsBlock(os, k);
    InSlice(Results(os), Offset(os, k), ItemResults(os[k]), r);
  }

  /** What a slice of a sequence holds, the sequence holds. */
  lemma InSlice(whole: seq<ScanResult>, off: nat, part: seq<ScanResult>, r: ScanResult)
    requires off + |part| <= |whole| && whole[off..off + |part|] == part && r in part
    ensures r in whole
  {
    var j :| 0 <= j < |part| && part[j] == r;
    assert whole[off + j] == part[j];
  }

  /** A result comes from exactly the items whose own results hold it; nothing else produces results. */
  lemma ResultsMembership(os: seq<ItemOutcome>, r: ScanResult)
    ensures r in Results(os) <==> exists k :: 0 <= k < |os| && r in ItemResults(os[k])
  {
    if r in Results(os) {
      var k := ProducingItem(os, r);
    }
    if exists k :: 0 <= k < |os| && r in ItemResults(os[k]) {
      var k :| 0 <= k < |os| && r in ItemResults(os[k]);
      ProducedIsReported(os, k, r);
    }
  }

  /**
   * `o` is a possible outcome for `item`: a failed load is the realize error;
   * otherwise the item's bytes went to the engines and `o` holds a reply they
   * may give.
   */
  ghost predicate Explains(item: DataItem, fs: FileSystem, engines: map<string, UserEngines.Engine>,
                           vmRunning: bool, o: ItemOutcome)
  {
    match Realize(item, fs)
    case Failure(e) => o == LoadFailed(e)
    case Success(x) => o.Loaded? && o.item == x && UserEngines.ScanReply(engines, x.content, vmRunning, o.reply)
  }

  /**
   * An item that loaded and scanned contributes exactly one result per
   * matching engine: every matching engine appears, no other engine does,
   * and none appears twice. Every result names the item and its path.
   */
  lemma ItemResultsExact(item: DataItem, fs: FileSystem, engines: map<string, UserEngines.Engine>,
                         o: ItemOutcome, engine: string)
    requires Explains(item, fs, engines, true, o) && o.Loaded? && o.reply.Success?
    ensures forall j :: 0 <= j < |ItemResults(o)| ==>
      ItemResults(o)[j].item == DataItemResult(Name(item), PathOf(item))
    ensures engine in UserEngines.MatchSet(engines, o.item.content) <==>
      exists j :: 0 <= j < |ItemResults(o)| && ItemResults(o)[j].engine == engine
    ensures forall i, j :: 0 <= i < j < |ItemResults(o)| ==> ItemResults(o)[i].engine != ItemResults(o)[j].engine
  {
    var names := o.reply.value;
    var tag := DataItemResult(o.item.name, o.item.path);
    forall j | 0 <= j < |names| ensures ItemResults(o)[j] == ScanResult(names[j], tag) {
      TagAt(names, tag, j);
    }
    if engine in UserEngines.MatchSet(engines, o.item.content) {
      var j :| 0 <= j < |names| && names[j] == engine;
      assert ItemResults(o)[j].engine == engine;
    }
  }

  /** The only load failures are file reads: a raw datum always loads. */
  lemma LoadFailuresAreIoErrors(item: DataItem, fs: FileSystem, engines: map<string, UserEngines.Engine>,
                                vmRunning: bool, o: ItemOutcome)
    requires Explains(item, fs, engines, vmRunning, o) && o.LoadFailed?
    ensures item.File? && fs(item.path).Failure? && o.error == QueueErrors.IOError(fs(item.path).error)
  {
  }

  class ScanMgr {
    /** The Lua environment (a weak reference), for the API and for warnings. */
    const lua: LuaHost
    /** The item queue (a weak reference). */
    const queue: ItemQueue.Queue
    /** The user engine service (a weak reference). */
    const userEngine: UserEngines.UserEngine

    /** `ScanMgr::spawn`: stores the three references and checks none of them. */
    constructor Spawn(vm: LuaHost, q: ItemQueue.Queue, engines: UserEngines.UserEngine)
      ensures lua == vm && queue == q && userEngine == engines
    {
      lua := vm;
      queue := q;
      userEngine := engines;
    }

    /**
     * Actor startup: `NoLuaVm` when the Lua environment is gone; otherwise
     * the scan manager API is sent for registration and startup succeeds, since
     * the request does not wait for the registration's own outcome.
     */
    method OnStart(running: set<object>, setFailure: Option<LuaError>) returns (r: Outcome<Error>)
      modifies lua
      ensures lua !in running ==> r == Fail(NoLuaVm) && lua.globals == old(lua.globals)
      ensures lua in running ==> r == Pass
      ensures lua in running && setFailure.None? ==>
        lua.globals == old(lua.globals)[ScanMgrApi.Name() := ScanMgrApi]
      ensures setFailure.Some? ==> lua.globals == old(lua.globals)
      ensures lua.warnings == old(lua.warnings)
    {
      if lua !in running {
        return Fail(NoLuaVm);
      }
      var init := DefaultInitScript(ScanMgrApi);
      var _ := lua.RegisterUserApiAsDocumented(ScanMgrApi, init, setFailure);
      r := Pass;
    }

    /**
     * One pass of the drain loop: dequeues the front item and, when it loads,
     * scans it. A load or scan failure sends one warning and contributes no
     * results; otherwise one result per matching engine, in reply order.
     */
    method ScanNextItem(running: set<object>, fs: FileSystem)
      returns (found: seq<ScanResult>, ghost o: ItemOutcome)
      requires queue.items != []
      modifies queue, lua
      ensures queue.items == old(queue.items)[1..]
      ensures Explains(old(queue.items)[0], fs, userEngine.engines, userEngine.lua in running, o)
      ensures found == ItemResults(o)
      ensures lua.warnings == old(lua.warnings) + ItemWarnings(o)
      ensures lua.globals == old(lua.globals)
    {
      found := [];
      var loaded := queue.Dequeue(fs);
      if loaded.Failure? {
        lua.SendWarning(LoadWarning(loaded.error));
        o := LoadFailed(loaded.error);
        return;
      }
      var x := loaded.value;
      var reply := userEngine.ScanBytes(running, x.content);
      o := Loaded(x, reply);
      if reply.Failure? {
        lua.SendWarning(ScanWarning(x.name, x.path));
        return;
      }
      var names := reply.value;
      for j := 0 to |names|
        invariant found == Tag(names[..j], DataItemResult(x.name, x.path))
      {
        assert names[..j + 1][..j] == names[..j];
        found := found + [ScanResult(names[j], DataItemResult(x.name, x.path))];
      }
      assert names[..|names|] == names;
    }

    /**
     * `InvokeScan`: resolves the Lua environment, the queue and the user
     * engine service, in that order, failing on the first one gone and
     * changing nothing. Then dequeues until the queue is empty; a load or scan
     * failure sends a warning and skips the item, and every other item adds
     * one result per matching engine. `outcomes` records what happened to each
     * item, in dequeue order.
     */
    method InvokeScan(running: set<object>, fs: FileSystem)
      returns (r: Result<seq<ScanResult>, Error>, ghost outcomes: seq<ItemOutcome>)
      modifies queue, lua
      ensures lua !in running ==> r == Failure(NoLuaVm)
      ensures lua in running && queue !in running ==> r == Failure(NoQueue)
      ensures lua in running && queue in running && userEngine !in running ==> r == Failure(NoUserEngine)
      ensures r.Failure? ==>
        queue.items == old(queue.items) && lua.warnings == old(lua.warnings) && outcomes == []
      ensures lua in running && queue in running && userEngine in running ==>
        && queue.items == []
        && |outcomes| == |old(queue.items)|
        && (forall k :: 0 <= k < |outcomes| ==>
              Explains(old(queue.items)[k], fs, userEngine.engines, userEngine.lua in running, outcomes[k]))
        && r == Success(Results(outcomes))
        && (old(queue.items) == [] ==> r == Success([]))
        && lua.warnings == old(lua.warnings) + Warnings(outcomes)
      ensures lua.globals == old(lua.globals)
    {
      outcomes := [];
      if lua !in running {
        return Failure(NoLuaVm), outcomes;
      }
      if queue !in running {
        return Failure(NoQueue), outcomes;
      }
      if userEngine !in running {
        return Failure(NoUserEngine), outcomes;
      }

      var results;
      results, outcomes := Drain(running, fs);
      r := Success(results);
    }

    /**
     * The loop of `InvokeScan`, once every service is reachable: while the
     * queue reports items, scan the next one. The queue ends empty, with one
     * outcome per item it held.
     */
    method Drain(running: set<object>, fs: FileSystem)
      returns (results: seq<ScanResult>, ghost outcomes: seq<ItemOutcome>)
      requires lua in running && queue in running && userEngine in running
      modifies queue, lua
      ensures queue.items == [] && |outcomes| == |old(queue.items)|
      ensures forall k :: 0 <= k < |outcomes| ==>
        Explains(old(queue.items)[k], fs, userEngine.engines, userEngine.lua in running, outcomes[k])
      ensures results == Results(outcomes)
      ensures lua.warnings == old(lua.warnings) + Warnings(outcomes)
      ensures lua.globals == old(lua.globals)
    {
      outcomes := [];
      results := [];
      ghost var items := queue.items;
      var len := queue.GetLength();
      while len > 0
        invariant |outcomes| <= |items|
        invariant queue.items == items[|outcomes|..]
        invariant len == |queue.items|
        invariant forall k :: 0 <= k < |outcomes| ==>
          Explains(items[k], fs, userEngine.engines, userEngine.lua in running, outcomes[k])
        invariant results == Results(outcomes)
        invariant lua.warnings == old(lua.warnings) + Warnings(outcomes)
        invariant lua.globals == old(lua.globals)
        decreases |queue.items|
      {
        ghost var earlier := Warnings(outcomes);
        var found, o := ScanNextItem(running, fs);
        Snoc(outcomes, o);
        ghost var mine := ItemWarnings(o);
        assert lua.warnings == old(lua.warnings) + (earlier + mine);
        outcomes := outcomes + [o];
        results := results + found;
        len := queue.GetLength();
      }
    }

    /** The startup handshake: replies unit and changes nothing. */
    method Ping()
      ensures queue.items == old(queue.items) && lua.globals == old(lua.globals) && lua.warnings == old(lua.warnings)
    {
    }
  }

  /** Test engine matching the first and third payloads of the three-item scan. */
  function EngineA(content: Bytes): UserEngines.CallResult {
    UserEngines.Returned(content == [1] || content == [3])
  }

  /** Test engine that never matches. */
  function EngineB(content: Bytes): UserEngines.CallResult {
    UserEngines.Returned(false)
  }

  lemma ThreeItemMatchSets(engines: map<string, UserEngines.Engine>)
    requires engines == map["A" := EngineA, "B" := EngineB]
    ensures UserEngines.MatchSet(engines, [1]) == {"A"}
    ensures UserEngines.MatchSet(engines, [2]) == {}
    ensures UserEngines.MatchSet(engines, [3]) == {"A"}
  {
    forall content: Bytes, name ensures name in UserEngines.MatchSet(engines, content) <==>
      name == "A" && (content == [1] || content == [3])
    {
      if name == "A" {
        assert engines[name] == EngineA;
      } else if name == "B" {
        assert engines[name] == EngineB;
      }
    }
  }

  /** How often a result occurs among an item's tagged results: as often as its engine occurs among the names. */
  lemma {:induction false} TagCount(names: seq<string>, item: DataItemResult, r: ScanResult)
    ensures multiset(Tag(names, item))[r] == if r.item == item then multiset(names)[r.engine] else 0
  {
    if names != [] {
      var init := names[..|names| - 1];
      assert names == init + [names[|names| - 1]];
      TagCount(init, item, r);
    }
  }

  /** A sequence without duplicates holds each of its elements exactly once. */
  lemma {:induction false} DistinctOnce(s: seq<string>, x: string)
    requires UserEngines.NoDuplicates(s)
    ensures multiset(s)[x] == if x in s then 1 else 0
  {
    if s != [] {
      var init := s[..|s| - 1];
      assert s == init + [s[|s| - 1]];
      assert s[|s| - 1] !in init by {
        forall i | 0 <= i < |init| ensures init[i] != s[|s| - 1] {
          assert init[i] == s[i];
        }
      }
      DistinctOnce(init, x);
    }
  }

  /** Two duplicate-free listings of the same engines tag an item with the same results, up to order. */
  lemma SameNamesSameResults(a: seq<string>, b: seq<string>, item: DataItemResult)
    requires UserEngines.NoDuplicates(a) && UserEngines.NoDuplicates(b)
    requires forall x :: x in a <==> x in b
    ensures multiset(Tag(a, item)) == multiset(Tag(b, item))
  {
    forall r: ScanResult ensures multiset(Tag(a, item))[r] == multiset(Tag(b, item))[r] {
      TagCount(a, item, r);
      TagCount(b, item, r);
      DistinctOnce(a, r.engine);
      DistinctOnce(b, r.engine);
    }
  }

  /** An inline item on which every engine returns loads and scans, and its reply lists the matching engines once each. */
  lemma InlineReply(name: string, content: Bytes, fs: FileSystem, engines: map<string, UserEngines.Engine>,
                    o: ItemOutcome)
    requires Explains(RawDatum(name, content), fs, engines, true, o)
    requires UserEngines.AllReturn(engines, content)
    ensures o.Loaded? && o.reply.Success? && UserEngines.NoDuplicates(o.reply.value)
    ensures forall x :: x in o.reply.value <==> x in UserEngines.MatchSet(engines, content)
    ensures ItemResults(o) == Tag(o.reply.value, DataItemResult(name, None))
    ensures ItemWarnings(o) == []
  {
    assert o.reply.Success?;
  }

  /**
   * An inline item on which every engine returns contributes one result per
   * engine in `matched`, any duplicate-free listing of the matching engines,
   * and no warning. The order of the results is the order the engines ran in,
   * so it is fixed only when at most one engine matches.
   */
  lemma InlineOutcome(name: string, content: Bytes, fs: FileSystem, engines: map<string, UserEngines.Engine>,
                      o: ItemOutcome, matched: seq<string>)
    requires Explains(RawDatum(name, content), fs, engines, true, o)
    requires UserEngines.AllReturn(engines, content)
    requires UserEngines.NoDuplicates(matched) && UserEngines.MatchSet(engines, content) == set m | m in matched
    ensures multiset(ItemResults(o)) == multiset(Tag(matched, DataItemResult(name, None)))
    ensures |matched| <= 1 ==> ItemResults(o) == Tag(matched, DataItemResult(name, None))
    ensures ItemWarnings(o) == []
  {
    var tag := DataItemResult(name, None);
    InlineReply(name, content, fs, engines, o);
    SameNamesSameResults(o.reply.value, matched, tag);
    var got, want := ItemResults(o), Tag(matched, tag);
    assert |got| == |multiset(got)| == |multiset(want)| == |want|;
    if |matched| == 1 {
      assert got[0] in multiset(want);
    }
  }

  lemma ResultsOfThree(os: seq<ItemOutcome>)
    requires |os| == 3
    ensures Results(os) == ItemResults(os[0]) + ItemResults(os[1]) + ItemResults(os[2])
  {
    var two := os[..2];
    assert two[..1] == [os[0]] && two[1] == os[1];
    assert [os[0]][..0] == [];
    assert Results([os[0]]) == ItemResults(os[0]);
    assert Results(two) == ItemResults(os[0]) + ItemResults(os[1]);
  }

  lemma WarningsOfThree(os: seq<ItemOutcome>)
    requires |os| == 3
    ensures Warnings(os) == ItemWarnings(os[0]) + ItemWarnings(os[1]) + ItemWarnings(os[2])
  {
    var two := os[..2];
    assert two[..1] == [os[0]] && two[1] == os[1];
    assert [os[0]][..0] == [];
    assert Warnings([os[0]]) == ItemWarnings(os[0]);
    assert Warnings(two) == ItemWarnings(os[0]) + ItemWarnings(os[1]);
  }

  /** An inline item that exactly one engine, `e`, matches gives exactly that engine's result and no warning. */
  lemma InlineSingleMatch(name: string, content: Bytes, fs: FileSystem, engines: map<string, UserEngines.Engine>,
                          o: ItemOutcome, e: string)
    requires Explains(RawDatum(name, content), fs, engines, true, o)
    requires UserEngines.AllReturn(engines, content) && UserEngines.MatchSet(engines, content) == {e}
    ensures ItemResults(o) == [ScanResult(e, DataItemResult(name, None))] && ItemWarnings(o) == []
  {
    assert (set m | m in [e]) == {e};
    InlineOutcome(name, content, fs, engines, o, [e]);
  }

  /** An inline item that no engine matches gives no result and no warning. */
  lemma InlineNoMatch(name: string, content: Bytes, fs: FileSystem, engines: map<string, UserEngines.Engine>,
                      o: ItemOutcome)
    requires Explains(RawDatum(name, content), fs, engines, true, o)
    requires UserEngines.AllReturn(engines, content) && UserEngines.MatchSet(engines, content) == {}
    ensures ItemResults(o) == [] && ItemWarnings(o) == []
  {
    assert (set m: string | m in []) == {};
    InlineOutcome(name, content, fs, engines, o, []);
  }

  /** The outcomes the three-item scan can have all give A's two results and no warning. */
  lemma ThreeItemOutcomes(fs: FileSystem, engines: map<string, UserEngines.Engine>, os: seq<ItemOutcome>)
    requires engines == map["A" := EngineA, "B" := EngineB]
    requires |os| == 3
    requires Explains(RawDatum("item1", [1]), fs, engines, true, os[0])
    requires Explains(RawDatum("item2", [2]), fs, engines, true, os[1])
    requires Explains(RawDatum("item3", [3]), fs, engines, true, os[2])
    ensures Results(os) == [ScanResult("A", DataItemResult("item1", None)), ScanResult("A", DataItemResult("item3", None))]
    ensures Warnings(os) == []
  {
    ThreeItemMatchSets(engines);
    InlineSingleMatch("item1", [1], fs, engines, os[0], "A");
    InlineNoMatch("item2", [2], fs, engines, os[1]);
    InlineSingleMatch("item3", [3], fs, engines, os[2], "A");
    ResultsOfThree(os);
    WarningsOfThree(os);
  }

  /**
   * Three inline items, engine A matching the first and third and engine B
   * matching none: the scan gives A's two results, in dequeue order, sends
   * no warning and leaves the queue empty.
   */
  method ThreeItemScan(fs: FileSystem)
    returns (r: Result<seq<ScanResult>, Error>, remaining: nat, warnings: seq<string>)
    ensures r == Success([ScanResult("A", DataItemResult("item1", None)), ScanResult("A", DataItemResult("item3", None))])
    ensures remaining == 0 && warnings == []
  {
    var vm := new LuaHost();
    var queue := new ItemQueue.Queue.New(vm);
    var engines := new UserEngines.UserEngine.Spawn(vm);
    queue.Enqueue(NewRawDatum("item1", [1]));
    queue.Enqueue(NewRawDatum("item2", [2]));
    queue.Enqueue(NewRawDatum("item3", [3]));
    engines.Register("A", EngineA);
    engines.Register("B", EngineB);
    var mgr := new ScanMgr.Spawn(vm, queue, engines);
    ghost var items := queue.items;
    ghost var registered := engines.engines;
    assert registered == map["A" := EngineA, "B" := EngineB];
    assert items == [RawDatum("item1", [1]), RawDatum("item2", [2]), RawDatum("item3", [3])];
    ghost var outcomes;
    r, outcomes := mgr.InvokeScan({vm, queue, engines}, fs);
    ThreeItemOutcomes(fs, registered, outcomes);
    remaining := queue.GetLength();
    warnings := vm.warnings;
  }
}
