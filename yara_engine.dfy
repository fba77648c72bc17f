/**
 * The YARA-X scan engine service: a list of rule sources and, once they have
 * been compiled, a compiled rule set used for scanning bytes. Compilation and
 * matching belong to the YARA-X library, which is a parameter here.
 */
module YaraEngines {
  import opened Wrappers
  import opened Bytes

  /** A YARA-X compile error: its error code and title. */
  datatype CompileError = CompileError(code: string, title: string)

  /** A YARA-X scan error, kept as its message. */
  datatype ScanFailure = ScanFailure(message: string)

  /** A compiled rule set, identified by the sources it was built from, in order. */
  datatype Rules = Rules(sources: seq<string>)

  /**
   * A metadata value as the scanner reports it. Floats and byte strings are
   * kept as the text their `to_string` gives.
   */
  datatype MetaValue =
    | MetaBool(b: bool)
    | MetaInteger(i: int)
    | MetaFloat(floatText: string)
    | MetaBytes(bytesText: string)
    | MetaString(s: string)

  /** A matching rule as the scanner reports it: identifier, namespace, metadata entries in order, tag identifiers. */
  datatype Rule = Rule(identifier: string, namespace: string, metadata: seq<(string, MetaValue)>, tags: seq<string>)

  /** A rule that matched, as sscan reports it: identifier, namespace, metadata as text, and tags. */
  datatype MatchedRule = MatchedRule(identifier: string, namespace: string,
                                     metadata: map<string, string>, tags: seq<string>)

  /** The decimal digit `d`. */
  function Digit(d: nat): (c: char)
    requires d < 10
    ensures '0' <= c <= '9'
  {
    ('0' as int + d) as char
  }

  /** The value of a string of decimal digits. */
  function DigitsValue(s: string): int {
    if s == [] then 0 else DigitsValue(s[..|s| - 1]) * 10 + (s[|s| - 1] as int - '0' as int)
  }

  /** `to_string` of a natural number: its decimal digits, without leading zeros. */
  function Digits(n: nat): (r: string)
    ensures |r| >= 1 && (r[0] == '0' ==> n == 0)
    ensures forall i :: 0 <= i < |r| ==> '0' <= r[i] <= '9'
  {
    if n < 10 then [Digit(n)] else Digits(n / 10) + [Digit(n % 10)]
  }

  /** The digits of `n` read back give `n`. */
  lemma {:induction false} DigitsRoundTrip(n: nat)
    ensures DigitsValue(Digits(n)) == n
  {
    var r := Digits(n);
    if n < 10 {
      assert r[..0] == [];
    } else {
      assert r[..|r| - 1] == Digits(n / 10);
      DigitsRoundTrip(n / 10);
    }
  }

  /** `to_string` of an integer: a `-` before the digits of a negative one. */
  function IntegerText(i: int): string {
    if i < 0 then "-" + Digits(-i) else Digits(i)
  }

  /** The text a metadata value is reported as. */
  function MetaText(v: MetaValue): string {
    match v
    case MetaBool(b) => if b then "true" else "false"
    case MetaInteger(i) => IntegerText(i)
    case MetaFloat(t) => t
    case MetaBytes(t) => t
    case MetaString(t) => t
  }

  /** The metadata map built by inserting the entries in order: a later entry replaces an earlier one with its key. */
  function MetadataMap(entries: seq<(string, MetaValue)>): map<string, string> {
    if entries == [] then map[]
    else MetadataMap(entries[..|entries| - 1])[entries[|entries| - 1].0 := MetaText(entries[|entries| - 1].1)]
  }

  /** Every key of the metadata is reported, with the text of the last entry that has it, and no other key is. */
  lemma {:induction false} MetadataLookup(entries: seq<(string, MetaValue)>, key: string)
    ensures key in MetadataMap(entries) <==> exists i :: 0 <= i < |entries| && entries[i].0 == key
    ensures key in MetadataMap(entries) ==>
      exists i :: 0 <= i < |entries| && entries[i].0 == key && MetadataMap(entries)[key] == MetaText(entries[i].1)
        && forall j :: i < j < |entries| ==> entries[j].0 != key
  {
    if entries != [] {
      var init := entries[..|entries| - 1];
      var last := |entries| - 1;
      MetadataLookup(init, key);
      if entries[last].0 != key {
        if key in MetadataMap(entries) {
          var i :| 0 <= i < |init| && init[i].0 == key && MetadataMap(init)[key] == MetaText(init[i].1)
            && forall j :: i < j < |init| ==> init[j].0 != key;
          assert entries[i] == init[i];
          assert forall j :: i < j < |entries| ==> entries[j].0 != key by {
            forall j | i < j < |entries| ensures entries[j].0 != key {
              if j < last {
                assert entries[j] == init[j];
              }
            }
          }
        }
        if exists i :: 0 <= i < |entries| && entries[i].0 == key {
          var i :| 0 <= i < |entries| && entries[i].0 == key;
          assert init[i] == entries[i];
        }
      }
    }
  }

  /** The `MatchedRule` a scanner rule converts to. */
  function Convert(rule: Rule): MatchedRule {
    MatchedRule(rule.identifier, rule.namespace, MetadataMap(rule.metadata), rule.tags)
  }

  /** `ms` is `rs` converted rule by rule, in the same order. */
  predicate ConvertedFrom(ms: seq<MatchedRule>, rs: seq<Rule>) {
    |ms| == |rs| && forall i :: 0 <= i < |rs| ==> ms[i] == Convert(rs[i])
  }

  /**
   * `From<Rule> for MatchedRule`: copies the identifier and namespace,
   * inserts each metadata entry's text under its key in order, and collects
   * the tag identifiers in order.
   */
  method ToMatchedRule(rule: Rule) returns (m: MatchedRule)
    ensures m == Convert(rule)
  {
    var metadata: map<string, string> := map[];
    for i := 0 to |rule.metadata|
      invariant metadata == MetadataMap(rule.metadata[..i])
    {
      var (key, value) := rule.metadata[i];
      assert rule.metadata[..i + 1][..i] == rule.metadata[..i];
      metadata := metadata[key := MetaText(value)];
    }
    assert rule.metadata[..|rule.metadata|] == rule.metadata;
    var tags: seq<string> := [];
    for i := 0 to |rule.tags|
      invariant tags == rule.tags[..i]
    {
      tags := tags + [rule.tags[i]];
    }
    assert rule.tags[..|rule.tags|] == rule.tags;
    m := MatchedRule(rule.identifier, rule.namespace, metadata, tags);
  }

  /**
   * The YARA-X library. `addSource(earlier, source)` is what adding `source`
   * to a compiler that already accepted `earlier` reports; `scan(rules, data)`
   * is the outcome of scanning `data`, with the matching rules in the
   * scanner's order.
   */
  datatype YaraX = YaraX(addSource: (seq<string>, string) -> Option<CompileError>,
                         scan: (Rules, Bytes) -> Result<seq<Rule>, ScanFailure>)

  datatype Error =
    | CompilationError(code: string, title: string, yaraSrc: string, source: CompileError)
    | ScanError(bytes: Bytes, cause: ScanFailure)
    | NoCompiledRules(bytes: Bytes)

  /** The library accepts source `i` after the sources before it. */
  predicate Accepts(lib: YaraX, sources: seq<string>, i: nat)
    requires i < |sources|
  {
    lib.addSource(sources[..i], sources[i]).None?
  }

  /** The first source the library rejects, if any. */
  function FirstRejected(lib: YaraX, sources: seq<string>): (r: Option<nat>)
    ensures r.None? <==> forall i :: 0 <= i < |sources| ==> Accepts(lib, sources, i)
    ensures r.Some? ==>
      && r.value < |sources|
      && !Accepts(lib, sources, r.value)
      && forall j :: 0 <= j < r.value ==> Accepts(lib, sources, j)
  {
    if sources == [] then None
    else
      var init := sources[..|sources| - 1];
      assert forall i :: 0 <= i < |init| ==> (Accepts(lib, init, i) <==> Accepts(lib, sources, i)) by {
        forall i | 0 <= i < |init| ensures Accepts(lib, init, i) <==> Accepts(lib, sources, i) {
          assert init[..i] == sources[..i];
        }
      }
      var earlier := FirstRejected(lib, init);
      if earlier.Some? then earlier
      else if !Accepts(lib, sources, |sources| - 1) then Some(|sources| - 1)
      else None
  }

  /** The error `CompileRules` reports for a rejected source. */
  function CompileFailure(source: string, e: CompileError): (r: Error)
    ensures r.CompilationError? && r.yaraSrc == source && r.source == e
    ensures r.code == e.code && r.title == e.title
  {
    CompilationError(e.code, e.title, source, e)
  }

  class YaraEngine {
    /** Rule sources, in the order they were added. */
    var rules: seq<string>
    /** The rule set of the last successful compilation, if any. */
    var compiled: Option<Rules>

    /** `YaraEngine::default`: no rules and nothing compiled. */
    constructor Default()
      ensures rules == [] && compiled == None
    {
      rules := [];
      compiled := None;
    }

    /** `AddRule`: appends the source; the compiled set is untouched until the next compilation. */
    method AddRule(source: string)
      modifies this
      ensures rules == old(rules) + [source]
      ensures compiled == old(compiled)
    {
      rules := rules + [source];
    }

    /**
     * `CompileRules`: adds every source to a fresh compiler in order. The
     * first rejected source aborts with its error and keeps the previous
     * compiled set; otherwise the compiled set becomes the current sources.
     * The sources are kept either way.
     */
    method CompileRules(lib: YaraX) returns (r: Outcome<Error>)
      modifies this
      ensures rules == old(rules)
      ensures FirstRejected(lib, rules).None? ==> r == Pass && compiled == Some(Rules(rules))
      ensures FirstRejected(lib, rules).Some? ==>
        var i := FirstRejected(lib, rules).value;
        r == Fail(CompileFailure(rules[i], lib.addSource(rules[..i], rules[i]).value)) && compiled == old(compiled)
    {
      for i := 0 to |rules|
        invariant forall j :: 0 <= j < i ==> Accepts(lib, rules, j)
      {
        var error := lib.addSource(rules[..i], rules[i]);
        if error.Some? {
          assert !Accepts(lib, rules, i);
          return Fail(CompileFailure(rules[i], error.value));
        }
      }
      compiled := Some(Rules(rules));
      r := Pass;
    }

    /**
     * `ScanBytes`: `NoCompiledRules` before any successful compilation; a
     * scanner error becomes `ScanError`; otherwise each matching rule
     * converted, in the scanner's order. Both errors carry the scanned bytes,
     * and nothing in the engine changes.
     */
    method ScanBytes(lib: YaraX, data: Bytes) returns (r: Result<seq<MatchedRule>, Error>)
      ensures compiled.None? ==> r == Failure(NoCompiledRules(data))
      ensures compiled.Some? && lib.scan(compiled.value, data).Failure? ==>
        r == Failure(ScanError(data, lib.scan(compiled.value, data).error))
      ensures compiled.Some? && lib.scan(compiled.value, data).Success? ==>
        r.Success? && ConvertedFrom(r.value, lib.scan(compiled.value, data).value)
    {
      match compiled
      case None =>
        r := Failure(NoCompiledRules(data));
      case Some(rs) =>
        match lib.scan(rs, data)
        case Failure(error) =>
          r := Failure(ScanError(data, error));
        case Success(matches) =>
          var output: seq<MatchedRule> := [];
          for i := 0 to |matches|
            invariant ConvertedFrom(output, matches[..i])
          {
            var m := ToMatchedRule(matches[i]);
            output := output + [m];
          }
          assert matches[..|matches|] == matches;
          r := Success(output);
    }
  }

  /** Adding a rule does not change what a scan reports until the rules are compiled again, whatever the engine holds. */
  method AddedRuleTakesEffectOnlyOnCompile(engine: YaraEngine, lib: YaraX, source: string, data: Bytes)
    returns (before: Result<seq<MatchedRule>, Error>, after: Result<seq<MatchedRule>, Error>)
    modifies engine
    ensures before == after
  {
    before := engine.ScanBytes(lib, data);
    ghost var compiled := engine.compiled;
    engine.AddRule(source);
    after := engine.ScanBytes(lib, data);
    assert engine.compiled == compiled;
    if before.Success? {
      assert after.Success?;
      assert |before.value| == |after.value|;
      assert forall i :: 0 <= i < |before.value| ==> before.value[i] == after.value[i];
      assert before.value == after.value;
    }
  }

  /** Scanning before anything was compiled fails, carrying the bytes. */
  method ScanWithoutCompiling(lib: YaraX, data: Bytes) returns (r: Result<seq<MatchedRule>, Error>)
    ensures r == Failure(NoCompiledRules(data))
  {
    var engine := new YaraEngine.Default();
    r := engine.ScanBytes(lib, data);
  }

  /**
   * A rule the compiler rejects fails compilation with that rule's error, and
   * a later scan still finds no compiled rules.
   */
  method CompileInvalidRuleFails(lib: YaraX, invalid: string, data: Bytes)
    returns (compiledOk: Outcome<Error>, scanned: Result<seq<MatchedRule>, Error>)
    requires lib.addSource([], invalid).Some?
    ensures compiledOk == Fail(CompileFailure(invalid, lib.addSource([], invalid).value))
    ensures scanned == Failure(NoCompiledRules(data))
  {
    var engine := new YaraEngine.Default();
    engine.AddRule(invalid);
    assert engine.rules == [invalid];
    assert engine.rules[..0] == [];
    compiledOk := engine.CompileRules(lib);
    scanned := engine.ScanBytes(lib, data);
  }

  /**
   * Once a rule the compiler accepts is compiled, a scan reports exactly what
   * the scanner matches with that one rule.
   */
  method CompileThenScan(lib: YaraX, rule: string, data: Bytes)
    returns (compiledOk: Outcome<Error>, scanned: Result<seq<MatchedRule>, Error>)
    requires lib.addSource([], rule).None?
    ensures compiledOk == Pass
    ensures lib.scan(Rules([rule]), data).Success? ==>
      scanned.Success? && ConvertedFrom(scanned.value, lib.scan(Rules([rule]), data).value)
    ensures lib.scan(Rules([rule]), data).Failure? ==>
      scanned == Failure(ScanError(data, lib.scan(Rules([rule]), data).error))
  {
    var engine := new YaraEngine.Default();
    engine.AddRule(rule);
    assert engine.rules == [rule];
    assert engine.rules[..0] == [];
    compiledOk := engine.CompileRules(lib);
    scanned := engine.ScanBytes(lib, data);
  }

  /**
   * A failed compilation keeps the rule set of the last successful one: after
   * `good` compiles and `bad` is then rejected, scans still use `good` alone.
   */
  method FailedCompileKeepsEarlierRules(lib: YaraX, good: string, bad: string, data: Bytes)
    returns (second: Outcome<Error>, scanned: Result<seq<MatchedRule>, Error>)
    requires lib.addSource([], good).None?
    requires lib.addSource([good], bad).Some?
    ensures second == Fail(CompileFailure(bad, lib.addSource([good], bad).value))
    ensures lib.scan(Rules([good]), data).Success? ==>
      scanned.Success? && ConvertedFrom(scanned.value, lib.scan(Rules([good]), data).value)
    ensures lib.scan(Rules([good]), data).Failure? ==>
      scanned == Failure(ScanError(data, lib.scan(Rules([good]), data).error))
  {
    var engine := new YaraEngine.Default();
    engine.AddRule(good);
    assert engine.rules[..0] == [];
    var first := engine.CompileRules(lib);
    engine.AddRule(bad);
    assert engine.rules == [good, bad];
    assert engine.rules[..0] == [] && engine.rules[..1] == [good];
    second := engine.CompileRules(lib);
    scanned := engine.ScanBytes(lib, data);
  }
}
