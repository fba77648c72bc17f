/**
 * The contract every userscript API object follows: its name is a valid
 * Lua identifier, and its default startup script does nothing.
 */
module UserscriptApi {
  import opened Wrappers

  /** An error raised inside the Lua environment (`mlua::Error`). */
  datatype LuaError = LuaError(message: string)

  /** The reserved words of Lua 5.4 (section 3.1 of the Lua 5.4 Reference Manual). */
  const LuaKeywords: set<string> := {
    "and", "break", "do", "else", "elseif", "end", "false", "for", "function",
    "goto", "if", "in", "local", "nil", "not", "or", "repeat", "return", "then",
    "true", "until", "while"
  }

  /** The reserved words as the `ApiObject::name` documentation lists them: `goto` is missing. */
  const DocumentedKeywords: set<string> := {
    "and", "break", "do", "else", "elseif", "end", "false", "for", "function",
    "if", "in", "local", "nil", "not", "or", "repeat", "return", "then",
    "true", "until", "while"
  }

  predicate IsLetter(c: char) {
    'a' <= c <= 'z' || 'A' <= c <= 'Z'
  }

  predicate IsDigit(c: char) {
    '0' <= c <= '9'
  }

  predicate IsNameChar(c: char) {
    IsLetter(c) || IsDigit(c) || c == '_'
  }

  /** Letters, digits and underscores, not starting with a digit; compared case-sensitively. */
  predicate HasNameShape(s: string) {
    && |s| > 0
    && !IsDigit(s[0])
    && forall i :: 0 <= i < |s| ==> IsNameChar(s[i])
  }

  /** A valid Lua 5.4 identifier. */
  predicate IsLuaName(s: string) {
    HasNameShape(s) && s !in LuaKeywords
  }

  /** Validity as the `ApiObject::name` documentation states it. */
  predicate IsDocumentedLuaName(s: string) {
    HasNameShape(s) && s !in DocumentedKeywords
  }

  /** The documented keyword list lets `goto` through, which Lua rejects as a name. */
  lemma GotoAcceptedAsDocumented()
    ensures IsDocumentedLuaName("goto") && !IsLuaName("goto")
  {
    assert "goto" in LuaKeywords;
    assert "goto" !in DocumentedKeywords by {
      assert "goto"[0] == 'g';
    }
  }

  /** Apart from `goto`, the documented rule and the Lua rule agree. */
  lemma {:induction false} DocumentedRuleDiffersOnlyOnGoto(s: string)
    requires s != "goto"
    ensures IsDocumentedLuaName(s) <==> IsLuaName(s)
  {
    assert LuaKeywords == DocumentedKeywords + {"goto"};
  }

  /** The examples given in the `ApiObject::name` documentation. */
  lemma DocumentedExamples()
    ensures IsLuaName("myfunc") && IsLuaName("my_func2") && IsLuaName("_myFunc_3")
    ensures !IsLuaName("5myfunc") && !IsLuaName("4_my_function") && !IsLuaName("$myfunc")
  {
    assert !IsNameChar("$myfunc"[0]);
  }

  /** Identifiers are case-sensitive: only the exact spelling of a keyword is reserved. */
  lemma CaseSensitive()
    ensures IsLuaName("And") && IsLuaName("NIL") && !IsLuaName("and") && !IsLuaName("nil")
  {
    assert "And" !in LuaKeywords by { assert "And"[0] == 'A'; }
    assert "NIL" !in LuaKeywords by { assert "NIL"[0] == 'N'; }
  }

  /** An underscore in front of any run of name characters gives a valid identifier. */
  lemma {:induction false} UnderscorePrefixIsName(s: string)
    requires forall i :: 0 <= i < |s| ==> IsNameChar(s[i])
    ensures IsLuaName("_" + s)
  {
    var n := "_" + s;
    assert n[0] == '_';
    forall k | k in LuaKeywords ensures n != k {
      assert k[0] != '_';
    }
    forall i | 0 <= i < |n| ensures IsNameChar(n[i]) {
      if i > 0 { assert n[i] == s[i - 1]; }
    }
  }

  /** The userscript APIs of the system, each registered in Lua under its name. */
  datatype ApiObject = AboutApi | FsApi | HelpApi | QueueApi | ScanMgrApi | UserEngineApi {

    /** `ApiObject::name`: the global under which the API is visible from Lua. */
    function Name(): (n: string)
      ensures IsLuaName(n)
    {
      match this
      case AboutApi => "about"
      case FsApi => "fs"
      case HelpApi => "help"
      case QueueApi => "queue"
      case ScanMgrApi => "scanmgr"
      case UserEngineApi => "user_engines"
    }
  }

  /** Two different APIs never claim the same global. */
  lemma ApiNamesDistinct(a: ApiObject, b: ApiObject)
    requires a != b
    ensures a.Name() != b.Name()
  {
  }

  /** The default `ApiObject::init_script`: does nothing and succeeds. */
  method DefaultInitScript(api: ApiObject) returns (r: Outcome<LuaError>)
    ensures r == Pass
  {
    r := Pass;
  }
}
