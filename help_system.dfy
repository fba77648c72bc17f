/**
 * The interactive help system: a registry of help topics keyed by name, and
 * the `help 'topic'` lookup, which trims the requested name, prints the
 * topic's content, or reports that no such topic exists.
 */
module HelpSystems {
  import opened Wrappers

  /** A help topic: its unique name, a one-line description, and its full text. */
  datatype HelpTopic = HelpTopic(name: string, shortDescription: string, content: string)

  datatype Error = TopicNotFound(name: string)

  /** The `Display` text of the error. */
  function Message(e: Error): string {
    "couldn't find topic `" + e.name + "`. To list all topics, use `help:topics()`"
  }

  /** What a successful `help` call prints: the generic help, or a topic's text. */
  datatype HelpOutput = GenericHelp | TopicHelp(text: string)

  /** Unicode `White_Space`, the characters `str::trim` removes. */
  predicate IsWhitespace(c: char) {
    || ('\t' <= c <= '\r') || c == ' ' || c == '\U{0085}' || c == '\U{00A0}' || c == '\U{1680}'
    || ('\U{2000}' <= c <= '\U{200A}') || c == '\U{2028}' || c == '\U{2029}' || c == '\U{202F}'
    || c == '\U{205F}' || c == '\U{3000}'
  }

  predicate AllWhitespace(s: string) {
    forall i :: 0 <= i < |s| ==> IsWhitespace(s[i])
  }

  /** Neither end of `s` is whitespace. */
  predicate IsTrimmed(s: string) {
    s == [] || (!IsWhitespace(s[0]) && !IsWhitespace(s[|s| - 1]))
  }

  /** `s` without its leading whitespace. */
  function TrimStart(s: string): (r: string)
    ensures |r| <= |s| && r == s[|s| - |r|..]
    ensures AllWhitespace(s[..|s| - |r|])
    ensures r == [] || !IsWhitespace(r[0])
  {
    if s != [] && IsWhitespace(s[0]) then TrimStart(s[1..]) else s
  }

  /** `s` without its trailing whitespace. */
  function TrimEnd(s: string): (r: string)
    ensures |r| <= |s| && r == s[..|r|]
    ensures AllWhitespace(s[|r|..])
    ensures r == [] || !IsWhitespace(r[|r| - 1])
  {
    if s != [] && IsWhitespace(s[|s| - 1]) then
      var r := TrimEnd(s[..|s| - 1]);
      assert s[|r|..] == s[..|s| - 1][|r|..] + [s[|s| - 1]];
      r
    else s
  }

  /** `str::trim`: `s` without leading or trailing whitespace. */
  function Trim(s: string): (r: string)
    ensures IsTrimmed(r)
  {
    TrimEnd(TrimStart(s))
  }

  lemma {:induction false} TrimStartPadded(pad: string, core: string)
    requires AllWhitespace(pad) && (core == [] || !IsWhitespace(core[0]))
    ensures TrimStart(pad + core) == core
  {
    if pad != [] {
      assert (pad + core)[1..] == pad[1..] + core;
      TrimStartPadded(pad[1..], core);
    }
  }

  lemma {:induction false} TrimEndPadded(core: string, pad: string)
    requires AllWhitespace(pad) && (core == [] || !IsWhitespace(core[|core| - 1]))
    ensures TrimEnd(core + pad) == core
  {
    if pad != [] {
      assert (core + pad)[..|core + pad| - 1] == core + pad[..|pad| - 1];
      TrimEndPadded(core, pad[..|pad| - 1]);
    } else {
      assert core + pad == core;
    }
  }

  /** Trimming removes exactly the surrounding whitespace, whatever it is. */
  lemma TrimPadded(before: string, core: string, after: string)
    requires AllWhitespace(before) && AllWhitespace(after) && IsTrimmed(core)
    ensures Trim(before + core + after) == core
  {
    if core == [] {
      var s := before + core + after;
      assert AllWhitespace(s);
      assert TrimStart(s) == [];
    } else {
      TrimStartPadded(before, core + after);
      assert before + core + after == before + (core + after);
      TrimEndPadded(core, after);
    }
  }

  /** A name with no surrounding whitespace is its own trimmed form. */
  lemma TrimmedUnchanged(s: string)
    requires IsTrimmed(s)
    ensures Trim(s) == s
  {
    TrimPadded("", s, "");
    assert "" + s + "" == s;
  }

  /**
   * What printing `content` writes: the content and a newline, and one more
   * newline unless the content already ended with one.
   */
  function Printed(content: string): (out: string)
    ensures |out| > |content| && out[..|content|] == content
    ensures |out| >= 2 && out[|out| - 2..] == "\n\n"
  {
    content + "\n" + (if |content| > 0 && content[|content| - 1] == '\n' then "" else "\n")
  }

  /**
   * Naming advice for topics: at most 16 characters, lowercase snake case
   * (lowercase words of letters and digits, the first starting with a letter,
   * joined by single underscores), and never the name reserved for listing topics.
   */
  predicate IsConventionalTopicName(name: string) {
    && 0 < |name| <= 16
    && (forall i :: 0 <= i < |name| ==> 'a' <= name[i] <= 'z' || '0' <= name[i] <= '9' || name[i] == '_')
    && 'a' <= name[0] <= 'z'
    && name[|name| - 1] != '_'
    && (forall i :: 0 <= i < |name| - 1 && name[i] == '_' ==> name[i + 1] != '_')
    && name != "topics"
  }

  /** Descriptions are a single line of fewer than 50 characters. */
  predicate IsConventionalDescription(d: string) {
    |d| < 50 && '\n' !in d
  }

  /** The short descriptions of the built-in topics (each literal split in two only for line length). */
  const AboutDescription: string := "Build, version, and " + "license information."
  const FsDescription: string := "Filesystem and directory " + "handling methods."
  const PathDescription: string := "Ergonomic file path " + "maniuplation."
  const QueueDescription: string := "Queue up files and other " + "data for scanning."
  const ScanMgrDescription: string := "Start a scan of all " + "queued data items."
  const UserEnginesDescription: string := "Register custom userscript " + "scan engines."

  /** The topics registered by default, each with the text its file provides. */
  function Builtins(texts: string -> string): (ts: seq<HelpTopic>)
    ensures |ts| == 6
  {
    [ HelpTopic("about", AboutDescription, texts("about")),
      HelpTopic("fs", FsDescription, texts("fs")),
      HelpTopic("path", PathDescription, texts("path")),
      HelpTopic("queue", QueueDescription, texts("queue")),
      HelpTopic("scanmgr", ScanMgrDescription, texts("scanmgr")),
      HelpTopic("user_engines", UserEnginesDescription, texts("user_engines")) ]
  }

  /** The registry after registering `ts` in order into an empty one. */
  function Registered(ts: seq<HelpTopic>): map<string, HelpTopic> {
    if ts == [] then map[] else Registered(ts[..|ts| - 1])[ts[|ts| - 1].name := ts[|ts| - 1]]
  }

  /** The topic names in `ts` are pairwise distinct. */
  predicate DistinctNames(ts: seq<HelpTopic>) {
    forall i, j :: 0 <= i < j < |ts| ==> ts[i].name != ts[j].name
  }

  /** Registering topics with distinct names keeps every one of them: none is overwritten. */
  lemma {:induction false} RegisteredKeepsAll(ts: seq<HelpTopic>)
    requires DistinctNames(ts)
    ensures Registered(ts).Keys == set t | t in ts :: t.name
    ensures forall i :: 0 <= i < |ts| ==> Registered(ts)[ts[i].name] == ts[i]
  {
    if ts != [] {
      var init := ts[..|ts| - 1];
      assert DistinctNames(init);
      RegisteredKeepsAll(init);
      assert ts == init + [ts[|ts| - 1]];
    }
  }

  /** The built-in topics follow the naming and description advice and have distinct names. */
  lemma BuiltinsComply(texts: string -> string)
    ensures DistinctNames(Builtins(texts))
    ensures forall t :: t in Builtins(texts) ==>
      IsConventionalTopicName(t.name) && IsConventionalDescription(t.shortDescription)
  {
    var ts := Builtins(texts);
    forall i | 0 <= i < |ts|
      ensures IsConventionalTopicName(ts[i].name) && IsConventionalDescription(ts[i].shortDescription)
    {
      BuiltinComplies(texts, i);
    }
    BuiltinNamesDistinct(texts);
  }

  /** No two built-in topics share a name. */
  lemma BuiltinNamesDistinct(texts: string -> string)
    ensures DistinctNames(Builtins(texts))
  {
    var ts := Builtins(texts);
    forall i, j | 0 <= i < j < |ts| ensures ts[i].name != ts[j].name {
      assert |ts[i].name| != |ts[j].name| || ts[i].name[0] != ts[j].name[0];
    }
  }

  lemma BuiltinNamesComply()
    ensures IsConventionalTopicName("about") && IsConventionalTopicName("fs")
    ensures IsConventionalTopicName("path") && IsConventionalTopicName("queue")
    ensures IsConventionalTopicName("scanmgr") && IsConventionalTopicName("user_engines")
  {
  }

  lemma BuiltinDescriptionsComply()
    ensures IsConventionalDescription(AboutDescription) && IsConventionalDescription(FsDescription)
    ensures IsConventionalDescription(PathDescription) && IsConventionalDescription(QueueDescription)
    ensures IsConventionalDescription(ScanMgrDescription) && IsConventionalDescription(UserEnginesDescription)
  {
  }

  lemma BuiltinComplies(texts: string -> string, i: nat)
    requires i < 6
    ensures IsConventionalTopicName(Builtins(texts)[i].name)
    ensures IsConventionalDescription(Builtins(texts)[i].shortDescription)
  {
    BuiltinNamesComply();
    BuiltinDescriptionsComply();
  }

  /** The default registry holds exactly the six built-in topics, each as declared. */
  lemma DefaultTopics(texts: string -> string)
    ensures Registered(Builtins(texts)).Keys == {"about", "fs", "path", "queue", "scanmgr", "user_engines"}
    ensures forall t :: t in Builtins(texts) ==> Registered(Builtins(texts))[t.name] == t
  {
    BuiltinNamesDistinct(texts);
    RegisteredKeepsAll(Builtins(texts));
  }

  class HelpSystem {
    /** Registered topics by name. */
    var topics: map<string, HelpTopic>

    /** `HelpSystem::new`: no topics. */
    constructor New()
      ensures topics == map[]
    {
      topics := map[];
    }

    /** `HelpSystem::default`: every built-in topic, registered in declaration order. */
    constructor Default(texts: string -> string)
      ensures topics == Registered(Builtins(texts))
    {
      topics := map[];
      new;
      var builtins := Builtins(texts);
      for i := 0 to |builtins|
        invariant topics == Registered(builtins[..i])
      {
        assert builtins[..i + 1][..i] == builtins[..i];
        var _ := Topic(builtins[i]);
      }
      assert builtins[..|builtins|] == builtins;
    }

    /**
     * `topic`: registers `t` under its name, replacing any topic of the same
     * name, and returns the system for chaining.
     */
    method Topic(t: HelpTopic) returns (self: HelpSystem)
      modifies this
      ensures topics == old(topics)[t.name := t]
      ensures self == this
    {
      topics := topics[t.name := t];
      self := this;
    }

    /**
     * `help(topic)`: with no topic, the generic help; otherwise the topic
     * registered under the trimmed name, printed, or `TopicNotFound` carrying
     * the name as it was asked for.
     */
    function Call(request: Option<string>): (r: Result<HelpOutput, Error>)
      reads this
      ensures request.None? ==> r == Success(GenericHelp)
      ensures request.Some? ==> (r.Success? <==> Trim(request.value) in topics)
      ensures r.Success? && request.Some? ==> r.value == TopicHelp(Printed(topics[Trim(request.value)].content))
      ensures r.Failure? ==> request.Some? && r.error == TopicNotFound(request.value)
    {
      match request
      case None => Success(GenericHelp)
      case Some(name) =>
        var key := Trim(name);
        if key in topics then Success(TopicHelp(Printed(topics[key].content)))
        else Failure(TopicNotFound(name))
    }
  }

  /** Whitespace around a requested name is ignored: the padded request finds the same topic. */
  lemma PaddedRequestFindsTopic(h: HelpSystem, before: string, name: string, after: string)
    requires AllWhitespace(before) && AllWhitespace(after) && IsTrimmed(name)
    ensures h.Call(Some(before + name + after)).Success? <==> name in h.topics
    ensures name in h.topics ==>
      h.Call(Some(before + name + after)) == Success(TopicHelp(Printed(h.topics[name].content)))
  {
    TrimPadded(before, name, after);
  }

  /** A topic just registered is what `help` prints for its name, whatever the registry held before. */
  method RegisterThenLookup(h: HelpSystem, t: HelpTopic) returns (r: Result<HelpOutput, Error>)
    requires IsTrimmed(t.name)
    modifies h
    ensures r == Success(TopicHelp(Printed(t.content)))
  {
    var _ := h.Topic(t);
    TrimmedUnchanged(t.name);
    r := h.Call(Some(t.name));
  }
}
