/**
 * The base action: the canonical section serialiser, the right-biased
 * merge of an artifact's old and new section maps, staging of the merged
 * text as a pending revision, and commit.
 */
module Actions {
  import opened Common
  import opened Schema
  import opened Environments

  /** A section's schema entry; `kind` is its `'type'` key, if present. */
  datatype SectionSpec = SectionSpec(kind: Option<string>)

  /** An output mapping: the schema's entries in their dictionary order. */
  type OutputMapping = seq<(string, SectionSpec)>

  /** The exceptions the base action raises. */
  datatype ActionError =
    | NoOutputMapping           // `_output_mapping` is still None
    | MissingType(key: string)    // a schema entry has no 'type' key
    | MissingSection(key: string) // the section map has no value for a schema key
    | NoArtifact                // commit with no artifact in the context

  /**
   * The rendering of one section: a `## <key>` header line, then the value;
   * a section of any kind other than "text" has its value inside a fence
   * opened with "```<kind>" and closed with "```" and a blank line, a
   * "text" section is followed by a blank line only.
   */
  function Block(key: string, kind: string, value: string): string
  {
    "## " + key + "\n"
    + (if kind != "text" then "```" + kind + "\n" else "")
    + value
    + (if kind != "text" then "```\n\n" else "\n\n")
  }

  /** The entry can be rendered from `parsed`. */
  predicate EntryOk(entry: (string, SectionSpec), parsed: Sections)
  {
    entry.1.kind.Some? && entry.0 in parsed
  }

  /** The exception an entry that cannot be rendered raises; the type lookup comes first. */
  function EntryError(entry: (string, SectionSpec)): ActionError
  {
    if entry.1.kind.None? then MissingType(entry.0) else MissingSection(entry.0)
  }

  /** The serialisation of `parsed` under mapping `m`: blocks in mapping order. */
  function Render(m: OutputMapping, parsed: Sections): Result<string, ActionError>
    decreases |m|
  {
    if m == [] then Ok("")
    else if !EntryOk(m[0], parsed) then Err(EntryError(m[0]))
    else
      match Render(m[1..], parsed)
      case Ok(rest) => Ok(Block(m[0].0, m[0].1.kind.value, parsed[m[0].0]) + rest)
      case Err(e) => Err(e)
  }

  /** Two renderings one after the other: the first error wins. */
  function Concat(a: Result<string, ActionError>, b: Result<string, ActionError>): Result<string, ActionError>
  {
    if a.Err? then a else if b.Err? then b else Ok(a.value + b.value)
  }

  /** Serialisation succeeds exactly when every entry has a type and a value. */
  lemma {:induction false} RenderOkIff(m: OutputMapping, parsed: Sections)
    ensures Render(m, parsed).Ok? <==> forall i :: 0 <= i < |m| ==> EntryOk(m[i], parsed)
    decreases |m|
  {
    if m != [] {
      RenderOkIff(m[1..], parsed);
      assert forall i :: 1 <= i < |m| ==> m[i] == m[1..][i - 1];
    }
  }

  /** A failed serialisation reports the first entry, in mapping order, that cannot be rendered. */
  lemma {:induction false} RenderErrIsFirstFailure(m: OutputMapping, parsed: Sections)
    requires Render(m, parsed).Err?
    ensures exists i ::
              && 0 <= i < |m| && !EntryOk(m[i], parsed)
              && (forall j :: 0 <= j < i ==> EntryOk(m[j], parsed))
              && Render(m, parsed).error == EntryError(m[i])
    decreases |m|
  {
    if EntryOk(m[0], parsed) {
      RenderErrIsFirstFailure(m[1..], parsed);
      var i :| 0 <= i < |m[1..]| && !EntryOk(m[1..][i], parsed)
        && (forall j :: 0 <= j < i ==> EntryOk(m[1..][j], parsed))
        && Render(m[1..], parsed).error == EntryError(m[1..][i]);
      assert forall j :: 1 <= j < i + 1 ==> m[j] == m[1..][j - 1];
      assert !EntryOk(m[i + 1], parsed) && Render(m, parsed).error == EntryError(m[i + 1]);
    } else {
      assert !EntryOk(m[0], parsed) && Render(m, parsed).error == EntryError(m[0]);
    }
  }

  /** Serialising a concatenated mapping concatenates the serialisations. */
  lemma {:induction false} RenderAppend(m1: OutputMapping, m2: OutputMapping, parsed: Sections)
    ensures Render(m1 + m2, parsed) == Concat(Render(m1, parsed), Render(m2, parsed))
    decreases |m1|
  {
    if m1 == [] {
      assert m1 + m2 == m2;
      if Render(m2, parsed).Ok? {
        assert "" + Render(m2, parsed).value == Render(m2, parsed).value;
      }
    } else {
      assert (m1 + m2)[0] == m1[0];
      assert (m1 + m2)[1..] == m1[1..] + m2;
      RenderAppend(m1[1..], m2, parsed);
      if EntryOk(m1[0], parsed) {
        var block := Block(m1[0].0, m1[0].1.kind.value, parsed[m1[0].0]);
        var r1, r2 := Render(m1[1..], parsed), Render(m2, parsed);
        if r1.Ok? && r2.Ok? {
          assert Render(m1 + m2, parsed) == Ok(block + (r1.value + r2.value));
          assert Render(m1, parsed) == Ok(block + r1.value);
          assert block + (r1.value + r2.value) == (block + r1.value) + r2.value;
        }
      }
    }
  }

  /**
   * Serialising one entry more: a failing entry ends the serialisation with
   * its error, a renderable one appends its block.
   */
  lemma RenderNext(m: OutputMapping, i: nat, parsed: Sections, s: string)
    requires i < |m| && Render(m[..i], parsed) == Ok(s)
    ensures !EntryOk(m[i], parsed) ==> Render(m, parsed) == Err(EntryError(m[i]))
    ensures EntryOk(m[i], parsed) ==>
              Render(m[..i + 1], parsed) == Ok(s + Block(m[i].0, m[i].1.kind.value, parsed[m[i].0]))
  {
    assert m == m[..i] + m[i..];
    RenderAppend(m[..i], m[i..], parsed);
    assert m[..i + 1] == m[..i] + [m[i]];
    RenderAppend(m[..i], [m[i]], parsed);
    assert [m[i]][1..] == [];
    if EntryOk(m[i], parsed) {
      var b := Block(m[i].0, m[i].1.kind.value, parsed[m[i].0]);
      assert Render([m[i]], parsed) == Ok(b + "");
      assert b + "" == b;
    }
  }

  /**
   * One header per entry, in mapping order: a successful serialisation is
   * the serialisation of the entries before `i`, then entry `i`'s block
   * (header `## <key>` and its value), then the serialisation of the rest.
   */
  lemma RenderSplitAt(m: OutputMapping, parsed: Sections, i: nat)
    requires i < |m| && Render(m, parsed).Ok?
    ensures EntryOk(m[i], parsed)
    ensures Render(m[..i], parsed).Ok? && Render(m[i + 1..], parsed).Ok?
    ensures Render(m, parsed).value
      == Render(m[..i], parsed).value
      + Block(m[i].0, m[i].1.kind.value, parsed[m[i].0])
      + Render(m[i + 1..], parsed).value
  {
    assert m == m[..i] + [m[i]] + m[i + 1..];
    RenderAppend(m[..i] + [m[i]], m[i + 1..], parsed);
    RenderAppend(m[..i], [m[i]], parsed);
    assert [m[i]][1..] == [];
  }

  /**
   * Only the mapping's keys matter: two section maps that agree on them
   * serialise identically, whatever else they hold (and a map has no key
   * order to depend on).
   */
  lemma {:induction false} RenderReadsOnlyMappingKeys(m: OutputMapping, p1: Sections, p2: Sections)
    requires forall i :: 0 <= i < |m| ==> (m[i].0 in p1 <==> m[i].0 in p2)
    requires forall i :: 0 <= i < |m| && m[i].0 in p1 ==> p1[m[i].0] == p2[m[i].0]
    ensures Render(m, p1) == Render(m, p2)
    decreases |m|
  {
    if m != [] {
      assert forall i :: 1 <= i < |m| ==> m[i] == m[1..][i - 1];
      RenderReadsOnlyMappingKeys(m[1..], p1, p2);
    }
  }

  /** `old | new` on dictionaries: right-biased union. */
  function Merge(older: Sections, newer: Sections): (r: Sections)
    ensures r.Keys == older.Keys + newer.Keys
    ensures forall k :: k in newer ==> r[k] == newer[k]
    ensures forall k :: k in older && k !in newer ==> r[k] == older[k]
  {
    older + newer
  }

  /** Merging in stages is merging at once: later values override earlier ones key by key. */
  lemma MergeAssociative(a: Sections, b: Sections, c: Sections)
    ensures Merge(Merge(a, b), c) == Merge(a, Merge(b, c))
  {
  }

  // ---- A concrete output mapping ------------------------------------------

  /** The PRD action's mapping (metagpt/my_actions/write_prd.py). */
  const PrdMapping: OutputMapping := [
    ("原始需求", SectionSpec(Some("text"))),
    ("用户故事", SectionSpec(Some("python"))),
    ("UI描述", SectionSpec(Some("python"))),
    ("子用户故事", SectionSpec(Some("python"))),
    ("不清楚的点", SectionSpec(Some("text")))
  ]

  /** A PRD serialises exactly when all five of its sections were parsed. */
  lemma PrdNeedsEverySection(parsed: Sections)
    ensures Render(PrdMapping, parsed).Ok?
        <==> {"原始需求", "用户故事", "UI描述", "子用户故事", "不清楚的点"} <= parsed.Keys
  {
    RenderOkIff(PrdMapping, parsed);
    var m := PrdMapping;
    assert m[0].0 == "原始需求" && m[1].0 == "用户故事" && m[2].0 == "UI描述";
    assert m[3].0 == "子用户故事" && m[4].0 == "不清楚的点";
  }

  /** The per-action state the base action reads and resets. */
  class Context {
    var todo: Action?
    var task: Option<Task>
    var artifact: Artifact?
    const env: Environment

    constructor (env: Environment)
      ensures this.env == env && todo == null && task == None && artifact == null
    {
      this.env := env;
      todo := null;
      task := None;
      artifact := null;
    }
  }

  class Action {
    const name: string
    var prefix: string
    var profile: string
    var outputMapping: Option<OutputMapping>
    const context: Context

    constructor (name: string, context: Context, outputMapping: Option<OutputMapping>)
      ensures this.name == name && this.context == context && this.outputMapping == outputMapping
      ensures prefix == "" && profile == ""
    {
      this.name := name;
      this.context := context;
      this.outputMapping := outputMapping;
      prefix := "";
      profile := "";
    }

    method SetPrefix(prefix: string, profile: string)
      modifies this
      ensures this.prefix == prefix && this.profile == profile
      ensures outputMapping == old(outputMapping)
    {
      this.prefix := prefix;
      this.profile := profile;
    }

    /** `_parsed_to_str`: builds the serialisation block by block. */
    method ParsedToStr(parsed: Sections) returns (r: Result<string, ActionError>)
      ensures outputMapping.None? ==> r == Err(NoOutputMapping)
      ensures outputMapping.Some? ==> r == Render(outputMapping.value, parsed)
    {
      if outputMapping.None? {
        return Err(NoOutputMapping);
      }
      var m := outputMapping.value;
      var s := "";
      var i := 0;
      while i < |m|
        invariant 0 <= i <= |m|
        invariant Render(m[..i], parsed) == Ok(s)
      {
        var key := m[i].0;
        ghost var s0 := s;
        RenderNext(m, i, parsed, s);
        if m[i].1.kind.None? {
          return Err(MissingType(key));
        }
        var kind := m[i].1.kind.value;
        // `blk` is the part of entry i's block written so far: s == s0 + blk.
        var header := "## " + key + "\n";
        s := s + header;
        ghost var blk := header;
        if kind != "text" {
          var fence := "```" + kind + "\n";
          AppendAssoc(s0, blk, fence);
          s := s + fence;
          blk := blk + fence;
        } else {
          assert blk == header + "";
        }
        if key !in parsed {
          return Err(MissingSection(key));
        }
        AppendAssoc(s0, blk, parsed[key]);
        s := s + parsed[key];
        blk := blk + parsed[key];
        var close := if kind != "text" then "```\n\n" else "\n\n";
        AppendAssoc(s0, blk, close);
        s := s + close;
        blk := blk + close;
        assert blk == Block(key, kind, parsed[key]);
        i := i + 1;
      }
      assert m[..i] == m;
      r := Ok(s);
    }

    /**
     * `_parse_result`: parses the artifact's working text and the new
     * text, merges them right-biased, records the merge as the artifact's
     * instruct content, and stages its serialisation as one new pending
     * revision, which it returns.
     */
    method ParseResult(content: string, artifact: Artifact, working: string,
                       parse: (string, OutputMapping) -> Sections)
      returns (r: Result<string, ActionError>)
      requires outputMapping.Some?
      modifies artifact
      ensures var merged := Merge(parse(working, outputMapping.value), parse(content, outputMapping.value));
        && artifact.instructContent == Some(merged)
        && r == Render(outputMapping.value, merged)
      ensures r.Ok? ==> artifact.pendingContent == old(artifact.pendingContent) + [r.value]
      ensures r.Err? ==> artifact.pendingContent == old(artifact.pendingContent)
      ensures artifact.content == old(artifact.content) && artifact.subType == old(artifact.subType)
    {
      var older := parse(working, outputMapping.value);
      var newer := parse(content, outputMapping.value);
      var merged := Merge(older, newer);
      artifact.instructContent := Some(merged);
      r := ParsedToStr(merged);
      if r.Ok? {
        artifact.pendingContent := artifact.pendingContent + [r.value];
      }
    }

    /**
     * `process_task`: binds the task to the context; with a description it
     * stages the generator's reply `generated`, without one it returns the
     * committed content and stages nothing.
     */
    method ProcessTask(task: Task, generated: string, working: string,
                       parse: (string, OutputMapping) -> Sections)
      returns (r: Result<string, ActionError>)
      requires Truthy(task.description) ==> outputMapping.Some?
      modifies context, task.artifact
      ensures context.todo == this && context.task == Some(task) && context.artifact == task.artifact
      ensures !Truthy(task.description) ==> r == Ok(old(task.artifact.content))
      ensures !Truthy(task.description) ==>
                && task.artifact.pendingContent == old(task.artifact.pendingContent)
                && task.artifact.instructContent == old(task.artifact.instructContent)
      ensures Truthy(task.description) ==>
        var merged := Merge(parse(working, outputMapping.value), parse(generated, outputMapping.value));
        && task.artifact.instructContent == Some(merged)
        && r == Render(outputMapping.value, merged)
        && task.artifact.pendingContent
           == old(task.artifact.pendingContent) + (if r.Ok? then [r.value] else [])
      ensures task.artifact.content == old(task.artifact.content)
      ensures task.artifact.subType == old(task.artifact.subType)
    {
      context.todo := this;
      context.task := Some(task);
      context.artifact := task.artifact;
      if Truthy(task.description) {
        r := ParseResult(generated, task.artifact, working, parse);
      } else {
        r := Ok(task.artifact.content);
      }
    }

    /**
     * `commit`: clears the context's task, action and artifact and
     * publishes one event for the artifact; with no artifact in the
     * context it fails before changing anything.
     */
    method Commit() returns (r: Outcome<ActionError>)
      modifies context, context.env
      ensures old(context.artifact) == null ==>
                && r == Fail(NoArtifact)
                && unchanged(context) && unchanged(context.env)
      ensures old(context.artifact) != null ==>
                && r == Pass
                && context.task == None && context.todo == null && context.artifact == null
                && context.env.eventQueue == old(context.env.eventQueue) + [Event(old(context.artifact))]
                && context.env.roles == old(context.env.roles)
                && context.env.history == old(context.env.history)
                && context.env.taskQueue == old(context.env.taskQueue)
                && context.env.memory == old(context.env.memory)
                && context.env.boundRoles == old(context.env.boundRoles)
    {
      var artifact := context.artifact;
      if artifact == null {
        return Fail(NoArtifact);
      }
      context.task := None;
      context.todo := null;
      context.artifact := null;
      context.env.PublishEvent(Event(artifact));
      r := Pass;
    }
  }
}
