/** The exec-shim entries (provider-registry.ts): how each vendor's command line is built, and
    that the audit reads every built command line back as what was supplied. */
module ProviderRegistry {
  import opened Options
  import opened ArgumentForms

  datatype Vendor = Gemini | Copilot | Opencode | Claude | Codex | Mock

  datatype Format = Text | Json | StreamJson | Jsonl

  datatype Level = Read | Worktree | WorktreeNet | Full

  function FormatText(f: Format): string {
    match f
    case Text => "text"
    case Json => "json"
    case StreamJson => "stream-json"
    case Jsonl => "jsonl"
  }

  // ---------- The tables ----------

  function Valued(name: string, flag: string, form: Form): ShimArgument {
    ShimArgument(name, Some(flag), form, false, [])
  }

  function Valueless(name: string, flag: string): ShimArgument {
    ShimArgument(name, Some(flag), FreeText, true, [])
  }

  function Placed(name: string, form: Form): ShimArgument {
    ShimArgument(name, None, form, false, [])
  }

  const OutputFormats := ["text", "json", "stream-json"]
  const ApprovalModes := ["default", "auto_edit", "yolo", "plan"]
  const PermissionModes := ["acceptEdits", "auto", "bypassPermissions", "manual", "dontAsk", "plan"]
  const Sandboxes := ["read-only", "workspace-write", "danger-full-access"]

  const PromptFlag := Valued("prompt", "-p", FreeText)
  const OutputFormat := Valued("output-format", "--output-format", Enum(OutputFormats))
  const SessionId := Valued("session-id", "--session-id", Uuid)
  const ApprovalMode := Valued("approval-mode", "--approval-mode", Enum(ApprovalModes))
  const CopilotFormat := Valued("output-format", "--output-format", Enum(["text", "json"]))
  const AllowAllTools := Valueless("allow-all-tools", "--allow-all-tools")
  const SecretEnvVars := Valued("secret-env-vars", "--secret-env-vars", FreeText)
  const RunCommand := Placed("subcommand", Enum(["run"]))
  const OpencodeFormat := Valued("format", "--format", Enum(["default", "json"]))
  const PromptPlaced := Placed("prompt", FreeText)
  const Verbose := Valueless("verbose", "--verbose")
  const PermissionMode := Valued("permission-mode", "--permission-mode", Enum(PermissionModes))
  const JsonSchema := ShimArgument("json-schema", Some("--json-schema"), InlineJson, false, ["$schema"])
  const Settings := Valued("settings", "--settings", InlineJson)
  const Effort := Valued("effort", "--effort", Enum(["low", "medium", "high", "xhigh", "max"]))
  const MaxBudget := Valued("max-budget-usd", "--max-budget-usd", Finite)
  const ExecCommand := Placed("subcommand", Enum(["exec"]))
  const JsonSwitch := Valueless("json", "--json")
  const SkipGitCheck := Valueless("skip-git-repo-check", "--skip-git-repo-check")
  const WorkDir := Valued("cd", "-C", AbsPath)
  const Sandbox := Valued("sandbox", "--sandbox", Enum(Sandboxes))
  const OutputSchema := Valued("output-schema", "--output-schema", AbsPath)
  const ReturnSchema := Valued("return-schema", "--return-schema", AbsPath)
  const MockPrompt := Valued("prompt", "--prompt", FreeText)

  function Declared(v: Vendor): seq<ShimArgument> {
    match v
    case Gemini => [PromptFlag, OutputFormat, SessionId, ApprovalMode]
    case Copilot => [PromptFlag, CopilotFormat, AllowAllTools, SecretEnvVars]
    case Opencode => [RunCommand, OpencodeFormat, PromptPlaced]
    case Claude => [PromptFlag, OutputFormat, Verbose, SessionId, PermissionMode, JsonSchema,
                    Settings, Effort, MaxBudget]
    case Codex => [ExecCommand, JsonSwitch, SkipGitCheck, WorkDir, Sandbox, OutputSchema, PromptPlaced]
    case Mock => [ReturnSchema, MockPrompt]
  }

  function Formats(v: Vendor): seq<Format> {
    match v
    case Gemini => [Text, Json, StreamJson]
    case Copilot => [Text, Json]
    case Opencode => [Text, Json]
    case Claude => [Text, Json, StreamJson]
    case Codex => [Text, Jsonl]
    case Mock => [Json]
  }

  function Stream(v: Vendor): Format {
    match v
    case Gemini => StreamJson
    case Copilot => Json
    case Opencode => Json
    case Claude => StreamJson
    case Codex => Jsonl
    case Mock => Json
  }

  /** An entry's own stream is one it supports, every format it supports is one its format flag takes, and no two
      formats are spelled alike. */
  lemma {:induction false} FormatsAreDeclared(v: Vendor, f: Format, g: Format)
    ensures Stream(v) in Formats(v)
    ensures FormatText(f) == FormatText(g) <==> f == g
    ensures f in Formats(v) && (v.Gemini? || v.Claude?) ==> FormatText(f) in OutputFormat.form.values
    ensures f in Formats(v) && v.Copilot? ==> FormatText(f) in CopilotFormat.form.values
  {
    var l, o := |FormatText(f)|, |FormatText(g)|;
    if l == o { assert FormatText(f) == FormatText(g) ==> FormatText(f)[0] == FormatText(g)[0]; }
  }

  /** The flags that express a level; none where the vendor cannot express it. */
  function Permissions(v: Vendor, level: Level): Option<seq<string>> {
    match (v, level)
    case (_, Read) => Some([])
    case (Gemini, Worktree) => Some(["--approval-mode", "auto_edit"])
    case (Gemini, Full) => Some(["--approval-mode", "yolo"])
    case (Claude, Worktree) => Some(["--permission-mode", "acceptEdits"])
    case (Claude, WorktreeNet) => Some(["--permission-mode", "acceptEdits"])
    case (Claude, Full) => Some(["--permission-mode", "bypassPermissions"])
    case (Codex, Worktree) => Some(["--sandbox", "workspace-write"])
    case (Codex, Full) => Some(["--sandbox", "danger-full-access"])
    case _ => None
  }

  /** The argument a schema rides on, as the entry declares it. */
  function SchemaSlot(v: Vendor): Option<ShimArgument> {
    match v
    case Claude => Some(JsonSchema)
    case Codex => Some(OutputSchema)
    case Mock => Some(ReturnSchema)
    case _ => None
  }

  // ---------- Building ----------

  datatype Context = Context(
    worktree: string, prompt: string, sessionId: string, permission: Level,
    format: Option<Format>, schemaPath: Option<string>, schemaDocument: Option<string>,
    ceiling: Option<string>)  // the ceiling as String(n) writes it

  /** Re-encoding a JSON document without some top-level keys, and UTF-8 lengths. */
  datatype Codec = Codec(without: (string, seq<string>) -> Option<string>, bytes: string -> nat)

  const MAX_ARGV_ELEMENT_BYTES := 128 * 1024

  datatype Refusal = UnsupportedFormat | PermissionInexpressible | DocumentMissing | DocumentNotJson
                   | DocumentTooLarge

  datatype Result<T> = Ok(value: T) | Refused(why: Refusal)

  function StrippedForVendor(c: Codec, slot: ShimArgument, document: string): Option<string> {
    if slot.stripKeys == [] then Some(document) else c.without(document, slot.stripKeys)
  }

  /** What goes on the schema flag: nothing, the path or the document, as the form declares. */
  function SchemaValue(v: Vendor, c: Codec, ctx: Context): Result<Option<string>> {
    var slot := SchemaSlot(v);
    if slot.None? then Ok(None)
    else if slot.value.form == AbsPath then Ok(ctx.schemaPath)
    else if ctx.schemaDocument.None? then
      if ctx.schemaPath.None? then Ok(None) else Refused(DocumentMissing)
    else
      var document := StrippedForVendor(c, slot.value, ctx.schemaDocument.value);
      if document.None? then Refused(DocumentNotJson)
      else if c.bytes(document.value) > MAX_ARGV_ELEMENT_BYTES then Refused(DocumentTooLarge)
      else Ok(document)
  }

  function SchemaFlags(v: Vendor, value: Option<string>): seq<string> {
    if SchemaSlot(v).Some? && SchemaSlot(v).value.flag.Some? && value.Some?
    then [SchemaSlot(v).value.flag.value, value.value] else []
  }

  function CeilingFlags(v: Vendor, ctx: Context): seq<string> {
    if v.Claude? && ctx.ceiling.Some? then ["--max-budget-usd", ctx.ceiling.value] else []
  }

  /** Each entry's own `build`. */
  function Build(v: Vendor, ctx: Context, format: Format, flags: seq<string>): seq<string> {
    match v
    case Gemini =>
      ["-p", ctx.prompt, "--output-format", FormatText(format), "--session-id", ctx.sessionId] + flags
    case Copilot =>
      ["-p", ctx.prompt, "--output-format", FormatText(format), "--allow-all-tools"]
    case Opencode =>
      ["run", "--format", if format == Json then "json" else "default"] + flags + [ctx.prompt]
    case Claude =>
      ["-p", ctx.prompt, "--output-format", FormatText(format), "--session-id", ctx.sessionId]
      + (if format == StreamJson then ["--verbose"] else []) + flags
    case Codex =>
      ["exec"] + (if format == Jsonl then ["--json"] else [])
      + ["--skip-git-repo-check", "-C", ctx.worktree] + flags + [ctx.prompt]
    case Mock =>
      flags + ["--prompt", ctx.prompt]
  }

  function FormatOf(v: Vendor, ctx: Context): Format {
    if ctx.format.Some? then ctx.format.value else Stream(v)
  }

  /** `shimInvocation`: the format, then the permission, then the schema are checked. */
  function Invocation(v: Vendor, c: Codec, ctx: Context): Result<seq<string>> {
    if FormatOf(v, ctx) !in Formats(v) then Refused(UnsupportedFormat)
    else if Permissions(v, ctx.permission).None? then Refused(PermissionInexpressible)
    else
      var schema := SchemaValue(v, c, ctx);
      if schema.Refused? then Refused(schema.why)
      else
        var flags := Permissions(v, ctx.permission).value + SchemaFlags(v, schema.value) + CeilingFlags(v, ctx);
        Ok(Build(v, ctx, FormatOf(v, ctx), flags))
  }

  // ---------- What was supplied ----------

  function PermissionItems(v: Vendor, level: Level): seq<Item> {
    match (v, level)
    case (Gemini, Worktree) => [Flagged(ApprovalMode, "auto_edit")]
    case (Gemini, Full) => [Flagged(ApprovalMode, "yolo")]
    case (Claude, Worktree) => [Flagged(PermissionMode, "acceptEdits")]
    case (Claude, WorktreeNet) => [Flagged(PermissionMode, "acceptEdits")]
    case (Claude, Full) => [Flagged(PermissionMode, "bypassPermissions")]
    case (Codex, Worktree) => [Flagged(Sandbox, "workspace-write")]
    case (Codex, Full) => [Flagged(Sandbox, "danger-full-access")]
    case _ => []
  }

  function SchemaItems(v: Vendor, value: Option<string>): seq<Item> {
    if SchemaSlot(v).Some? && value.Some? then [Flagged(SchemaSlot(v).value, value.value)] else []
  }

  function CeilingItems(v: Vendor, ctx: Context): seq<Item> {
    if v.Claude? && ctx.ceiling.Some? then [Flagged(MaxBudget, ctx.ceiling.value)] else []
  }

  /** The flags every builder is handed. */
  function MiddleItems(v: Vendor, ctx: Context, schema: Option<string>): seq<Item> {
    PermissionItems(v, ctx.permission) + SchemaItems(v, schema) + CeilingItems(v, ctx)
  }

  /** The flags a vendor puts before them. */
  function FrontItems(v: Vendor, ctx: Context): seq<Item> {
    var format := FormatOf(v, ctx);
    match v
    case Gemini =>
      [Flagged(PromptFlag, ctx.prompt), Flagged(OutputFormat, FormatText(format)), Flagged(SessionId, ctx.sessionId)]
    case Copilot =>
      [Flagged(PromptFlag, ctx.prompt), Flagged(CopilotFormat, FormatText(format)), Switch(AllowAllTools)]
    case Opencode =>
      [Flagged(OpencodeFormat, if format == Json then "json" else "default")]
    case Claude =>
      [Flagged(PromptFlag, ctx.prompt), Flagged(OutputFormat, FormatText(format)), Flagged(SessionId, ctx.sessionId)]
      + (if format == StreamJson then [Switch(Verbose)] else [])
    case Codex =>
      (if format == Jsonl then [Switch(JsonSwitch)] else [])
      + [Switch(SkipGitCheck), Flagged(WorkDir, ctx.worktree)]
    case Mock => []
  }

  function Leading(v: Vendor): seq<Item> {
    match v
    case Opencode => [Positional(RunCommand, "run")]
    case Codex => [Positional(ExecCommand, "exec")]
    case _ => []
  }

  function Trailing(v: Vendor, ctx: Context): seq<Item> {
    match v
    case Opencode => [Positional(PromptPlaced, ctx.prompt)]
    case Codex => [Positional(PromptPlaced, ctx.prompt)]
    case Mock => [Flagged(MockPrompt, ctx.prompt)]
    case _ => []
  }

  /** Every argument of an invocation, in the order it is printed. */
  function Supplied(v: Vendor, ctx: Context, schema: Option<string>): seq<Item> {
    Leading(v) + (FrontItems(v, ctx) + MiddleItems(v, ctx, schema)) + Trailing(v, ctx)
  }

  // ---------- Printing ----------

  lemma {:induction false} PrintAppend(xs: seq<Item>, ys: seq<Item>)
    ensures Print(xs + ys) == Print(xs) + Print(ys)
    decreases |xs|
  {
    if xs == [] {
      assert xs + ys == ys;
    } else {
      assert (xs + ys)[1..] == xs[1..] + ys;
      PrintAppend(xs[1..], ys);
    }
  }

  lemma {:induction false} PrintOne(item: Item)
    ensures Print([item]) == PrintItem(item)
  {
    assert Print([item]) == PrintItem(item) + Print([item][1..]);
  }

  lemma {:induction false} PrintTwo(a: Item, b: Item)
    ensures Print([a, b]) == PrintItem(a) + PrintItem(b)
  {
    assert [a, b] == [a] + [b];
    PrintAppend([a], [b]);
    PrintOne(a);
    PrintOne(b);
  }

  lemma {:induction false} PrintThree(a: Item, b: Item, c: Item)
    ensures Print([a, b, c]) == PrintItem(a) + PrintItem(b) + PrintItem(c)
  {
    assert [a, b, c] == [a, b] + [c];
    PrintAppend([a, b], [c]);
    PrintTwo(a, b);
    PrintOne(c);
  }

  lemma {:induction false} PermissionPrints(v: Vendor, level: Level)
    requires Permissions(v, level).Some?
    ensures Print(PermissionItems(v, level)) == Permissions(v, level).value
  {
    if PermissionItems(v, level) != [] { PrintOne(PermissionItems(v, level)[0]); }
  }

  lemma {:induction false} SchemaPrints(v: Vendor, schema: Option<string>)
    ensures Print(SchemaItems(v, schema)) == SchemaFlags(v, schema)
  {
    if SchemaItems(v, schema) != [] { PrintOne(SchemaItems(v, schema)[0]); }
  }

  lemma {:induction false} CeilingPrints(v: Vendor, ctx: Context)
    ensures Print(CeilingItems(v, ctx)) == CeilingFlags(v, ctx)
  {
    if CeilingItems(v, ctx) != [] { PrintOne(CeilingItems(v, ctx)[0]); }
  }

  lemma {:induction false} MiddlePrints(v: Vendor, ctx: Context, schema: Option<string>)
    requires Permissions(v, ctx.permission).Some?
    ensures Print(MiddleItems(v, ctx, schema))
         == Permissions(v, ctx.permission).value + SchemaFlags(v, schema) + CeilingFlags(v, ctx)
  {
    var a, b, c := PermissionItems(v, ctx.permission), SchemaItems(v, schema), CeilingItems(v, ctx);
    PrintAppend(a + b, c);
    PrintAppend(a, b);
    PermissionPrints(v, ctx.permission);
    SchemaPrints(v, schema);
    CeilingPrints(v, ctx);
  }

  /** The strings of the flags a builder puts first. */
  function FrontText(v: Vendor, ctx: Context): seq<string> {
    var format := FormatText(FormatOf(v, ctx));
    match v
    case Gemini => ["-p", ctx.prompt, "--output-format", format, "--session-id", ctx.sessionId]
    case Copilot => ["-p", ctx.prompt, "--output-format", format, "--allow-all-tools"]
    case Opencode => ["--format", if FormatOf(v, ctx) == Json then "json" else "default"]
    case Claude => ["-p", ctx.prompt, "--output-format", format, "--session-id", ctx.sessionId]
                   + (if FormatOf(v, ctx) == StreamJson then ["--verbose"] else [])
    case Codex => (if FormatOf(v, ctx) == Jsonl then ["--json"] else [])
                  + ["--skip-git-repo-check", "-C", ctx.worktree]
    case Mock => []
  }

  lemma {:induction false} FrontPrints(v: Vendor, ctx: Context)
    ensures Print(FrontItems(v, ctx)) == FrontText(v, ctx)
  {
    var front := FrontItems(v, ctx);
    match v
    case Gemini => PrintThree(front[0], front[1], front[2]);
    case Copilot => PrintThree(front[0], front[1], front[2]);
    case Opencode => PrintOne(front[0]);
    case Claude => ClaudeFront(ctx);
    case Codex => CodexFront(ctx);
    case Mock =>
  }

  lemma {:induction false} EdgesPrint(v: Vendor, ctx: Context)
    ensures Print(Leading(v)) == (match v case Opencode => ["run"] case Codex => ["exec"] case _ => [])
    ensures Print(Trailing(v, ctx)) == (match v
                                        case Opencode => [ctx.prompt]
                                        case Codex => [ctx.prompt]
                                        case Mock => ["--prompt", ctx.prompt]
                                        case _ => [])
  {
    if Leading(v) != [] { PrintOne(Leading(v)[0]); }
    if Trailing(v, ctx) != [] { PrintOne(Trailing(v, ctx)[0]); }
  }

  lemma {:induction false} BuildPlaced(v: Vendor, ctx: Context, flags: seq<string>)
    requires v.Opencode? || v.Codex? || v.Mock?
    ensures Build(v, ctx, FormatOf(v, ctx), flags)
         == Print(Leading(v)) + (Print(FrontItems(v, ctx)) + flags) + Print(Trailing(v, ctx))
  {
    FrontPrints(v, ctx);
    EdgesPrint(v, ctx);
  }

  lemma {:induction false} BuildParts(v: Vendor, ctx: Context, flags: seq<string>)
    requires v.Copilot? ==> flags == []
    ensures Build(v, ctx, FormatOf(v, ctx), flags)
         == Print(Leading(v)) + (Print(FrontItems(v, ctx)) + flags) + Print(Trailing(v, ctx))
  {
    if v.Opencode? || v.Codex? || v.Mock? {
      BuildPlaced(v, ctx, flags);
    } else {
      FrontPrints(v, ctx);
      EdgesPrint(v, ctx);
    }
  }

  lemma {:induction false} ClaudeFront(ctx: Context)
    ensures Print(FrontItems(Claude, ctx))
         == ["-p", ctx.prompt, "--output-format", FormatText(FormatOf(Claude, ctx)), "--session-id", ctx.sessionId]
            + (if FormatOf(Claude, ctx) == StreamJson then ["--verbose"] else [])
  {
    var front := FrontItems(Claude, ctx);
    assert front == front[..3] + front[3..] && front[..3] == [front[0], front[1], front[2]];
    PrintAppend(front[..3], front[3..]);
    PrintThree(front[0], front[1], front[2]);
    if FormatOf(Claude, ctx) == StreamJson {
      assert front[3..] == [Switch(Verbose)];
      PrintOne(Switch(Verbose));
    }
  }

  lemma {:induction false} CodexFront(ctx: Context)
    ensures Print(FrontItems(Codex, ctx))
         == (if FormatOf(Codex, ctx) == Jsonl then ["--json"] else [])
            + ["--skip-git-repo-check", "-C", ctx.worktree]
  {
    var json, rest := [Switch(JsonSwitch)], [Switch(SkipGitCheck), Flagged(WorkDir, ctx.worktree)];
    PrintTwo(rest[0], rest[1]);
    if FormatOf(Codex, ctx) == Jsonl {
      PrintAppend(json, rest);
      PrintOne(json[0]);
    } else {
      assert FrontItems(Codex, ctx) == rest;
    }
  }

  /** A builder prints what it was supplied with, in order, and nothing else. */
  lemma {:induction false} BuildPrints(v: Vendor, c: Codec, ctx: Context)
    requires Invocation(v, c, ctx).Ok?
    ensures SchemaValue(v, c, ctx).Ok?
    ensures Invocation(v, c, ctx).value == Print(Supplied(v, ctx, SchemaValue(v, c, ctx).value))
  {
    var schema := SchemaValue(v, c, ctx).value;
    var front, middle := FrontItems(v, ctx), MiddleItems(v, ctx, schema);
    MiddlePrints(v, ctx, schema);
    BuildParts(v, ctx, Print(middle));
    PrintAppend(front, middle);
    PrintAppend(Leading(v), front + middle);
    PrintAppend(Leading(v) + (front + middle), Trailing(v, ctx));
  }

  // ---------- Reading back ----------

  /** No two declarations of an entry share a flag. */
  lemma {:induction false} Distinct(v: Vendor)
    ensures DistinctFlags(Declared(v))
  {
    assert |"-p"| == |"-C"| == 2 && "-p"[1] == 'p' && "-C"[1] == 'C';
  }

  lemma {:induction false} DeclaredFinds(v: Vendor, k: nat)
    requires k < |Declared(v)| && Declared(v)[k].flag.Some?
    ensures Finds(TableOf(Declared(v)), Declared(v)[k])
  {
    Distinct(v);
    TableFinds(Declared(v), k);
  }

  /** Items that are all flags of the table fit it wherever they stand. */
  predicate AllFlags(t: Table, items: seq<Item>) {
    forall k | 0 <= k < |items| :: !items[k].Positional? && FitsFirst(t, items[k], 0)
  }

  lemma {:induction false} FlagsFit(t: Table, items: seq<Item>, tail: seq<Item>, next: nat)
    requires AllFlags(t, items) && Fits(t, tail, next)
    ensures Fits(t, items + tail, next)
    decreases |items|
  {
    if items == [] {
      assert items + tail == tail;
    } else {
      assert (items + tail)[1..] == items[1..] + tail;
      assert forall k | 0 <= k < |items[1..]| :: items[1..][k] == items[k + 1];
      FlagsFit(t, items[1..], tail, next);
    }
  }

  lemma {:induction false} Found(v: Vendor, a: ShimArgument)
    requires a in Declared(v) && a.flag.Some?
    ensures Finds(TableOf(Declared(v)), a)
  {
    var k :| 0 <= k < |Declared(v)| && Declared(v)[k] == a;
    DeclaredFinds(v, k);
  }

  lemma {:induction false} FrontFlags(v: Vendor, ctx: Context)
    ensures AllFlags(TableOf(Declared(v)), FrontItems(v, ctx))
  {
    var front := FrontItems(v, ctx);
    forall k | 0 <= k < |front| ensures !front[k].Positional? && FitsFirst(TableOf(Declared(v)), front[k], 0) {
      assert front[k].argument in Declared(v);
      Found(v, front[k].argument);
    }
  }

  lemma {:induction false} ManyFlags(v: Vendor, items: seq<Item>)
    requires forall k | 0 <= k < |items| ::
               !items[k].Positional? && items[k].argument in Declared(v) && items[k].argument.flag.Some?
               && (items[k].Switch? <==> items[k].argument.valueless)
    ensures AllFlags(TableOf(Declared(v)), items)
  {
    forall k | 0 <= k < |items| ensures !items[k].Positional? && FitsFirst(TableOf(Declared(v)), items[k], 0) {
      Found(v, items[k].argument);
    }
  }

  lemma {:induction false} MiddleFlags(v: Vendor, ctx: Context, schema: Option<string>)
    ensures AllFlags(TableOf(Declared(v)), MiddleItems(v, ctx, schema))
  {
    ManyFlags(v, PermissionItems(v, ctx.permission));
    ManyFlags(v, SchemaItems(v, schema));
    ManyFlags(v, CeilingItems(v, ctx));
  }

  /** The prompt travels as a positional and is spelled like a flag of the entry. */
  predicate PromptIsFlag(v: Vendor, ctx: Context) {
    (v.Opencode? || v.Codex?) && exists a :: a in Declared(v) && a.flag == Some(ctx.prompt)
  }

  lemma {:induction false} FlagIsFound(v: Vendor, token: string)
    ensures token in TableOf(Declared(v)).byFlag <==> exists a :: a in Declared(v) && a.flag == Some(token)
  {
    TableKeys(Declared(v), token);
    if a :| a in Declared(v) && a.flag == Some(token) {
      var k :| 0 <= k < |Declared(v)| && Declared(v)[k] == a;
    }
  }

  lemma {:induction false} TwoPositionals(v: Vendor)
    requires v.Opencode? || v.Codex?
    ensures TableOf(Declared(v)).positionals
         == [if v.Opencode? then RunCommand else ExecCommand, PromptPlaced]
  {
    var d := Declared(v);
    var n := |d| - 1;
    FlagsAreNotPlaced(d[..n], 1);
    assert d[..n][..1] == [d[0]] && [d[0]][..0] == [];
    assert TableOf([d[0]]).positionals == TableOf([]).positionals + [d[0]];
  }

  lemma {:induction false} CommandIsNoFlag(v: Vendor)
    ensures "run" !in TableOf(Declared(v)).byFlag && "exec" !in TableOf(Declared(v)).byFlag
  {
    TableKeys(Declared(v), "run");
    TableKeys(Declared(v), "exec");
    forall k | 0 <= k < |Declared(v)| && Declared(v)[k].flag.Some? ensures Declared(v)[k].flag.value[0] == '-' {
    }
  }

  /** Everything but what a vendor puts last fits the entry's table. */
  lemma {:induction false} BodyFits(v: Vendor, ctx: Context, schema: Option<string>)
    ensures Fits(TableOf(Declared(v)), Leading(v) + (FrontItems(v, ctx) + MiddleItems(v, ctx, schema)), 0)
  {
    SuppliedFits(v, ctx, schema, []);
    assert Leading(v) + (FrontItems(v, ctx) + MiddleItems(v, ctx, schema)) + []
        == Leading(v) + (FrontItems(v, ctx) + MiddleItems(v, ctx, schema));
  }

  lemma {:induction false} SuppliedFits(v: Vendor, ctx: Context, schema: Option<string>, tail: seq<Item>)
    requires Fits(TableOf(Declared(v)), tail, |Leading(v)|)
    ensures Fits(TableOf(Declared(v)), Leading(v) + (FrontItems(v, ctx) + MiddleItems(v, ctx, schema)) + tail, 0)
  {
    var t := TableOf(Declared(v));
    var front, middle := FrontItems(v, ctx), MiddleItems(v, ctx, schema);
    FrontFlags(v, ctx);
    MiddleFlags(v, ctx, schema);
    FlagsFit(t, middle, tail, |Leading(v)|);
    FlagsFit(t, front, middle + tail, |Leading(v)|);
    LeadingFits(v, front + (middle + tail));
    Regroup(Leading(v), front, middle, tail);
  }

  lemma {:induction false} Regroup(a: seq<Item>, b: seq<Item>, c: seq<Item>, d: seq<Item>)
    ensures a + (b + c) + d == a + (b + (c + d))
  {
  }

  lemma {:induction false} LeadingFits(v: Vendor, rest: seq<Item>)
    requires Fits(TableOf(Declared(v)), rest, |Leading(v)|)
    ensures Fits(TableOf(Declared(v)), Leading(v) + rest, 0)
  {
    var items := Leading(v) + rest;
    if Leading(v) == [] {
      assert items == rest;
    } else {
      TwoPositionals(v);
      CommandIsNoFlag(v);
      assert items[0] == Leading(v)[0] && items[1..] == rest;
      assert FitsFirst(TableOf(Declared(v)), items[0], 0);
    }
  }

  lemma {:induction false} TrailingFits(v: Vendor, ctx: Context)
    requires !PromptIsFlag(v, ctx)
    ensures Fits(TableOf(Declared(v)), Trailing(v, ctx), |Leading(v)|)
  {
    FlagIsFound(v, ctx.prompt);
    if v.Opencode? || v.Codex? { TwoPositionals(v); }
    if v.Mock? { Found(v, MockPrompt); }
  }

  // ---------- The audit of what is built ----------

  function NameValue(row: Row): (string, Option<string>) {
    (if row.argument.Some? then row.argument.value.name else "", row.value)
  }

  function ItemPair(item: Item): (string, Option<string>) {
    (item.argument.name, if item.Switch? then None else Some(item.text))
  }

  /** The audit found no problem and names exactly the arguments that were supplied, in order. */
  predicate Recovers(rows: seq<Row>, items: seq<Item>) {
    && Clean(rows) && |rows| == |items|
    && forall k | 0 <= k < |items| :: NameValue(rows[k]) == ItemPair(items[k])
  }

  /** What the vendor's own forms ask of a context. */
  predicate ContextOk(p: Platform, v: Vendor, ctx: Context, schema: Option<string>) {
    && ctx.prompt != ""
    && (v.Gemini? || v.Claude? ==> IsUuid(ctx.sessionId))
    && (v.Codex? ==> IsAbsolute(ctx.worktree))
    && (SchemaSlot(v).Some? && schema.Some? ==> OfForm(p, SchemaSlot(v).value.form, schema.value))
    && (v.Claude? && ctx.ceiling.Some? ==> p.finite(ctx.ceiling.value))
  }

  predicate AllOk(p: Platform, items: seq<Item>) {
    forall k | 0 <= k < |items| :: ItemOk(p, items[k])
  }

  lemma {:induction false} AllOkAppend(p: Platform, xs: seq<Item>, ys: seq<Item>)
    ensures AllOk(p, xs + ys) <==> AllOk(p, xs) && AllOk(p, ys)
  {
    if AllOk(p, xs + ys) {
      forall k | 0 <= k < |xs| ensures ItemOk(p, xs[k]) { assert (xs + ys)[k] == xs[k]; }
      forall k | 0 <= k < |ys| ensures ItemOk(p, ys[k]) { assert (xs + ys)[|xs| + k] == ys[k]; }
    }
  }

  lemma {:induction false} FrontOk(p: Platform, v: Vendor, ctx: Context)
    requires FormatOf(v, ctx) in Formats(v)
    ensures AllOk(p, FrontItems(v, ctx)) <==>
            && (v.Gemini? || v.Claude? || v.Copilot? ==> ctx.prompt != "")
            && (v.Gemini? || v.Claude? ==> IsUuid(ctx.sessionId))
            && (v.Codex? ==> IsAbsolute(ctx.worktree))
  {
    var front := FrontItems(v, ctx);
    if AllOk(p, front) {
      if v.Codex? { assert ItemOk(p, front[|front| - 1]); }
      else if v.Gemini? || v.Claude? { assert ItemOk(p, front[0]) && ItemOk(p, front[2]); }
      else if v.Copilot? { assert ItemOk(p, front[0]); }
    }
  }

  lemma {:induction false} MiddleOk(p: Platform, v: Vendor, ctx: Context, schema: Option<string>)
    ensures AllOk(p, MiddleItems(v, ctx, schema)) <==>
            && (SchemaSlot(v).Some? && schema.Some? ==> OfForm(p, SchemaSlot(v).value.form, schema.value))
            && (v.Claude? && ctx.ceiling.Some? ==> p.finite(ctx.ceiling.value))
  {
    var a, b, c := PermissionItems(v, ctx.permission), SchemaItems(v, schema), CeilingItems(v, ctx);
    AllOkAppend(p, a + b, c);
    AllOkAppend(p, a, b);
    if b != [] { assert ItemOk(p, b[0]) <==> OfForm(p, b[0].argument.form, b[0].text); }
    if c != [] { assert ItemOk(p, c[0]) <==> p.finite(c[0].text); }
  }

  lemma {:induction false} TrailingOk(p: Platform, v: Vendor, ctx: Context)
    ensures AllOk(p, Trailing(v, ctx)) <==> Trailing(v, ctx) == [] || ctx.prompt != ""
  {
    if Trailing(v, ctx) != [] {
      assert ItemOk(p, Trailing(v, ctx)[0]) <==> ctx.prompt != "";
    }
  }

  lemma {:induction false} SuppliedOk(p: Platform, v: Vendor, ctx: Context, schema: Option<string>)
    requires FormatOf(v, ctx) in Formats(v)
    ensures AllOk(p, Supplied(v, ctx, schema)) <==> ContextOk(p, v, ctx, schema)
  {
    var front, middle := FrontItems(v, ctx), MiddleItems(v, ctx, schema);
    AllOkAppend(p, Leading(v) + (front + middle), Trailing(v, ctx));
    AllOkAppend(p, Leading(v), front + middle);
    AllOkAppend(p, front, middle);
    FrontOk(p, v, ctx);
    MiddleOk(p, v, ctx, schema);
    TrailingOk(p, v, ctx);
  }

  /** For every entry and every context its builder accepts, the audit of the built argv reports
      no problem and recovers what was supplied exactly when the values are of the declared forms
      and a prompt that travels as a positional is not spelled like one of the entry's flags. */
  lemma {:induction false} AuditOfBuilt(p: Platform, v: Vendor, c: Codec, ctx: Context)
    requires Invocation(v, c, ctx).Ok?
    ensures var schema := SchemaValue(v, c, ctx);
            && schema.Ok?
            && (Recovers(Audit(p, Declared(v), Invocation(v, c, ctx).value), Supplied(v, ctx, schema.value))
                <==> ContextOk(p, v, ctx, schema.value) && !PromptIsFlag(v, ctx))
  {
    var schema := SchemaValue(v, c, ctx).value;
    var items := Supplied(v, ctx, schema);
    BuildPrints(v, c, ctx);
    if PromptIsFlag(v, ctx) {
      PromptIsLost(p, v, ctx, schema);
    } else {
      PromptIsKept(p, v, ctx, schema);
    }
  }

  /** The round trip of anything that fits an entry's table. */
  lemma {:induction false} FittingIsRecovered(p: Platform, declared: seq<ShimArgument>, items: seq<Item>)
    requires Fits(TableOf(declared), items, 0)
    ensures Recovers(Audit(p, declared, Print(items)), items) <==> AllOk(p, items)
  {
    AuditOfPrint(p, declared, items);
    CleanMeans(p, items);
  }

  lemma {:induction false} AllFits(v: Vendor, ctx: Context, schema: Option<string>)
    requires !PromptIsFlag(v, ctx)
    ensures Fits(TableOf(Declared(v)), Supplied(v, ctx, schema), 0)
  {
    TrailingFits(v, ctx);
    SuppliedFits(v, ctx, schema, Trailing(v, ctx));
  }

  lemma {:induction false} PromptIsKept(p: Platform, v: Vendor, ctx: Context, schema: Option<string>)
    requires !PromptIsFlag(v, ctx) && FormatOf(v, ctx) in Formats(v)
    ensures var items := Supplied(v, ctx, schema);
            Recovers(Audit(p, Declared(v), Print(items)), items) <==> ContextOk(p, v, ctx, schema)
  {
    AllFits(v, ctx, schema);
    FittingIsRecovered(p, Declared(v), Supplied(v, ctx, schema));
    SuppliedOk(p, v, ctx, schema);
  }

  /** A positional prompt that is a flag is read as that flag, and its text as nobody's. */
  lemma {:induction false} PromptIsLost(p: Platform, v: Vendor, ctx: Context, schema: Option<string>)
    requires PromptIsFlag(v, ctx)
    ensures var items := Supplied(v, ctx, schema); !Recovers(Audit(p, Declared(v), Print(items)), items)
  {
    var body := Leading(v) + (FrontItems(v, ctx) + MiddleItems(v, ctx, schema));
    BodyFits(v, ctx, schema);
    FlagIsFound(v, ctx.prompt);
    PrintAppend(body, Trailing(v, ctx));
    PrintOne(Trailing(v, ctx)[0]);
    TrailingFlag(p, TableOf(Declared(v)), body, ctx.prompt);
    assert Supplied(v, ctx, schema)[|body|] == Trailing(v, ctx)[0];
  }

  // ---------- What is recovered, said of the context ----------

  /** The values of an argument's rows, in their order; a switch has none. */
  function Values(rows: seq<Row>, a: ShimArgument): seq<Option<string>> {
    if rows == [] then []
    else (if rows[0].argument == Some(a) then [rows[0].value] else []) + Values(rows[1..], a)
  }

  function ItemValues(items: seq<Item>, a: ShimArgument): seq<Option<string>> {
    if items == [] then []
    else (if items[0].argument == a then [ItemPair(items[0]).1] else []) + ItemValues(items[1..], a)
  }

  lemma {:induction false} ValuesOfRows(p: Platform, items: seq<Item>, a: ShimArgument)
    ensures Values(RowsOf(p, items), a) == ItemValues(items, a)
  {
    if items != [] {
      ValuesOfRows(p, items[1..], a);
      assert RowsOf(p, items)[1..] == RowsOf(p, items[1..]);
    }
  }

  lemma {:induction false} ItemValuesAppend(xs: seq<Item>, ys: seq<Item>, a: ShimArgument)
    ensures ItemValues(xs + ys, a) == ItemValues(xs, a) + ItemValues(ys, a)
    decreases |xs|
  {
    if xs == [] {
      assert xs + ys == ys;
    } else {
      assert (xs + ys)[1..] == xs[1..] + ys;
      ItemValuesAppend(xs[1..], ys, a);
    }
  }

  lemma {:induction false} ItemValuesOne(item: Item, a: ShimArgument)
    ensures ItemValues([item], a) == if item.argument == a then [ItemPair(item).1] else []
  {
    assert [item][1..] == [];
  }

  lemma {:induction false} NoneOf(items: seq<Item>, a: ShimArgument)
    requires forall k | 0 <= k < |items| :: items[k].argument != a
    ensures ItemValues(items, a) == []
  {
    if items != [] {
      assert forall k | 0 <= k < |items| - 1 :: items[1..][k] == items[k + 1];
      NoneOf(items[1..], a);
    }
  }

  /** An argument that stands only in some middle part has the values that part gives it. */
  lemma {:induction false} ValuesInside(before: seq<Item>, part: seq<Item>, after: seq<Item>, a: ShimArgument)
    requires forall k | 0 <= k < |before| :: before[k].argument != a
    requires forall k | 0 <= k < |after| :: after[k].argument != a
    ensures ItemValues(before + part + after, a) == ItemValues(part, a)
  {
    NoneOf(before, a);
    NoneOf(after, a);
    ItemValuesAppend(before + part, after, a);
    ItemValuesAppend(before, part, a);
  }

  /** The rows of the audit of what was built, by what was supplied. */
  lemma {:induction false} RowsOfBuilt(p: Platform, v: Vendor, c: Codec, ctx: Context, a: ShimArgument)
    requires Invocation(v, c, ctx).Ok? && !PromptIsFlag(v, ctx)
    ensures SchemaValue(v, c, ctx).Ok?
    ensures Values(Audit(p, Declared(v), Invocation(v, c, ctx).value), a)
         == ItemValues(Supplied(v, ctx, SchemaValue(v, c, ctx).value), a)
  {
    var schema := SchemaValue(v, c, ctx).value;
    BuildPrints(v, c, ctx);
    AllFits(v, ctx, schema);
    AuditOfPrint(p, Declared(v), Supplied(v, ctx, schema));
    ValuesOfRows(p, Supplied(v, ctx, schema), a);
  }

  predicate TakesPath(v: Vendor) { v.Codex? || v.Mock? }

  /** What the audit recovers of the schema: for a vendor that takes a path, exactly the path it was given,
      and nothing where it was given none; for one that takes the document, the document without the keys it
      does not know, and nothing where neither document nor path was given. */
  lemma {:induction false} SchemaIsRecovered(p: Platform, v: Vendor, c: Codec, ctx: Context)
    requires Invocation(v, c, ctx).Ok? && !PromptIsFlag(v, ctx) && SchemaSlot(v).Some?
    ensures var values := Values(Audit(p, Declared(v), Invocation(v, c, ctx).value), SchemaSlot(v).value);
            && (TakesPath(v) ==> values == if ctx.schemaPath.Some? then [ctx.schemaPath] else [])
            && (v.Claude? ==>
                  if ctx.schemaDocument.None? then ctx.schemaPath.None? && values == []
                  else
                    && c.without(ctx.schemaDocument.value, ["$schema"]).Some?
                    && c.bytes(c.without(ctx.schemaDocument.value, ["$schema"]).value) <= 131072
                    && values == [c.without(ctx.schemaDocument.value, ["$schema"])])
  {
    var slot, schema := SchemaSlot(v).value, SchemaValue(v, c, ctx).value;
    RowsOfBuilt(p, v, c, ctx, slot);
    var before := Leading(v) + FrontItems(v, ctx) + PermissionItems(v, ctx.permission);
    var after := CeilingItems(v, ctx) + Trailing(v, ctx);
    SchemaStandsAlone(v, ctx);
    ValuesInside(before, SchemaItems(v, schema), after, slot);
    Rearranged(Leading(v), FrontItems(v, ctx), PermissionItems(v, ctx.permission), SchemaItems(v, schema),
               CeilingItems(v, ctx), Trailing(v, ctx));
    if schema.Some? { ItemValuesOne(Flagged(slot, schema.value), slot); }
  }

  lemma {:induction false} Rearranged(a: seq<Item>, b: seq<Item>, c: seq<Item>, d: seq<Item>, e: seq<Item>,
        f: seq<Item>)
    ensures a + (b + (c + d + e)) + f == (a + b + c) + d + (e + f)
  {
  }

  lemma {:induction false} SchemaStandsAlone(v: Vendor, ctx: Context)
    requires SchemaSlot(v).Some?
    ensures var before := Leading(v) + FrontItems(v, ctx) + PermissionItems(v, ctx.permission);
            forall k | 0 <= k < |before| :: before[k].argument != SchemaSlot(v).value
    ensures var after := CeilingItems(v, ctx) + Trailing(v, ctx);
            forall k | 0 <= k < |after| :: after[k].argument != SchemaSlot(v).value
  {
  }

  lemma {:induction false} SixParts(a: seq<Item>, b: seq<Item>, c: seq<Item>, d: seq<Item>, e: seq<Item>, f: seq<Item>,
      x: ShimArgument)
    ensures ItemValues(a + (b + (c + d + e)) + f, x)
         == ItemValues(a, x) + (ItemValues(b, x) + (ItemValues(c, x) + ItemValues(d, x) + ItemValues(e, x)))
            + ItemValues(f, x)
  {
    ItemValuesAppend(a + (b + (c + d + e)), f, x);
    ItemValuesAppend(a, b + (c + d + e), x);
    ItemValuesAppend(b, c + d + e, x);
    ItemValuesAppend(c + d, e, x);
    ItemValuesAppend(c, d, x);
  }

  /** What an argument that leads nothing is given, part by part. */
  function PlacedPermission(v: Vendor, ctx: Context, a: ShimArgument): seq<Option<string>> {
    var items := PermissionItems(v, ctx.permission);
    if items != [] && items[0].argument == a then [Some(items[0].text)] else []
  }

  function PlacedSchema(v: Vendor, schema: Option<string>, a: ShimArgument): seq<Option<string>> {
    if SchemaSlot(v) == Some(a) && schema.Some? then [schema] else []
  }

  function PlacedCeiling(v: Vendor, ctx: Context, a: ShimArgument): seq<Option<string>> {
    if v.Claude? && ctx.ceiling.Some? && a == MaxBudget then [ctx.ceiling] else []
  }

  function PlacedPrompt(v: Vendor, ctx: Context, a: ShimArgument): seq<Option<string>> {
    if Trailing(v, ctx) != [] && Trailing(v, ctx)[0].argument == a then [Some(ctx.prompt)] else []
  }

  function PlacedValues(v: Vendor, ctx: Context, schema: Option<string>, a: ShimArgument): seq<Option<string>> {
    ItemValues(FrontItems(v, ctx), a)
    + (PlacedPermission(v, ctx, a) + PlacedSchema(v, schema, a) + PlacedCeiling(v, ctx, a))
    + PlacedPrompt(v, ctx, a)
  }

  lemma {:induction false} SuppliedValues(v: Vendor, ctx: Context, schema: Option<string>, a: ShimArgument)
    requires a != RunCommand && a != ExecCommand
    ensures ItemValues(Supplied(v, ctx, schema), a) == PlacedValues(v, ctx, schema, a)
  {
    SixParts(Leading(v), FrontItems(v, ctx), PermissionItems(v, ctx.permission), SchemaItems(v, schema),
             CeilingItems(v, ctx), Trailing(v, ctx), a);
    LeadingValues(v, a);
    EdgeValues(v, ctx, schema, a);
    Without(PlacedValues(v, ctx, schema, a));
  }

  lemma {:induction false} Without(values: seq<Option<string>>)
    ensures [] + values == values
  {
  }

  lemma {:induction false} LeadingValues(v: Vendor, a: ShimArgument)
    requires a != RunCommand && a != ExecCommand
    ensures ItemValues(Leading(v), a) == []
  {
    NoneOf(Leading(v), a);
  }

  lemma {:induction false} PermissionValues(v: Vendor, ctx: Context, a: ShimArgument)
    ensures ItemValues(PermissionItems(v, ctx.permission), a) == PlacedPermission(v, ctx, a)
  {
    if PermissionItems(v, ctx.permission) != [] { ItemValuesOne(PermissionItems(v, ctx.permission)[0], a); }
  }

  lemma {:induction false} SchemaValues(v: Vendor, schema: Option<string>, a: ShimArgument)
    ensures ItemValues(SchemaItems(v, schema), a) == PlacedSchema(v, schema, a)
  {
    if SchemaItems(v, schema) != [] { ItemValuesOne(SchemaItems(v, schema)[0], a); }
  }

  lemma {:induction false} CeilingValues(v: Vendor, ctx: Context, a: ShimArgument)
    ensures ItemValues(CeilingItems(v, ctx), a) == PlacedCeiling(v, ctx, a)
  {
    if CeilingItems(v, ctx) != [] { ItemValuesOne(CeilingItems(v, ctx)[0], a); }
  }

  lemma {:induction false} TrailingValues(v: Vendor, ctx: Context, a: ShimArgument)
    ensures ItemValues(Trailing(v, ctx), a) == PlacedPrompt(v, ctx, a)
  {
    if Trailing(v, ctx) != [] { ItemValuesOne(Trailing(v, ctx)[0], a); }
  }

  lemma {:induction false} EdgeValues(v: Vendor, ctx: Context, schema: Option<string>, a: ShimArgument)
    ensures ItemValues(PermissionItems(v, ctx.permission), a) == PlacedPermission(v, ctx, a)
    ensures ItemValues(SchemaItems(v, schema), a) == PlacedSchema(v, schema, a)
    ensures ItemValues(CeilingItems(v, ctx), a) == PlacedCeiling(v, ctx, a)
    ensures ItemValues(Trailing(v, ctx), a) == PlacedPrompt(v, ctx, a)
  {
    PermissionValues(v, ctx, a);
    SchemaValues(v, schema, a);
    CeilingValues(v, ctx, a);
    TrailingValues(v, ctx, a);
  }

  /** The front of a command line, item by item. */
  lemma {:induction false} FrontValues(v: Vendor, ctx: Context, a: ShimArgument)
    ensures var front := FrontItems(v, ctx);
            && |front| <= 4
            && ItemValues(front, a)
               == (if |front| > 0 && front[0].argument == a then [ItemPair(front[0]).1] else [])
                  + (if |front| > 1 && front[1].argument == a then [ItemPair(front[1]).1] else [])
                  + (if |front| > 2 && front[2].argument == a then [ItemPair(front[2]).1] else [])
                  + (if |front| > 3 && front[3].argument == a then [ItemPair(front[3]).1] else [])
  {
    FourValues(FrontItems(v, ctx), a);
  }

  lemma {:induction false} FourValues(items: seq<Item>, a: ShimArgument)
    requires |items| <= 4
    ensures ItemValues(items, a)
         == (if |items| > 0 && items[0].argument == a then [ItemPair(items[0]).1] else [])
            + (if |items| > 1 && items[1].argument == a then [ItemPair(items[1]).1] else [])
            + (if |items| > 2 && items[2].argument == a then [ItemPair(items[2]).1] else [])
            + (if |items| > 3 && items[3].argument == a then [ItemPair(items[3]).1] else [])
  {
    if |items| > 0 {
      var last := items[|items| - 1];
      assert items == items[..|items| - 1] + [last];
      ItemValuesAppend(items[..|items| - 1], [last], a);
      ItemValuesOne(last, a);
      FourValues(items[..|items| - 1], a);
    }
  }

  function PromptArgument(v: Vendor): ShimArgument {
    match v
    case Opencode => PromptPlaced
    case Codex => PromptPlaced
    case Mock => MockPrompt
    case _ => PromptFlag
  }

  function PermissionArgument(v: Vendor): Option<ShimArgument> {
    match v
    case Gemini => Some(ApprovalMode)
    case Claude => Some(PermissionMode)
    case Codex => Some(Sandbox)
    case _ => None
  }

  /** The values of a vendor's arguments are those of the context: the prompt, the session, the worktree, the
      format asked for or else the vendor's own stream, the level where it needs a flag, and the ceiling. */
  ghost predicate ContextIn(v: Vendor, ctx: Context, values: ShimArgument -> seq<Option<string>>)
    requires Permissions(v, ctx.permission).Some?
  {
    var format := if ctx.format.Some? then ctx.format.value else Stream(v);
    && values(PromptArgument(v)) == [Some(ctx.prompt)]
    && (v.Gemini? || v.Claude? ==> values(SessionId) == [Some(ctx.sessionId)])
    && (v.Codex? ==> values(WorkDir) == [Some(ctx.worktree)])
    && (v.Gemini? || v.Claude? ==> values(OutputFormat) == [Some(FormatText(format))])
    && (v.Copilot? ==> values(CopilotFormat) == [Some(FormatText(format))])
    && (v.Opencode? ==> values(OpencodeFormat) == [Some(if format == Json then "json" else "default")])
    && (v.Codex? ==> values(JsonSwitch) == if format == Jsonl then [None] else [])
    && (v.Claude? ==> values(Verbose) == if format == StreamJson then [None] else [])
    && (v.Claude? ==> values(MaxBudget) == if ctx.ceiling.Some? then [ctx.ceiling] else [])
    && (PermissionArgument(v).Some? ==> values(PermissionArgument(v).value) == LevelText(v, ctx.permission))
  }

  /** What a level is in a vendor's own words; `read` needs none. */
  function LevelText(v: Vendor, level: Level): seq<Option<string>> {
    match (v, level)
    case (Gemini, Worktree) => [Some("auto_edit")]
    case (Gemini, Full) => [Some("yolo")]
    case (Claude, Full) => [Some("bypassPermissions")]
    case (Codex, Worktree) => [Some("workspace-write")]
    case (Codex, Full) => [Some("danger-full-access")]
    case (Claude, Worktree) => [Some("acceptEdits")]
    case (Claude, WorktreeNet) => [Some("acceptEdits")]
    case _ => []
  }

  function Placements(v: Vendor, ctx: Context, schema: Option<string>): ShimArgument -> seq<Option<string>> {
    (a: ShimArgument) => PlacedValues(v, ctx, schema, a)
  }

  function Recovered(rows: seq<Row>): ShimArgument -> seq<Option<string>> { (a: ShimArgument) => Values(rows, a) }

  lemma {:induction false} GeminiValues(ctx: Context, schema: Option<string>)
    requires Permissions(Gemini, ctx.permission).Some?
    ensures ContextIn(Gemini, ctx, Placements(Gemini, ctx, schema))
  {
    FrontValues(Gemini, ctx, PromptFlag);
    FrontValues(Gemini, ctx, SessionId);
    FrontValues(Gemini, ctx, OutputFormat);
    FrontValues(Gemini, ctx, ApprovalMode);
  }

  lemma {:induction false} CopilotValues(ctx: Context, schema: Option<string>)
    requires Permissions(Copilot, ctx.permission).Some?
    ensures ContextIn(Copilot, ctx, Placements(Copilot, ctx, schema))
  {
    FrontValues(Copilot, ctx, PromptFlag);
    FrontValues(Copilot, ctx, CopilotFormat);
  }

  lemma {:induction false} OpencodeValues(ctx: Context, schema: Option<string>)
    requires Permissions(Opencode, ctx.permission).Some?
    ensures ContextIn(Opencode, ctx, Placements(Opencode, ctx, schema))
  {
    FrontValues(Opencode, ctx, PromptPlaced);
    FrontValues(Opencode, ctx, OpencodeFormat);
  }

  lemma {:induction false} ClaudeSession(ctx: Context, schema: Option<string>)
    ensures PlacedValues(Claude, ctx, schema, PromptFlag) == [Some(ctx.prompt)]
    ensures PlacedValues(Claude, ctx, schema, SessionId) == [Some(ctx.sessionId)]
  {
    FrontValues(Claude, ctx, PromptFlag);
    FrontValues(Claude, ctx, SessionId);
  }

  lemma {:induction false} ClaudeFormat(ctx: Context, schema: Option<string>)
    ensures PlacedValues(Claude, ctx, schema, OutputFormat) == [Some(FormatText(FormatOf(Claude, ctx)))]
    ensures PlacedValues(Claude, ctx, schema, Verbose) == if FormatOf(Claude, ctx) == StreamJson then [None] else []
  {
    FrontValues(Claude, ctx, OutputFormat);
    FrontValues(Claude, ctx, Verbose);
  }

  lemma {:induction false} ClaudeLevel(ctx: Context, schema: Option<string>)
    requires Permissions(Claude, ctx.permission).Some?
    ensures PlacedValues(Claude, ctx, schema, MaxBudget) == if ctx.ceiling.Some? then [ctx.ceiling] else []
    ensures PlacedValues(Claude, ctx, schema, PermissionMode) == LevelText(Claude, ctx.permission)
  {
    FrontValues(Claude, ctx, MaxBudget);
    FrontValues(Claude, ctx, PermissionMode);
  }

  lemma {:induction false} ClaudeValues(ctx: Context, schema: Option<string>)
    requires Permissions(Claude, ctx.permission).Some?
    ensures ContextIn(Claude, ctx, Placements(Claude, ctx, schema))
  {
    ClaudeSession(ctx, schema);
    ClaudeFormat(ctx, schema);
    ClaudeLevel(ctx, schema);
  }

  lemma {:induction false} CodexPrompt(ctx: Context, schema: Option<string>)
    ensures PlacedValues(Codex, ctx, schema, PromptPlaced) == [Some(ctx.prompt)]
  {
    FrontValues(Codex, ctx, PromptPlaced);
  }

  lemma {:induction false} CodexWorkDir(ctx: Context, schema: Option<string>)
    ensures PlacedValues(Codex, ctx, schema, WorkDir) == [Some(ctx.worktree)]
  {
    FrontValues(Codex, ctx, WorkDir);
  }

  lemma {:induction false} CodexSwitch(ctx: Context, schema: Option<string>)
    ensures PlacedValues(Codex, ctx, schema, JsonSwitch) == if FormatOf(Codex, ctx) == Jsonl then [None] else []
  {
    FrontValues(Codex, ctx, JsonSwitch);
  }

  lemma {:induction false} CodexSandbox(ctx: Context, schema: Option<string>)
    requires Permissions(Codex, ctx.permission).Some?
    ensures PlacedValues(Codex, ctx, schema, Sandbox) == LevelText(Codex, ctx.permission)
  {
    FrontValues(Codex, ctx, Sandbox);
  }

  lemma {:induction false} CodexValues(ctx: Context, schema: Option<string>)
    requires Permissions(Codex, ctx.permission).Some?
    ensures ContextIn(Codex, ctx, Placements(Codex, ctx, schema))
  {
    CodexPrompt(ctx, schema);
    CodexWorkDir(ctx, schema);
    CodexSwitch(ctx, schema);
    CodexSandbox(ctx, schema);
  }

  lemma {:induction false} MockValues(ctx: Context, schema: Option<string>)
    requires Permissions(Mock, ctx.permission).Some?
    ensures ContextIn(Mock, ctx, Placements(Mock, ctx, schema))
  {
    FrontValues(Mock, ctx, MockPrompt);
  }

  lemma {:induction false} PlacedContext(v: Vendor, ctx: Context, schema: Option<string>)
    requires Permissions(v, ctx.permission).Some?
    ensures ContextIn(v, ctx, Placements(v, ctx, schema))
  {
    match v
    case Gemini => GeminiValues(ctx, schema);
    case Copilot => CopilotValues(ctx, schema);
    case Opencode => OpencodeValues(ctx, schema);
    case Claude => ClaudeValues(ctx, schema);
    case Codex => CodexValues(ctx, schema);
    case Mock => MockValues(ctx, schema);
  }

  lemma {:induction false} SameContext(v: Vendor, ctx: Context, values: ShimArgument -> seq<Option<string>>,
      others: ShimArgument -> seq<Option<string>>)
    requires Permissions(v, ctx.permission).Some? && ContextIn(v, ctx, values)
    requires forall a: ShimArgument | a != RunCommand && a != ExecCommand :: others(a) == values(a)
    ensures ContextIn(v, ctx, others)
  {
  }

  /** The audit of what was built recovers the context. */
  lemma {:induction false} ContextIsRecovered(p: Platform, v: Vendor, c: Codec, ctx: Context)
    requires Invocation(v, c, ctx).Ok? && !PromptIsFlag(v, ctx)
    ensures ContextIn(v, ctx, Recovered(Audit(p, Declared(v), Invocation(v, c, ctx).value)))
  {
    var rows, schema := Audit(p, Declared(v), Invocation(v, c, ctx).value), SchemaValue(v, c, ctx);
    BuildPrints(v, c, ctx);
    PlacedContext(v, ctx, schema.value);
    forall a: ShimArgument | a != RunCommand && a != ExecCommand
      ensures Recovered(rows)(a) == Placements(v, ctx, schema.value)(a)
    {
      RowsOfBuilt(p, v, c, ctx, a);
      SuppliedValues(v, ctx, schema.value, a);
    }
    SameContext(v, ctx, Placements(v, ctx, schema.value), Recovered(rows));
  }

  // ---------- Refusals ----------

  /** The vendor takes its schema inline, and a document is given. */
  predicate TakesDocument(v: Vendor, ctx: Context) { v.Claude? && ctx.schemaDocument.Some? }

  /** A command line is refused exactly where the vendor has no such format or cannot express the level, or
      it takes its schema inline and is given only a path, a document that is no JSON, or one that is too long
      for one element once its keys are stripped. */
  lemma {:induction false} RefusedExactly(v: Vendor, c: Codec, ctx: Context)
    ensures var r := Invocation(v, c, ctx);
            var known := (if ctx.format.Some? then ctx.format.value else Stream(v)) in Formats(v);
            var allowed := known && Permissions(v, ctx.permission).Some?;
            var stripped := if TakesDocument(v, ctx) then c.without(ctx.schemaDocument.value, ["$schema"]) else None;
            && (r == Refused(UnsupportedFormat) <==> !known)
            && (r == Refused(PermissionInexpressible) <==> known && !allowed)
            && (r == Refused(DocumentMissing) <==>
                  allowed && v.Claude? && ctx.schemaDocument.None? && ctx.schemaPath.Some?)
            && (r == Refused(DocumentNotJson) <==> allowed && TakesDocument(v, ctx) && stripped.None?)
            && (r == Refused(DocumentTooLarge) <==>
                  allowed && TakesDocument(v, ctx) && stripped.Some? && c.bytes(stripped.value) > 131072)
  {
  }
}
