/**
 * The agents' command-line bridge: the per-agent configuration with its
 * fallbacks to the global settings, the content type a file is indexed
 * with, directory indexing with its exclusion filter and tally, the
 * `--flag value` scanners of the night agent's commands, and the cron line
 * it prints.
 *
 * Reading `~/.trustgraph/config.json`, globbing, reading files and running
 * the agents are parameters: the stored configuration is given already
 * decoded, the glob as a function from an extension to the paths it yields,
 * and indexing one file as a function from its path to its outcome.
 */
module CliIntegration {
  import opened Common
  import opened Callimaco

  // ================================================================ configuration

  /** A JSON string setting: `null` (or absent) or a string. */
  datatype Json = Null | Str(s: string)

  /** Python truthiness of a string setting: `None` and `""` are false. */
  predicate Truthy(v: Json)
  {
    v.Str? && v.s != ""
  }

  /** Python's `a or b` on two string settings. */
  function Or(a: Json, b: Json): (r: Json)
    ensures Truthy(r) <==> Truthy(a) || Truthy(b)
    ensures Truthy(a) ==> r == a
  {
    if Truthy(a) then a else b
  }

  /** One entry of `agentes`: a missing key reads as `Null` (or `None` for `activo`). */
  datatype AgentEntry = AgentEntry(proveedor: Json, apiKey: Json, modelo: Json, activo: Option<bool>)

  const NoEntry := AgentEntry(Null, Null, Null, None)

  /** The configuration after loading: the defaults updated with what the file holds. */
  datatype TrusConfig = TrusConfig(globalProvider: Json, globalApiKey: Json, globalModel: Json,
                                   agentes: map<string, AgentEntry>)

  /** What `config.json` holds: each key present or absent. */
  datatype StoredConfig = StoredConfig(globalProvider: Option<Json>, globalApiKey: Option<Json>,
                                       globalModel: Option<Json>, agentes: Option<map<string, AgentEntry>>)

  const DefaultConfig := TrusConfig(Str("openai"), Str(""), Str(""), map[])

  /**
   * `load_trus_config`: the defaults, with every key the file holds replacing
   * the default (`dict.update`); a missing or unreadable file is `None`.
   */
  function LoadConfig(stored: Option<StoredConfig>): (c: TrusConfig)
    ensures stored.None? ==> c == DefaultConfig
    ensures stored.Some? ==>
      c.globalProvider == stored.value.globalProvider.GetOr(DefaultConfig.globalProvider)
      && c.globalApiKey == stored.value.globalApiKey.GetOr(DefaultConfig.globalApiKey)
      && c.globalModel == stored.value.globalModel.GetOr(DefaultConfig.globalModel)
      && c.agentes == stored.value.agentes.GetOr(map[])
  {
    match stored
    case None => DefaultConfig
    case Some(f) =>
      TrusConfig(
        if f.globalProvider.Some? then f.globalProvider.value else DefaultConfig.globalProvider,
        if f.globalApiKey.Some? then f.globalApiKey.value else DefaultConfig.globalApiKey,
        if f.globalModel.Some? then f.globalModel.value else DefaultConfig.globalModel,
        if f.agentes.Some? then f.agentes.value else map[])
  }

  /** The `model` column of the bridge's provider table; unknown providers have none. */
  function DefaultModel(provider: Json): (m: string)
    ensures m != "" <==> provider.Str? && provider.s in {"openai", "anthropic", "zai", "kimi", "minimax", "ollama"}
  {
    if provider == Str("openai") then "gpt-4o"
    else if provider == Str("anthropic") then "claude-3-5-sonnet"
    else if provider == Str("zai") then "glm-5"
    else if provider == Str("kimi") then "kimi-k2"
    else if provider == Str("minimax") then "MiniMax-M2.5"
    else if provider == Str("ollama") then "llama3.1"
    else ""
  }

  /** The settings an agent runs with. */
  datatype AgentConfig = AgentConfig(proveedor: Json, apiKey: Json, modelo: string, activo: bool)

  /**
   * `get_agent_config`: each setting is the agent's own when it is set and
   * non-empty, the global one otherwise; the model falls back further to
   * the provider's default model, and an agent is active unless it says
   * otherwise.
   */
  function GetAgentConfig(config: TrusConfig, agente: string): (r: AgentConfig)
    ensures var a := if agente in config.agentes then config.agentes[agente] else NoEntry;
      (Truthy(a.proveedor) ==> r.proveedor == a.proveedor)
      && (!Truthy(a.proveedor) ==> r.proveedor == config.globalProvider)
      && (Truthy(a.apiKey) ==> r.apiKey == a.apiKey)
      && (!Truthy(a.apiKey) ==> r.apiKey == config.globalApiKey)
      && (Truthy(a.modelo) ==> r.modelo == a.modelo.s)
      && (!Truthy(a.modelo) && Truthy(config.globalModel) ==> r.modelo == config.globalModel.s)
      && (!Truthy(a.modelo) && !Truthy(config.globalModel) ==> r.modelo == DefaultModel(r.proveedor))
      && (r.activo <==> a.activo != Some(false))
  {
    var a := if agente in config.agentes then config.agentes[agente] else NoEntry;
    var proveedor := Or(a.proveedor, config.globalProvider);
    var modelo := Or(a.modelo, config.globalModel);
    AgentConfig(proveedor, Or(a.apiKey, config.globalApiKey),
                if Truthy(modelo) then modelo.s else DefaultModel(proveedor),
                a.activo.GetOr(true))
  }

  /** With no configuration file, every agent runs OpenAI's `gpt-4o`, with an empty key, and is active. */
  lemma FreshInstall(agente: string)
    ensures GetAgentConfig(LoadConfig(None), agente) == AgentConfig(Str("openai"), Str(""), "gpt-4o", true)
  {
  }

  /** Agents without an entry of their own share the global settings. */
  lemma UnconfiguredAgentsAgree(config: TrusConfig, a: string, b: string)
    requires a !in config.agentes && b !in config.agentes
    ensures GetAgentConfig(config, a) == GetAgentConfig(config, b)
  {
  }

  /** The model is empty only when no model is set anywhere and the provider is not in the table. */
  lemma ModelEmptyOnlyForUnknownProvider(config: TrusConfig, agente: string)
    ensures var r := GetAgentConfig(config, agente);
      r.modelo == "" <==>
        (var a := if agente in config.agentes then config.agentes[agente] else NoEntry;
         !Truthy(a.modelo) && !Truthy(config.globalModel) && DefaultModel(r.proveedor) == "")
  {
  }

  // ================================================================ content types

  /** The extension table of `bibliotecario_indexar_archivo`. */
  const TypeMapping: map<string, string> := map[
    ".py" := "codigo", ".js" := "codigo", ".ts" := "codigo", ".java" := "codigo",
    ".md" := "documento", ".txt" := "documento", ".json" := "documento",
    ".yaml" := "documento", ".yml" := "documento"]

  /**
   * The type name a file is indexed with: the table's entry for its
   * lowercased extension, else the given type, else `documento`.
   */
  function DetectedType(path: string, contentType: Option<string>): (t: string)
    ensures Lower(Suffix(path)) in TypeMapping ==> t == TypeMapping[Lower(Suffix(path))]
    ensures Lower(Suffix(path)) !in TypeMapping && contentType.Some? && contentType.value != "" ==> t == contentType.value
    ensures Lower(Suffix(path)) !in TypeMapping && (contentType.None? || contentType.value == "") ==> t == "documento"
  {
    var ext := Lower(Suffix(path));
    if ext in TypeMapping then TypeMapping[ext]
    else if contentType.Some? && contentType.value != "" then contentType.value
    else "documento"
  }

  /** `ContentType(content_type.lower())`, with `DOCUMENTO` where the enum rejects the name. */
  function ResolveContentType(name: string): (ct: ContentType)
    ensures ct.Value() == Lower(name) || ct == Documento
    ensures ct.Value() != Lower(name) ==> forall c: ContentType :: c.Value() != Lower(name)
  {
    var found := ContentTypeFromValue(Lower(name));
    if found.Some? then found.value else Documento
  }

  /** The content type a file is indexed with. */
  function FileContentType(path: string, contentType: Option<string>): ContentType
  {
    ResolveContentType(DetectedType(path, contentType))
  }

  /** A known extension decides the type whatever type the caller asked for: code or document. */
  lemma KnownExtensionOverrides(path: string, c: Option<string>)
    requires Lower(Suffix(path)) in TypeMapping
    ensures FileContentType(path, c) == FileContentType(path, None)
    ensures FileContentType(path, c) in {Codigo, Documento}
  {
    MappedTypes();
    ResolveOwnName(Codigo);
    ResolveOwnName(Documento);
  }

  lemma MappedTypes()
    ensures forall e :: e in TypeMapping ==> TypeMapping[e] in {Codigo.Value(), Documento.Value()}
  {
  }

  /** Every content type's own name resolves to it, in any letter case it is written in. */
  lemma {:induction false} ResolveOwnName(ct: ContentType)
    ensures ResolveContentType(ct.Value()) == ct
  {
    var v := ct.Value();
    forall i | 0 <= i < |v| ensures LowerChar(v[i]) == v[i] {
      assert v[i] == '_' || 'a' <= v[i] <= 'z';
    }
    assert Lower(v) == v;
    ContentTypeRoundTrip(ct);
  }

  /** An unrecognised name is indexed as a document rather than rejected. */
  lemma UnknownNameIsDocument(name: string)
    requires forall c: ContentType :: c.Value() != Lower(name)
    ensures ResolveContentType(name) == Documento
  {
  }

  // ================================================================ directory indexing

  /** The path fragments `bibliotecario_indexar_directorio` skips. */
  const Excluded: seq<string> := ["node_modules", ".git", "__pycache__", ".venv", "venv", ".env"]

  const DefaultExtensions: seq<string> := [".md", ".txt", ".py", ".js", ".ts"]

  /** `extensiones or [...]`: an empty or missing list means the default extensions. */
  function Extensions(given: seq<string>): (r: seq<string>)
    ensures |r| > 0
    ensures given != [] ==> r == given
    ensures given == [] ==> r == DefaultExtensions
  {
    if given == [] then DefaultExtensions else given
  }

  /** What indexing one file gives: the file is gone, cannot be read, or the indexer ran. */
  datatype FileOutcome = Missing | Unreadable(reason: string) | Indexed(success: bool, contentHash: string)

  /** One row of `archivos`. */
  datatype FileRow = FileRow(archivo: string, exitoso: bool, hash: string)

  datatype DirResult = DirNotFound | Summary(total: nat, exitosos: nat, fallidos: nat, archivos: seq<FileRow>)

  /**
   * A file counts as indexed when the indexer ran, whatever its own success
   * flag says: only a missing or unreadable file yields the `error` key.
   */
  function Row(path: string, outcome: FileOutcome): (row: FileRow)
    ensures row.archivo == path
    ensures row.exitoso <==> outcome.Indexed?
    ensures row.hash == (if outcome.Indexed? then outcome.contentHash else "")
  {
    match outcome
    case Indexed(_, h) => FileRow(path, true, h)
    case _ => FileRow(path, false, "")
  }

  /** The number of rows marked as indexed. */
  function Successes(rows: seq<FileRow>): (n: nat)
    ensures n <= |rows|
  {
    if rows == [] then 0
    else Successes(rows[..|rows| - 1]) + (if rows[|rows| - 1].exitoso then 1 else 0)
  }

  /**
   * `bibliotecario_indexar_directorio`: glob each extension, drop excluded
   * paths, index each remaining file in turn and tally the outcomes.
   */
  method IndexDirectory(isDir: bool, extensiones: seq<string>, glob: string -> seq<string>,
                        index: string -> FileOutcome) returns (r: DirResult)
    ensures !isDir ==> r == DirNotFound
    ensures isDir ==>
      var kept := WithoutExcluded(Globbed(Extensions(extensiones), glob), Excluded);
      r.Summary?
      && r.total == |kept| == |r.archivos|
      && (forall i :: 0 <= i < |kept| ==> r.archivos[i] == Row(kept[i], index(kept[i])))
      && r.exitosos == Successes(r.archivos)
      && r.exitosos + r.fallidos == r.total
  {
    if !isDir {
      return DirNotFound;
    }
    var archivos := GatherFiles(Extensions(extensiones), glob);
    archivos := WithoutExcluded(archivos, Excluded);
    var rows, exitosos := IndexFiles(archivos, index);
    r := Summary(|archivos|, exitosos, |archivos| - exitosos, rows);
  }

  /** The indexing loop: one row per file, in order, counting the files indexed. */
  method IndexFiles(archivos: seq<string>, index: string -> FileOutcome) returns (rows: seq<FileRow>, exitosos: nat)
    ensures |rows| == |archivos|
    ensures forall i :: 0 <= i < |archivos| ==> rows[i] == Row(archivos[i], index(archivos[i]))
    ensures exitosos == Successes(rows) <= |rows|
  {
    rows := [];
    exitosos := 0;
    for i := 0 to |archivos|
      invariant |rows| == i
      invariant forall j :: 0 <= j < i ==> rows[j] == Row(archivos[j], index(archivos[j]))
      invariant exitosos == Successes(rows)
    {
      var row := Row(archivos[i], index(archivos[i]));
      if row.exitoso {
        exitosos := exitosos + 1;
      }
      assert (rows + [row])[..i] == rows;
      assert Successes(rows + [row]) == exitosos;
      rows := rows + [row];
    }
  }

  /** The `rglob` loop: each extension's matches appended in turn. */
  method GatherFiles(exts: seq<string>, glob: string -> seq<string>) returns (archivos: seq<string>)
    ensures archivos == Globbed(exts, glob)
  {
    archivos := [];
    for k := 0 to |exts|
      invariant archivos == Globbed(exts[..k], glob)
    {
      assert exts[..k + 1][..k] == exts[..k];
      assert Globbed(exts[..k + 1], glob) == Globbed(exts[..k], glob) + glob(exts[k]);
      archivos := archivos + glob(exts[k]);
    }
    assert exts[..|exts|] == exts;
  }

  /** No indexed path contains an excluded fragment, and every globbed path without one is indexed. */
  lemma IndexedPathsAreKept(isDir: bool, extensiones: seq<string>, glob: string -> seq<string>, x: string)
    ensures var kept := WithoutExcluded(Globbed(Extensions(extensiones), glob), Excluded);
      x in kept <==> (exists k :: 0 <= k < |Extensions(extensiones)| && x in glob(Extensions(extensiones)[k]))
                     && !MentionsAny(x, Excluded)
  {
  }

  /** The tally counts exactly the rows marked as indexed: adding a row adds one when it is marked. */
  lemma {:induction false} SuccessesCount(rows: seq<FileRow>)
    ensures Successes(rows) == |set i | 0 <= i < |rows| && rows[i].exitoso|
  {
    if rows != [] {
      var init := rows[..|rows| - 1];
      SuccessesCount(init);
      var n := |rows| - 1;
      var before := set i | 0 <= i < n && init[i].exitoso;
      var after := set i | 0 <= i < |rows| && rows[i].exitoso;
      assert before == set i | 0 <= i < n && rows[i].exitoso;
      if rows[n].exitoso {
        assert after == before + {n};
      } else {
        assert after == before;
      }
    }
  }

  // ================================================================ argument scanners

  /** One step of a scanner: a recognised flag with its value, or a token passed over. */
  datatype Step = SetFlag(flag: string, value: string) | Skip(token: string)

  /**
   * The steps a `while i < len(args)` scanner takes from position `i`: a
   * recognised flag with a token after it consumes both, anything else one.
   */
  function Steps(args: seq<string>, flags: seq<string>, i: nat): (steps: seq<Step>)
    decreases |args| - i
  {
    if i >= |args| then []
    else if args[i] in flags && i + 1 < |args| then [SetFlag(args[i], args[i + 1])] + Steps(args, flags, i + 2)
    else [Skip(args[i])] + Steps(args, flags, i + 1)
  }

  /** The tokens a step consumes. */
  function Consumed(step: Step): seq<string>
  {
    match step
    case SetFlag(f, v) => [f, v]
    case Skip(t) => [t]
  }

  function Flatten(steps: seq<Step>): seq<string>
  {
    if steps == [] then [] else Consumed(steps[0]) + Flatten(steps[1..])
  }

  /** The steps consume the arguments from `i` on, each exactly once and in order. */
  lemma {:induction false} StepsCover(args: seq<string>, flags: seq<string>, i: nat)
    requires i <= |args|
    ensures Flatten(Steps(args, flags, i)) == args[i..]
    decreases |args| - i
  {
    if i < |args| {
      if args[i] in flags && i + 1 < |args| {
        var step, rest := SetFlag(args[i], args[i + 1]), Steps(args, flags, i + 2);
        assert Steps(args, flags, i) == [step] + rest;
        StepsCover(args, flags, i + 2);
        FlattenCons(step, rest);
        SliceCons(args, i);
        SliceCons(args, i + 1);
      } else {
        var step, rest := Skip(args[i]), Steps(args, flags, i + 1);
        assert Steps(args, flags, i) == [step] + rest;
        StepsCover(args, flags, i + 1);
        FlattenCons(step, rest);
        SliceCons(args, i);
      }
    }
  }

  lemma SliceCons(args: seq<string>, i: nat)
    requires i < |args|
    ensures args[i..] == [args[i]] + args[i + 1..]
  {
  }

  lemma FlattenCons(step: Step, rest: seq<Step>)
    ensures Flatten([step] + rest) == Consumed(step) + Flatten(rest)
  {
    assert ([step] + rest)[1..] == rest;
  }

  /** A recognised flag is passed over only as the very last argument, where no value follows it. */
  lemma {:induction false} TrailingFlagIgnored(args: seq<string>, flags: seq<string>, i: nat, j: nat)
    requires i <= |args|
    requires j < |Steps(args, flags, i)| && Steps(args, flags, i)[j].Skip?
    requires Steps(args, flags, i)[j].token in flags
    ensures j == |Steps(args, flags, i)| - 1
    ensures Steps(args, flags, i)[j].token == args[|args| - 1]
    decreases |args| - i
  {
    if args[i] in flags && i + 1 < |args| {
      TrailingFlagIgnored(args, flags, i + 2, j - 1);
    } else if j > 0 {
      TrailingFlagIgnored(args, flags, i + 1, j - 1);
    } else {
      assert Steps(args, flags, i + 1) == [];
    }
  }

  predicate SetsAt(steps: seq<Step>, j: int, flag: string)
    requires 0 <= j < |steps|
  {
    steps[j].SetFlag? && steps[j].flag == flag
  }

  /** The value an option ends with, read from the last step back. */
  function Setting(steps: seq<Step>, flag: string, default: string): string
  {
    if steps == [] then default
    else if SetsAt(steps, |steps| - 1, flag) then steps[|steps| - 1].value
    else Setting(steps[..|steps| - 1], flag, default)
  }

  /** The last occurrence wins: an option is the value of the last step setting its flag, or the default. */
  lemma {:induction false} SettingIsLast(steps: seq<Step>, flag: string, default: string)
    ensures (forall j :: 0 <= j < |steps| ==> !SetsAt(steps, j, flag)) ==> Setting(steps, flag, default) == default
    ensures (exists j :: 0 <= j < |steps| && SetsAt(steps, j, flag)) ==>
      exists j :: 0 <= j < |steps| && SetsAt(steps, j, flag) && Setting(steps, flag, default) == steps[j].value
        && forall k :: j < k < |steps| ==> !SetsAt(steps, k, flag)
  {
    if steps != [] {
      var n := |steps| - 1;
      var init := steps[..n];
      if !SetsAt(steps, n, flag) {
        SettingIsLast(init, flag, default);
        assert Setting(steps, flag, default) == Setting(init, flag, default);
        forall j | 0 <= j < n ensures SetsAt(init, j, flag) == SetsAt(steps, j, flag) {
          assert init[j] == steps[j];
        }
      }
    }
  }

  /** Reading a scan front to back: the first step's value counts only if no later step sets the flag. */
  lemma {:induction false} SettingCons(step: Step, rest: seq<Step>, flag: string, default: string)
    ensures Setting([step] + rest, flag, default) ==
      Setting(rest, flag, if step.SetFlag? && step.flag == flag then step.value else default)
    decreases |rest|
  {
    var all := [step] + rest;
    if rest != [] {
      var n := |rest| - 1;
      assert all[..|all| - 1] == [step] + rest[..n];
      assert all[|all| - 1] == rest[n];
      if !SetsAt(rest, n, flag) {
        SettingCons(step, rest[..n], flag, default);
      }
    } else {
      assert all[..0] == [];
    }
  }

  lemma StepsCons(args: seq<string>, flags: seq<string>, i: nat)
    requires i < |args|
    ensures Steps(args, flags, i) ==
      if args[i] in flags && i + 1 < |args| then [SetFlag(args[i], args[i + 1])] + Steps(args, flags, i + 2)
      else [Skip(args[i])] + Steps(args, flags, i + 1)
  {
  }

  const ProgramarFlags: seq<string> := ["--hora", "--frecuencia", "--intensidad"]
  const CicloFlags: seq<string> := ["--intensidad", "--duracion"]

  datatype ProgramarOptions = ProgramarOptions(hora: string, frecuencia: string, intensidad: string)

  /** One step of the `programar` scanner applied to the options so far. */
  function ApplyProgramar(o: ProgramarOptions, step: Step): ProgramarOptions
  {
    match step
    case Skip(_) => o
    case SetFlag(f, v) =>
      if f == "--hora" then o.(hora := v)
      else if f == "--frecuencia" then o.(frecuencia := v)
      else if f == "--intensidad" then o.(intensidad := v)
      else o
  }

  /** The options after the given steps, starting from `o`. */
  function RunProgramar(o: ProgramarOptions, steps: seq<Step>): ProgramarOptions
    decreases |steps|
  {
    if steps == [] then o else RunProgramar(ApplyProgramar(o, steps[0]), steps[1..])
  }

  lemma RunProgramarCons(o: ProgramarOptions, step: Step, rest: seq<Step>)
    ensures RunProgramar(o, [step] + rest) == RunProgramar(ApplyProgramar(o, step), rest)
  {
    assert ([step] + rest)[1..] == rest;
  }

  /** Each `programar` option ends as its flag's last value, or as it started. */
  lemma {:induction false} ProgramarLastWins(o: ProgramarOptions, steps: seq<Step>)
    ensures RunProgramar(o, steps) == ProgramarOptions(Setting(steps, "--hora", o.hora),
      Setting(steps, "--frecuencia", o.frecuencia), Setting(steps, "--intensidad", o.intensidad))
    decreases |steps|
  {
    if steps != [] {
      var step, rest := steps[0], steps[1..];
      assert steps == [step] + rest;
      ProgramarLastWins(ApplyProgramar(o, step), rest);
      SettingCons(step, rest, "--hora", o.hora);
      SettingCons(step, rest, "--frecuencia", o.frecuencia);
      SettingCons(step, rest, "--intensidad", o.intensidad);
    }
  }

  /** The options of `nocturno programar`: each one's last value, or its default. */
  method ScanProgramar(args: seq<string>) returns (hora: string, frecuencia: string, intensidad: string)
    ensures var steps := Steps(args, ProgramarFlags, 1);
      hora == Setting(steps, "--hora", "02:00")
      && frecuencia == Setting(steps, "--frecuencia", "semanal")
      && intensidad == Setting(steps, "--intensidad", "normal")
  {
    hora, frecuencia, intensidad := "02:00", "semanal", "normal";
    ghost var all := Steps(args, ProgramarFlags, 1);
    ghost var goal := RunProgramar(ProgramarOptions(hora, frecuencia, intensidad), all);
    var i := 1;
    while i < |args|
      invariant 1 <= i
      invariant RunProgramar(ProgramarOptions(hora, frecuencia, intensidad), Steps(args, ProgramarFlags, i)) == goal
      decreases |args| - i
    {
      StepsCons(args, ProgramarFlags, i);
      ghost var o := ProgramarOptions(hora, frecuencia, intensidad);
      if args[i] == "--hora" && i + 1 < |args| {
        RunProgramarCons(o, SetFlag(args[i], args[i + 1]), Steps(args, ProgramarFlags, i + 2));
        hora := args[i + 1];
        i := i + 2;
      } else if args[i] == "--frecuencia" && i + 1 < |args| {
        RunProgramarCons(o, SetFlag(args[i], args[i + 1]), Steps(args, ProgramarFlags, i + 2));
        frecuencia := args[i + 1];
        i := i + 2;
      } else if args[i] == "--intensidad" && i + 1 < |args| {
        RunProgramarCons(o, SetFlag(args[i], args[i + 1]), Steps(args, ProgramarFlags, i + 2));
        intensidad := args[i + 1];
        i := i + 2;
      } else {
        RunProgramarCons(o, Skip(args[i]), Steps(args, ProgramarFlags, i + 1));
        i := i + 1;
      }
    }
    ProgramarLastWins(ProgramarOptions("02:00", "semanal", "normal"), all);
  }

  datatype CicloOptions = CicloOptions(intensidad: string, duracion: int)

  /**
   * One step of the `ciclo` scanner: `int(...)` raises on a `--duracion`
   * value that is not an integer, and nothing after it is scanned.
   */
  function ApplyCiclo(o: Result<CicloOptions>, step: Step): Result<CicloOptions>
  {
    if o.Err? then o
    else match step
      case Skip(_) => o
      case SetFlag(f, v) =>
        if f == "--intensidad" then Ok(o.value.(intensidad := v))
        else if f == "--duracion" then
          (if ParseInt(v).Some? then Ok(o.value.(duracion := ParseInt(v).value)) else Err(v))
        else o
  }

  /** The outcome after the given steps, starting from `o`. */
  function RunCiclo(o: Result<CicloOptions>, steps: seq<Step>): Result<CicloOptions>
    decreases |steps|
  {
    if steps == [] then o else RunCiclo(ApplyCiclo(o, steps[0]), steps[1..])
  }

  lemma RunCicloCons(o: Result<CicloOptions>, step: Step, rest: seq<Step>)
    ensures RunCiclo(o, [step] + rest) == RunCiclo(ApplyCiclo(o, step), rest)
  {
    assert ([step] + rest)[1..] == rest;
  }

  /** Once a value is rejected, later steps change nothing. */
  lemma {:induction false} CicloErrSticks(message: string, steps: seq<Step>)
    ensures RunCiclo(Err(message), steps) == Err(message)
    decreases |steps|
  {
    if steps != [] {
      CicloErrSticks(message, steps[1..]);
    }
  }

  /** Every `--duracion` value among the steps is an integer `int` accepts. */
  predicate DurationsParse(steps: seq<Step>)
  {
    forall j :: 0 <= j < |steps| && SetsAt(steps, j, "--duracion") ==> ParseInt(steps[j].value).Some?
  }

  lemma DurationsParseCons(step: Step, rest: seq<Step>)
    ensures DurationsParse([step] + rest) <==>
      (step.SetFlag? && step.flag == "--duracion" ==> ParseInt(step.value).Some?) && DurationsParse(rest)
  {
    var all := [step] + rest;
    assert all[0] == step;
    assert forall j :: 0 <= j < |rest| ==> all[j + 1] == rest[j];
    if DurationsParse(rest) && (step.SetFlag? && step.flag == "--duracion" ==> ParseInt(step.value).Some?) {
      forall j | 0 <= j < |all| && SetsAt(all, j, "--duracion") ensures ParseInt(all[j].value).Some? {
        if j > 0 { assert SetsAt(rest, j - 1, "--duracion"); }
      }
    }
  }

  /** When every value parses, so does the option's final value. */
  lemma SettingParses(steps: seq<Step>, d: string)
    requires DurationsParse(steps) && ParseInt(d).Some?
    ensures ParseInt(Setting(steps, "--duracion", d)).Some?
  {
    SettingIsLast(steps, "--duracion", d);
  }

  lemma DefaultDuration()
    ensures ParseInt("360") == Some(360)
  {
    ParseRendered(360);
    assert NatToString(360) == "360";
  }

  /**
   * `ciclo` succeeds exactly when every `--duracion` value is an integer, and
   * then each option is its flag's last value, or its starting value (whose
   * duration is written `d`).
   */
  lemma {:induction false} CicloLastWins(o: CicloOptions, d: string, steps: seq<Step>)
    requires ParseInt(d) == Some(o.duracion)
    ensures RunCiclo(Ok(o), steps).Ok? <==> DurationsParse(steps)
    ensures RunCiclo(Ok(o), steps).Ok? ==>
      RunCiclo(Ok(o), steps).value == CicloOptions(Setting(steps, "--intensidad", o.intensidad),
                                                   ParseInt(Setting(steps, "--duracion", d)).GetOr(o.duracion))
    decreases |steps|
  {
    if steps == [] {
      assert Setting(steps, "--duracion", d) == d;
    } else {
      var step, rest := steps[0], steps[1..];
      assert steps == [step] + rest;
      DurationsParseCons(step, rest);
      SettingCons(step, rest, "--intensidad", o.intensidad);
      SettingCons(step, rest, "--duracion", d);
      var next := ApplyCiclo(Ok(o), step);
      if next.Err? {
        CicloErrSticks(next.message, rest);
      } else if step.SetFlag? && step.flag == "--duracion" {
        CicloLastWins(next.value, step.value, rest);
        if DurationsParse(rest) {
          SettingParses(rest, step.value);
        }
      } else {
        CicloLastWins(next.value, d, rest);
      }
    }
  }

  /** `int(...)`'s verdict on the outcome of `ciclo`, from the defaults `normal` and 360 minutes. */
  function CicloOf(steps: seq<Step>): Result<CicloOptions>
  {
    RunCiclo(Ok(CicloOptions("normal", 360)), steps)
  }

  /** The options of `nocturno ciclo`, or the first `--duracion` value `int` rejects. */
  method ScanCiclo(args: seq<string>) returns (r: Result<CicloOptions>)
    ensures r == CicloOf(Steps(args, CicloFlags, 1))
    ensures var steps := Steps(args, CicloFlags, 1);
      (r.Ok? <==> DurationsParse(steps))
      && (r.Ok? ==> r.value.intensidad == Setting(steps, "--intensidad", "normal")
                    && r.value.duracion == ParseInt(Setting(steps, "--duracion", "360")).GetOr(360))
  {
    var intensidad, duracion := "normal", 360;
    ghost var all := Steps(args, CicloFlags, 1);
    DefaultDuration();
    CicloLastWins(CicloOptions(intensidad, duracion), "360", all);
    var i := 1;
    while i < |args|
      invariant 1 <= i
      invariant RunCiclo(Ok(CicloOptions(intensidad, duracion)), Steps(args, CicloFlags, i)) == CicloOf(all)
      decreases |args| - i
    {
      StepsCons(args, CicloFlags, i);
      ghost var o := Ok(CicloOptions(intensidad, duracion));
      if args[i] == "--intensidad" && i + 1 < |args| {
        RunCicloCons(o, SetFlag(args[i], args[i + 1]), Steps(args, CicloFlags, i + 2));
        intensidad := args[i + 1];
        i := i + 2;
      } else if args[i] == "--duracion" && i + 1 < |args| {
        RunCicloCons(o, SetFlag(args[i], args[i + 1]), Steps(args, CicloFlags, i + 2));
        var parsed := ParseInt(args[i + 1]);
        if parsed.None? {
          CicloErrSticks(args[i + 1], Steps(args, CicloFlags, i + 2));
          return Err(args[i + 1]);
        }
        duracion := parsed.value;
        i := i + 2;
      } else {
        RunCicloCons(o, Skip(args[i]), Steps(args, CicloFlags, i + 1));
        i := i + 1;
      }
    }
    r := Ok(CicloOptions(intensidad, duracion));
  }

  // ================================================================ scheduling

  /** The crontab line `nocturno_programar` suggests: minute 0 of the hour written before the first `:`. */
  function CronLine(horaInicio: string, scriptPath: string): (line: string)
    ensures exists hour ::
      (line == "0 " + hour + " * * * " + scriptPath
       && StartsWith(horaInicio, hour) && !Contains(hour, ":")
       && (Contains(horaInicio, ":") ==> OccursAt(horaInicio, ":", |hour|))
       && (!Contains(horaInicio, ":") ==> hour == horaInicio))
  {
    var hour := BeforeFirst(horaInicio, ":");
    "0 " + hour + " * * * " + scriptPath
  }

  /** A time written `HH:MM` gives the hour `HH`. */
  lemma {:induction false} CronHour(hh: string, mm: string, scriptPath: string)
    requires ':' !in hh
    ensures CronLine(hh + ":" + mm, scriptPath) == "0 " + hh + " * * * " + scriptPath
  {
    var s := hh + ":" + mm;
    assert OccursAt(s, ":", |hh|);
    forall i: nat | i < |hh| ensures !OccursAt(s, ":", i) {
      assert s[i] == hh[i] && s[i..i + 1] == [s[i]];
    }
    assert Find(s, ":") == |hh|;
    assert s[..|hh|] == hh;
  }
}
