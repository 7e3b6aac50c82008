/**
 * The variables each provider of the switcher sets, and the condition under
 * which a variable written as a `key=value` line reads back as written.
 */
module ProviderTable {
  import opened Common

  /** The text holds no line break. */
  predicate NoNewline(s: string)
  {
    forall i :: 0 <= i < |s| ==> s[i] != '\n'
  }

  /** A key and value that `write_env_file` writes as a line reading back to the same key and value. */
  predicate CleanEntry(k: string, v: string)
  {
    (forall i :: 0 <= i < |k| ==> k[i] != '=' && k[i] != '\n') && NoNewline(v)
    && (k == [] || (!IsSpace(k[0]) && k[0] != '#'))
    && (v == [] || !IsSpace(v[|v| - 1]))
  }

  /** Every variable of a table is written as a line that reads back the same. */
  predicate CleanVars(vars: seq<(string, string)>)
  {
    forall i :: 0 <= i < |vars| ==> CleanEntry(vars[i].0, vars[i].1)
  }

  const OpenAIVars: seq<(string, string)> :=
    [("LLM_PROVIDER", "openai"), ("OPENAI_BASE_URL", "https://api.openai.com/v1"), ("OPENAI_MODEL", "gpt-4o")]

  const AnthropicVars: seq<(string, string)> :=
    [("LLM_PROVIDER", "anthropic"), ("ANTHROPIC_BASE_URL", "https://api.anthropic.com"),
     ("ANTHROPIC_MODEL", "claude-3-5-sonnet-20241022")]

  const ZaiVars: seq<(string, string)> :=
    [("LLM_PROVIDER", "zai"), ("ZAI_BASE_URL", "https://api.z.ai/api/paas/v4"), ("ZAI_MODEL", "glm-5")]

  const KimiVars: seq<(string, string)> :=
    [("LLM_PROVIDER", "kimi"), ("KIMI_BASE_URL", "https://api.kimi.com/coding"), ("KIMI_MODEL", "kimi-k2")]

  const MiniMaxVars: seq<(string, string)> :=
    [("LLM_PROVIDER", "minimax"), ("MINIMAX_BASE_URL", "https://api.minimax.io/anthropic"),
     ("MINIMAX_MODEL", "MiniMax-M2.5")]

  const OllamaVars: seq<(string, string)> :=
    [("LLM_PROVIDER", "ollama"), ("OLLAMA_BASE_URL", "http://host.docker.internal:11434"),
     ("OLLAMA_MODEL", "llama3.1")]

  /** Each provider's variables are written as lines that read back. */
  lemma OpenAIIsClean() ensures CleanVars(OpenAIVars)
  {
    assert CleanEntry("LLM_PROVIDER", "openai");
    assert CleanEntry("OPENAI_BASE_URL", "https://api.openai.com/v1");
    assert CleanEntry("OPENAI_MODEL", "gpt-4o");
  }

  lemma AnthropicIsClean() ensures CleanVars(AnthropicVars)
  {
    assert CleanEntry("LLM_PROVIDER", "anthropic");
    assert CleanEntry("ANTHROPIC_BASE_URL", "https://api.anthropic.com");
    assert CleanEntry("ANTHROPIC_MODEL", "claude-3-5-sonnet-20241022");
  }

  lemma ZaiIsClean() ensures CleanVars(ZaiVars)
  {
    assert CleanEntry("LLM_PROVIDER", "zai");
    assert CleanEntry("ZAI_BASE_URL", "https://api.z.ai/api/paas/v4");
    assert CleanEntry("ZAI_MODEL", "glm-5");
  }

  lemma KimiIsClean() ensures CleanVars(KimiVars)
  {
    assert CleanEntry("LLM_PROVIDER", "kimi");
    assert CleanEntry("KIMI_BASE_URL", "https://api.kimi.com/coding");
    assert CleanEntry("KIMI_MODEL", "kimi-k2");
  }

  lemma MiniMaxIsClean() ensures CleanVars(MiniMaxVars)
  {
    assert CleanEntry("LLM_PROVIDER", "minimax");
    assert CleanEntry("MINIMAX_BASE_URL", "https://api.minimax.io/anthropic");
    assert CleanEntry("MINIMAX_MODEL", "MiniMax-M2.5");
  }

  lemma OllamaIsClean() ensures CleanVars(OllamaVars)
  {
    assert CleanEntry("LLM_PROVIDER", "ollama");
    assert CleanEntry("OLLAMA_BASE_URL", "http://host.docker.internal:11434");
    assert CleanEntry("OLLAMA_MODEL", "llama3.1");
  }

}

/**
 * The provider switcher: the provider table, reading `.env` lines into an
 * ordered dictionary, merging a dictionary back into the file's lines, the
 * configuration check and the credential check of the status listing.
 *
 * The `.env` file is its text, as Python reads it in text mode; a missing
 * file is `None`. Reading cuts the text into lines after each newline, and
 * writing puts the written strings one after the other. Printing and the
 * process exit are left out.
 */
module SwitchProvider {
  import opened Common
  import opened ProviderTable

  // ================================================================ ordered dictionaries

  /** A Python dict from strings to strings: its keys in insertion order, and the mapping. */
  datatype Dict = Dict(keys: seq<string>, values: map<string, string>)

  ghost predicate WellFormed(d: Dict)
  {
    Distinct(d.keys) && d.values.Keys == Elements(d.keys)
  }

  const EmptyDict: Dict := Dict([], map[])

  /** `d.get(k)`. */
  function Get(d: Dict, k: string): Option<string>
  {
    if k in d.values then Some(d.values[k]) else None
  }

  /** `d[k] = v`: an existing key keeps its place, a new one goes last. */
  function Put(d: Dict, k: string, v: string): (r: Dict)
    requires WellFormed(d)
    ensures WellFormed(r)
    ensures Get(r, k) == Some(v)
    ensures forall k' :: k' != k ==> Get(r, k') == Get(d, k')
    ensures r.keys == if k in d.keys then d.keys else d.keys + [k]
  {
    Dict(if k in d.values then d.keys else d.keys + [k], d.values[k := v])
  }

  // ================================================================ the provider table

  datatype Provider = Provider(id: string, name: string, description: string,
                               envVars: seq<(string, string)>, requiredKeys: seq<string>,
                               note: Option<string>)

  const OpenAI := Provider("openai", "OpenAI", "GPT-4, GPT-3.5, GPT-4o", OpenAIVars, ["OPENAI_API_KEY"], None)

  const Anthropic := Provider("anthropic", "Anthropic", "Claude 3.5 Sonnet, Claude 3 Opus",
    AnthropicVars, ["ANTHROPIC_API_KEY"], None)

  const Zai := Provider("zai", "Z.AI (智谱AI/GLM)", "GLM-5, GLM-4.6V, GLM-Image",
    ZaiVars, ["ZAI_API_KEY"], Some("Para Coding usa: https://api.z.ai/api/coding/paas/v4"))

  const Kimi := Provider("kimi", "Kimi (Moonshot AI)", "Kimi K2, Kimi Code",
    KimiVars, ["KIMI_API_KEY"], Some("Compatible con API Anthropic"))

  const MiniMax := Provider("minimax", "MiniMax", "MiniMax-M2.5",
    MiniMaxVars, ["MINIMAX_API_KEY"], Some("Usa https://api.minimaxi.com/anthropic para China"))

  const Ollama := Provider("ollama", "Ollama (Local)", "Modelos locales: llama3.1, qwen, etc.",
    OllamaVars, [], Some("Requiere Ollama instalado localmente"))

  /** `PROVIDERS`, in the dict's order. */
  const Providers: seq<Provider> := [OpenAI, Anthropic, Zai, Kimi, MiniMax, Ollama]

  /** `PROVIDERS.get(id)`: the first entry of `ps` with that id. */
  function LookupIn(ps: seq<Provider>, id: string): (p: Option<Provider>)
    ensures p.None? <==> forall i :: 0 <= i < |ps| ==> ps[i].id != id
    ensures p.Some? ==> p.value in ps && p.value.id == id
  {
    if |ps| == 0 then None
    else if ps[0].id == id then Some(ps[0])
    else LookupIn(ps[1..], id)
  }

  /** The entry found is the first one with that id. */
  lemma {:induction false} LookupInAt(ps: seq<Provider>, i: nat)
    requires i < |ps| && forall j :: 0 <= j < i ==> ps[j].id != ps[i].id
    ensures LookupIn(ps, ps[i].id) == Some(ps[i])
  {
    if i > 0 {
      LookupInAt(ps[1..], i - 1);
    }
  }

  function Lookup(id: string): (p: Option<Provider>)
    ensures p.None? <==> forall i :: 0 <= i < |Providers| ==> Providers[i].id != id
    ensures p.Some? ==> p.value in Providers && p.value.id == id && Distinct(Keys(p.value.envVars))
  {
    TableSetsItsOwnProvider();
    LookupIn(Providers, id)
  }

  /** Every provider's table sets `LLM_PROVIDER` to its own id and names each variable once. */
  lemma TableSetsItsOwnProvider()
    ensures forall i :: 0 <= i < |Providers| ==>
      Providers[i].envVars[0] == ("LLM_PROVIDER", Providers[i].id)
      && Distinct(Keys(Providers[i].envVars))
  {
  }

  function Keys(vars: seq<(string, string)>): (ks: seq<string>)
    ensures |ks| == |vars| && forall i :: 0 <= i < |vars| ==> ks[i] == vars[i].0
  {
    seq(|vars|, i requires 0 <= i < |vars| => vars[i].0)
  }

  // ================================================================ reading `.env`

  /** `"=" in s` and `s.split("=", 1)`: the text before the first `=` and the text after it. */
  function SplitAtEquals(s: string): (r: Option<(string, string)>)
    ensures r.None? <==> '=' !in s
    ensures r.Some? ==> s == r.value.0 + "=" + r.value.1 && '=' !in r.value.0
  {
    if s == [] then None
    else if s[0] == '=' then Some(([], s[1..]))
    else
      var rest := SplitAtEquals(s[1..]);
      assert s == [s[0]] + s[1..];
      if rest.None? then None else Some(([s[0]] + rest.value.0, rest.value.1))
  }

  /** A key without `=` is cut back out of `key=value`, whatever the value holds. */
  lemma {:induction false} SplitAtEqualsOf(k: string, v: string)
    requires '=' !in k
    ensures SplitAtEquals(k + "=" + v) == Some((k, v))
  {
    var s := k + "=" + v;
    if k == [] {
      assert s[1..] == v;
    } else {
      assert s[1..] == k[1..] + "=" + v;
      SplitAtEqualsOf(k[1..], v);
      assert [s[0]] + k[1..] == k;
    }
  }

  /** What one line of `.env` says: the key and value it assigns, or nothing. */
  type Entry = Option<(string, string)>

  /**
   * The entry of a line: once stripped, a non-empty line that does not start
   * with `#` and holds a `=` assigns the text before the first `=` the text after it.
   */
  function ParseLine(line: string): Entry
  {
    var s := Strip(line);
    if s == [] || s[0] == '#' then None else SplitAtEquals(s)
  }

  function Entries(lines: seq<string>): (es: seq<Entry>)
    ensures |es| == |lines| && forall i :: 0 <= i < |lines| ==> es[i] == ParseLine(lines[i])
  {
    seq(|lines|, i requires 0 <= i < |lines| => ParseLine(lines[i]))
  }

  /** Entry `i` assigns `k`. */
  predicate AssignsAt(es: seq<Entry>, i: int, k: string)
    requires 0 <= i < |es|
  {
    es[i].Some? && es[i].value.0 == k
  }

  predicate AssignsSome(es: seq<Entry>, k: string)
  {
    exists i :: 0 <= i < |es| && AssignsAt(es, i, k)
  }

  /** The dictionary built from the entries in order: `env_vars[key] = value` for each assignment. */
  function Build(es: seq<Entry>): (d: Dict)
    ensures WellFormed(d)
  {
    if |es| == 0 then EmptyDict
    else
      var d := Build(es[..|es| - 1]);
      var e := es[|es| - 1];
      if e.Some? then Put(d, e.value.0, e.value.1) else d
  }

  /** The dictionary `read_env_file` builds from the lines of an existing file. */
  function ParseEnv(lines: seq<string>): Dict
  {
    Build(Entries(lines))
  }

  /**
   * The value of the last entry assigning `k`: the reference reading of a
   * `.env` file, in which a later assignment overrides an earlier one.
   */
  function LastValue(es: seq<Entry>, k: string): (v: Option<string>)
    ensures v.None? <==> !AssignsSome(es, k)
    ensures v.Some? ==> exists i :: 0 <= i < |es| && AssignsAt(es, i, k) && v.value == es[i].value.1
                                     && forall j :: i < j < |es| ==> !AssignsAt(es, j, k)
  {
    if |es| == 0 then None
    else if AssignsAt(es, |es| - 1, k) then Some(es[|es| - 1].value.1)
    else
      var init := es[..|es| - 1];
      assert forall i :: 0 <= i < |init| ==> (AssignsAt(init, i, k) <==> AssignsAt(es, i, k));
      LastValue(init, k)
  }

  /** Reading keeps, for every key, the value of its last assignment; lines that are not assignments are skipped. */
  lemma {:induction false} ParseLastWins(es: seq<Entry>, k: string)
    ensures Get(Build(es), k) == LastValue(es, k)
  {
    if |es| > 0 {
      ParseLastWins(es[..|es| - 1], k);
    }
  }

  /** The keys the entries assign, in order, with repetitions. */
  function AssignedKeys(es: seq<Entry>): (ks: seq<string>)
    ensures forall k :: k in ks <==> AssignsSome(es, k)
  {
    if |es| == 0 then []
    else
      var init := es[..|es| - 1];
      var e := es[|es| - 1];
      assert forall k, i :: 0 <= i < |init| ==> (AssignsAt(init, i, k) <==> AssignsAt(es, i, k));
      assert e.Some? ==> AssignsAt(es, |es| - 1, e.value.0);
      AssignedKeys(init) + (if e.Some? then [e.value.0] else [])
  }

  /** The keys of the dictionary read are in the order of their first assignment. */
  lemma {:induction false} ParseKeyOrder(es: seq<Entry>)
    ensures Build(es).keys == Dedup(AssignedKeys(es))
  {
    if |es| > 0 {
      var init := es[..|es| - 1];
      ParseKeyOrder(init);
      var ks := AssignedKeys(es);
      if es[|es| - 1].Some? {
        assert ks[..|ks| - 1] == AssignedKeys(init);
      } else {
        assert ks == AssignedKeys(init);
      }
    }
  }

  // ================================================================ the file's text

  /** Length of the first line of `text`: up to and including its first newline, or all of it. */
  function LineLength(text: string): (n: nat)
    requires text != []
    ensures 0 < n <= |text|
    ensures forall i :: 0 <= i < n - 1 ==> text[i] != '\n'
    ensures text[n - 1] == '\n' || n == |text|
    decreases |text|
  {
    if text[0] == '\n' || |text| == 1 then 1 else 1 + LineLength(text[1..])
  }

  /** `f.readlines()`, and `for line in f`: the text cut after each newline, each line keeping its newline. */
  function ReadLines(text: string): (ls: seq<string>)
    ensures ls == [] <==> text == []
    decreases |text|
  {
    if text == [] then []
    else
      var n := LineLength(text);
      [text[..n]] + ReadLines(text[n..])
  }

  /** A line as reading gives it: not empty, with a newline at most at its end. */
  predicate IsLine(l: string)
  {
    l != [] && forall j :: 0 <= j < |l| - 1 ==> l[j] != '\n'
  }

  predicate Terminated(l: string)
  {
    l != [] && l[|l| - 1] == '\n'
  }

  /** Lines as reading gives them: each one a line, all but the last ending in a newline. */
  predicate Shaped(ls: seq<string>)
  {
    (forall i :: 0 <= i < |ls| ==> IsLine(ls[i]))
    && (forall i :: 0 <= i < |ls| - 1 ==> Terminated(ls[i]))
  }

  /** Reading cuts the text into lines that, put back one after the other, give the text. */
  lemma ReadLinesShaped(text: string)
    ensures Shaped(ReadLines(text)) && Concat(ReadLines(text)) == text
  {
    ReadLinesAreLines(text);
    ReadLinesJoin(text);
  }

  lemma {:induction false} ReadLinesAreLines(text: string)
    ensures Shaped(ReadLines(text))
    decreases |text|
  {
    if text != [] {
      var n := LineLength(text);
      var first := text[..n];
      var rest := ReadLines(text[n..]);
      ReadLinesAreLines(text[n..]);
      assert ReadLines(text) == [first] + rest;
      assert Shaped([first]);
      if rest != [] {
        assert Terminated(first);
      }
      ShapedJoin([first], rest);
    }
  }

  lemma {:induction false} ReadLinesJoin(text: string)
    ensures Concat(ReadLines(text)) == text
    decreases |text|
  {
    if text != [] {
      var n := LineLength(text);
      var first := text[..n];
      var rest := ReadLines(text[n..]);
      ReadLinesJoin(text[n..]);
      assert ReadLines(text) == [first] + rest;
      assert ([first] + rest)[1..] == rest;
      assert text == first + text[n..];
    }
  }

  /** The first line of a line followed by the rest of a text is that line, when it ends in a newline or nothing follows. */
  lemma {:induction false} LineLengthOf(l: string, rest: string)
    requires IsLine(l) && (Terminated(l) || rest == [])
    ensures LineLength(l + rest) == |l|
    decreases |l|
  {
    var text := l + rest;
    if |l| > 1 {
      assert text[0] == l[0] != '\n';
      assert text[1..] == l[1..] + rest;
      assert Terminated(l) ==> Terminated(l[1..]);
      LineLengthOf(l[1..], rest);
    }
  }

  /** Reading back lines written one after the other gives those lines, when they are shaped as reading gives them. */
  lemma {:induction false} ReadLinesConcat(ls: seq<string>)
    requires Shaped(ls)
    ensures ReadLines(Concat(ls)) == ls
    decreases |ls|
  {
    if |ls| > 0 {
      var first := ls[0];
      var tail := ls[1..];
      ShapedTail(ls);
      ReadLinesConcat(tail);
      var rest := Concat(tail);
      assert Concat(ls) == first + rest;
      assert Terminated(first) || rest == [] by {
        if |ls| == 1 { assert tail == []; }
      }
      FirstLineRead(first, rest);
      assert ls == [first] + tail;
    }
  }

  lemma ShapedTail(ls: seq<string>)
    requires Shaped(ls) && |ls| > 0
    ensures Shaped(ls[1..])
  {
    forall i | 0 <= i < |ls| - 1 ensures ls[1..][i] == ls[i + 1] { }
  }

  /** A line that ends in a newline, or is all there is, is read first, and the rest after it. */
  lemma FirstLineRead(l: string, rest: string)
    requires IsLine(l) && (Terminated(l) || rest == [])
    ensures ReadLines(l + rest) == [l] + ReadLines(rest)
  {
    LineLengthOf(l, rest);
    var text := l + rest;
    assert text[..|l|] == l && text[|l|..] == rest;
  }

  /** `read_env_file` on a file's text. */
  function ReadText(text: string): Dict
  {
    ParseEnv(ReadLines(text))
  }

  /** `read_env_file`: a missing file reads as an empty dictionary. */
  method ReadEnv(file: Option<string>) returns (env: Dict)
    ensures file.None? ==> env == EmptyDict
    ensures file.Some? ==> env == ReadText(file.value)
  {
    env := EmptyDict;
    if file.None? {
      return;
    }
    var lines := ReadLines(file.value);
    ghost var es := Entries(lines);
    for i := 0 to |lines|
      invariant env == Build(es[..i])
    {
      BuildStep(es, i);
      env := ReadLine(env, lines[i]);
    }
    assert es[..|lines|] == es;
  }

  /** One pass of `read_env_file`'s loop: a line that assigns sets its key. */
  method ReadLine(env: Dict, line: string) returns (r: Dict)
    requires WellFormed(env)
    ensures r == (var e := ParseLine(line); if e.Some? then Put(env, e.value.0, e.value.1) else env)
  {
    r := env;
    var s := Strip(line);
    if s != [] && s[0] != '#' {
      var kv := SplitAtEquals(s);
      if kv.Some? {
        r := Put(env, kv.value.0, kv.value.1);
      }
    }
  }

  lemma BuildStep(es: seq<Entry>, i: nat)
    requires i < |es|
    ensures Build(es[..i + 1]) == (var e := es[i]; if e.Some? then Put(Build(es[..i]), e.value.0, e.value.1) else Build(es[..i]))
  {
    assert es[..i + 1][..i] == es[..i];
  }

  // ================================================================ writing `.env`

  /** One line of the file after the merge: an assignment of a key in `env` is rewritten, anything else kept. */
  function MergeLine(line: string, env: Dict): string
  {
    var e := ParseLine(line);
    if e.Some? && e.value.0 in env.values then e.value.0 + "=" + env.values[e.value.0] + "\n" else line
  }

  function Rewritten(lines: seq<string>, env: Dict): (r: seq<string>)
    ensures |r| == |lines| && forall i :: 0 <= i < |lines| ==> r[i] == MergeLine(lines[i], env)
  {
    seq(|lines|, i requires 0 <= i < |lines| => MergeLine(lines[i], env))
  }

  /** The keys of `ks` no entry assigned, in the order of `ks`: those `write_env_file` appends. */
  function Unassigned(es: seq<Entry>, ks: seq<string>): (r: seq<string>)
    ensures forall k :: k in r <==> k in ks && !AssignsSome(es, k)
  {
    if |ks| == 0 then []
    else
      var k := ks[|ks| - 1];
      assert ks == ks[..|ks| - 1] + [k];
      Unassigned(es, ks[..|ks| - 1]) + (if AssignsSome(es, k) then [] else [k])
  }

  /** One `key=value` line per key. */
  function AssignmentLines(ks: seq<string>, env: Dict): (ls: seq<string>)
    requires forall k :: k in ks ==> k in env.values
    ensures |ls| == |ks| && forall j :: 0 <= j < |ks| ==> ls[j] == ks[j] + "=" + env.values[ks[j]] + "\n"
  {
    seq(|ks|, j requires 0 <= j < |ks| => ks[j] + "=" + env.values[ks[j]] + "\n")
  }

  /** The lines `write_env_file` writes over a file holding `lines`. */
  function MergeLines(lines: seq<string>, env: Dict): seq<string>
    requires WellFormed(env)
  {
    Rewritten(lines, env) + AssignmentLines(Unassigned(Entries(lines), env.keys), env)
  }

  /** The first pass of `write_env_file`: every line, rewritten or kept, and the keys it rewrote. */
  method RewriteLines(lines: seq<string>, env: Dict) returns (newLines: seq<string>, updated: set<string>)
    ensures newLines == Rewritten(lines, env)
    ensures forall k :: k in updated <==> k in env.values && AssignsSome(Entries(lines), k)
  {
    ghost var es := Entries(lines);
    updated := {};
    newLines := [];
    for i := 0 to |lines|
      invariant newLines == Rewritten(lines[..i], env)
      invariant forall k :: k in updated <==> k in env.values && AssignsSome(es[..i], k)
    {
      RewrittenSnoc(lines, env, i);
      AssignsSomeSnoc(es, i);
      var e := ParseLine(lines[i]);
      assert e == es[i];
      if e.Some? && e.value.0 in env.values {
        var key := e.value.0;
        newLines := newLines + [key + "=" + env.values[key] + "\n"];
        updated := updated + {key};
      } else {
        newLines := newLines + [lines[i]];
      }
    }
    assert lines[..|lines|] == lines;
    assert es[..|lines|] == es;
  }

  lemma RewrittenSnoc(lines: seq<string>, env: Dict, i: nat)
    requires i < |lines|
    ensures Rewritten(lines[..i + 1], env) == Rewritten(lines[..i], env) + [MergeLine(lines[i], env)]
  {
  }

  lemma AssignsSomeSnoc(es: seq<Entry>, i: nat)
    requires i < |es|
    ensures forall k :: AssignsSome(es[..i + 1], k) <==> AssignsSome(es[..i], k) || AssignsAt(es, i, k)
  {
    forall k ensures AssignsSome(es[..i + 1], k) <==> AssignsSome(es[..i], k) || AssignsAt(es, i, k) {
      if AssignsSome(es[..i], k) {
        var j :| 0 <= j < i && AssignsAt(es[..i], j, k);
        assert AssignsAt(es[..i + 1], j, k);
      }
      if AssignsAt(es, i, k) {
        assert AssignsAt(es[..i + 1], i, k);
      }
      if AssignsSome(es[..i + 1], k) && !AssignsAt(es, i, k) {
        var j :| 0 <= j < i + 1 && AssignsAt(es[..i + 1], j, k);
        assert AssignsAt(es[..i], j, k);
      }
    }
  }

  /** The text `write_env_file` writes over a file holding `text`: the merged lines one after the other. */
  function WrittenText(text: string, env: Dict): string
    requires WellFormed(env)
  {
    Concat(MergeLines(ReadLines(text), env))
  }

  /** `write_env_file`: a missing file is treated as empty. */
  method WriteEnv(file: Option<string>, env: Dict) returns (written: string)
    requires WellFormed(env)
    ensures written == WrittenText(file.GetOr(""), env)
  {
    var lines := if file.Some? then ReadLines(file.value) else [];
    var kept, updated := RewriteLines(lines, env);
    var added := AppendUnassigned(Entries(lines), env, updated);
    written := Concat(kept + added);
  }

  /** The second pass of `write_env_file`: a `key=value` line for each key of `env` not rewritten, in the dict's order. */
  method AppendUnassigned(ghost es: seq<Entry>, env: Dict, updated: set<string>) returns (added: seq<string>)
    requires WellFormed(env)
    requires forall k :: k in updated <==> k in env.values && AssignsSome(es, k)
    ensures added == AssignmentLines(Unassigned(es, env.keys), env)
  {
    var ks := env.keys;
    assert forall k :: k in ks ==> k in env.values by {
      assert forall k :: k in ks ==> k in Elements(ks);
    }
    added := [];
    for j := 0 to |ks|
      invariant forall k :: k in Unassigned(es, ks[..j]) ==> k in env.values
      invariant added == AssignmentLines(Unassigned(es, ks[..j]), env)
    {
      var key := ks[j];
      ghost var done := Unassigned(es, ks[..j]);
      UnassignedSnoc(es, ks, j);
      if key !in updated {
        AssignmentLinesSnoc(done, key, env);
        added := added + [key + "=" + env.values[key] + "\n"];
      } else {
        assert done + [] == done;
      }
    }
    assert ks[..|ks|] == ks;
  }

  lemma UnassignedSnoc(es: seq<Entry>, ks: seq<string>, j: nat)
    requires j < |ks|
    ensures Unassigned(es, ks[..j + 1]) == Unassigned(es, ks[..j]) + (if AssignsSome(es, ks[j]) then [] else [ks[j]])
  {
    assert ks[..j + 1][..j] == ks[..j];
  }

  lemma AssignmentLinesSnoc(ks: seq<string>, k: string, env: Dict)
    requires forall k' :: k' in ks + [k] ==> k' in env.values
    ensures AssignmentLines(ks + [k], env) == AssignmentLines(ks, env) + [k + "=" + env.values[k] + "\n"]
  {
  }

  // ================================================================ reading back what was written

  ghost predicate CleanDict(env: Dict)
  {
    forall k :: k in env.values ==> CleanEntry(k, env.values[k])
  }

  lemma WrittenLineReadsBack(k: string, v: string)
    requires CleanEntry(k, v)
    ensures ParseLine(k + "=" + v + "\n") == Some((k, v))
  {
    var t := k + "=" + v;
    var line := t + "\n";
    StartsUnblank(k, v);
    assert TrimStart(line) == line;
    assert line[..|line| - 1] == t;
    assert TrimEnd(line) == TrimEnd(t) == t;
    assert Strip(line) == t;
    assert '=' !in k by {
      forall i | 0 <= i < |k| ensures k[i] != '=' { }
    }
    SplitAtEqualsOf(k, v);
  }

  lemma StartsUnblank(k: string, v: string)
    requires CleanEntry(k, v)
    ensures !IsSpace((k + "=" + v + "\n")[0])
  {
  }

  /** Every entry a line yields is written back by `write_env_file` as a line reading the same. */
  lemma AssignmentIsClean(line: string)
    requires IsLine(line) && ParseLine(line).Some?
    ensures CleanEntry(ParseLine(line).value.0, ParseLine(line).value.1)
  {
    var s := Strip(line);
    var (k, v) := ParseLine(line).value;
    assert s == k + "=" + v;
    StrippedLineHasNoNewline(line);
    PartsHaveNoNewline(s, k, v);
    if k != [] {
      assert k[0] == s[0];
    }
    if v != [] {
      assert v[|v| - 1] == s[|s| - 1];
    }
  }

  lemma PartsHaveNoNewline(s: string, k: string, v: string)
    requires s == k + "=" + v && NoNewline(s)
    ensures NoNewline(k) && NoNewline(v)
  {
    assert forall j :: 0 <= j < |k| ==> k[j] == s[j];
    assert forall j :: 0 <= j < |v| ==> v[j] == s[|k| + 1 + j];
  }

  /** A stripped line holds no newline: reading leaves one at most at the line's end, and stripping removes it. */
  lemma StrippedLineHasNoNewline(line: string)
    requires IsLine(line)
    ensures NoNewline(Strip(line))
  {
    var s := Strip(line);
    var i := StripCutsBlanks(line);
    forall j | 0 <= j < |s| ensures s[j] != '\n' {
      assert s[j] == line[i + j];
      if i + j == |line| - 1 {
        assert j == |s| - 1 && !IsSpace(s[j]);
      }
    }
  }

  lemma {:induction false} ParsedIsClean(lines: seq<string>)
    requires Shaped(lines)
    ensures CleanDict(ParseEnv(lines))
  {
    var es := Entries(lines);
    forall k | k in Build(es).values
      ensures CleanEntry(k, Build(es).values[k])
    {
      ParseLastWins(es, k);
      var i :| 0 <= i < |es| && AssignsAt(es, i, k) && Build(es).values[k] == es[i].value.1;
      AssignmentIsClean(lines[i]);
    }
  }

  /** The entry a merged line reads as: a key of `env` takes `env`'s value, anything else is unchanged. */
  function MergeEntry(e: Entry, env: Dict): Entry
  {
    if e.Some? && e.value.0 in env.values then Some((e.value.0, env.values[e.value.0])) else e
  }

  /** The entries of merged lines: an assignment of a key of `env` takes `env`'s value. */
  function MergeEntries(es: seq<Entry>, env: Dict): (r: seq<Entry>)
    ensures |r| == |es| && forall i :: 0 <= i < |es| ==> r[i] == MergeEntry(es[i], env)
  {
    seq(|es|, i requires 0 <= i < |es| => MergeEntry(es[i], env))
  }

  /** The entries of appended lines: one assignment per key, with `env`'s value. */
  function AddedEntries(ks: seq<string>, env: Dict): (r: seq<Entry>)
    requires forall k :: k in ks ==> k in env.values
    ensures |r| == |ks| && forall j :: 0 <= j < |ks| ==> r[j] == Some((ks[j], env.values[ks[j]]))
  {
    seq(|ks|, j requires 0 <= j < |ks| => Some((ks[j], env.values[ks[j]])))
  }

  /** A merged line reads as its old entry with `env`'s value put in for a key of `env`. */
  lemma MergedLineEntry(line: string, env: Dict)
    requires CleanDict(env)
    ensures ParseLine(MergeLine(line, env)) == MergeEntry(ParseLine(line), env)
  {
    var e := ParseLine(line);
    if e.Some? && e.value.0 in env.values {
      WrittenLineReadsBack(e.value.0, env.values[e.value.0]);
    }
  }

  /** A written `key=value` line, with no newline in the key or the value, is one line ending in a newline. */
  lemma WrittenLineShape(k: string, v: string)
    requires NoNewline(k) && NoNewline(v)
    ensures IsLine(k + "=" + v + "\n") && Terminated(k + "=" + v + "\n")
  {
    var l := k + "=" + v + "\n";
    forall j | 0 <= j < |l| - 1 ensures l[j] != '\n' {
      if j < |k| { assert l[j] == k[j]; }
      else if j > |k| { assert l[j] == v[j - |k| - 1]; }
    }
  }

  /** A merged line is still a line, and ends in a newline when the old one did. */
  lemma MergedLineShape(line: string, env: Dict)
    requires IsLine(line) && CleanDict(env)
    ensures IsLine(MergeLine(line, env)) && (Terminated(line) ==> Terminated(MergeLine(line, env)))
  {
    var e := ParseLine(line);
    if e.Some? && e.value.0 in env.values {
      WrittenLineShape(e.value.0, env.values[e.value.0]);
    }
  }

  /**
   * The lines are appended right after the last old line, so they come out
   * as lines of their own only when that line, as written, ends in a newline,
   * or when nothing is appended.
   */
  predicate AppendSafe(lines: seq<string>, env: Dict)
  {
    |lines| == 0 || Terminated(MergeLine(lines[|lines| - 1], env)) || Unassigned(Entries(lines), env.keys) == []
  }

  /** Rewritten lines are lines, each ending in a newline when the old one did. */
  lemma RewrittenShape(lines: seq<string>, env: Dict)
    requires CleanDict(env) && forall i :: 0 <= i < |lines| ==> IsLine(lines[i])
    ensures forall i :: 0 <= i < |lines| ==>
      IsLine(Rewritten(lines, env)[i]) && (Terminated(lines[i]) ==> Terminated(Rewritten(lines, env)[i]))
  {
    forall i | 0 <= i < |lines|
      ensures IsLine(Rewritten(lines, env)[i]) && (Terminated(lines[i]) ==> Terminated(Rewritten(lines, env)[i]))
    {
      MergedLineShape(lines[i], env);
    }
  }

  /** Appended `key=value` lines are lines ending in a newline. */
  lemma AssignmentLinesShape(ks: seq<string>, env: Dict)
    requires CleanDict(env) && forall k :: k in ks ==> k in env.values
    ensures forall j :: 0 <= j < |ks| ==> IsLine(AssignmentLines(ks, env)[j]) && Terminated(AssignmentLines(ks, env)[j])
  {
    forall j | 0 <= j < |ks|
      ensures IsLine(AssignmentLines(ks, env)[j]) && Terminated(AssignmentLines(ks, env)[j])
    {
      var k := ks[j];
      assert CleanEntry(k, env.values[k]);
      assert NoNewline(k) by {
        forall i | 0 <= i < |k| ensures k[i] != '\n' { }
      }
      WrittenLineShape(k, env.values[k]);
    }
  }

  /** Two runs of lines put one after the other are shaped when the first run's last line ends in a newline. */
  lemma ShapedJoin(r: seq<string>, a: seq<string>)
    requires Shaped(r) && Shaped(a) && (|r| == 0 || |a| == 0 || Terminated(r[|r| - 1]))
    ensures Shaped(r + a)
  {
    var m := r + a;
    forall i | 0 <= i < |m| ensures IsLine(m[i]) && (i < |m| - 1 ==> Terminated(m[i])) {
      if i < |r| { assert m[i] == r[i]; } else { assert m[i] == a[i - |r|]; }
    }
  }

  /** Merging keeps lines shaped as reading gives them, when the appended lines start on a line of their own. */
  lemma {:induction false} MergedShaped(lines: seq<string>, env: Dict)
    requires WellFormed(env) && CleanDict(env) && Shaped(lines) && AppendSafe(lines, env)
    ensures Shaped(MergeLines(lines, env))
  {
    var r := Rewritten(lines, env);
    var added := Unassigned(Entries(lines), env.keys);
    assert forall k :: k in added ==> k in env.values by {
      assert forall k :: k in env.keys ==> k in Elements(env.keys);
    }
    var a := AssignmentLines(added, env);
    RewrittenShape(lines, env);
    AssignmentLinesShape(added, env);
    if |lines| > 0 && added != [] {
      assert r[|r| - 1] == MergeLine(lines[|lines| - 1], env);
      assert Terminated(r[|r| - 1]);
    }
    ShapedJoin(r, a);
  }

  lemma {:induction false} EntriesAppend(a: seq<string>, b: seq<string>)
    ensures Entries(a + b) == Entries(a) + Entries(b)
  {
  }

  lemma {:induction false} RewrittenEntries(lines: seq<string>, env: Dict)
    requires CleanDict(env)
    ensures Entries(Rewritten(lines, env)) == MergeEntries(Entries(lines), env)
  {
    forall i | 0 <= i < |lines|
      ensures ParseLine(Rewritten(lines, env)[i]) == MergeEntry(ParseLine(lines[i]), env)
    {
      MergedLineEntry(lines[i], env);
    }
  }

  lemma {:induction false} AppendedEntries(ks: seq<string>, env: Dict)
    requires CleanDict(env) && forall k :: k in ks ==> k in env.values
    ensures Entries(AssignmentLines(ks, env)) == AddedEntries(ks, env)
  {
    forall j | 0 <= j < |ks|
      ensures ParseLine(AssignmentLines(ks, env)[j]) == Some((ks[j], env.values[ks[j]]))
    {
      WrittenLineReadsBack(ks[j], env.values[ks[j]]);
    }
  }

  /** The merged file reads as the old entries, each merged, followed by one assignment per appended key. */
  lemma {:induction false} MergedLineEntries(lines: seq<string>, env: Dict)
    requires WellFormed(env) && CleanDict(env)
    ensures Entries(MergeLines(lines, env))
         == MergeEntries(Entries(lines), env) + AddedEntries(Unassigned(Entries(lines), env.keys), env)
  {
    var added := Unassigned(Entries(lines), env.keys);
    EntriesAppend(Rewritten(lines, env), AssignmentLines(added, env));
    RewrittenEntries(lines, env);
    AppendedEntries(added, env);
  }

  /** What an entry says about `k`. */
  function ValueFor(e: Entry, k: string): Option<string>
  {
    if e.Some? && e.value.0 == k then Some(e.value.1) else None
  }

  /** Two entry sequences that say the same about `k`, position by position, read the same for `k`. */
  lemma {:induction false} SameAssignmentsSameValue(a: seq<Entry>, b: seq<Entry>, k: string)
    requires |a| == |b|
    requires forall i :: 0 <= i < |a| ==> ValueFor(a[i], k) == ValueFor(b[i], k)
    ensures LastValue(a, k) == LastValue(b, k)
  {
    if |a| > 0 {
      var n := |a| - 1;
      assert forall i :: 0 <= i < n ==> a[..n][i] == a[i] && b[..n][i] == b[i];
      SameAssignmentsSameValue(a[..n], b[..n], k);
    }
  }

  lemma {:induction false} LastValueAppend(a: seq<Entry>, b: seq<Entry>, k: string)
    ensures LastValue(a + b, k) == if LastValue(b, k).Some? then LastValue(b, k) else LastValue(a, k)
  {
    if |b| > 0 {
      assert (a + b)[..|a + b| - 1] == a + b[..|b| - 1];
      LastValueAppend(a, b[..|b| - 1], k);
    } else {
      assert a + b == a;
    }
  }

  /** Merged entries read `env`'s value for a key of `env` that was assigned, and the old value for any other key. */
  lemma {:induction false} MergeEntriesValue(es: seq<Entry>, env: Dict, k: string)
    ensures LastValue(MergeEntries(es, env), k)
         == if k !in env.values then LastValue(es, k)
            else if AssignsSome(es, k) then Some(env.values[k]) else None
  {
    if |es| > 0 {
      var n := |es| - 1;
      assert MergeEntries(es, env)[..n] == MergeEntries(es[..n], env);
      MergeEntriesValue(es[..n], env, k);
      AssignsSomeSnoc(es, n);
      assert es[..n + 1] == es;
    }
  }

  /** The appended entries read `env`'s value for each of their keys and nothing for any other key. */
  lemma {:induction false} AddedEntriesValue(ks: seq<string>, env: Dict, k: string)
    requires forall k' :: k' in ks ==> k' in env.values
    ensures LastValue(AddedEntries(ks, env), k) == if k in ks then Some(env.values[k]) else None
  {
    if |ks| > 0 {
      var n := |ks| - 1;
      assert forall k' :: k' in ks[..n] ==> k' in ks;
      assert AddedEntries(ks, env)[..n] == AddedEntries(ks[..n], env);
      AddedEntriesValue(ks[..n], env, k);
      assert ks == ks[..n] + [ks[n]];
    }
  }

  /**
   * Merging `env` into a file and reading the file back gives `env`'s value
   * for every key of `env`, and what the file said before for every other key.
   */
  lemma {:induction false} MergeThenReadLines(lines: seq<string>, env: Dict, k: string)
    requires WellFormed(env) && CleanDict(env)
    ensures Get(ParseEnv(MergeLines(lines, env)), k) == if k in env.values then Some(env.values[k]) else Get(ParseEnv(lines), k)
  {
    var before := Entries(lines);
    var added := Unassigned(before, env.keys);
    MergedLineEntries(lines, env);
    ParseLastWins(MergeEntries(before, env) + AddedEntries(added, env), k);
    ParseLastWins(before, k);
    LastValueAppend(MergeEntries(before, env), AddedEntries(added, env), k);
    MergeEntriesValue(before, env, k);
    AddedEntriesValue(added, env, k);
    assert k in added <==> k in env.values && !AssignsSome(before, k);
  }

  /**
   * The written file reads as the old entries, each merged, followed by one
   * assignment per appended key, when the appended lines start on a line of
   * their own.
   */
  lemma MergedEntries(text: string, env: Dict)
    requires WellFormed(env) && CleanDict(env) && AppendSafe(ReadLines(text), env)
    ensures var before := Entries(ReadLines(text));
      Entries(ReadLines(WrittenText(text, env)))
        == MergeEntries(before, env) + AddedEntries(Unassigned(before, env.keys), env)
  {
    WrittenLinesReadBack(text, env);
    MergedLineEntries(ReadLines(text), env);
  }

  /**
   * Writing `env` over a file and reading it back gives `env`'s value for
   * every key of `env`, and what the file said before for every other key,
   * when the appended lines start on a line of their own.
   */
  lemma MergeThenRead(text: string, env: Dict, k: string)
    requires WellFormed(env) && CleanDict(env) && AppendSafe(ReadLines(text), env)
    ensures Get(ReadText(WrittenText(text, env)), k) == if k in env.values then Some(env.values[k]) else Get(ReadText(text), k)
  {
    WrittenLinesReadBack(text, env);
    MergeThenReadLines(ReadLines(text), env, k);
  }

  /** The written text reads back as the lines written. */
  lemma WrittenLinesReadBack(text: string, env: Dict)
    requires WellFormed(env) && CleanDict(env) && AppendSafe(ReadLines(text), env)
    ensures ReadLines(WrittenText(text, env)) == MergeLines(ReadLines(text), env)
  {
    ReadLinesShaped(text);
    MergedShaped(ReadLines(text), env);
    ReadLinesConcat(MergeLines(ReadLines(text), env));
  }

  /** A file that is empty or ends in a newline can take appended lines. */
  lemma NewlineEndedIsSafe(text: string, env: Dict)
    requires text == [] || text[|text| - 1] == '\n'
    ensures AppendSafe(ReadLines(text), env)
  {
    var ls := ReadLines(text);
    if ls != [] {
      ReadLinesShaped(text);
      ConcatSnoc(ls);
      var last := ls[|ls| - 1];
      assert IsLine(last);
      assert text[|text| - 1] == last[|last| - 1];
    }
  }

  lemma {:induction false} ConcatSnoc(ls: seq<string>)
    requires |ls| > 0
    ensures Concat(ls) == Concat(ls[..|ls| - 1]) + ls[|ls| - 1]
    decreases |ls|
  {
    if |ls| > 1 {
      ConcatSnoc(ls[1..]);
      assert ls[1..][..|ls| - 2] == ls[..|ls| - 1][1..];
    } else {
      assert ls[..0] == [];
    }
  }

  /**
   * Nothing separates the appended lines from the last old line: over a file
   * ending in the comment `# end` without a newline, the appended assignment
   * joins the comment, and the key written does not read back.
   */
  lemma AppendAfterUnterminatedLine()
    ensures var env := Dict(["K"], map["K" := "v"]);
      WellFormed(env) && CleanDict(env) && !AppendSafe(ReadLines("# end"), env)
      && WrittenText("# end", env) == "# endK=v\n"
      && Get(ReadText(WrittenText("# end", env)), "K") == None
  {
    SampleLines();
    CommentLine("# end");
    SampleEntry();
    AppendAfterLine("# end", "K", "v");
    CommentText("# endK=v\n");
  }

  lemma SampleLines()
    ensures IsLine("# end") && !Terminated("# end") && IsLine("# endK=v\n")
    ensures "# end" + ("K" + "=" + "v" + "\n") == "# endK=v\n"
  {
  }

  lemma SampleEntry()
    ensures CleanEntry("K", "v")
  {
  }

  /**
   * Over a file holding one line that assigns nothing and has no newline,
   * writing one clean variable appends its line right after that line.
   */
  lemma AppendAfterLine(l: string, k: string, v: string)
    requires IsLine(l) && !Terminated(l) && ParseLine(l) == None && CleanEntry(k, v)
    ensures var env := Dict([k], map[k := v]);
      WellFormed(env) && CleanDict(env) && !AppendSafe(ReadLines(l), env)
      && WrittenText(l, env) == l + (k + "=" + v + "\n")
  {
    var env := Dict([k], map[k := v]);
    OneEntryDict(k, v);
    OneLine(l);
    NothingAssigned(l, k);
    var a := k + "=" + v + "\n";
    assert env.keys[0] == k && env.values[k] == v;
    MergeOverComment(l, env, a);
    assert MergeLines(ReadLines(l), env) == [l, a];
    ConcatPair(l, a);
    assert WrittenText(l, env) == l + a;
    assert MergeLine(ReadLines(l)[0], env) == l;
  }

  lemma OneEntryDict(k: string, v: string)
    requires CleanEntry(k, v)
    ensures WellFormed(Dict([k], map[k := v])) && CleanDict(Dict([k], map[k := v]))
  {
    assert Elements([k]) == {k};
  }

  lemma NothingAssigned(l: string, k: string)
    requires ParseLine(l) == None
    ensures Unassigned(Entries([l]), [k]) == [k]
  {
    var es := Entries([l]);
    assert es[0] == None;
    assert !AssignsSome(es, k);
    assert [k][..0] == [];
  }

  lemma MergeOverComment(l: string, env: Dict, a: string)
    requires WellFormed(env) && ParseLine(l) == None && |env.keys| == 1 && env.keys[0] in env.values
    requires Unassigned(Entries([l]), env.keys) == env.keys
    requires a == env.keys[0] + "=" + env.values[env.keys[0]] + "\n"
    ensures MergeLines([l], env) == [l, a]
  {
    assert MergeLine(l, env) == l;
    assert Rewritten([l], env) == [l];
    assert AssignmentLines(env.keys, env) == [a];
  }

  lemma ConcatPair(a: string, b: string)
    ensures Concat([a, b]) == a + b
  {
    assert [a, b][1..] == [b];
    assert Concat([b]) == b;
  }

  /** A text holding one line reads as that line. */
  lemma OneLine(l: string)
    requires IsLine(l)
    ensures ReadLines(l) == [l]
  {
    LineLengthOf(l, []);
    assert l + [] == l && l[..|l|] == l && l[|l|..] == [];
  }

  /** A line starting with `#` assigns nothing. */
  lemma CommentLine(l: string)
    requires l != [] && l[0] == '#'
    ensures ParseLine(l) == None
  {
    assert TrimStart(l) == l;
  }

  /** A text holding one comment line reads as no variable at all. */
  lemma CommentText(l: string)
    requires IsLine(l) && l[0] == '#'
    ensures ReadText(l) == EmptyDict
  {
    OneLine(l);
    CommentLine(l);
    assert Entries([l]) == [None];
    assert Build([None]) == Build([]);
  }

  // ================================================================ switching

  /** `env[key] = value` for each variable of a table, in order (a dict's items, so no key repeats). */
  function PutAll(d: Dict, vars: seq<(string, string)>): (r: Dict)
    requires WellFormed(d) && Distinct(Keys(vars))
    ensures WellFormed(r)
  {
    if |vars| == 0 then d
    else
      InitKeys(vars);
      Put(PutAll(d, vars[..|vars| - 1]), vars[|vars| - 1].0, vars[|vars| - 1].1)
  }

  /** Dropping the last variable keeps the keys distinct, and the last key is not among the others. */
  lemma InitKeys(vars: seq<(string, string)>)
    requires |vars| > 0 && Distinct(Keys(vars))
    ensures Distinct(Keys(vars[..|vars| - 1]))
    ensures forall i :: 0 <= i < |vars| - 1 ==> vars[i].0 != vars[|vars| - 1].0
  {
    assert Keys(vars[..|vars| - 1]) == Keys(vars)[..|vars| - 1];
  }

  /** After `PutAll`, every variable of the table has the table's value and every other key is as it was. */
  lemma {:induction false} PutAllGet(d: Dict, vars: seq<(string, string)>)
    requires WellFormed(d) && Distinct(Keys(vars))
    ensures forall k :: k !in Keys(vars) ==> Get(PutAll(d, vars), k) == Get(d, k)
    ensures forall i :: 0 <= i < |vars| ==> Get(PutAll(d, vars), vars[i].0) == Some(vars[i].1)
  {
    if |vars| > 0 {
      var init := vars[..|vars| - 1];
      InitKeys(vars);
      PutAllGet(d, init);
      assert Keys(init) == Keys(vars)[..|vars| - 1];
      forall i | 0 <= i < |vars| - 1 ensures init[i] == vars[i] {}
    }
  }

  method UpdateEnv(env: Dict, vars: seq<(string, string)>) returns (env': Dict)
    requires WellFormed(env) && Distinct(Keys(vars))
    ensures env' == PutAll(env, vars)
  {
    env' := env;
    for i := 0 to |vars|
      invariant env' == PutAll(env, vars[..i])
    {
      assert vars[..i + 1][..i] == vars[..i];
      assert Keys(vars[..i + 1]) == Keys(vars)[..i + 1];
      var (key, value) := vars[i];
      env' := Put(env', key, value);
    }
    assert vars[..|vars|] == vars;
  }

  /** A required key counts as missing when unset, empty, or still the placeholder `your-<provider>-api-key`. */
  predicate IsMissing(env: Dict, provider: string, k: string)
  {
    var v := Get(env, k);
    v.None? || v.value == "" || v.value == "your-" + provider + "-api-key"
  }

  /** The provider is known and none of its required keys is missing. */
  predicate Configured(provider: string, env: Dict)
  {
    var p := Lookup(provider);
    p.Some? && forall k :: k in p.value.requiredKeys ==> !IsMissing(env, provider, k)
  }

  /** The required keys `check_provider_config` reports, in order. */
  function MissingKeys(required: seq<string>, env: Dict, provider: string): (r: seq<string>)
    ensures forall k :: k in r <==> k in required && IsMissing(env, provider, k)
  {
    if |required| == 0 then []
    else
      var k := required[|required| - 1];
      assert required == required[..|required| - 1] + [k];
      MissingKeys(required[..|required| - 1], env, provider) + (if IsMissing(env, provider, k) then [k] else [])
  }

  /** `check_provider_config`, with the keys it reports as missing. */
  method CheckProviderConfig(provider: string, env: Dict) returns (ok: bool, missing: seq<string>)
    ensures ok <==> Configured(provider, env)
    ensures Lookup(provider).None? ==> missing == []
    ensures Lookup(provider).Some? ==> missing == MissingKeys(Lookup(provider).value.requiredKeys, env, provider)
  {
    var config := Lookup(provider);
    if config.None? {
      return false, [];
    }
    missing := CollectMissing(config.value.requiredKeys, env, provider);
    ok := missing == [];
    ConfiguredIffNoneMissing(provider, env);
  }

  /** The loop of `check_provider_config` over the required keys. */
  method CollectMissing(required: seq<string>, env: Dict, provider: string) returns (missing: seq<string>)
    ensures missing == MissingKeys(required, env, provider)
  {
    missing := [];
    for i := 0 to |required|
      invariant missing == MissingKeys(required[..i], env, provider)
    {
      assert required[..i + 1][..i] == required[..i];
      var key := required[i];
      var v := Get(env, key);
      if v.None? || v.value == "" || v.value == "your-" + provider + "-api-key" {
        missing := missing + [key];
      }
    }
    assert required[..|required|] == required;
  }

  /** A known provider is configured exactly when none of its required keys is missing. */
  lemma ConfiguredIffNoneMissing(provider: string, env: Dict)
    requires Lookup(provider).Some?
    ensures Configured(provider, env) <==> MissingKeys(Lookup(provider).value.requiredKeys, env, provider) == []
  {
    var m := MissingKeys(Lookup(provider).value.requiredKeys, env, provider);
    if m != [] {
      assert m[0] in m;
    }
  }

  /** Ollama has no required keys, so it is configured whatever the file says. */
  lemma OllamaAlwaysConfigured(env: Dict)
    ensures Configured("ollama", env)
  {
    LookupInAt(Providers, 5);
  }

  datatype Switch = Unsupported | Switched(env: Dict, written: string, ready: bool)

  /**
   * `switch_provider`: an unknown provider stops before the file is read or
   * written; otherwise the table's variables are set, the file rewritten, and
   * the configuration checked on the updated dictionary.
   */
  method SwitchTo(provider: string, file: Option<string>) returns (r: Switch)
    ensures r.Unsupported? <==> Lookup(provider).None?
    ensures r.Switched? ==>
      var before := if file.Some? then ReadText(file.value) else EmptyDict;
      r.env == PutAll(before, Lookup(provider).value.envVars)
      && r.written == WrittenText(file.GetOr(""), r.env)
      && (r.ready <==> Configured(provider, r.env))
  {
    var config := Lookup(provider);
    if config.None? {
      return Unsupported;
    }
    var env := ReadEnv(file);
    env := UpdateEnv(env, config.value.envVars);
    var written := WriteEnv(file, env);
    var ok, _ := CheckProviderConfig(provider, env);
    r := Switched(env, written, ok);
  }

  /**
   * After a switch, the written file reads back with every variable of the
   * provider's table at the table's value, and every other key as it was.
   */
  lemma {:induction false} SwitchThenRead(provider: string, text: string, k: string)
    requires Lookup(provider).Some?
    requires AppendSafe(ReadLines(text), PutAll(ReadText(text), Lookup(provider).value.envVars))
    ensures var p := Lookup(provider).value;
            var env := PutAll(ReadText(text), p.envVars);
            var back := ReadText(WrittenText(text, env));
            (forall i :: 0 <= i < |p.envVars| ==> Get(back, p.envVars[i].0) == Some(p.envVars[i].1))
            && (k !in Keys(p.envVars) ==> Get(back, k) == Get(ReadText(text), k))
  {
    var p := Lookup(provider).value;
    TableIsClean();
    UpdateThenRead(text, p.envVars, k);
  }

  /** Setting a table's variables over the dictionary of a file's lines, merging, and reading the lines back. */
  lemma {:induction false} UpdateThenReadLines(lines: seq<string>, vars: seq<(string, string)>, k: string)
    requires Distinct(Keys(vars)) && CleanVars(vars) && Shaped(lines)
    ensures var env := PutAll(ParseEnv(lines), vars);
            var back := ParseEnv(MergeLines(lines, env));
            (forall i :: 0 <= i < |vars| ==> Get(back, vars[i].0) == Some(vars[i].1))
            && (k !in Keys(vars) ==> Get(back, k) == Get(ParseEnv(lines), k))
  {
    var d := ParseEnv(lines);
    var env := PutAll(d, vars);
    ParsedIsClean(lines);
    UpdatedIsClean(d, vars);
    PutAllGet(d, vars);
    TableReadsBack(lines, env, vars);
    MergeThenReadLines(lines, env, k);
  }

  /**
   * Setting a table's variables over a file's dictionary, writing the file
   * and reading it back, when the appended lines start on a line of their own.
   */
  lemma UpdateThenRead(text: string, vars: seq<(string, string)>, k: string)
    requires Distinct(Keys(vars)) && CleanVars(vars)
    requires AppendSafe(ReadLines(text), PutAll(ReadText(text), vars))
    ensures var env := PutAll(ReadText(text), vars);
            var back := ReadText(WrittenText(text, env));
            (forall i :: 0 <= i < |vars| ==> Get(back, vars[i].0) == Some(vars[i].1))
            && (k !in Keys(vars) ==> Get(back, k) == Get(ReadText(text), k))
  {
    var lines := ReadLines(text);
    var env := PutAll(ReadText(text), vars);
    ReadLinesShaped(text);
    ParsedIsClean(lines);
    UpdatedIsClean(ReadText(text), vars);
    WrittenLinesReadBack(text, env);
    UpdateThenReadLines(lines, vars, k);
  }

  lemma {:induction false} TableReadsBack(lines: seq<string>, env: Dict, vars: seq<(string, string)>)
    requires WellFormed(env) && CleanDict(env)
    requires forall i :: 0 <= i < |vars| ==> Get(env, vars[i].0) == Some(vars[i].1)
    ensures forall i :: 0 <= i < |vars| ==> Get(ParseEnv(MergeLines(lines, env)), vars[i].0) == Some(vars[i].1)
  {
    forall i | 0 <= i < |vars| ensures Get(ParseEnv(MergeLines(lines, env)), vars[i].0) == Some(vars[i].1) {
      MergeThenReadLines(lines, env, vars[i].0);
    }
  }

  lemma {:induction false} UpdatedIsClean(d: Dict, vars: seq<(string, string)>)
    requires WellFormed(d) && Distinct(Keys(vars)) && CleanDict(d) && CleanVars(vars)
    ensures CleanDict(PutAll(d, vars))
  {
    if |vars| > 0 {
      var init := vars[..|vars| - 1];
      assert Keys(init) == Keys(vars)[..|vars| - 1];
      UpdatedIsClean(d, init);
    }
  }

  lemma TableIsClean()
    ensures forall p :: p in Providers ==> CleanVars(p.envVars)
  {
    OpenAIIsClean();
    AnthropicIsClean();
    ZaiIsClean();
    KimiIsClean();
    MiniMaxIsClean();
    OllamaIsClean();
  }


  // ================================================================ status

  /** `env.get("LLM_PROVIDER", "openai")`. */
  function CurrentProvider(env: Dict): string
  {
    var v := Get(env, "LLM_PROVIDER");
    if v.Some? then v.value else "openai"
  }

  /** The credential check of `show_status`: every required key set, non-empty and not a `your-` placeholder. */
  function HasCredentials(p: Provider, env: Dict): (ok: bool)
    ensures p.requiredKeys == [] ==> ok
    ensures ok <==> forall k :: k in p.requiredKeys ==>
      Get(env, k).Some? && Get(env, k).value != "" && !StartsWith(Get(env, k).value, "your-")
  {
    if |p.requiredKeys| > 0 then
      forall k :: k in p.requiredKeys ==>
        var v := Get(env, k);
        v.Some? && v.value != "" && !StartsWith(v.value, "your-")
    else true
  }

  /** The status listing's check is the stricter one: credentials it accepts pass `check_provider_config`. */
  lemma CredentialsImplyConfigured(provider: string, env: Dict)
    requires Lookup(provider).Some? && HasCredentials(Lookup(provider).value, env)
    ensures Configured(provider, env)
  {
    var p := Lookup(provider).value;
    forall k | k in p.requiredKeys ensures !IsMissing(env, provider, k) {
      assert StartsWith("your-" + provider + "-api-key", "your-");
    }
  }

  /** The converse fails: a placeholder for another provider passes `check_provider_config` but not the listing. */
  lemma ConfiguredWithoutCredentials()
    ensures var env := Dict(["OPENAI_API_KEY"], map["OPENAI_API_KEY" := "your-key"]);
            Configured("openai", env) && !HasCredentials(Providers[0], env)
  {
    var env := Dict(["OPENAI_API_KEY"], map["OPENAI_API_KEY" := "your-key"]);
    LookupInAt(Providers, 0);
    assert "OPENAI_API_KEY" in OpenAI.requiredKeys && Get(env, "OPENAI_API_KEY") == Some("your-key");
    assert |"your-" + "openai" + "-api-key"| == 19;
    assert StartsWith("your-key", "your-");
  }

  /** One status row per provider: its id, whether it is the current one, and whether its credentials are present. */
  function StatusRows(env: Dict): (rows: seq<(string, bool, bool)>)
    ensures |rows| == |Providers|
    ensures forall i :: 0 <= i < |rows| ==>
      rows[i] == (Providers[i].id, Providers[i].id == CurrentProvider(env), HasCredentials(Providers[i], env))
  {
    seq(|Providers|, i requires 0 <= i < |Providers| =>
      (Providers[i].id, Providers[i].id == CurrentProvider(env), HasCredentials(Providers[i], env)))
  }

  /** Exactly one row is marked active when the current provider is in the table, none otherwise. */
  lemma OneActiveRow(env: Dict)
    ensures var rows := StatusRows(env);
            (Lookup(CurrentProvider(env)).Some? ==> exists i :: 0 <= i < |rows| && rows[i].1 && forall j :: 0 <= j < |rows| && j != i ==> !rows[j].1)
            && (Lookup(CurrentProvider(env)).None? ==> forall i :: 0 <= i < |rows| ==> !rows[i].1)
  {
    var c := CurrentProvider(env);
    var rows := StatusRows(env);
    var flags := seq(|rows|, j requires 0 <= j < |rows| => rows[j].1);
    var ids := seq(|Providers|, j requires 0 <= j < |Providers| => Providers[j].id);
    IdsDistinct();
    OneMatch(ids, flags, c);
  }

  /** In a list of distinct ids, the flags marking those equal to `c` mark at most one entry. */
  lemma OneMatch(ids: seq<string>, flags: seq<bool>, c: string)
    requires Distinct(ids) && |flags| == |ids|
    requires forall j :: 0 <= j < |ids| ==> (flags[j] <==> ids[j] == c)
    ensures (exists i :: 0 <= i < |ids| && ids[i] == c) ==>
      exists i :: 0 <= i < |flags| && flags[i] && forall j :: 0 <= j < |flags| && j != i ==> !flags[j]
  {
  }

  lemma IdsDistinct()
    ensures forall i, j :: 0 <= i < j < |Providers| ==> Providers[i].id != Providers[j].id
  {
  }
}
