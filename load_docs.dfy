/**
 * The documentation loader: discovering the workspace's documents, the
 * category a path falls in, the statistics read from each document, and
 * the tallies of a load (per category, and of successful and failed
 * uploads).
 *
 * The file system and the server are parameters: globbing is a function
 * from an extension to the paths it yields, reading a file a function from
 * its path to its text (`None` where reading raises), and uploading a
 * function from a document to whether the server accepted it.
 */
module LoadDocs {
  import opened Common

  // ================================================================ discovery

  const SupportedExtensions: seq<string> :=
    [".md", ".txt", ".rst", ".py", ".js", ".ts", ".json", ".yaml", ".yml", ".toml"]

  /** Fragments whose presence anywhere in a path drops it (`*.pyc` is matched literally, as a substring). */
  const ExcludedPatterns: seq<string> :=
    [".git", "__pycache__", "node_modules", ".venv", "venv", "*.pyc", ".pytest_cache", ".mypy_cache", "data/"]

  /** Python's `str` ordering: lexicographic by code point, a proper prefix first. */
  predicate StrLe(a: string, b: string)
  {
    if a == [] then true
    else if b == [] then false
    else if a[0] != b[0] then a[0] < b[0]
    else StrLe(a[1..], b[1..])
  }

  /** Ordering of paths: lexicographic on their `/`-separated parts, each compared as a string. */
  predicate PartsLe(a: seq<string>, b: seq<string>)
  {
    if a == [] then true
    else if b == [] then false
    else if a[0] != b[0] then StrLe(a[0], b[0])
    else PartsLe(a[1..], b[1..])
  }

  function PathLe(): (string, string) -> bool
  {
    (a: string, b: string) => PartsLe(SplitOn(a, "/"), SplitOn(b, "/"))
  }

  lemma {:induction false} StrLeTotal(a: string, b: string)
    ensures StrLe(a, b) || StrLe(b, a)
  {
    if a != [] && b != [] && a[0] == b[0] {
      StrLeTotal(a[1..], b[1..]);
    }
  }

  lemma {:induction false} PartsLeTotal(a: seq<string>, b: seq<string>)
    ensures PartsLe(a, b) || PartsLe(b, a)
  {
    if a != [] && b != [] {
      if a[0] != b[0] {
        StrLeTotal(a[0], b[0]);
      } else {
        PartsLeTotal(a[1..], b[1..]);
      }
    }
  }

  /** Any two paths are ordered one way or the other, so sorting by this order yields a sorted list. */
  lemma PathLeTotal()
    ensures Total(PathLe())
  {
    forall a: string, b: string ensures PathLe()(a, b) || PathLe()(b, a) {
      PartsLeTotal(SplitOn(a, "/"), SplitOn(b, "/"));
    }
  }

  /** What `discover_documents` returns for an existing directory: the kept paths, sorted. */
  function Discovered(glob: string -> seq<string>): seq<string>
  {
    SortBy(WithoutExcluded(Globbed(SupportedExtensions, glob), ExcludedPatterns), PathLe())
  }

  /**
   * `discover_documents`: a missing directory gives no documents; otherwise
   * the paths each extension's glob yields, without excluded ones, sorted.
   */
  method DiscoverDocuments(dirExists: bool, glob: string -> seq<string>) returns (documents: seq<string>)
    ensures !dirExists ==> documents == []
    ensures dirExists ==> documents == Discovered(glob)
  {
    documents := [];
    if !dirExists {
      return;
    }
    for k := 0 to |SupportedExtensions|
      invariant documents == Globbed(SupportedExtensions[..k], glob)
    {
      assert SupportedExtensions[..k + 1][..k] == SupportedExtensions[..k];
      documents := documents + glob(SupportedExtensions[k]);
    }
    assert SupportedExtensions[..|SupportedExtensions|] == SupportedExtensions;
    var filtered := Keep(documents);
    documents := SortBy(filtered, PathLe());
  }

  /** The filtering loop of `discover_documents`. */
  method Keep(documents: seq<string>) returns (filtered: seq<string>)
    ensures filtered == WithoutExcluded(documents, ExcludedPatterns)
  {
    filtered := [];
    for i := 0 to |documents|
      invariant filtered == WithoutExcluded(documents[..i], ExcludedPatterns)
    {
      assert documents[..i + 1][..i] == documents[..i];
      var shouldExclude := MentionsAny(documents[i], ExcludedPatterns);
      if !shouldExclude {
        filtered := filtered + [documents[i]];
      }
    }
    assert documents[..|documents|] == documents;
  }

  /**
   * The discovered documents are sorted, each globbed path without an
   * excluded fragment appears (as often as it was globbed), and no other.
   */
  lemma DiscoveredProperties(glob: string -> seq<string>)
    ensures SortedBy(Discovered(glob), PathLe())
    ensures multiset(Discovered(glob)) == multiset(WithoutExcluded(Globbed(SupportedExtensions, glob), ExcludedPatterns))
    ensures forall x :: x in Discovered(glob) <==>
      (exists k :: 0 <= k < |SupportedExtensions| && x in glob(SupportedExtensions[k])) && !MentionsAny(x, ExcludedPatterns)
  {
    var kept := WithoutExcluded(Globbed(SupportedExtensions, glob), ExcludedPatterns);
    PathLeTotal();
    SortBySorted(kept, PathLe());
    forall x ensures x in Discovered(glob) <==> x in kept {
      assert x in Discovered(glob) <==> x in multiset(Discovered(glob));
      assert x in kept <==> x in multiset(kept);
    }
  }

  // ================================================================ categories

  const Labels: seq<string> := ["trustgraph", "documentation", "api", "architecture", "guide", "research",
                                "ecosystem", "python_code", "javascript_code", "markdown", "config", "other"]

  /** The substring rules of `categorize_document`, in the order they are tried, each with its label. */
  const SubstringRules: seq<(seq<string>, string)> := [
    (["trustgraph"], "trustgraph"),
    (["documentation", "/docs/"], "documentation"),
    (["/api/", "api."], "api"),
    (["architecture", "arquitectura"], "architecture"),
    (["guide", "guia"], "guide"),
    (["research"], "research"),
    (["ecosystem"], "ecosystem"),
    ([".py"], "python_code"),
    ([".js", ".ts"], "javascript_code")
  ]

  /** The label of the first rule one of whose fragments occurs in the text. */
  function FirstMatch(p: string, rules: seq<(seq<string>, string)>): (r: Option<string>)
    ensures r.None? <==> forall k :: 0 <= k < |rules| ==> !MentionsAny(p, rules[k].0)
    ensures r.Some? ==> exists k :: 0 <= k < |rules| && MentionsAny(p, rules[k].0) && r.value == rules[k].1
                                    && forall j :: 0 <= j < k ==> !MentionsAny(p, rules[j].0)
  {
    if rules == [] then None
    else if MentionsAny(p, rules[0].0) then Some(rules[0].1)
    else
      var r := FirstMatch(p, rules[1..]);
      assert r.Some? ==> exists k :: 1 <= k < |rules| && MentionsAny(p, rules[k].0) && r.value == rules[k].1
                                     && forall j :: 1 <= j < k ==> !MentionsAny(p, rules[j].0) by {
        if r.Some? {
          var k :| 0 <= k < |rules| - 1 && MentionsAny(p, rules[1..][k].0) && r.value == rules[1..][k].1
                   && forall j :: 0 <= j < k ==> !MentionsAny(p, rules[1..][j].0);
          assert forall j :: 1 <= j < k + 1 ==> rules[j] == rules[1..][j - 1];
        }
      }
      r
  }

  /**
   * `categorize_document`: the first substring rule that matches the
   * lowercased path; failing those, the extension as written (not
   * lowercased) decides between `markdown`, `config` and `other`.
   */
  function Categorize(path: string): (cat: string)
    ensures cat in Labels
  {
    var m := FirstMatch(Lower(path), SubstringRules);
    if m.Some? then RuleLabels(); m.value
    else if Suffix(path) == ".md" then "markdown"
    else if Suffix(path) == ".json" then "config"
    else "other"
  }

  lemma RuleLabels()
    ensures forall k :: 0 <= k < |SubstringRules| ==> SubstringRules[k].1 in Labels && SubstringRules[k].1 != "other"
  {
  }

  /** A path is `trustgraph` exactly when its lowercased form contains that word: the first rule wins over all others. */
  lemma TrustgraphFirst(path: string)
    ensures Categorize(path) == "trustgraph" <==> Contains(Lower(path), "trustgraph")
  {
    var p := Lower(path);
    var m := FirstMatch(p, SubstringRules);
    TrustgraphRule();
    MentionsOne(p, "trustgraph");
    if m.Some? && m.value == "trustgraph" {
      var k :| 0 <= k < |SubstringRules| && MentionsAny(p, SubstringRules[k].0) && m.value == SubstringRules[k].1;
      assert k == 0;
    }
  }

  lemma TrustgraphRule()
    ensures SubstringRules[0] == (["trustgraph"], "trustgraph")
    ensures forall k :: 0 < k < |SubstringRules| ==> SubstringRules[k].1 != "trustgraph"
  {
  }

  lemma MentionsOne(text: string, word: string)
    ensures MentionsAny(text, [word]) <==> Contains(text, word)
  {
    if Contains(text, word) {
      assert [word][0] == word;
    }
  }

  /** No substring rule matches the lowercased path, and the extension is neither `.md` nor `.json`. */
  predicate Unmatched(path: string)
  {
    (forall k :: 0 <= k < |SubstringRules| ==> !MentionsAny(Lower(path), SubstringRules[k].0))
    && Suffix(path) != ".md" && Suffix(path) != ".json"
  }

  /** A path is `other` exactly when no rule matches. */
  lemma OtherWhenNothingMatches(path: string)
    ensures Categorize(path) == "other" <==> Unmatched(path)
  {
    RuleLabels();
  }

  /** Whether a path is a `trustgraph` document does not depend on letter case. */
  lemma TrustgraphIgnoresCase(path: string)
    ensures Categorize(Lower(path)) == "trustgraph" <==> Categorize(path) == "trustgraph"
  {
    LowerIdempotent(path);
    TrustgraphFirst(path);
    TrustgraphFirst(Lower(path));
  }

  // ================================================================ statistics

  /** The characters `str.splitlines` breaks at (`\r\n` counts as one break). */
  predicate IsLineBreak(c: char)
  {
    c == '\n' || c == '\r' || c == '\U{0B}' || c == '\U{0C}' || c == '\U{1C}' || c == '\U{1D}' || c == '\U{1E}'
    || c == '\U{85}' || c == '\U{2028}' || c == '\U{2029}'
  }

  /** The length of the text before the first line break. */
  function LineLength(s: string): (n: nat)
    ensures n <= |s|
    ensures forall i :: 0 <= i < n ==> !IsLineBreak(s[i])
    ensures n < |s| ==> IsLineBreak(s[n])
  {
    if s == [] || IsLineBreak(s[0]) then 0 else 1 + LineLength(s[1..])
  }

  /** Python's `s.splitlines()`: the lines without their breaks; a final break starts no new line. */
  function SplitLines(s: string): (lines: seq<string>)
    decreases |s|
    ensures forall k :: 0 <= k < |lines| ==> forall i :: 0 <= i < |lines[k]| ==> !IsLineBreak(lines[k][i])
    ensures lines == [] <==> s == []
    ensures |lines| <= |s|
  {
    if s == [] then []
    else
      var n := LineLength(s);
      if n == |s| then [s]
      else
        var width := if s[n] == '\r' && n + 1 < |s| && s[n + 1] == '\n' then 2 else 1;
        [s[..n]] + SplitLines(s[n + width..])
  }

  /** Lines written one after the other, each followed by `\n`. */
  function Terminated(lines: seq<string>): string
  {
    if lines == [] then "" else lines[0] + "\n" + Terminated(lines[1..])
  }

  predicate NoBreaks(line: string)
  {
    forall i :: 0 <= i < |line| ==> !IsLineBreak(line[i])
  }

  lemma {:induction false} LineLengthOf(line: string, rest: string)
    requires NoBreaks(line)
    ensures LineLength(line + rest) == |line| + LineLength(rest)
  {
    if line == [] {
      assert line + rest == rest;
    } else {
      assert (line + rest)[0] == line[0];
      assert (line + rest)[1..] == line[1..] + rest;
      LineLengthOf(line[1..], rest);
    }
  }

  /** Splitting `\n`-terminated lines that hold no break gives the lines back. */
  lemma {:induction false} SplitTerminated(lines: seq<string>)
    requires forall k :: 0 <= k < |lines| ==> NoBreaks(lines[k])
    ensures SplitLines(Terminated(lines)) == lines
  {
    if lines != [] {
      var l := lines[0];
      var rest := Terminated(lines[1..]);
      var s := Terminated(lines);
      assert s == l + ("\n" + rest);
      LineLengthOf(l, "\n" + rest);
      assert LineLength(s) == |l|;
      assert s[|l|] == '\n';
      assert s[..|l|] == l && s[|l| + 1..] == rest;
      SplitTerminated(lines[1..]);
    }
  }

  /** The number of bytes UTF-8 spends on a character. */
  function Utf8Width(c: char): (w: nat)
    ensures 1 <= w <= 4
    ensures w == 1 <==> (c as int) < 0x80
  {
    if (c as int) < 0x80 then 1 else if (c as int) < 0x800 then 2 else if (c as int) < 0x10000 then 3 else 4
  }

  /** `len(s.encode("utf-8"))`. */
  function Utf8Length(s: string): (n: nat)
    ensures |s| <= n <= 4 * |s|
    ensures n == |s| <==> forall i :: 0 <= i < |s| ==> (s[i] as int) < 0x80
  {
    if s == [] then 0
    else
      var init := s[..|s| - 1];
      var n := Utf8Length(init) + Utf8Width(s[|s| - 1]);
      assert forall i :: 0 <= i < |init| ==> init[i] == s[i];
      n
  }

  /** The byte length of a concatenation is the sum of the byte lengths. */
  lemma {:induction false} Utf8Append(a: string, b: string)
    ensures Utf8Length(a + b) == Utf8Length(a) + Utf8Length(b)
    decreases |b|
  {
    if b == [] {
      assert a + b == a;
    } else {
      var init := b[..|b| - 1];
      assert (a + b)[..|a + b| - 1] == a + init;
      assert (a + b)[|a + b| - 1] == b[|b| - 1];
      Utf8Append(a, init);
    }
  }

  /** Two words need a blank between them, so a text of n characters has at most (n + 1) / 2 words. */
  lemma {:induction false} WordsBound(s: string)
    ensures 2 * |Words(s)| <= |s| + 1
    decreases |s|
  {
    if s != [] {
      if IsSpace(s[0]) {
        WordsBound(s[1..]);
      } else {
        var n := WordLength(s);
        var rest := s[n..];
        if rest != [] {
          assert IsSpace(rest[0]);
          assert Words(rest) == Words(rest[1..]);
          WordsBound(rest[1..]);
        }
      }
    }
  }

  /** What `read_document` returns for a readable file under the project root. */
  datatype DocInfo = DocInfo(path: string, absolutePath: string, filename: string, extension: string,
                             content: string, sizeBytes: nat, lineCount: nat, wordCount: nat, category: string)

  /**
   * `read_document`: `None` when the file cannot be read or does not lie
   * under the project root (`relative_to` raises); otherwise the text with
   * its statistics and category.
   */
  function ReadDocument(docPath: string, root: string, content: Option<string>): (r: Option<DocInfo>)
    ensures r.Some? <==> content.Some? && StartsWith(docPath, root + "/")
    ensures r.Some? ==>
      root + "/" + r.value.path == docPath
      && r.value.absolutePath == docPath
      && r.value.filename == FileName(docPath) && r.value.extension == Suffix(docPath)
      && r.value.content == content.value
      && r.value.sizeBytes == Utf8Length(content.value)
      && r.value.lineCount == |SplitLines(content.value)|
      && r.value.wordCount == |Words(content.value)|
      && r.value.category == Categorize(docPath)
      && r.value.category in Labels
  {
    if content.None? || !StartsWith(docPath, root + "/") then None
    else
      var text := content.value;
      var relative := docPath[|root| + 1..];
      assert root + "/" + relative == docPath;
      Some(DocInfo(relative, docPath, FileName(docPath), Suffix(docPath), text,
                   Utf8Length(text), |SplitLines(text)|, |Words(text)|, Categorize(docPath)))
  }

  // ================================================================ tallies

  /** `[d for d in documents if categorize_document(d) == category]`. */
  function OfCategory(documents: seq<string>, category: string): (r: seq<string>)
    ensures forall x :: x in r <==> x in documents && Categorize(x) == category
    ensures |r| <= |documents|
  {
    if documents == [] then []
    else
      var last := documents[|documents| - 1];
      assert documents == documents[..|documents| - 1] + [last];
      OfCategory(documents[..|documents| - 1], category) + (if Categorize(last) == category then [last] else [])
  }

  /** The documents read successfully, in order. */
  function ReadAll(documents: seq<string>, root: string, read: string -> Option<string>): (docs: seq<DocInfo>)
    ensures |docs| <= |documents|
    ensures forall d :: d in docs ==> d.category in Labels
  {
    if documents == [] then []
    else
      var last := documents[|documents| - 1];
      var r := ReadDocument(last, root, read(last));
      ReadAll(documents[..|documents| - 1], root, read) + (if r.Some? then [r.value] else [])
  }

  /** The reading loop of `main`: each document read in turn, the unreadable ones dropped. */
  method ReadDocuments(documents: seq<string>, root: string, read: string -> Option<string>) returns (docsData: seq<DocInfo>)
    ensures docsData == ReadAll(documents, root, read)
  {
    docsData := [];
    for i := 0 to |documents|
      invariant docsData == ReadAll(documents[..i], root, read)
    {
      assert documents[..i + 1][..i] == documents[..i];
      var docData := ReadDocument(documents[i], root, read(documents[i]));
      if docData.Some? {
        docsData := docsData + [docData.value];
      }
    }
    assert documents[..|documents|] == documents;
  }

  /** How many documents carry the category. */
  function CountCategory(docs: seq<DocInfo>, category: string): (n: nat)
    ensures n <= |docs|
  {
    if docs == [] then 0
    else CountCategory(docs[..|docs| - 1], category) + (if docs[|docs| - 1].category == category then 1 else 0)
  }

  /**
   * The category tally of `main`: a key per category present, holding the
   * number of documents in it.
   */
  method TallyCategories(docsData: seq<DocInfo>) returns (categories: map<string, nat>)
    ensures forall c :: c in categories <==> exists i :: 0 <= i < |docsData| && docsData[i].category == c
    ensures forall c :: c in categories ==> categories[c] == CountCategory(docsData, c)
  {
    categories := map[];
    for i := 0 to |docsData|
      invariant forall c :: c in categories <==> exists j :: 0 <= j < i && docsData[j].category == c
      invariant forall c :: c in categories ==> categories[c] == CountCategory(docsData[..i], c)
    {
      var cat := docsData[i].category;
      var prefix := docsData[..i + 1];
      assert prefix[..i] == docsData[..i];
      if cat !in categories {
        CountAbsent(docsData[..i], cat);
      }
      categories := categories[cat := (if cat in categories then categories[cat] else 0) + 1];
    }
    assert docsData[..|docsData|] == docsData;
  }

  lemma {:induction false} CountAbsent(docs: seq<DocInfo>, category: string)
    requires forall j :: 0 <= j < |docs| ==> docs[j].category != category
    ensures CountCategory(docs, category) == 0
  {
    if docs != [] {
      CountAbsent(docs[..|docs| - 1], category);
    }
  }

  function SumCounts(labels: seq<string>, docs: seq<DocInfo>): nat
  {
    if labels == [] then 0 else SumCounts(labels[..|labels| - 1], docs) + CountCategory(docs, labels[|labels| - 1])
  }

  lemma {:induction false} SumCountsSnoc(labels: seq<string>, docs: seq<DocInfo>, d: DocInfo)
    requires Distinct(labels)
    ensures SumCounts(labels, docs + [d]) == SumCounts(labels, docs) + (if d.category in labels then 1 else 0)
  {
    assert (docs + [d])[..|docs|] == docs;
    if labels != [] {
      var init := labels[..|labels| - 1];
      assert Distinct(init);
      SumCountsSnoc(init, docs, d);
      assert d.category in labels <==> d.category in init || d.category == labels[|labels| - 1];
    }
  }

  /** The per-category counts add up to the number of documents read. */
  lemma {:induction false} CategoryCountsSum(docs: seq<DocInfo>)
    requires forall d :: d in docs ==> d.category in Labels
    ensures SumCounts(Labels, docs) == |docs|
  {
    if docs == [] {
      ZeroCounts(Labels);
    } else {
      var init := docs[..|docs| - 1];
      assert docs == init + [docs[|docs| - 1]];
      CategoryCountsSum(init);
      LabelsDistinct();
      SumCountsSnoc(Labels, init, docs[|docs| - 1]);
    }
  }

  lemma LabelsDistinct()
    ensures Distinct(Labels)
  {
  }

  lemma {:induction false} ZeroCounts(labels: seq<string>)
    ensures SumCounts(labels, []) == 0
  {
    if labels != [] {
      ZeroCounts(labels[..|labels| - 1]);
    }
  }

  /** How many documents the server accepts. */
  function Accepted(docs: seq<DocInfo>, ingest: DocInfo -> bool): (n: nat)
    ensures n <= |docs|
  {
    if docs == [] then 0
    else Accepted(docs[..|docs| - 1], ingest) + (if ingest(docs[|docs| - 1]) then 1 else 0)
  }

  /** The upload loop of `main`: every document counts once, as a success or as a failure. */
  method Upload(docsData: seq<DocInfo>, ingest: DocInfo -> bool) returns (successful: nat, failed: nat)
    ensures successful == Accepted(docsData, ingest)
    ensures successful + failed == |docsData|
  {
    successful, failed := 0, 0;
    for i := 0 to |docsData|
      invariant successful == Accepted(docsData[..i], ingest)
      invariant successful + failed == i
    {
      assert docsData[..i + 1][..i] == docsData[..i];
      var success := ingest(docsData[i]);
      if success {
        successful := successful + 1;
      } else {
        failed := failed + 1;
      }
    }
    assert docsData[..|docsData|] == docsData;
  }

  /** How a run of the loader ends. */
  datatype LoadReport =
    | NoDocuments
    | DryRun(docs: seq<DocInfo>, categories: map<string, nat>)
    | Unhealthy(docs: seq<DocInfo>, categories: map<string, nat>)
    | Loaded(docs: seq<DocInfo>, categories: map<string, nat>, successful: nat, failed: nat)

  /**
   * `main`: discover, keep the requested category if one is given, stop when
   * nothing is left, read and tally; a dry run or an unreachable server stops
   * before uploading.
   */
  method LoadAll(dirExists: bool, glob: string -> seq<string>, category: Option<string>, root: string,
              read: string -> Option<string>, dryRun: bool, healthy: bool, ingest: DocInfo -> bool)
    returns (report: LoadReport)
    ensures var found := if dirExists then Discovered(glob) else [];
      var documents := if category.Some? && category.value != "" then OfCategory(found, category.value) else found;
      (report.NoDocuments? <==> documents == [])
      && (!report.NoDocuments? ==>
            report.docs == ReadAll(documents, root, read)
            && (forall c :: c in report.categories <==> exists i :: 0 <= i < |report.docs| && report.docs[i].category == c)
            && (forall c :: c in report.categories ==> report.categories[c] == CountCategory(report.docs, c))
            && (report.DryRun? <==> dryRun)
            && (report.Unhealthy? <==> !dryRun && !healthy)
            && (report.Loaded? ==> report.successful == Accepted(report.docs, ingest)
                                   && report.successful + report.failed == |report.docs|))
  {
    var documents := DiscoverDocuments(dirExists, glob);
    if category.Some? && category.value != "" {
      documents := OfCategory(documents, category.value);
    }
    if documents == [] {
      return NoDocuments;
    }
    var docsData := ReadDocuments(documents, root, read);
    var categories := TallyCategories(docsData);
    if dryRun {
      return DryRun(docsData, categories);
    }
    if !healthy {
      return Unhealthy(docsData, categories);
    }
    var successful, failed := Upload(docsData, ingest);
    report := Loaded(docsData, categories, successful, failed);
  }

  /** With a category requested, every document read belongs to it. */
  lemma {:induction false} FilteredDocsHaveCategory(documents: seq<string>, category: string, root: string,
                                                    read: string -> Option<string>)
    ensures forall d :: d in ReadAll(OfCategory(documents, category), root, read) ==> d.category == category
  {
    ReadAllCategories(OfCategory(documents, category), root, read);
  }

  lemma {:induction false} ReadAllCategories(documents: seq<string>, root: string, read: string -> Option<string>)
    ensures forall d :: d in ReadAll(documents, root, read) ==> exists x :: x in documents && d.category == Categorize(x)
  {
    if documents != [] {
      var init := documents[..|documents| - 1];
      ReadAllCategories(init, root, read);
      forall x | x in init ensures x in documents {
        var k :| 0 <= k < |init| && init[k] == x;
        assert documents[k] == x;
      }
    }
  }
}
