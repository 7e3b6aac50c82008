/**
 * Callímaco, the indexing agent: the values it works with, the rule-based
 * fallbacks it uses without a language model, the splitting of text into
 * overlapping vector chunks, the storage plan, its validation, and the
 * routing table of its seven-node workflow.
 */
module Callimaco {
  import opened Common
  import opened Workflow

  // ================================================================ data model

  datatype ContentType = Documento | Conversacion | Codigo | Imagen | Video | Audio | NotaRapida | Referencia
  {
    /** The enum's wire value. */
    function Value(): string
    {
      match this
      case Documento => "documento"
      case Conversacion => "conversacion"
      case Codigo => "codigo"
      case Imagen => "imagen"
      case Video => "video"
      case Audio => "audio"
      case NotaRapida => "nota_rapida"
      case Referencia => "referencia"
    }
  }

  /** `ContentType(s)`: lookup by wire value; None where the enum constructor raises. */
  function ContentTypeFromValue(s: string): (r: Option<ContentType>)
    ensures r.Some? ==> r.value.Value() == s
    ensures r.None? ==> forall ct: ContentType :: ct.Value() != s
  {
    if s == "documento" then Some(Documento)
    else if s == "conversacion" then Some(Conversacion)
    else if s == "codigo" then Some(Codigo)
    else if s == "imagen" then Some(Imagen)
    else if s == "video" then Some(Video)
    else if s == "audio" then Some(Audio)
    else if s == "nota_rapida" then Some(NotaRapida)
    else if s == "referencia" then Some(Referencia)
    else None
  }

  /** Every content type is found again from its wire value. */
  lemma ContentTypeRoundTrip(ct: ContentType)
    ensures ContentTypeFromValue(ct.Value()) == Some(ct)
  {
  }

  datatype StorageDestination = GrafoYVector | SoloVector | SoloGrafo | Metadata

  datatype Entity = Entity(id: string, name: string, kind: string, confidence: real)

  datatype Relation = Relation(source: string, target: string, kind: string, confidence: real)

  datatype SemanticTags = SemanticTags(
    categoriaPrimaria: string,
    subcategorias: seq<string>,
    temas: seq<string>,
    entidadesClave: seq<string>,
    temporalidad: Option<string>,
    complejidad: string,
    audiencia: string)

  /** One operation for the graph store (Cassandra). */
  datatype GraphOp =
    | UpsertEntity(entityId: string, name: string, entityType: string)
    | CreateRelation(source: string, target: string, relationType: string)

  /** One operation for the vector store (Qdrant). */
  datatype VectorOp = UpsertVector(
    id: string, content: string, source: string, contentType: string, chunkIndex: nat, totalChunks: nat)

  datatype StoragePlan = StoragePlan(
    destination: StorageDestination,
    cassandraOps: seq<GraphOp>,
    qdrantOps: seq<VectorOp>,
    contentHash: string,
    entityCount: nat,
    relationCount: nat)

  datatype ExecutionResult = ExecutionResult(
    success: bool, entitiesWritten: nat, relationsWritten: nat, vectorsWritten: nat, chunksCreated: nat)

  // ================================================================ language-model replies

  /** The classifier's JSON reply; a missing key is None. */
  datatype ClassifyRecord = ClassifyRecord(
    temasPrincipales: Option<seq<string>>,
    complejidad: Option<string>,
    audiencia: Option<string>,
    resumenEjecutivo: Option<string>)

  /** Tags and summary from a classifier reply; an empty theme list raises IndexError. */
  function TagsFromClassification(rec: ClassifyRecord): (r: Result<(SemanticTags, string)>)
    ensures r.Err? <==> rec.temasPrincipales == Some([])
    ensures r.Err? ==> r.message == "list index out of range"
    ensures r.Ok? && rec.temasPrincipales.None? ==> r.value.0.categoriaPrimaria == "general" && r.value.0.temas == []
    ensures r.Ok? && rec.temasPrincipales.Some? ==>
      r.value.0.categoriaPrimaria == rec.temasPrincipales.value[0] && r.value.0.temas == rec.temasPrincipales.value
    ensures r.Ok? ==> (r.value.0.complejidad == rec.complejidad.GetOr("media")
                       && r.value.0.audiencia == rec.audiencia.GetOr("general")
                       && r.value.1 == rec.resumenEjecutivo.GetOr(""))
  {
    var temas := rec.temasPrincipales.GetOr(["general"]);
    if |temas| == 0 then Err("list index out of range")
    else
      Ok((SemanticTags(temas[0], [], rec.temasPrincipales.GetOr([]), [], None,
                       rec.complejidad.GetOr("media"), rec.audiencia.GetOr("general")),
          rec.resumenEjecutivo.GetOr("")))
  }

  datatype RawEntity = RawEntity(nombre: Option<string>, tipo: Option<string>, confianza: Option<real>)
  datatype RawRelation = RawRelation(origen: Option<string>, destino: Option<string>, tipo: Option<string>, confianza: Option<real>)

  /** The extractor's JSON reply; a missing list is empty. */
  datatype ExtractRecord = ExtractRecord(entidades: seq<RawEntity>, relaciones: seq<RawRelation>)

  /** The KeyError a reply entity raises, if any (`nombre` is read before `tipo`). */
  function EntityKeyError(e: RawEntity): Option<string>
  {
    if e.nombre.None? then Some("'nombre'") else if e.tipo.None? then Some("'tipo'") else None
  }

  function RelationKeyError(r: RawRelation): Option<string>
  {
    if r.origen.None? then Some("'origen'")
    else if r.destino.None? then Some("'destino'")
    else if r.tipo.None? then Some("'tipo'")
    else None
  }

  /** How many leading items convert before the first one that raises. */
  function ConvertiblePrefix<T>(items: seq<T>, keyError: T -> Option<string>): (n: nat)
    ensures n <= |items|
    ensures forall i :: 0 <= i < n ==> keyError(items[i]).None?
    ensures n < |items| ==> keyError(items[n]).Some?
  {
    if |items| == 0 || keyError(items[0]).Some? then 0
    else 1 + ConvertiblePrefix(items[1..], keyError)
  }

  /** A reply entity as stored: id is the first 12 hex digits of MD5("nombre:tipo"), confidence defaults to 0.8. */
  function EntityOf(e: RawEntity, md5Hex: string -> string): (r: Entity)
    requires EntityKeyError(e).None?
    ensures r.name == e.nombre.value && r.kind == e.tipo.value
    ensures r.id == Prefix(md5Hex(e.nombre.value + ":" + e.tipo.value), 12) && |r.id| <= 12
    ensures r.confidence == e.confianza.GetOr(0.8)
  {
    Entity(Prefix(md5Hex(e.nombre.value + ":" + e.tipo.value), 12), e.nombre.value, e.tipo.value, e.confianza.GetOr(0.8))
  }

  function RelationOf(r: RawRelation): (rel: Relation)
    requires RelationKeyError(r).None?
    ensures rel.source == r.origen.value && rel.target == r.destino.value && rel.kind == r.tipo.value
    ensures rel.confidence == r.confianza.GetOr(0.8)
  {
    Relation(r.origen.value, r.destino.value, r.tipo.value, r.confianza.GetOr(0.8))
  }

  /** The tagger's JSON reply. */
  datatype TagRecord = TagRecord(
    categoriaPrimaria: Option<string>,
    subcategorias: Option<seq<string>>,
    temas: Option<seq<string>>,
    entidadesClave: Option<seq<string>>,
    temporalidad: Option<string>)

  /** New tags from a tagger reply; complexity and audience carry over from the earlier tags. */
  function TagsFromTagging(rec: TagRecord, prior: Option<SemanticTags>): (t: SemanticTags)
    ensures t.categoriaPrimaria == rec.categoriaPrimaria.GetOr("general")
    ensures t.temas == rec.temas.GetOr([]) && t.subcategorias == rec.subcategorias.GetOr([])
    ensures t.entidadesClave == rec.entidadesClave.GetOr([]) && t.temporalidad == rec.temporalidad
    ensures prior.Some? ==> t.complejidad == prior.value.complejidad && t.audiencia == prior.value.audiencia
    ensures prior.None? ==> t.complejidad == "media" && t.audiencia == "general"
  {
    SemanticTags(
      rec.categoriaPrimaria.GetOr("general"), rec.subcategorias.GetOr([]), rec.temas.GetOr([]),
      rec.entidadesClave.GetOr([]), rec.temporalidad,
      if prior.Some? then prior.value.complejidad else "media",
      if prior.Some? then prior.value.audiencia else "general")
  }

  // ================================================================ rule-based fallbacks

  const ProgrammingWords: seq<string> := ["código", "function", "class", "def", "import"]
  const DevopsWords: seq<string> := ["docker", "kubernetes", "deploy", "infra"]
  const AiWords: seq<string> := ["modelo", "ai", "ml", "neural", "training"]

  /** Position of a keyword theme in rule order; every other theme comes after the three. */
  function ThemeRank(tema: string): nat
  {
    if tema == "programación" then 0
    else if tema == "devops" then 1
    else if tema == "inteligencia_artificial" then 2
    else 3
  }

  /** The themes the keyword rules find, in rule order, or the general-documentation theme. */
  function HeuristicThemes(content: string): (temas: seq<string>)
    ensures 1 <= |temas| <= 3
    ensures forall i, j :: 0 <= i < j < |temas| ==> ThemeRank(temas[i]) < ThemeRank(temas[j])
    ensures temas == ["documentación_general"] || forall i :: 0 <= i < |temas| ==> ThemeRank(temas[i]) < 3
    ensures "programación" in temas <==> MentionsAny(Lower(content), ProgrammingWords)
    ensures "devops" in temas <==> MentionsAny(Lower(content), DevopsWords)
    ensures "inteligencia_artificial" in temas <==> MentionsAny(Lower(content), AiWords)
    ensures temas == ["documentación_general"] <==>
      !MentionsAny(Lower(content), ProgrammingWords) && !MentionsAny(Lower(content), DevopsWords)
      && !MentionsAny(Lower(content), AiWords)
    ensures MentionsAny(Lower(content), ProgrammingWords) ==> temas[0] == "programación"
  {
    var lower := Lower(content);
    var temas :=
      (if MentionsAny(lower, ProgrammingWords) then ["programación"] else [])
      + (if MentionsAny(lower, DevopsWords) then ["devops"] else [])
      + (if MentionsAny(lower, AiWords) then ["inteligencia_artificial"] else []);
    if temas == [] then ["documentación_general"] else temas
  }

  /** Tags without a language model; the tagging fallback is the same function. */
  function HeuristicTags(content: string): (t: SemanticTags)
    ensures t.temas == HeuristicThemes(content) && t.categoriaPrimaria == t.temas[0]
    ensures t.complejidad == "media" && t.audiencia == "general"
    ensures t.subcategorias == [] && t.entidadesClave == [] && t.temporalidad.None?
  {
    var temas := HeuristicThemes(content);
    SemanticTags(temas[0], [], temas, [], None, "media", "general")
  }

  /**
   * Entities without a language model: the distinct names among the first
   * ten capitalised runs, numbered heur_0, heur_1, ... (the order in which a
   * Python set yields them is not modelled: first occurrences are used).
   */
  function HeuristicEntities(candidates: seq<string>): (es: seq<Entity>)
    ensures |es| <= 10
    ensures forall i :: 0 <= i < |es| ==> es[i] == Entity("heur_" + NatToString(i), es[i].name, "concepto", 0.5)
    ensures forall i, j :: 0 <= i < j < |es| ==> es[i].name != es[j].name
    ensures forall n :: n in candidates[..Min(10, |candidates|)] <==> exists i :: 0 <= i < |es| && es[i].name == n
  {
    var names := Dedup(candidates[..Min(10, |candidates|)]);
    var es := seq(|names|, i requires 0 <= i < |names| => Entity("heur_" + NatToString(i), names[i], "concepto", 0.5));
    assert forall n :: n in names <==> exists i :: 0 <= i < |es| && es[i].name == n by {
      forall n | n in names ensures exists i :: 0 <= i < |es| && es[i].name == n {
        var i :| 0 <= i < |names| && names[i] == n;
        assert es[i].name == n;
      }
    }
    assert forall n :: n in names <==> n in candidates[..Min(10, |candidates|)] by {
      forall n ensures n in names <==> n in candidates[..Min(10, |candidates|)] {
        assert n in names <==> n in Elements(names);
        assert n in candidates[..Min(10, |candidates|)] <==> n in Elements(candidates[..Min(10, |candidates|)]);
      }
    }
    es
  }

  // ================================================================ chunking

  /**
   * Where the vector chunk that starts at `start` ends: `chunkSize`
   * characters on, or, when more text follows, just after the last ". "
   * in the window if that lies beyond the window's middle.
   */
  function ChunkEnd(content: string, start: nat, chunkSize: nat): (end: nat)
    requires start < |content| && chunkSize > 0
    ensures start < end <= start + chunkSize
    ensures 2 * (end - start) > chunkSize
  {
    if start + chunkSize < |content| then
      var lastPeriod := RFind(content[start..start + chunkSize], ". ");
      if 2 * lastPeriod > chunkSize then start + lastPeriod + 1 else start + chunkSize
    else start + chunkSize
  }

  /** ". " occurs in the window at offset `i` exactly when it occurs in the text at `start + i`. */
  lemma WindowOccurrence(content: string, start: nat, chunkSize: nat, i: nat)
    requires start + chunkSize <= |content| && i + 2 <= chunkSize
    ensures OccursAt(content[start..start + chunkSize], ". ", i) <==> OccursAt(content, ". ", start + i)
  {
    var window := content[start..start + chunkSize];
    assert window[i] == content[start + i] && window[i + 1] == content[start + i + 1];
    assert window[i..i + 2] == content[start + i..start + i + 2];
  }

  /**
   * A chunk cut short ends with the period of the last ". " in its window,
   * beyond the window's middle; a full-length chunk with text after it has
   * no ". " beyond its middle.
   */
  lemma ChunkEndAtSentence(content: string, start: nat, chunkSize: nat)
    requires start < |content| && chunkSize > 0
    ensures var end := ChunkEnd(content, start, chunkSize);
      end < start + chunkSize ==>
        start + chunkSize < |content| && 2 * (end - 1 - start) > chunkSize && OccursAt(content, ". ", end - 1)
        && forall i: nat :: end - 1 < i && i + 2 <= start + chunkSize ==> !OccursAt(content, ". ", i)
    ensures var end := ChunkEnd(content, start, chunkSize);
      end == start + chunkSize && start + chunkSize < |content| ==>
        forall i: nat :: start <= i && 2 * (i - start) > chunkSize && i + 2 <= start + chunkSize ==> !OccursAt(content, ". ", i)
  {
    var end := ChunkEnd(content, start, chunkSize);
    if start + chunkSize < |content| {
      var window := content[start..start + chunkSize];
      var lastPeriod := RFind(window, ". ");
      RFindLast(window, ". ");
      forall i: nat | start <= i && i + 2 <= start + chunkSize
        ensures OccursAt(content, ". ", i) ==> i - start <= lastPeriod
      {
        WindowOccurrence(content, start, chunkSize, i - start);
      }
      if 2 * lastPeriod > chunkSize {
        WindowOccurrence(content, start, chunkSize, lastPeriod);
      }
    }
  }

  /** The chunks from `start` on: the slice up to `ChunkEnd`, then the chunks from `overlap` characters before that end. */
  function ChunksFrom(content: string, start: nat, chunkSize: nat, overlap: nat): (cs: seq<string>)
    requires 2 * overlap < chunkSize
    decreases |content| - start
  {
    if start >= |content| then []
    else
      var end := ChunkEnd(content, start, chunkSize);
      [content[start..Min(end, |content|)]] + ChunksFrom(content, end - overlap, chunkSize, overlap)
  }

  /** What `_chunk_content` returns: the whole text when it fits in one chunk. */
  function Chunks(content: string, chunkSize: nat, overlap: nat): seq<string>
    requires 2 * overlap < chunkSize
  {
    if |content| <= chunkSize then [content] else ChunksFrom(content, 0, chunkSize, overlap)
  }

  /** Every chunk after the first, without its first `overlap` characters, concatenated. */
  function Tails(chunks: seq<string>, overlap: nat): string
  {
    if |chunks| == 0 then "" else chunks[0][Min(overlap, |chunks[0]|)..] + Tails(chunks[1..], overlap)
  }

  /** The text back from its chunks: the first chunk whole, then each later chunk without its overlap. */
  function Reassemble(chunks: seq<string>, overlap: nat): string
  {
    if |chunks| == 0 then "" else chunks[0] + Tails(chunks[1..], overlap)
  }

  /** A chunk that starts `overlap` before the previous end contributes the text from that end to its own. */
  lemma DropOverlap(content: string, prevEnd: nat, start: nat, end: nat, overlap: nat)
    requires start + overlap == prevEnd && start < |content| && end >= prevEnd
    ensures var c := content[start..Min(end, |content|)];
      c[Min(overlap, |c|)..] == content[Min(prevEnd, |content|)..Min(end, |content|)]
  {
  }

  /** `ChunksFrom` unfolded once: the chunk up to `ChunkEnd`, then the chunks from `overlap` before it. */
  lemma ChunksFromCons(content: string, start: nat, chunkSize: nat, overlap: nat)
    requires 2 * overlap < chunkSize && start < |content|
    ensures var end := ChunkEnd(content, start, chunkSize);
      ChunksFrom(content, start, chunkSize, overlap)
      == [content[start..Min(end, |content|)]] + ChunksFrom(content, end - overlap, chunkSize, overlap)
  {
  }

  lemma TailsCons(c: string, rest: seq<string>, overlap: nat)
    ensures Tails([c] + rest, overlap) == c[Min(overlap, |c|)..] + Tails(rest, overlap)
  {
    assert ([c] + rest)[1..] == rest;
  }

  lemma SliceSplit(s: string, i: nat, j: nat)
    requires i <= j <= |s|
    ensures s[i..] == s[i..j] + s[j..]
  {
  }

  lemma {:induction false} TailsFrom(content: string, start: nat, chunkSize: nat, overlap: nat)
    requires 2 * overlap < chunkSize && start < |content|
    decreases |content| - start, 0
    ensures Tails(ChunksFrom(content, start, chunkSize, overlap), overlap) == content[Min(start + overlap, |content|)..]
  {
    var end := ChunkEnd(content, start, chunkSize);
    var e := Min(end, |content|);
    var p := Min(start + overlap, |content|);
    var c := content[start..e];
    var rest := ChunksFrom(content, end - overlap, chunkSize, overlap);
    assert start < end - overlap;
    assert Tails(rest, overlap) == content[e..] by {
      RestTails(content, end - overlap, chunkSize, overlap, e);
    }
    assert c[Min(overlap, |c|)..] == content[p..e] by {
      DropOverlap(content, start + overlap, start, end, overlap);
    }
    assert ChunksFrom(content, start, chunkSize, overlap) == [c] + rest by {
      ChunksFromCons(content, start, chunkSize, overlap);
    }
    TailsJoin(content, c, rest, overlap, p, e);
  }

  /** One chunk's tail followed by the tails after it, when they are consecutive slices of the text. */
  lemma TailsJoin(content: string, c: string, rest: seq<string>, overlap: nat, p: nat, e: nat)
    requires p <= e <= |content|
    requires c[Min(overlap, |c|)..] == content[p..e] && Tails(rest, overlap) == content[e..]
    ensures Tails([c] + rest, overlap) == content[p..]
  {
    TailsCons(c, rest, overlap);
    SliceSplit(content, p, e);
  }

  /** The tails of the chunks from `next`, where the previous chunk ended `overlap` characters after `next`, at `e`. */
  lemma {:induction false} RestTails(content: string, next: nat, chunkSize: nat, overlap: nat, e: nat)
    requires 2 * overlap < chunkSize && e == Min(next + overlap, |content|)
    decreases |content| - next, 1
    ensures Tails(ChunksFrom(content, next, chunkSize, overlap), overlap) == content[e..]
  {
    if next < |content| {
      TailsFrom(content, next, chunkSize, overlap);
    }
  }

  /** Dropping the overlap from every chunk after the first gives the text back. */
  lemma ChunksRoundTrip(content: string, chunkSize: nat, overlap: nat)
    requires 2 * overlap < chunkSize
    ensures Reassemble(Chunks(content, chunkSize, overlap), overlap) == content
  {
    if |content| > chunkSize {
      var end := ChunkEnd(content, 0, chunkSize);
      var first := content[..end];
      var rest := ChunksFrom(content, end - overlap, chunkSize, overlap);
      ChunksFromCons(content, 0, chunkSize, overlap);
      assert Min(end, |content|) == end;
      assert Chunks(content, chunkSize, overlap) == [first] + rest;
      assert ([first] + rest)[1..] == rest;
      assert Reassemble([first] + rest, overlap) == first + Tails(rest, overlap);
      TailsFrom(content, end - overlap, chunkSize, overlap);
      assert Tails(rest, overlap) == content[end..];
      SliceSplit(content, 0, end);
    }
  }

  /** Every chunk from `start` on holds between one and `chunkSize` characters. */
  lemma {:induction false} ChunkSizes(content: string, start: nat, chunkSize: nat, overlap: nat)
    requires 2 * overlap < chunkSize
    decreases |content| - start
    ensures var cs := ChunksFrom(content, start, chunkSize, overlap);
      forall k :: 0 <= k < |cs| ==> 0 < |cs[k]| <= chunkSize
  {
    if start < |content| {
      var end := ChunkEnd(content, start, chunkSize);
      ChunksFromCons(content, start, chunkSize, overlap);
      ChunkSizes(content, end - overlap, chunkSize, overlap);
    }
  }

  /** The chunks of a long text: the first is a prefix of it, the last a suffix, each between one character and `chunkSize`. */
  lemma {:induction false} ChunksCover(content: string, chunkSize: nat, overlap: nat)
    requires 2 * overlap < chunkSize && |content| > chunkSize
    ensures var cs := Chunks(content, chunkSize, overlap);
      |cs| >= 2 && StartsWith(content, cs[0]) && EndsWith(content, cs[|cs| - 1])
      && forall k :: 0 <= k < |cs| ==> 0 < |cs[k]| <= chunkSize
  {
    var end := ChunkEnd(content, 0, chunkSize);
    assert end <= chunkSize < |content|;
    var rest := ChunksFrom(content, end - overlap, chunkSize, overlap);
    ChunksFromCons(content, 0, chunkSize, overlap);
    assert Chunks(content, chunkSize, overlap) == [content[..end]] + rest;
    LastChunkIsSuffix(content, end - overlap, chunkSize, overlap);
    ChunkSizes(content, 0, chunkSize, overlap);
  }

  lemma {:induction false} LastChunkIsSuffix(content: string, start: nat, chunkSize: nat, overlap: nat)
    requires 2 * overlap < chunkSize && start < |content|
    decreases |content| - start
    ensures var cs := ChunksFrom(content, start, chunkSize, overlap);
      |cs| >= 1 && EndsWith(content, cs[|cs| - 1])
  {
    var end := ChunkEnd(content, start, chunkSize);
    var rest := ChunksFrom(content, end - overlap, chunkSize, overlap);
    ChunksFromCons(content, start, chunkSize, overlap);
    if end - overlap < |content| {
      LastChunkIsSuffix(content, end - overlap, chunkSize, overlap);
    } else {
      assert Min(end, |content|) == |content|;
    }
  }

  /**
   * One turn of the chunking loop: the chunk cut at `start` is the first of the chunks from `start`, so
   * appending it to those already cut keeps them a prefix of all the chunks, and the rest begin `overlap`
   * characters before its end.
   */
  lemma NextChunk(content: string, start: nat, chunkSize: nat, overlap: nat, end: nat, chunk: string, done: seq<string>)
    requires 2 * overlap < chunkSize && start < |content|
    requires end == ChunkEnd(content, start, chunkSize) && chunk == content[start..Min(end, |content|)]
    requires done + ChunksFrom(content, start, chunkSize, overlap) == ChunksFrom(content, 0, chunkSize, overlap)
    ensures start < end - overlap
    ensures (done + [chunk]) + ChunksFrom(content, end - overlap, chunkSize, overlap) == ChunksFrom(content, 0, chunkSize, overlap)
  {
    var rest := ChunksFrom(content, end - overlap, chunkSize, overlap);
    assert ChunksFrom(content, start, chunkSize, overlap) == [chunk] + rest;
    assert (done + [chunk]) + rest == done + ([chunk] + rest);
  }

  /** One chunk from `start`: up to `chunkSize` characters, cut after the last ". " past its middle. */
  method CutChunk(content: string, start: nat, chunkSize: nat) returns (end: nat, chunk: string)
    requires start < |content| && chunkSize > 0
    ensures end == ChunkEnd(content, start, chunkSize) && chunk == content[start..Min(end, |content|)]
  {
    end := start + chunkSize;
    chunk := content[start..Min(end, |content|)];
    if end < |content| {
      var lastPeriod := RFind(chunk, ". ");
      if 2 * lastPeriod > chunkSize {
        end := start + lastPeriod + 1;
        chunk := content[start..end];
      }
    }
  }

  /**
   * Python's `_chunk_content`: a text no longer than `chunkSize` is one
   * chunk; otherwise each chunk ends at `ChunkEnd` and the next starts
   * `overlap` characters before that end, until a start passes the text.
   */
  method ChunkContent(content: string, chunkSize: nat, overlap: nat) returns (chunks: seq<string>)
    requires 2 * overlap < chunkSize
    ensures chunks == Chunks(content, chunkSize, overlap)
    ensures Reassemble(chunks, overlap) == content
  {
    ChunksRoundTrip(content, chunkSize, overlap);
    if |content| <= chunkSize {
      return [content];
    }
    chunks := ChunksOfLongText(content, chunkSize, overlap);
  }

  /** The chunking loop: chunk after chunk from the start of the text. */
  method ChunksOfLongText(content: string, chunkSize: nat, overlap: nat) returns (chunks: seq<string>)
    requires 2 * overlap < chunkSize
    ensures chunks == ChunksFrom(content, 0, chunkSize, overlap)
  {
    chunks := [];
    var start := 0;
    while start < |content|
      invariant chunks + ChunksFrom(content, start, chunkSize, overlap) == ChunksFrom(content, 0, chunkSize, overlap)
      decreases |content| - start
    {
      var end, chunk := CutChunk(content, start, chunkSize);
      NextChunk(content, start, chunkSize, overlap, end, chunk, chunks);
      chunks := chunks + [chunk];
      start := end - overlap;
    }
    assert ChunksFrom(content, start, chunkSize, overlap) == [];
    assert chunks + [] == chunks;
  }

  /** The chunk sizes the indexer uses. */
  const ChunkSize: nat := 1000
  const ChunkOverlap: nat := 200

  // ================================================================ storage plan

  /** Where content goes: graph when it has entities, vectors when it is long (and, without entities, structured). */
  function Destination(entityCount: nat, contentLength: nat, contentType: ContentType): (d: StorageDestination)
    ensures d == GrafoYVector <==> entityCount > 0 && contentLength > 200
    ensures d == SoloGrafo <==> entityCount > 0 && contentLength <= 200
    ensures d == SoloVector <==> entityCount == 0 && contentLength > 200 && contentType in {Documento, Conversacion, Codigo}
    ensures d == Metadata <==> entityCount == 0 && (contentLength <= 200 || contentType !in {Documento, Conversacion, Codigo})
  {
    var tieneEntidades := entityCount > 0;
    var esLargo := contentLength > 200;
    var tieneEstructura := contentType in [Documento, Conversacion, Codigo];
    if tieneEntidades && esLargo then GrafoYVector
    else if tieneEntidades && !esLargo then SoloGrafo
    else if esLargo && tieneEstructura then SoloVector
    else Metadata
  }

  predicate WritesGraph(d: StorageDestination) { d == GrafoYVector || d == SoloGrafo }
  predicate WritesVectors(d: StorageDestination) { d == GrafoYVector || d == SoloVector }

  function VectorContents(ops: seq<VectorOp>): (cs: seq<string>)
    ensures |cs| == |ops| && forall i :: 0 <= i < |ops| ==> cs[i] == ops[i].content
  {
    seq(|ops|, i requires 0 <= i < |ops| => ops[i].content)
  }

  /**
   * The planning node's computation: the destination, then one upsert per
   * entity followed by one relation per relation for the graph, and one
   * vector per chunk for the vector store.
   */
  method PlanStorage(entities: seq<Entity>, relations: seq<Relation>, content: string,
                     contentType: ContentType, source: string, contentHash: string)
    returns (plan: StoragePlan)
    ensures plan.destination == Destination(|entities|, |content|, contentType)
    ensures plan.contentHash == contentHash && plan.entityCount == |entities| && plan.relationCount == |relations|
    ensures WritesGraph(plan.destination) ==> GraphOpsFor(plan.cassandraOps, entities, relations)
    ensures !WritesGraph(plan.destination) ==> plan.cassandraOps == []
    ensures WritesVectors(plan.destination) ==> VectorOpsFor(plan.qdrantOps, content, contentType, source, contentHash)
    ensures !WritesVectors(plan.destination) ==> plan.qdrantOps == []
    ensures plan.destination == GrafoYVector ==> |plan.cassandraOps| > 0 && |plan.qdrantOps| > 0
  {
    var destino := Destination(|entities|, |content|, contentType);
    var cassandraOps: seq<GraphOp> := [];
    var qdrantOps: seq<VectorOp> := [];
    if WritesGraph(destino) {
      cassandraOps := GraphOps(entities, relations);
    }
    if WritesVectors(destino) {
      qdrantOps := VectorOps(content, contentType, source, contentHash);
    }
    if destino == GrafoYVector {
      assert |entities| > 0;
    }
    plan := StoragePlan(destino, cassandraOps, qdrantOps, contentHash, |entities|, |relations|);
  }

  /** The graph operations of a plan: one upsert per entity, then one edge per relation, in order. */
  predicate GraphOpsFor(ops: seq<GraphOp>, entities: seq<Entity>, relations: seq<Relation>)
  {
    |ops| == |entities| + |relations|
    && (forall i :: 0 <= i < |entities| ==>
          ops[i] == UpsertEntity(entities[i].id, entities[i].name, entities[i].kind))
    && (forall j :: 0 <= j < |relations| ==>
          ops[|entities| + j] == CreateRelation(relations[j].source, relations[j].target, relations[j].kind))
  }

  /**
   * The vector operations of a plan: one per chunk of the document, in chunk
   * order (so their contents reassemble it), the i-th stored under
   * "<hash>_<i>" with its position and the total count.
   */
  predicate VectorOpsFor(ops: seq<VectorOp>, content: string, contentType: ContentType, source: string, contentHash: string)
  {
    |ops| >= 1
    && VectorContents(ops) == Chunks(content, ChunkSize, ChunkOverlap)
    && Reassemble(VectorContents(ops), ChunkOverlap) == content
    && forall i :: 0 <= i < |ops| ==>
         ops[i] == UpsertVector(contentHash + "_" + NatToString(i), ops[i].content,
                                source, contentType.Value(), i, |ops|)
  }

  method GraphOps(entities: seq<Entity>, relations: seq<Relation>) returns (ops: seq<GraphOp>)
    ensures GraphOpsFor(ops, entities, relations)
  {
    ops := [];
    for i := 0 to |entities|
      invariant |ops| == i
      invariant forall k :: 0 <= k < i ==> ops[k] == UpsertEntity(entities[k].id, entities[k].name, entities[k].kind)
    {
      ops := ops + [UpsertEntity(entities[i].id, entities[i].name, entities[i].kind)];
    }
    for j := 0 to |relations|
      invariant |ops| == |entities| + j
      invariant forall k :: 0 <= k < |entities| ==> ops[k] == UpsertEntity(entities[k].id, entities[k].name, entities[k].kind)
      invariant forall k :: 0 <= k < j ==>
        ops[|entities| + k] == CreateRelation(relations[k].source, relations[k].target, relations[k].kind)
    {
      ops := ops + [CreateRelation(relations[j].source, relations[j].target, relations[j].kind)];
    }
  }

  method VectorOps(content: string, contentType: ContentType, source: string, contentHash: string)
    returns (ops: seq<VectorOp>)
    ensures VectorOpsFor(ops, content, contentType, source, contentHash)
  {
    var chunks := ChunkContent(content, ChunkSize, ChunkOverlap);
    assert |chunks| >= 1;
    ops := [];
    for i := 0 to |chunks|
      invariant |ops| == i
      invariant forall k :: 0 <= k < i ==>
        ops[k] == UpsertVector(contentHash + "_" + NatToString(k), chunks[k], source, contentType.Value(), k, |chunks|)
    {
      ops := ops + [UpsertVector(contentHash + "_" + NatToString(i), chunks[i], source, contentType.Value(), i, |chunks|)];
    }
    assert VectorContents(ops) == chunks;
  }

  // ================================================================ validation and execution

  function EntityNames(entities: seq<Entity>): (names: seq<string>)
    ensures |names| == |entities| && forall i :: 0 <= i < |entities| ==> names[i] == entities[i].name
  {
    seq(|entities|, i requires 0 <= i < |entities| => entities[i].name)
  }

  /**
   * The validation node's findings, in the order it reports them: a missing
   * plan; a graph-and-vector plan without graph or without vector operations;
   * repeated entity names.
   */
  function ValidationErrors(plan: Option<StoragePlan>, entities: seq<Entity>): (errs: seq<string>)
    ensures plan.None? ==> errs == ["No hay plan de almacenamiento"]
    ensures errs == [] <==>
      plan.Some?
      && (plan.value.destination == GrafoYVector ==> |plan.value.cassandraOps| > 0 && |plan.value.qdrantOps| > 0)
      && Distinct(EntityNames(entities))
    ensures plan.Some? ==> ("Posibles entidades duplicadas" in errs <==> !Distinct(EntityNames(entities)))
  {
    if plan.None? then ["No hay plan de almacenamiento"]
    else
      var p := plan.value;
      var names := EntityNames(entities);
      DistinctIffNoSmallerSet(names);
      (if p.destination == GrafoYVector && |p.cassandraOps| == 0 then ["Destino grafo+vector pero no hay ops de Cassandra"] else [])
      + (if p.destination == GrafoYVector && |p.qdrantOps| == 0 then ["Destino grafo+vector pero no hay ops de Qdrant"] else [])
      + (if |Elements(names)| != |names| then ["Posibles entidades duplicadas"] else [])
  }

  predicate IsRelationOp(op: GraphOp) { op.CreateRelation? }

  /**
   * The storage node's simulated result. Its "entities written" counts every
   * graph operation, relation operations included.
   */
  function ExecutionFor(plan: StoragePlan): (r: ExecutionResult)
    ensures r.success
    ensures r.entitiesWritten == |plan.cassandraOps|
    ensures r.relationsWritten + CountWhere(plan.cassandraOps, (op: GraphOp) => op.UpsertEntity?) == r.entitiesWritten
    ensures r.vectorsWritten == r.chunksCreated == |plan.qdrantOps|
  {
    CountSplits(plan.cassandraOps);
    ExecutionResult(true, |plan.cassandraOps|, CountWhere(plan.cassandraOps, IsRelationOp),
                    |plan.qdrantOps|, |plan.qdrantOps|)
  }

  lemma {:induction false} CountSplits(ops: seq<GraphOp>)
    ensures CountWhere(ops, IsRelationOp) + CountWhere(ops, (op: GraphOp) => op.UpsertEntity?) == |ops|
  {
    if |ops| > 0 {
      CountSplits(ops[1..]);
    }
  }

  // ================================================================ workflow

  datatype Node = Clasificar | Extraer | Etiquetar | Planificar | Validar | Almacenar | ManejarError

  datatype Label = Continuar | Error | Saltar | ToValidar | ToAlmacenar | Reintentar | Completado | Abortar

  /** What the routers look at. */
  datatype View = View(hasErrors: bool, retryCount: nat, maxRetries: nat, contentLength: nat, succeeded: bool)

  /** The workflow's edges, entry point `Clasificar`. */
  function EdgesFrom(n: Node): Edges<Node, Label>
  {
    match n
    case Clasificar => Conditional(map[Continuar := Goto(Extraer), Error := Goto(ManejarError)])
    case Extraer => Conditional(map[Continuar := Goto(Etiquetar), Saltar := Goto(Planificar), Error := Goto(ManejarError)])
    case Etiquetar => Direct(Goto(Planificar))
    case Planificar => Conditional(map[ToValidar := Goto(Validar), Error := Goto(ManejarError)])
    case Validar => Conditional(map[ToAlmacenar := Goto(Almacenar), Reintentar := Goto(Extraer), Error := Goto(ManejarError)])
    case Almacenar => Conditional(map[Completado := End, Error := Goto(ManejarError)])
    case ManejarError => Conditional(map[Reintentar := Goto(Clasificar), Abortar := End])
  }

  function DecisionClasificacion(v: View): (l: Label)
    ensures l == Error <==> v.hasErrors && v.retryCount < v.maxRetries
    ensures l in {Error, Continuar}
  {
    if v.hasErrors && v.retryCount < v.maxRetries then Error else Continuar
  }

  function DecisionExtraccion(v: View): (l: Label)
    ensures l == Error <==> v.hasErrors && v.retryCount >= v.maxRetries
    ensures l == Saltar <==> !(v.hasErrors && v.retryCount >= v.maxRetries) && v.contentLength < 50
    ensures l in {Error, Saltar, Continuar}
  {
    if v.hasErrors && v.retryCount >= v.maxRetries then Error
    else if v.contentLength < 50 then Saltar
    else Continuar
  }

  function DecisionPlanificacion(v: View): (l: Label)
    ensures l == Error <==> v.hasErrors
    ensures l in {Error, ToValidar}
  {
    if v.hasErrors then Error else ToValidar
  }

  function DecisionValidacion(v: View): (l: Label)
    ensures l == ToAlmacenar <==> !v.hasErrors
    ensures l == Reintentar <==> v.hasErrors && v.retryCount < v.maxRetries
    ensures l in {ToAlmacenar, Reintentar, Error}
  {
    if !v.hasErrors then ToAlmacenar
    else if v.retryCount < v.maxRetries then Reintentar
    else Error
  }

  function DecisionFinal(v: View): (l: Label)
    ensures l == Completado <==> v.succeeded
    ensures l in {Completado, Error}
  {
    if v.succeeded then Completado else Error
  }

  function DecisionReintento(v: View): (l: Label)
    ensures l == Abortar <==> v.retryCount >= v.maxRetries
    ensures l in {Reintentar, Abortar}
  {
    if v.retryCount < v.maxRetries then Reintentar else Abortar
  }

  /** The router of a node with conditional edges; its label is always a key of the node's table. */
  function Router(n: Node, v: View): (l: Label)
    requires EdgesFrom(n).Conditional?
    ensures l in EdgesFrom(n).table
  {
    match n
    case Clasificar => DecisionClasificacion(v)
    case Extraer => DecisionExtraccion(v)
    case Planificar => DecisionPlanificacion(v)
    case Validar => DecisionValidacion(v)
    case Almacenar => DecisionFinal(v)
    case ManejarError => DecisionReintento(v)
  }

  /** The node the engine runs after `n`, given the state the node left. */
  function Next(n: Node, v: View): (t: Target<Node>)
    ensures t == End ==> n == Almacenar || n == ManejarError
    ensures t == End && n == Almacenar ==> v.succeeded
    ensures t == End && n == ManejarError ==> v.retryCount >= v.maxRetries
    ensures t == Goto(Almacenar) ==> n == Validar && !v.hasErrors
    ensures t == Goto(ManejarError) ==> v.hasErrors || (n == Almacenar && !v.succeeded)
  {
    match EdgesFrom(n)
    case Direct(to) => to
    case Conditional(table) => table[Router(n, v)]
  }

  // ---------------------------------------------------------------- termination

  /**
   * Once an error is recorded it stays, so every loop in the workflow passes
   * through error handling, which spends one retry. The measure orders the
   * workflow by (no error yet, retries left, distance to error handling or
   * the end).
   */
  function Position(n: Node, failing: bool): (p: nat)
    ensures 1 <= p <= 7
  {
    if !failing then
      match n
      case Clasificar => 7 case Extraer => 6 case Etiquetar => 5 case Planificar => 4
      case Validar => 3 case Almacenar => 2 case ManejarError => 1
    else
      match n
      case Clasificar => 5 case Validar => 5 case Extraer => 4 case Etiquetar => 3
      case Planificar => 2 case Almacenar => 2 case ManejarError => 1
  }

  function RetriesLeft(retryCount: nat, maxRetries: nat): nat
  {
    if retryCount < maxRetries then maxRetries - retryCount else 0
  }

  function Measure(t: Target<Node>, v: View): nat
  {
    match t
    case End => 0
    case Goto(n) =>
      (if v.hasErrors then 0 else 8 * (v.maxRetries + 1)) + 8 * RetriesLeft(v.retryCount, v.maxRetries) + Position(n, v.hasErrors)
  }

  /** What every node may do to the routed part of the state: add errors; error handling spends one retry. */
  predicate StepEffect(n: Node, before: View, after: View)
  {
    (before.hasErrors ==> after.hasErrors)
    && after.maxRetries == before.maxRetries
    && after.retryCount == before.retryCount + (if n == ManejarError then 1 else 0)
  }

  /** Each step of the workflow strictly lowers the measure, so every run ends. */
  lemma StepDecreases(n: Node, before: View, after: View)
    requires StepEffect(n, before, after)
    ensures Measure(Next(n, after), after) < Measure(Goto(n), before)
  {
  }

  /** The longest a run from a fresh state can take. */
  function StepBound(maxRetries: nat): nat
  {
    16 * (maxRetries + 1) + 7
  }

  lemma InitialMeasure(v: View)
    requires !v.hasErrors && v.retryCount == 0
    ensures Measure(Goto(Clasificar), v) <= StepBound(v.maxRetries)
  {
  }
}
