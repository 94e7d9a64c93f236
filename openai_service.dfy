/** The deterministic part of OpenAIService: pulling a JSON array out of a
    chat reply, repairing missing justifications, and mapping validation
    results. The chat calls and System.Text.Json are inputs: a reply is an
    Option<string> (the reply text may be null) and a deserializer is a
    function from the extracted text to a Parsed list. */
module OpenAIService {
  import opened Wrappers
  import opened Text
  import opened Models

  /** Message of the exception GerarQuizzDTOAsync throws when no array is found. */
  const GenerationNoJson := "O serviço OpenAI não retornou JSON válido."
  /** Message of the exception ValidarQuizzAsync throws when no array is found. */
  const ValidationNoJson := "Resposta da IA não continha JSON válido."
  /** The text written over a blank justification. */
  const MissingJustification := "Justificativa não gerada corretamente"

  /** Why a service call failed: no JSON array in the reply (the service's own
      exception) or a JsonException from the deserializer. */
  datatype ServiceError = NoJsonFound(message: string) | MalformedPayload

  /** What JsonSerializer.Deserialize<List<T>> can produce: a list, the JSON
      literal null, or a JsonException. */
  datatype Parsed<T> = Parsed(items: seq<T>) | ParsedNull | Malformed

  /** The result record the validator's JSON is read into (ValidationResult). */
  datatype ValidationResult = ValidationResult(
    index: int,
    valid: bool,
    issues: seq<string>,
    correctAnswerVerified: bool)

  // ---------------------------------------------------------------------
  // ExtractJsonArray

  /** The span from the first '[' to the last ']' of raw, or null. */
  function ExtractJsonArray(raw: Option<string>): (r: Option<string>)
    ensures IsNullOrWhiteSpace(raw) ==> r == None
    ensures r != None ==>
      && 0 <= IndexOf(raw.value, '[') < LastIndexOf(raw.value, ']')
      && r.value == raw.value[IndexOf(raw.value, '[')..LastIndexOf(raw.value, ']') + 1]
    ensures r != None ==> |r.value| >= 2 && r.value[0] == '[' && r.value[|r.value| - 1] == ']'
  {
    if IsNullOrWhiteSpace(raw) then None
    else
      var start := IndexOf(raw.value, '[');
      var end := LastIndexOf(raw.value, ']');
      if start >= 0 && end > start then Some(raw.value[start..end + 1]) else None
  }

  /** No array is found exactly when the reply is null, lacks a '[', lacks a
      ']', or has its last ']' before its first '['. */
  lemma {:induction false} ExtractFails(raw: Option<string>)
    ensures ExtractJsonArray(raw) == None <==>
      raw == None || '[' !in raw.value || ']' !in raw.value
      || LastIndexOf(raw.value, ']') < IndexOf(raw.value, '[')
  {
  }

  /** The extracted text is fixed by any pair of positions that hold the
      first '[' and the last ']' of s, with the '[' before the ']'. */
  lemma {:induction false} ExtractSpan(s: string, start: nat, end: nat)
    requires start < end < |s|
    requires s[start] == '[' && Absent(s, '[', 0, start)
    requires s[end] == ']' && Absent(s, ']', end + 1, |s|)
    ensures ExtractJsonArray(Some(s)) == Some(s[start..end + 1])
  {
  }

  /** Extracting from an extracted array gives the array back. */
  lemma {:induction false} ExtractIdempotent(raw: Option<string>)
    requires ExtractJsonArray(raw) != None
    ensures ExtractJsonArray(ExtractJsonArray(raw)) == ExtractJsonArray(raw)
  {
    var r := ExtractJsonArray(raw).value;
    ExtractSpan(r, 0, |r| - 1);
    assert r[0..|r| - 1 + 1] == r;
  }

  /** Neither bracket is white space, so a white-space run holds no bracket. */
  lemma {:induction false} NoBracketInWhiteSpace(w: string)
    requires AllWhiteSpace(w)
    ensures Absent(w, '[', 0, |w|) && Absent(w, ']', 0, |w|)
  {
  }

  /** The bracket span of the reply, read off the positions alone. */
  function BracketSpan(x: string): Option<string>
  {
    var a, b := IndexOf(x, '['), LastIndexOf(x, ']');
    if 0 <= a < b then Some(x[a..b + 1]) else None
  }

  /** For a non-null reply the white-space test is subsumed by the bracket
      positions: a reply holding a '[' is not blank. */
  lemma {:induction false} ExtractByPositions(x: string)
    ensures ExtractJsonArray(Some(x)) == BracketSpan(x)
  {
  }

  /** Leading white space shifts both bracket positions alike, so the span is the same. */
  lemma {:induction false} BracketSpanAfterWhiteSpace(w: string, s: string)
    requires AllWhiteSpace(w)
    ensures BracketSpan(w + s) == BracketSpan(s)
  {
    NoBracketInWhiteSpace(w);
    var x := w + s;
    var a, b := IndexOf(s, '['), LastIndexOf(s, ']');
    IndexOfAfterPrefix(w, s, '[');
    IndexOfAfterPrefix(w, s, ']');
    var a', b' := IndexOf(x, '['), LastIndexOf(x, ']');
    assert a' == (if a >= 0 then |w| + a else -1);
    assert b' == (if b >= 0 then |w| + b else -1);
    if 0 <= a < b {
      SliceAfterPrefix(w, s, a, b + 1);
    }
  }

  /** A slice of s is the same slice of w + s moved by |w|. */
  lemma {:induction false} SliceAfterPrefix(w: string, s: string, i: int, j: int)
    requires 0 <= i <= j <= |s|
    ensures (w + s)[|w| + i..|w| + j] == s[i..j]
  {
    var x := w + s;
    forall k | 0 <= k < j - i ensures x[|w| + i..|w| + j][k] == s[i..j][k] {
      assert x[|w| + i + k] == s[i + k];
    }
  }

  /** White space in front of the reply does not change what is extracted. */
  lemma {:induction false} ExtractIgnoresLeadingWhiteSpace(w: string, s: string)
    requires AllWhiteSpace(w)
    ensures ExtractJsonArray(Some(w + s)) == ExtractJsonArray(Some(s))
  {
    BracketSpanAfterWhiteSpace(w, s);
    ExtractByPositions(w + s);
    ExtractByPositions(s);
  }

  /** White space after the reply does not change what is extracted. */
  lemma {:induction false} ExtractIgnoresTrailingWhiteSpace(s: string, w: string)
    requires AllWhiteSpace(w)
    ensures ExtractJsonArray(Some(s + w)) == ExtractJsonArray(Some(s))
  {
    NoBracketInWhiteSpace(w);
    IndexOfBeforeSuffix(s, w, '[');
    IndexOfBeforeSuffix(s, w, ']');
    var a, b := IndexOf(s, '['), LastIndexOf(s, ']');
    if 0 <= a < b {
      assert (s + w)[a..b + 1] == s[a..b + 1];
    }
    ExtractByPositions(s + w);
    ExtractByPositions(s);
  }

  /** Dropping leading white space does not change what is extracted. */
  lemma {:induction false} ExtractTrimmedStart(s: string)
    ensures ExtractJsonArray(Some(TrimStart(s))) == ExtractJsonArray(Some(s))
  {
    var t := TrimStart(s);
    var w := s[..|s| - |t|];
    assert s == w + t;
    ExtractIgnoresLeadingWhiteSpace(w, t);
  }

  /** Dropping trailing white space does not change what is extracted. */
  lemma {:induction false} ExtractTrimmedEnd(s: string)
    ensures ExtractJsonArray(Some(TrimEnd(s))) == ExtractJsonArray(Some(s))
  {
    var u := TrimEnd(s);
    var w := s[|u|..];
    assert s == u + w;
    ExtractIgnoresTrailingWhiteSpace(u, w);
  }

  /** Trimming the reply first, as ValidarQuizzAsync does, does not change
      what is extracted. */
  lemma {:induction false} ExtractTrimmed(s: string)
    ensures ExtractJsonArray(Some(Trim(s))) == ExtractJsonArray(Some(s))
  {
    ExtractTrimmedStart(s);
    ExtractTrimmedEnd(TrimStart(s));
  }

  // ---------------------------------------------------------------------
  // GerarQuizzDTOAsync

  /** One step of the repair loop: a blank justification becomes the sentinel. */
  function Repair(p: PerguntaQuizz): PerguntaQuizz
  {
    if IsNullOrWhiteSpace(p.justificativa) then p.(justificativa := Some(MissingJustification)) else p
  }

  /** The question list after the repair loop. */
  function Repaired(ps: seq<PerguntaQuizz>): (qs: seq<PerguntaQuizz>)
    ensures |qs| == |ps|
    ensures forall i :: 0 <= i < |qs| ==> !IsNullOrWhiteSpace(qs[i].justificativa)
    ensures forall i :: 0 <= i < |qs| ==> qs[i].(justificativa := ps[i].justificativa) == ps[i]
    ensures forall i :: 0 <= i < |qs| && !IsNullOrWhiteSpace(ps[i].justificativa) ==> qs[i] == ps[i]
    ensures forall i :: 0 <= i < |qs| && IsNullOrWhiteSpace(ps[i].justificativa) ==>
      qs[i].justificativa == Some(MissingJustification)
  {
    assert !AllWhiteSpace(MissingJustification) by { assert !IsWhiteSpace(MissingJustification[0]); }
    seq(|ps|, i requires 0 <= i < |ps| => Repair(ps[i]))
  }

  /** Repairing an already repaired list changes nothing. */
  lemma {:induction false} RepairedIdempotent(ps: seq<PerguntaQuizz>)
    ensures Repaired(Repaired(ps)) == Repaired(ps)
  {
  }

  /** What GerarQuizzDTOAsync returns for a given generator reply: a missing
      reply text stands for "[]"; no array is an error; a JSON null is an
      empty list; otherwise the parsed list with its justifications repaired. */
  function GeneratedQuestions(reply: Option<string>, deserialize: string -> Parsed<PerguntaQuizz>)
    : (r: Result<seq<PerguntaQuizz>, ServiceError>)
    ensures r.Success? ==>
      forall i :: 0 <= i < |r.value| ==> !IsNullOrWhiteSpace(r.value[i].justificativa)
    ensures r == Failure(NoJsonFound(GenerationNoJson)) <==>
      reply != None && ExtractJsonArray(reply) == None
    ensures reply != None && IsNullOrWhiteSpace(reply) ==> r == Failure(NoJsonFound(GenerationNoJson))
    ensures reply != None && ExtractJsonArray(reply) != None ==>
      r == match deserialize(ExtractJsonArray(reply).value)
           case Malformed => Failure(MalformedPayload)
           case ParsedNull => Success([])
           case Parsed(ps) => Success(Repaired(ps))
    ensures reply == None ==>
      r == match deserialize("[]")
           case Malformed => Failure(MalformedPayload)
           case ParsedNull => Success([])
           case Parsed(ps) => Success(Repaired(ps))
  {
    var json := if reply.Some? then reply.value else "[]";
    assert ExtractJsonArray(Some("[]")) == Some("[]") by {
      assert "[]"[0..2] == "[]";
      ExtractSpan("[]", 0, 1);
    }
    match ExtractJsonArray(Some(json))
    case None => Failure(NoJsonFound(GenerationNoJson))
    case Some(jsonArray) =>
      match deserialize(jsonArray)
      case Malformed => Failure(MalformedPayload)
      case ParsedNull => Success([])
      case Parsed(ps) => Success(Repaired(ps))
  }

  /** A null generator reply, read as "[]", gives the empty list whenever the
      deserializer reads "[]" as the empty list. */
  lemma {:induction false} NullReplyIsEmpty(deserialize: string -> Parsed<PerguntaQuizz>)
    requires deserialize("[]") == Parsed([])
    ensures GeneratedQuestions(None, deserialize) == Success([])
  {
  }

  /** GerarQuizzDTOAsync after the chat call: extract, deserialize, then
      overwrite each blank justification in place. */
  method GerarQuizzDTO(reply: Option<string>, deserialize: string -> Parsed<PerguntaQuizz>)
    returns (r: Result<seq<PerguntaQuizz>, ServiceError>)
    ensures r == GeneratedQuestions(reply, deserialize)
  {
    var json := if reply.Some? then reply.value else "[]";
    var jsonArray := ExtractJsonArray(Some(json));
    if jsonArray.None? {
      return Failure(NoJsonFound(GenerationNoJson));
    }
    var parsed := deserialize(jsonArray.value);
    if parsed.Malformed? {
      return Failure(MalformedPayload);
    }
    ghost var items := if parsed.Parsed? then parsed.items else [];
    var perguntasGeradas := if parsed.Parsed? then parsed.items else [];
    var i := 0;
    while i < |perguntasGeradas|
      invariant 0 <= i <= |perguntasGeradas| == |items|
      invariant forall k :: 0 <= k < i ==> perguntasGeradas[k] == Repair(items[k])
      invariant forall k :: i <= k < |items| ==> perguntasGeradas[k] == items[k]
    {
      if IsNullOrWhiteSpace(perguntasGeradas[i].justificativa) {
        perguntasGeradas := perguntasGeradas[i := perguntasGeradas[i].(justificativa := Some(MissingJustification))];
      }
      i := i + 1;
    }
    assert perguntasGeradas == Repaired(items);
    return Success(perguntasGeradas);
  }

  // ---------------------------------------------------------------------
  // ValidarQuizzAsync

  /** The field-by-field copy of one result into its DTO. */
  function ToDto(r: ValidationResult): PerguntaValidacaoDTO
  {
    PerguntaValidacaoDTO(r.index, r.valid, r.issues, r.correctAnswerVerified)
  }

  /** The reverse copy, from a DTO back to a result. */
  function FromDto(d: PerguntaValidacaoDTO): ValidationResult
  {
    ValidationResult(d.index, d.valid, d.issues, d.correctAnswerVerified)
  }

  /** The Select that maps results to DTOs, in order. */
  function ToDtos(results: seq<ValidationResult>): (dtos: seq<PerguntaValidacaoDTO>)
    ensures |dtos| == |results|
    ensures forall i :: 0 <= i < |dtos| ==>
      && dtos[i].index == results[i].index
      && dtos[i].valid == results[i].valid
      && dtos[i].issues == results[i].issues
      && dtos[i].correctAnswerVerified == results[i].correctAnswerVerified
  {
    seq(|results|, i requires 0 <= i < |results| => ToDto(results[i]))
  }

  /** A corollary of the field copies ToDtos states: the mapping loses
      nothing, so copying every DTO back gives the results. */
  lemma {:induction false} ToDtosRoundTrip(results: seq<ValidationResult>)
    ensures seq(|results|, i requires 0 <= i < |results| => FromDto(ToDtos(results)[i])) == results
  {
  }

  /** What ValidarQuizzAsync returns for a given validator reply: the reply is
      trimmed, a missing reply or one without an array is an error, a JSON null
      is an empty list, otherwise the results mapped to DTOs. */
  function ValidarQuizz(reply: Option<string>, deserialize: string -> Parsed<ValidationResult>)
    : (r: Result<seq<PerguntaValidacaoDTO>, ServiceError>)
    ensures IsNullOrWhiteSpace(reply) ==> r == Failure(NoJsonFound(ValidationNoJson))
    ensures r == Failure(NoJsonFound(ValidationNoJson)) <==> ExtractJsonArray(reply) == None
    ensures ExtractJsonArray(reply) != None ==>
      r == match deserialize(ExtractJsonArray(reply).value)
           case Malformed => Failure(MalformedPayload)
           case ParsedNull => Success([])
           case Parsed(results) => Success(ToDtos(results))
  {
    var raw := if reply.Some? then Some(Trim(reply.value)) else None;
    assert ExtractJsonArray(raw) == ExtractJsonArray(reply) by {
      if reply.Some? { ExtractTrimmed(reply.value); }
    }
    match ExtractJsonArray(raw)
    case None => Failure(NoJsonFound(ValidationNoJson))
    case Some(json) =>
      match deserialize(json)
      case Malformed => Failure(MalformedPayload)
      case ParsedNull => Success([])
      case Parsed(results) => Success(ToDtos(results))
  }
}
