/** QuizzController: quiz generation over the store, reading a quiz's
    questions back, and scoring a batch of answers. */
module Controllers {
  import opened Wrappers
  import opened Text
  import opened Models
  import opened OpenAIService
  import opened Data

  const InvalidRequest := "Requisição inválida."
  const NoQuestionsGenerated := "Não foi possível gerar perguntas do quiz."
  const NoAnswers := "Nenhuma resposta enviada."
  const UserNotFound := "Usuário não encontrado."
  const QuizTopicPrefix := "Quiz sobre "

  /** What an action answers: 200 with a body, 400 or 404 with a message, or
      500 when a service exception escapes the action. */
  datatype ActionResult<T> =
    | Ok(body: T)
    | BadRequest(message: string)
    | NotFound(message: string)
    | ServerError(error: ServiceError)

  /** The body of a successful generation. */
  datatype QuizzGerado = QuizzGerado(quizzId: int, tema: string, perguntas: seq<PerguntaQuizz>)

  /** The body of a successful scoring: this batch's points and the user's new total. */
  datatype Avaliacao = Avaliacao(pontos: int, pontosTotaisUsuario: int)

  // ---------------------------------------------------------------------
  // Scoring

  /** The points a correct answer earns, by the difficulty of its question. */
  function Points(dificuldade: string): (p: nat)
    ensures p == 15 <==> dificuldade == "Fácil"
    ensures p == 20 <==> dificuldade == "Média"
    ensures p == 30 <==> dificuldade == "Dificil"
    ensures p == 0 <==> dificuldade !in {"Fácil", "Média", "Dificil"}
  {
    if dificuldade == "Fácil" then 15
    else if dificuldade == "Média" then 20
    else if dificuldade == "Dificil" then 30
    else 0
  }

  /** What one answer contributes, given the quiz's questions by key. */
  function AnswerPoints(perguntas: map<int, Pergunta>, r: RespostaUsuario): (p: nat)
    ensures p <= 30
    ensures r.perguntaId !in perguntas ==> p == 0
    ensures r.perguntaId in perguntas && perguntas[r.perguntaId].respostaCorreta != r.alternativaEscolhida ==> p == 0
    ensures r.perguntaId in perguntas && perguntas[r.perguntaId].respostaCorreta == r.alternativaEscolhida ==>
      p == Points(perguntas[r.perguntaId].dificuldade)
  {
    if r.perguntaId in perguntas && perguntas[r.perguntaId].respostaCorreta == r.alternativaEscolhida
    then Points(perguntas[r.perguntaId].dificuldade)
    else 0
  }

  /** The batch total: the sum of every answer's contribution. */
  function Score(perguntas: map<int, Pergunta>, respostas: seq<RespostaUsuario>): (total: nat)
    ensures total <= 30 * |respostas|
  {
    if respostas == [] then 0
    else Score(perguntas, respostas[..|respostas| - 1]) + AnswerPoints(perguntas, respostas[|respostas| - 1])
  }

  /** Scoring two batches one after the other adds their totals. */
  lemma {:induction false} ScoreAppend(perguntas: map<int, Pergunta>, a: seq<RespostaUsuario>, b: seq<RespostaUsuario>)
    ensures Score(perguntas, a + b) == Score(perguntas, a) + Score(perguntas, b)
  {
    if b == [] {
      assert a + b == a;
    } else {
      var b' := b[..|b| - 1];
      assert (a + b)[..|a + b| - 1] == a + b';
      ScoreAppend(perguntas, a, b');
    }
  }

  /** One answer scores on its own what it adds to a batch. */
  lemma {:induction false} ScoreSingle(perguntas: map<int, Pergunta>, r: RespostaUsuario)
    ensures Score(perguntas, [r]) == AnswerPoints(perguntas, r)
  {
  }

  /** Taking one answer out of a batch takes out exactly its contribution. */
  lemma {:induction false} ScoreRemoveAt(perguntas: map<int, Pergunta>, b: seq<RespostaUsuario>, k: nat)
    requires k < |b|
    ensures Score(perguntas, b) == Score(perguntas, b[..k] + b[k + 1..]) + AnswerPoints(perguntas, b[k])
  {
    assert b == b[..k] + [b[k]] + b[k + 1..];
    ScoreAppend(perguntas, b[..k] + [b[k]], b[k + 1..]);
    ScoreAppend(perguntas, b[..k], [b[k]]);
    ScoreAppend(perguntas, b[..k], b[k + 1..]);
    ScoreSingle(perguntas, b[k]);
  }

  /** Removing the same answer from two rearrangements leaves rearrangements. */
  lemma MultisetRemoveAt(a: seq<RespostaUsuario>, b: seq<RespostaUsuario>, k: nat)
    requires |a| > 0 && k < |b| && b[k] == a[|a| - 1]
    requires multiset(a) == multiset(b)
    ensures multiset(a[..|a| - 1]) == multiset(b[..k] + b[k + 1..])
  {
    var x := b[k];
    assert a == a[..|a| - 1] + [x];
    assert b == b[..k] + [x] + b[k + 1..];
    assert multiset(a[..|a| - 1]) == multiset(a) - multiset{x};
    assert multiset(b[..k] + b[k + 1..]) == multiset(b) - multiset{x};
  }

  /** The order of the answers does not matter: any rearrangement scores the same. */
  lemma {:induction false} ScoreOrderIndependent(perguntas: map<int, Pergunta>, a: seq<RespostaUsuario>, b: seq<RespostaUsuario>)
    requires multiset(a) == multiset(b)
    ensures Score(perguntas, a) == Score(perguntas, b)
  {
    if a == [] {
      assert |b| == |multiset(b)| == 0;
    } else {
      var x := a[|a| - 1];
      assert x in multiset(b);
      var k :| 0 <= k < |b| && b[k] == x;
      MultisetRemoveAt(a, b, k);
      ScoreOrderIndependent(perguntas, a[..|a| - 1], b[..k] + b[k + 1..]);
      ScoreRemoveAt(perguntas, b, k);
    }
  }

  /** An answer for a question outside the quiz is ignored wherever it stands. */
  lemma {:induction false} ScoreIgnoresUnknown(perguntas: map<int, Pergunta>, a: seq<RespostaUsuario>, r: RespostaUsuario, b: seq<RespostaUsuario>)
    requires r.perguntaId !in perguntas
    ensures Score(perguntas, a + [r] + b) == Score(perguntas, a + b)
  {
    ScoreAppend(perguntas, a + [r], b);
    ScoreAppend(perguntas, a, [r]);
    ScoreAppend(perguntas, a, b);
    ScoreSingle(perguntas, r);
  }

  /** Answers are not deduplicated: n copies of one answer score n times as much. */
  lemma {:induction false} ScoreCountsRepeats(perguntas: map<int, Pergunta>, r: RespostaUsuario, n: nat)
    ensures Score(perguntas, seq(n, _ => r)) == n * AnswerPoints(perguntas, r)
  {
    if n > 0 {
      assert seq(n, _ => r)[..n - 1] == seq(n - 1, _ => r);
      ScoreCountsRepeats(perguntas, r, n - 1);
    }
  }

  /** The scoring loop of AvaliarQuizz. */
  method SumPoints(perguntas: map<int, Pergunta>, respostas: seq<RespostaUsuario>) returns (pontosObtidos: int)
    ensures pontosObtidos == Score(perguntas, respostas)
  {
    pontosObtidos := 0;
    for i := 0 to |respostas|
      invariant pontosObtidos == Score(perguntas, respostas[..i])
    {
      assert respostas[..i + 1][..i] == respostas[..i];
      var resposta := respostas[i];
      if resposta.perguntaId in perguntas {
        var pergunta := perguntas[resposta.perguntaId];
        if pergunta.respostaCorreta == resposta.alternativaEscolhida {
          pontosObtidos := pontosObtidos + Points(pergunta.dificuldade);
        }
      }
    }
    assert respostas[..|respostas|] == respostas;
  }

  /** The questions of one quiz, keyed by their own key (the ToDictionary). */
  function QuestionsOf(ps: seq<Pergunta>, quizzId: int): (m: map<int, Pergunta>)
    requires DistinctIds(ps)
    ensures forall i :: 0 <= i < |ps| && ps[i].quizzId == quizzId ==> ps[i].id in m && m[ps[i].id] == ps[i]
    ensures forall id :: id in m ==> exists i :: 0 <= i < |ps| && ps[i].quizzId == quizzId && ps[i] == m[id]
    ensures forall id :: id in m ==> m[id].id == id && m[id].quizzId == quizzId
  {
    map i | 0 <= i < |ps| && ps[i].quizzId == quizzId :: ps[i].id := ps[i]
  }

  // ---------------------------------------------------------------------
  // Question rows

  /** The row GerarQuizz stores for one generated question. */
  function ToPergunta(p: PerguntaQuizz, request: Quizz, quizzId: int, id: int): Pergunta
  {
    Pergunta(id, p.perguntaTexto, p.alternativaA, p.alternativaB, p.alternativaC, p.alternativaD,
             p.respostaCorreta, p.justificativa, request.nivelEscolar, request.tema, request.dificuldade, quizzId)
  }

  /** The rows for a generated batch, keyed from firstId on. */
  function ToPerguntas(ps: seq<PerguntaQuizz>, request: Quizz, quizzId: int, firstId: int): (rows: seq<Pergunta>)
    ensures |rows| == |ps|
    ensures forall i :: 0 <= i < |rows| ==>
      && rows[i].id == firstId + i
      && rows[i].perguntaTexto == ps[i].perguntaTexto
      && rows[i].alternativaA == ps[i].alternativaA
      && rows[i].alternativaB == ps[i].alternativaB
      && rows[i].alternativaC == ps[i].alternativaC
      && rows[i].alternativaD == ps[i].alternativaD
      && rows[i].respostaCorreta == ps[i].respostaCorreta
      && rows[i].justificativa == ps[i].justificativa
      && rows[i].nivelEscolar == request.nivelEscolar
      && rows[i].tema == request.tema
      && rows[i].dificuldade == request.dificuldade
      && rows[i].quizzId == quizzId
  {
    seq(|ps|, i requires 0 <= i < |ps| => ToPergunta(ps[i], request, quizzId, firstId + i))
  }

  /** The rows of a longer batch extend the rows of its prefix by one. */
  lemma {:induction false} ToPerguntasSnoc(ps: seq<PerguntaQuizz>, i: nat, request: Quizz, quizzId: int, firstId: int)
    requires i < |ps|
    ensures ToPerguntas(ps[..i + 1], request, quizzId, firstId)
         == ToPerguntas(ps[..i], request, quizzId, firstId) + [ToPergunta(ps[i], request, quizzId, firstId + i)]
  {
  }

  /** The Where of ObterPerguntasPorQuizz: the rows of one quiz, in order. */
  function PerguntasDoQuizz(ps: seq<Pergunta>, quizzId: int): (r: seq<Pergunta>)
    ensures |r| <= |ps|
    ensures forall p :: p in r <==> p in ps && p.quizzId == quizzId
  {
    if ps == [] then []
    else
      var last := ps[|ps| - 1];
      assert ps == ps[..|ps| - 1] + [last];
      PerguntasDoQuizz(ps[..|ps| - 1], quizzId) + (if last.quizzId == quizzId then [last] else [])
  }

  /** Filtering a concatenation filters each part. */
  lemma {:induction false} PerguntasDoQuizzAppend(a: seq<Pergunta>, b: seq<Pergunta>, quizzId: int)
    ensures PerguntasDoQuizz(a + b, quizzId) == PerguntasDoQuizz(a, quizzId) + PerguntasDoQuizz(b, quizzId)
  {
    if b == [] {
      assert a + b == a;
    } else {
      var b' := b[..|b| - 1];
      assert (a + b)[..|a + b| - 1] == a + b';
      PerguntasDoQuizzAppend(a, b', quizzId);
    }
  }

  /** Rows that all belong to the quiz are kept whole. */
  lemma {:induction false} PerguntasDoQuizzAll(rows: seq<Pergunta>, quizzId: int)
    requires forall i :: 0 <= i < |rows| ==> rows[i].quizzId == quizzId
    ensures PerguntasDoQuizz(rows, quizzId) == rows
  {
    if rows != [] {
      PerguntasDoQuizzAll(rows[..|rows| - 1], quizzId);
      assert rows == rows[..|rows| - 1] + [rows[|rows| - 1]];
    }
  }

  /** Rows none of which belongs to the quiz are dropped entirely. */
  lemma {:induction false} PerguntasDoQuizzNone(rows: seq<Pergunta>, quizzId: int)
    requires forall i :: 0 <= i < |rows| ==> rows[i].quizzId != quizzId
    ensures PerguntasDoQuizz(rows, quizzId) == []
  {
    if rows != [] {
      PerguntasDoQuizzNone(rows[..|rows| - 1], quizzId);
    }
  }

  /** Reading back a freshly generated quiz yields exactly its new rows: none
      of the older rows points at the new key. */
  lemma {:induction false} NewQuizQuestions(existing: seq<Pergunta>, rows: seq<Pergunta>, quizzId: int)
    requires forall i :: 0 <= i < |existing| ==> existing[i].quizzId < quizzId
    requires forall i :: 0 <= i < |rows| ==> rows[i].quizzId == quizzId
    ensures PerguntasDoQuizz(existing + rows, quizzId) == rows
  {
    PerguntasDoQuizzAppend(existing, rows, quizzId);
    PerguntasDoQuizzAll(rows, quizzId);
    PerguntasDoQuizzNone(existing, quizzId);
  }

  // ---------------------------------------------------------------------
  // The controller

  /** The batch has answers to score: the request and its list are non-null
      and the list is not empty. */
  predicate HasAnswers(dto: Option<AvaliacaoQuizzRequest>) {
    dto != None && dto.value.respostas != None && |dto.value.respostas.value| > 0
  }

  class QuizzController {
    const context: Store

    constructor (context: Store)
      ensures this.context == context
    {
      this.context := context;
    }

    /** POST gerar: store the quiz row, generate its questions, run the
        validation pass (its verdicts are discarded), then store one row per
        generated question. The quiz row stays even when a later step fails. */
    method GerarQuizz(
      request: Option<Quizz>,
      generatorReply: Option<string>, parseQuestions: string -> Parsed<PerguntaQuizz>,
      validatorReply: Option<string>, parseValidation: string -> Parsed<ValidationResult>)
      returns (res: ActionResult<QuizzGerado>)
      requires context.Valid()
      modifies context
      ensures context.Valid()
      ensures context.users == old(context.users)
      ensures request == None ==>
        && res == BadRequest(InvalidRequest)
        && context.quizzes == old(context.quizzes)
        && context.perguntas == old(context.perguntas)
      ensures request != None ==>
        var req := request.value;
        var quizz := Quizz(|old(context.quizzes)| + 1, QuizTopicPrefix + req.tema,
                           req.nivelEscolar, req.dificuldade, req.numeroPerguntas);
        var generated := GeneratedQuestions(generatorReply, parseQuestions);
        var validation := ValidarQuizz(validatorReply, parseValidation);
        && context.quizzes == old(context.quizzes) + [quizz]
        && (generated.Failure? ==>
              res == ServerError(generated.error) && context.perguntas == old(context.perguntas))
        && (generated == Success([]) ==>
              res == BadRequest(NoQuestionsGenerated) && context.perguntas == old(context.perguntas))
        && (generated.Success? && generated.value != [] && validation.Failure? ==>
              res == ServerError(validation.error) && context.perguntas == old(context.perguntas))
        && (generated.Success? && generated.value != [] && validation.Success? ==>
              && res == Ok(QuizzGerado(quizz.id, quizz.tema, generated.value))
              && context.perguntas == old(context.perguntas)
                   + ToPerguntas(generated.value, req, quizz.id, |old(context.perguntas)| + 1))
      ensures res.Ok? ==>
        && PerguntasDoQuizz(context.perguntas, res.body.quizzId)
           == ToPerguntas(res.body.perguntas, request.value, res.body.quizzId, |old(context.perguntas)| + 1)
        && forall i :: 0 <= i < |res.body.perguntas| ==> !IsNullOrWhiteSpace(res.body.perguntas[i].justificativa)
    {
      if request.None? {
        return BadRequest(InvalidRequest);
      }
      var req := request.value;
      var quizz := context.AddQuizz(QuizTopicPrefix + req.tema, req.nivelEscolar, req.dificuldade, req.numeroPerguntas);

      var generated := GerarQuizzDTO(generatorReply, parseQuestions);
      if generated.Failure? {
        return ServerError(generated.error);
      }
      var perguntasGeradas := generated.value;
      if |perguntasGeradas| == 0 {
        return BadRequest(NoQuestionsGenerated);
      }

      var validation := ValidarQuizz(validatorReply, parseValidation);
      if validation.Failure? {
        return ServerError(validation.error);
      }

      SalvarPerguntas(perguntasGeradas, req, quizz.id);
      return Ok(QuizzGerado(quizz.id, quizz.tema, perguntasGeradas));
    }

    /** The loop that stores one row per generated question, in order, all
        pointing at the quiz just stored. */
    method SalvarPerguntas(perguntasGeradas: seq<PerguntaQuizz>, req: Quizz, quizzId: int)
      requires context.Valid()
      requires 1 <= quizzId <= |context.quizzes|
      requires forall i :: 0 <= i < |context.perguntas| ==> context.perguntas[i].quizzId < quizzId
      modifies context
      ensures context.Valid()
      ensures context.quizzes == old(context.quizzes) && context.users == old(context.users)
      ensures context.perguntas == old(context.perguntas)
        + ToPerguntas(perguntasGeradas, req, quizzId, |old(context.perguntas)| + 1)
      ensures PerguntasDoQuizz(context.perguntas, quizzId)
        == ToPerguntas(perguntasGeradas, req, quizzId, |old(context.perguntas)| + 1)
    {
      ghost var before := context.perguntas;
      ghost var firstId := |before| + 1;
      for i := 0 to |perguntasGeradas|
        invariant context.Valid()
        invariant context.quizzes == old(context.quizzes) && context.users == old(context.users)
        invariant context.perguntas == before + ToPerguntas(perguntasGeradas[..i], req, quizzId, firstId)
      {
        ToPerguntasSnoc(perguntasGeradas, i, req, quizzId, firstId);
        var _ := context.AddPergunta(ToPergunta(perguntasGeradas[i], req, quizzId, 0));
      }
      assert perguntasGeradas[..|perguntasGeradas|] == perguntasGeradas;
      NewQuizQuestions(before, ToPerguntas(perguntasGeradas, req, quizzId, firstId), quizzId);
    }

    /** GET {quizzId}/perguntas: the quiz's rows in order, or 404 when it has none. */
    method ObterPerguntasPorQuizz(quizzId: int) returns (res: ActionResult<seq<Pergunta>>)
      ensures PerguntasDoQuizz(context.perguntas, quizzId) == [] ==>
        res == NotFound("Nenhuma pergunta encontrada para o QuizzId " + IntToString(quizzId) + ".")
      ensures PerguntasDoQuizz(context.perguntas, quizzId) != [] ==>
        res == Ok(PerguntasDoQuizz(context.perguntas, quizzId))
    {
      var perguntas := PerguntasDoQuizz(context.perguntas, quizzId);
      if |perguntas| == 0 {
        return NotFound("Nenhuma pergunta encontrada para o QuizzId " + IntToString(quizzId) + ".");
      }
      return Ok(perguntas);
    }

    /** POST avaliar: score the answers against the quiz's questions and add
        the batch total to the user's points. */
    method AvaliarQuizz(dto: Option<AvaliacaoQuizzRequest>) returns (res: ActionResult<Avaliacao>)
      requires context.Valid()
      modifies context
      ensures context.Valid()
      ensures context.quizzes == old(context.quizzes) && context.perguntas == old(context.perguntas)
      ensures !HasAnswers(dto) ==> res == BadRequest(NoAnswers) && context.users == old(context.users)
      ensures HasAnswers(dto) && dto.value.userId !in old(context.users) ==>
        res == NotFound(UserNotFound) && context.users == old(context.users)
      ensures HasAnswers(dto) && dto.value.userId in old(context.users) ==>
        var user := old(context.users)[dto.value.userId];
        var pontos := Score(QuestionsOf(old(context.perguntas), dto.value.quizzId), dto.value.respostas.value);
        && res == Ok(Avaliacao(pontos, user.pontos + pontos))
        && context.users == old(context.users)[dto.value.userId := user.(pontos := user.pontos + pontos)]
    {
      if !HasAnswers(dto) {
        return BadRequest(NoAnswers);
      }
      if dto.value.userId !in context.users {
        return NotFound(UserNotFound);
      }
      var avaliacao := Pontuar(dto.value);
      return Ok(avaliacao);
    }

    /** The scoring part of AvaliarQuizz, once the request has answers and
        its user exists: sum the batch and add it to the user's points. */
    method Pontuar(request: AvaliacaoQuizzRequest) returns (avaliacao: Avaliacao)
      requires context.Valid()
      requires request.respostas != None && request.userId in context.users
      modifies context
      ensures context.Valid()
      ensures context.quizzes == old(context.quizzes) && context.perguntas == old(context.perguntas)
      ensures var user := old(context.users)[request.userId];
        var pontos := Score(QuestionsOf(old(context.perguntas), request.quizzId), request.respostas.value);
        && avaliacao == Avaliacao(pontos, user.pontos + pontos)
        && context.users == old(context.users)[request.userId := user.(pontos := user.pontos + pontos)]
    {
      var user := context.users[request.userId];
      context.ValidIdsDistinct();
      var perguntas := QuestionsOf(context.perguntas, request.quizzId);
      var pontosObtidos := SumPoints(perguntas, request.respostas.value);
      context.SetPontos(request.userId, user.pontos + pontosObtidos);
      return Avaliacao(pontosObtidos, user.pontos + pontosObtidos);
    }
  }
}
