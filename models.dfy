/** The records the core moves around. They carry no behaviour. */
module Models {
  import opened Wrappers

  /** A question as the generation service returns it (PerguntaQuizz). The
      justification may be missing from the service's JSON, so it is nullable. */
  datatype PerguntaQuizz = PerguntaQuizz(
    perguntaTexto: string,
    index: int,
    alternativaA: string,
    alternativaB: string,
    alternativaC: string,
    alternativaD: string,
    respostaCorreta: string,
    justificativa: Option<string>)

  /** A quiz row (Quizz); also the shape of a generation request. */
  datatype Quizz = Quizz(
    id: int,
    tema: string,
    nivelEscolar: string,
    dificuldade: string,
    numeroPerguntas: int)

  /** A stored question row (Pergunta), linked to its quiz by quizzId. */
  datatype Pergunta = Pergunta(
    id: int,
    perguntaTexto: string,
    alternativaA: string,
    alternativaB: string,
    alternativaC: string,
    alternativaD: string,
    respostaCorreta: string,
    justificativa: Option<string>,
    nivelEscolar: string,
    tema: string,
    dificuldade: string,
    quizzId: int)

  /** A user row, reduced to its key and its running points total. */
  datatype User = User(id: int, pontos: int)

  /** One submitted answer: the question it is for and the chosen letter. */
  datatype RespostaUsuario = RespostaUsuario(perguntaId: int, alternativaEscolhida: string)

  /** A scoring request; its answer list may be null. */
  datatype AvaliacaoQuizzRequest = AvaliacaoQuizzRequest(
    userId: int,
    quizzId: int,
    respostas: Option<seq<RespostaUsuario>>)

  /** A per-question verdict as the core hands it to callers (PerguntaValidacaoDTO). */
  datatype PerguntaValidacaoDTO = PerguntaValidacaoDTO(
    index: int,
    valid: bool,
    issues: seq<string>,
    correctAnswerVerified: bool)
}
