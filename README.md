# Quiz API core in Dafny

This project models the deterministic core of a small ASP.NET quiz API
(`quizzAPI`). It covers two parts.

- **OpenAIService**: the text-to-structure stage.
  - `ExtractJsonArray` cuts the JSON array out of a chat reply.
  - The repair loop in `GerarQuizzDTOAsync` writes the sentinel
    `"Justificativa não gerada corretamente"` over every blank justification.
  - `ValidarQuizzAsync` maps `ValidationResult` records to `PerguntaValidacaoDTO`s.
- **QuizzController**: the quiz pipeline over the database, and scoring.
  - `GerarQuizz` stores a quiz row, generates and validates questions, then
    stores one question row per generated question.
  - `ObterPerguntasPorQuizz` reads a quiz's question rows back.
  - `AvaliarQuizz` scores a batch of answers by question difficulty
    (15 / 20 / 30 / 0) and adds the batch total to the user's points.

The chat service and `System.Text.Json` are treated as inputs.

- A chat reply is an `Option<string>`, because the reply text may be null.
- A deserializer is a function from the extracted text to `Parsed<T>`: a
  list, the JSON literal `null`, or a `JsonException`.

The database is an in-memory `Data.Store`. It holds quiz rows, question rows
and users, and hands out keys 1, 2, 3, … in insertion order.

Files:

- `wrappers.dfy`: `Option` and `Result`.
- `text.dfy`: the `System.String` operations used (`IndexOf`, `LastIndexOf`,
  `Trim`, `IsNullOrWhiteSpace`, `int.ToString`).
- `models.dfy`: the records.
- `openai_service.dfy`: the OpenAIService stage.
- `data.dfy`: the in-memory store.
- `controllers.dfy`: scoring and the controller.

Facts about the code that shape the model:

- The sentinel written over a blank justification is the Portuguese text
  `"Justificativa não gerada corretamente"` (OpenAIService.cs:79).
- The quiz row is saved before generation runs (QuizzController.cs:42-43).
  So a failed or empty generation still leaves that row behind.
- `ValidarQuizzAsync` is not wrapped in a try/catch. A validation failure
  therefore escapes `GerarQuizz` as a server error, and no question rows are
  stored.
- A null generator reply becomes `"[]"` (OpenAIService.cs:59). When the
  deserializer reads `"[]"` as the empty list, this gives an empty list
  (`OpenAIService.NullReplyIsEmpty`), and the controller then answers 400.

backend/Models/DTOs/PerguntaValidacaoDTO.cs, backend/Models/Pergunta.cs,
backend/Models/User.cs and the request DTO `AvaliacaoQuizzRequest` are not part
of this model. Their fields are the ones the core reads and writes
(OpenAIService.cs:136-142, QuizzController.cs:70-83, 139-167).

## Model

| member | source | states |
|---|---|---|
| Text.IndexOf | backend/Services/OpenAIService.cs:151 | the result is -1 exactly when the character is absent; otherwise the position holds it and no earlier position does |
| Text.LastIndexOf | backend/Services/OpenAIService.cs:152 | the result is -1 exactly when the character is absent; otherwise the position holds it and no later position does |
| Text.TrimStart | backend/Services/OpenAIService.cs:127 | the result is a suffix of the input; everything dropped is white space; the result does not start with white space |
| Text.TrimEnd | backend/Services/OpenAIService.cs:127 | the result is a prefix of the input; everything dropped is white space; the result does not end with white space |
| OpenAIService.ExtractJsonArray | backend/Services/OpenAIService.cs:148-156 | null, empty or white-space input gives null; a non-null result is exactly `raw[first '[' .. last ']']` inclusive, with the '[' before the ']'; it starts with '[' and ends with ']' |
| OpenAIService.ExtractFails | backend/Services/OpenAIService.cs:150-155 | the result is null if and only if the input is null, has no '[', has no ']', or has its last ']' before its first '[' |
| OpenAIService.ExtractSpan | backend/Services/OpenAIService.cs:151-154 | any pair of positions that hold the first '[' and the last ']', with the '[' first, determines the result as the span between them |
| OpenAIService.ExtractIdempotent | backend/Services/OpenAIService.cs:151-154 | extracting from a non-null extraction returns it unchanged |
| OpenAIService.ExtractIgnoresLeadingWhiteSpace | backend/Services/OpenAIService.cs:150-154 | white space in front of the reply does not change the result |
| OpenAIService.ExtractIgnoresTrailingWhiteSpace | backend/Services/OpenAIService.cs:150-154 | white space after the reply does not change the result |
| OpenAIService.ExtractTrimmed | backend/Services/OpenAIService.cs:127-129 | calling `Trim()` before extraction does not change the result |
| OpenAIService.Repaired | backend/Services/OpenAIService.cs:76-80 | the repair keeps length and order; every justification afterwards is non-blank; non-blank ones and all other fields are untouched; blank ones become the sentinel |
| OpenAIService.RepairedIdempotent | backend/Services/OpenAIService.cs:76-80 | repairing a repaired list changes nothing |
| OpenAIService.GeneratedQuestions | backend/Services/OpenAIService.cs:59-83 | a non-null but empty or blank reply is the "no JSON" error; a null reply reads as "[]"; a JSON null gives an empty list; a parsed list comes back repaired; every returned justification is non-blank |
| OpenAIService.NullReplyIsEmpty | backend/Services/OpenAIService.cs:59-74 | a null reply, read as "[]", gives the empty list when the deserializer reads "[]" as the empty list |
| OpenAIService.GerarQuizzDTO | backend/Services/OpenAIService.cs:65-83 | the in-place repair loop returns exactly what GeneratedQuestions describes |
| OpenAIService.ToDtos | backend/Services/OpenAIService.cs:136-142 | same length and order as the results; element i copies Index, Valid, Issues and CorrectAnswerVerified of result i |
| OpenAIService.ToDtosRoundTrip | backend/Services/OpenAIService.cs:136-142 | copying every DTO back gives the original results |
| OpenAIService.ValidarQuizz | backend/Services/OpenAIService.cs:126-144 | a null or blank reply is the "no JSON" error; the error occurs exactly when the untrimmed reply holds no array; otherwise a JsonException is an error, a JSON null gives an empty list, and a list is mapped by ToDtos |
| Controllers.Points | backend/Controllers/QuizzController.cs:156-162 | 15 exactly for "Fácil", 20 exactly for "Média", 30 exactly for "Dificil", 0 for every other string |
| Controllers.AnswerPoints | backend/Controllers/QuizzController.cs:152-163 | an answer scores the difficulty's points only when its question is in the quiz and the letters match exactly; otherwise it scores 0; never more than 30 |
| Controllers.Score | backend/Controllers/QuizzController.cs:148-165 | the batch total is a natural number of at most 30 × the number of answers |
| Controllers.ScoreAppend | backend/Controllers/QuizzController.cs:148-165 | the total of two batches in a row is the sum of their totals |
| Controllers.ScoreRemoveAt | backend/Controllers/QuizzController.cs:150-164 | removing one answer removes exactly its contribution |
| Controllers.ScoreOrderIndependent | backend/Controllers/QuizzController.cs:148-165 | any rearrangement of the answers gives the same total |
| Controllers.ScoreIgnoresUnknown | backend/Controllers/QuizzController.cs:150-152 | an answer for a question outside the quiz contributes nothing wherever it stands |
| Controllers.ScoreCountsRepeats | backend/Controllers/QuizzController.cs:150-165 | answers are not deduplicated: n copies of one answer score n times its points |
| Controllers.SumPoints | backend/Controllers/QuizzController.cs:148-165 | the accumulating loop ends with the batch total Score |
| Controllers.QuestionsOf | backend/Controllers/QuizzController.cs:144-146 | every row of the quiz is in the dictionary under its own key, and the dictionary holds nothing else |
| Controllers.ToPerguntas | backend/Controllers/QuizzController.cs:68-86 | one row per generated question, in order; each copies text, alternatives, answer and justification, takes NivelEscolar, Tema and Dificuldade from the request, and points at the new quiz |
| Controllers.PerguntasDoQuizz | backend/Controllers/QuizzController.cs:110-111 | the result holds exactly the rows of the given quiz and is no longer than the table |
| Controllers.PerguntasDoQuizzAppend | backend/Controllers/QuizzController.cs:110-111 | filtering a concatenation concatenates the filtered parts |
| Controllers.NewQuizQuestions | backend/Controllers/QuizzController.cs:68-88 | when no older row points at the new key, reading the new quiz back gives exactly its new rows |
| Controllers.QuizzController.GerarQuizz | backend/Controllers/QuizzController.cs:28-106 | a null request is a 400 and changes nothing; otherwise a quiz row titled "Quiz sobre " + topic is stored first; a generation error is a 500, and an empty list is a 400, with no question rows; a validation error is a 500 with no question rows; otherwise the rows of ToPerguntas are appended and the response carries the new key, the title and the generated questions; users never change |
| Controllers.QuizzController.SalvarPerguntas | backend/Controllers/QuizzController.cs:67-88 | the loop appends exactly the rows of ToPerguntas, keyed in order, and reading the quiz back gives those rows |
| Controllers.QuizzController.ObterPerguntasPorQuizz | backend/Controllers/QuizzController.cs:107-129 | a quiz with no rows is a 404 with the key in the message; otherwise its rows in order |
| Controllers.QuizzController.AvaliarQuizz | backend/Controllers/QuizzController.cs:133-175 | a null request or a null or empty answer list is a 400, and an unknown user is a 404, with no points changed; otherwise the response reports Score and the new total, and the user's points become the old points plus Score; no table other than the user's points changes |
| Controllers.QuizzController.Pontuar | backend/Controllers/QuizzController.cs:139-174 | for a request with answers and a known user, the evaluation reports Score and the old points plus Score, and only that user's points change |
| Data.Store.SetPontos | backend/Controllers/QuizzController.cs:167-168 | only the given user's points change, to the given value; the quiz and question tables stay the same |
| Data.Store.AddQuizz | backend/Controllers/QuizzController.cs:42-43 | the new quiz row gets the next key and is appended; nothing else changes |
| Data.Store.AddPergunta | backend/Controllers/QuizzController.cs:85-88 | the new question row gets the next key and is appended; nothing else changes |

## Left out

- The OpenAI client: its construction, the API-key lookup and the
  `CompleteChatAsync` calls (OpenAIService.cs:13-22, 58, 126). These are
  network calls into a foreign library. Replies are given as inputs.
- The prompt texts (OpenAIService.cs:29-50, 91-112). They are prose, with
  nothing to check beyond the interpolated arguments.
- JSON deserialization and serialization (OpenAIService.cs:72-73, 132-133;
  QuizzController.cs:57). System.Text.Json is a foreign library. The
  deserializer is a parameter. The serialized questions sent to the validator
  are not modelled, so the validator's reply is an independent input.
- Null elements in a deserialized list, as from the JSON text `[null]`. In the
  code the repair loop would then throw a NullReferenceException. The model's
  parsed lists have no null elements.
- Controllers.QuizzController.AvaliarQuizz: a null answer in the request, as
  from `"respostas":[null]`, is not modelled. In the code,
  `resposta.PerguntaId` (QuizzController.cs:152) then throws a
  NullReferenceException. That happens after the user lookup, so the action
  fails as a server error with no points saved. The model's answer lists have
  no null elements.
- Null string fields other than `Justificativa`. Only the justification and
  the reply texts are nullable in the model.
- OpenAIService.ToDtos: `Issues` is copied as a value. The C# list object is
  shared between a result and its DTO, and that aliasing is not modelled.
- Async/await, `SaveChangesAsync` transactions, and concurrent
  read-modify-write of `Pontos`. These are concurrency and database behaviour.
- backend/Data/ApplicationDbContext.cs. It is EF Core schema configuration
  (column lengths, cascade delete). The store keeps only the foreign key from
  a question row to its quiz.
- HTTP routing and attributes, including the automatic 400 that
  `[ApiController]` model validation can give before an action runs.
- Controllers.QuizzController.GerarQuizz: the response body carries the
  generated questions whole, including `Index`. The code projects `Index`
  away. `Quizz.Perguntas`, the navigation list, is not modelled; rows are
  linked to their quiz only by `quizzId`.
- Controllers.QuizzController.ObterPerguntasPorQuizz: the query has no
  OrderBy (QuizzController.cs:110-123). The model assumes the database
  returns a quiz's rows in key order. SQL promises no order, so the
  read-back contracts of ObterPerguntasPorQuizz, SalvarPerguntas and
  GerarQuizz (`PerguntasDoQuizz(...) == ToPerguntas(...)`) hold only under
  that assumption.
- Controllers.QuizzController.ObterPerguntasPorQuizz: it returns whole rows.
  The code projects away NivelEscolar, Tema, Dificuldade and QuizzId.
- Controllers.QuizzController.AvaliarQuizz: integers are unbounded. The C#
  `int` additions to `pontosObtidos` and `Pontos` would wrap past 2^31 - 1.
  Reaching that needs tens of millions of correct answers, and the type of
  `Pontos` (in User.cs) is not part of this model.
