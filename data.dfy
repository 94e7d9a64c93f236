/** An in-memory stand-in for the database context: the three tables the
    controller touches, with keys handed out in insertion order. */
module Data {
  import opened Models

  /** No two question rows share a key, so they can be indexed by key. */
  predicate DistinctIds(ps: seq<Pergunta>) {
    forall i, j :: 0 <= i < j < |ps| ==> ps[i].id != ps[j].id
  }

  class Store {
    var quizzes: seq<Quizz>
    var perguntas: seq<Pergunta>
    var users: map<int, User>

    /** Keys are 1, 2, 3, ... in insertion order; every question row points
        at an existing quiz row; every user is stored under its own key. */
    ghost predicate Valid()
      reads this
    {
      && (forall i :: 0 <= i < |quizzes| ==> quizzes[i].id == i + 1)
      && (forall i :: 0 <= i < |perguntas| ==> perguntas[i].id == i + 1)
      && (forall i :: 0 <= i < |perguntas| ==> 1 <= perguntas[i].quizzId <= |quizzes|)
      && (forall id :: id in users ==> users[id].id == id)
    }

    /** Keys handed out in order never repeat. */
    lemma ValidIdsDistinct()
      requires Valid()
      ensures DistinctIds(perguntas)
    {
    }

    /** A store with the given users and no quizzes or questions yet. */
    constructor (users: map<int, User>)
      requires forall id :: id in users ==> users[id].id == id
      ensures Valid()
      ensures quizzes == [] && perguntas == [] && this.users == users
    {
      quizzes := [];
      perguntas := [];
      this.users := users;
    }

    /** Quizzes.Add followed by SaveChanges: the new row gets the next key. */
    method AddQuizz(tema: string, nivelEscolar: string, dificuldade: string, numeroPerguntas: int)
      returns (q: Quizz)
      requires Valid()
      modifies this
      ensures Valid()
      ensures q == Quizz(|old(quizzes)| + 1, tema, nivelEscolar, dificuldade, numeroPerguntas)
      ensures quizzes == old(quizzes) + [q]
      ensures perguntas == old(perguntas) && users == old(users)
    {
      q := Quizz(|quizzes| + 1, tema, nivelEscolar, dificuldade, numeroPerguntas);
      quizzes := quizzes + [q];
    }

    /** Perguntas.Add followed by SaveChanges: the row gets the next key; its
        quiz must exist (the foreign key). */
    method AddPergunta(p: Pergunta) returns (id: int)
      requires Valid()
      requires 1 <= p.quizzId <= |quizzes|
      modifies this
      ensures Valid()
      ensures id == |old(perguntas)| + 1
      ensures perguntas == old(perguntas) + [p.(id := id)]
      ensures quizzes == old(quizzes) && users == old(users)
    {
      id := |perguntas| + 1;
      perguntas := perguntas + [p.(id := id)];
    }

    /** Writing a tracked user's points back with SaveChanges: only that
        user's Pontos changes. */
    method SetPontos(userId: int, pontos: int)
      requires Valid()
      requires userId in users
      modifies this
      ensures Valid()
      ensures users == old(users)[userId := old(users)[userId].(pontos := pontos)]
      ensures quizzes == old(quizzes) && perguntas == old(perguntas)
    {
      users := users[userId := users[userId].(pontos := pontos)];
    }
  }
}
