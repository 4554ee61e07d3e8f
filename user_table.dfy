/**
 * The users table as the rows the gateway's SQL works on, used to state what
 * setUserProgress and setScore in app/Gateway/UserGateway.php do as written:
 * their UPDATE has no WHERE clause and also assigns user_id, so it rewrites
 * every row. This assumes no unique index on user_id; with one, the write
 * fails with a duplicate-key error as soon as a second user exists. The
 * webhook model uses the per-user updates Quiz.SetUserProgress and
 * Quiz.SetScore instead.
 */
module UserTable {

  datatype Row = Row(userId: string, displayName: string, number: int, score: int)

  /** setUserProgress as written: UPDATE users SET number = n, user_id = userId. */
  function SetUserProgressAsWritten(rows: seq<Row>, userId: string, n: int): seq<Row>
  {
    seq(|rows|, i requires 0 <= i < |rows| => rows[i].(number := n, userId := userId))
  }

  /** setScore as written: UPDATE users SET score = s, user_id = userId. */
  function SetScoreAsWritten(rows: seq<Row>, userId: string, s: int): seq<Row>
  {
    seq(|rows|, i requires 0 <= i < |rows| => rows[i].(score := s, userId := userId))
  }

  /** After either write, every row claims the writing user's id and carries the written value. */
  lemma AsWrittenWritesEveryRow(rows: seq<Row>, userId: string, v: int)
    ensures forall i :: 0 <= i < |rows| ==>
      SetUserProgressAsWritten(rows, userId, v)[i].userId == userId &&
      SetUserProgressAsWritten(rows, userId, v)[i].number == v &&
      SetScoreAsWritten(rows, userId, v)[i].userId == userId &&
      SetScoreAsWritten(rows, userId, v)[i].score == v
  {
  }

  /**
   * Without a unique index on user_id: U2 is on question 5 with score 3. U1 starts the quiz
   * (setScore(U1, 0), then setUserProgress(U1, 1)): U2's row is renamed U1
   * and loses both its progress and its score.
   */
  lemma StartingOneUserResetsAnother()
    ensures var rows := [Row("U1", "Alice", 0, 7), Row("U2", "Bob", 5, 3)];
      var after := SetUserProgressAsWritten(SetScoreAsWritten(rows, "U1", 0), "U1", 1);
      after[1] == Row("U1", "Bob", 1, 0) &&
      forall i :: 0 <= i < |after| ==> after[i].userId != "U2"
  {
  }
}
