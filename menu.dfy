/**
 * One "Play" round of the main menu: the difficulty selector picks a preset, a game
 * for it is played to its end, and its attempt count is submitted to the registry
 * whatever the outcome.
 */
module Menu {
  import opened Difficulties
  import opened GuessingGame
  import opened HighScores

  /** The draw of Random.nextInt fits the range of the preset the selector picks, if any. */
  predicate ValidDraw(choice: int, draw: int) {
    match Select(choice)
    case None => true
    case Some(d) => 0 <= draw < d.UpperBound() - d.LowerBound() + 1
  }

  /**
   * The lines end the game the selector starts. play() returns, and the score is
   * submitted, only after a win, a loss or a quit; input that runs out earlier never
   * reaches the registry.
   */
  predicate GameEnds(choice: int, draw: int, lines: seq<Input>)
    requires ValidDraw(choice, draw)
  {
    match Select(choice)
    case None => true
    case Some(d) => Run(Start(d, draw), lines).status != Active
  }

  /** The registry after one round. */
  function Round(scores: map<Difficulty, int>, choice: int, draw: int, lines: seq<Input>): (r: map<Difficulty, int>)
    requires ValidDraw(choice, draw) && GameEnds(choice, draw, lines)
    ensures Select(choice).None? ==> r == scores
    ensures forall e :: Select(choice) != Some(e) ==>
              (e in r <==> e in scores) && Current(r, e) == Current(scores, e)
    ensures Select(choice).Some? ==>
              Current(r, Select(choice).value) ==
                Min(Current(scores, Select(choice).value), Run(Start(Select(choice).value, draw), lines).attempts)
    ensures Select(choice).Some? ==> Current(r, Select(choice).value) <= Select(choice).value.NumberOfAttempts()
  {
    match Select(choice)
    case None => scores
    case Some(d) =>
      var s := Start(d, draw);
      RunPreservesValid(s, lines);
      Update(scores, d, Run(s, lines).attempts)
  }

  /** Quitting at the first prompt still submits a score: 0, which beats every positive entry. */
  lemma QuitAtOnceRecordsZero(scores: map<Difficulty, int>, choice: int, draw: int, rest: seq<Input>)
    requires ValidDraw(choice, draw) && Select(choice).Some?
    ensures GameEnds(choice, draw, [Quit] + rest)
    ensures GameEnds(choice, draw, [Quit] + rest) &&
            Current(Round(scores, choice, draw, [Quit] + rest), Select(choice).value) ==
              Min(Current(scores, Select(choice).value), 0)
  {
    var s := Start(Select(choice).value, draw);
    assert [Quit][..0] == [];
    assert Run(s, [Quit]).status == Quitted && Run(s, [Quit]).attempts == 0;
    RunAppend(s, [Quit], rest);
    RunAbsorbing(Run(s, [Quit]), rest);
  }

  /** A lost game submits the whole budget as its score. */
  lemma LostRoundRecordsBudget(scores: map<Difficulty, int>, choice: int, draw: int, lines: seq<Input>)
    requires ValidDraw(choice, draw) && Select(choice).Some?
    requires Run(Start(Select(choice).value, draw), lines).status == Lost
    ensures Current(Round(scores, choice, draw, lines), Select(choice).value) ==
              Min(Current(scores, Select(choice).value), Select(choice).value.NumberOfAttempts())
  {
    RunPreservesValid(Start(Select(choice).value, draw), lines);
    RunExtendsHistory(Start(Select(choice).value, draw), lines);
  }

  /**
   * The Play branch of the menu: an unknown selector creates no game and leaves the
   * registry alone; otherwise the game runs on the lines to its end and its attempts
   * are submitted.
   */
  method PlayRound(registry: HighScoreManager, choice: int, draw: int, lines: seq<Input>)
    returns (game: NumberGuessingGame?)
    requires ValidDraw(choice, draw) && GameEnds(choice, draw, lines)
    modifies registry
    ensures registry.highScores == Round(old(registry.highScores), choice, draw, lines)
    ensures game == null <==> Select(choice).None?
    ensures game != null ==> fresh(game) && game.State() == Run(Start(Select(choice).value, draw), lines)
  {
    var selected := Select(choice);
    if selected.None? {
      return null;
    }
    var difficulty := selected.value;
    game := new NumberGuessingGame(difficulty, draw);
    var _ := game.Play(lines);
    RunPreservesValid(Start(difficulty, draw), lines);
    var attempts := game.GetAttempts();
    var _ := registry.UpdateHighScore(difficulty, attempts);
  }
}
