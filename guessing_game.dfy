/**
 * One guessing session: a secret target in an inclusive range, an attempt budget,
 * the attempts made and the ordered list of accepted guesses.
 *
 * Each line the player types is one Input; the body of the play loop is the
 * transition Next, and a whole session over a list of lines is Run. The class
 * NumberGuessingGame holds the same state in fields and updates it in place.
 */
module GuessingGame {
  import opened Difficulties

  /** A line of player input, already classified: the quit keyword, text that is no integer, or an integer. */
  datatype Input = Quit | NotANumber | Num(n: int)

  /** Active is the only state in which a line is read; the other three are terminal. */
  datatype Status = Active | Won | Lost | Quitted

  /** What the game tells the player after one line. */
  datatype Feedback =
    | InvalidInput   // the line is not an integer
    | OutOfRange     // the integer lies outside the range
    | TryHigher      // a wrong guess below the target
    | TryLower       // a wrong guess above the target
    | Correct        // the guess is the target
    | QuitGame       // the player typed the quit keyword
    | Ignored        // the session had already ended; nothing is read

  /** The abstract state of a session. */
  datatype Session = Session(
    lowerBound: int,
    upperBound: int,
    numberOfAttempts: int,
    targetNumber: int,
    attempts: int,
    guesses: seq<int>,
    status: Status)

  predicate InRange(s: Session, n: int) {
    s.lowerBound <= n <= s.upperBound
  }

  /** The session invariant. */
  predicate ValidSession(s: Session) {
    && s.lowerBound <= s.targetNumber <= s.upperBound
    && 0 < s.numberOfAttempts
    && 0 <= s.attempts <= s.numberOfAttempts
    && |s.guesses| == s.attempts
    && (forall i :: 0 <= i < |s.guesses| ==> InRange(s, s.guesses[i]))
    // only a winning last guess hits the target
    && (forall i :: 0 <= i < |s.guesses| && (s.status != Won || i < |s.guesses| - 1) ==>
          s.guesses[i] != s.targetNumber)
    && (s.status == Active ==> s.attempts < s.numberOfAttempts)
    && (s.status == Won ==> 0 < s.attempts && s.guesses[|s.guesses| - 1] == s.targetNumber)
    && (s.status == Lost ==> s.attempts == s.numberOfAttempts)
    && (s.status == Quitted ==> s.attempts < s.numberOfAttempts)
  }

  /** The range, budget and target never change once a session exists. */
  predicate SameSetup(s: Session, t: Session) {
    && t.lowerBound == s.lowerBound
    && t.upperBound == s.upperBound
    && t.numberOfAttempts == s.numberOfAttempts
    && t.targetNumber == s.targetNumber
  }

  /** The target computed from a draw of Random.nextInt(upper - lower + 1). */
  function DrawTarget(lower: int, upper: int, draw: int): (t: int)
    requires lower <= upper
    requires 0 <= draw < upper - lower + 1
    ensures lower <= t <= upper
  {
    draw + lower
  }

  /** Every number of the range is the target of some draw. */
  lemma DrawTargetCoversRange(lower: int, upper: int, t: int)
    requires lower <= t <= upper
    ensures 0 <= t - lower < upper - lower + 1
    ensures DrawTarget(lower, upper, t - lower) == t
  {
  }

  /** A new session for a preset: no attempts, no guesses, waiting for a line. */
  function Start(d: Difficulty, draw: int): (s: Session)
    requires 0 <= draw < d.UpperBound() - d.LowerBound() + 1
    ensures ValidSession(s)
    ensures s.status == Active && s.attempts == 0 && s.guesses == []
    ensures s.lowerBound == d.LowerBound() && s.upperBound == d.UpperBound()
    ensures s.numberOfAttempts == d.NumberOfAttempts()
    ensures s.lowerBound <= s.targetNumber <= s.upperBound
  {
    PresetWellFormed(d);
    Session(d.LowerBound(), d.UpperBound(), d.NumberOfAttempts(),
            DrawTarget(d.LowerBound(), d.UpperBound(), draw), 0, [], Active)
  }

  /** One pass of the play loop on one line of input. */
  function Next(s: Session, input: Input): (r: (Session, Feedback))
    ensures SameSetup(s, r.0)
    ensures ValidSession(s) ==> ValidSession(r.0)
    ensures s.attempts <= r.0.attempts <= s.attempts + 1
  {
    if s.status != Active then (s, Ignored)
    else
      match input
      case Quit => (s.(status := Quitted), QuitGame)
      case NotANumber => (s, InvalidInput)
      case Num(n) =>
        if n < s.lowerBound || n > s.upperBound then (s, OutOfRange)
        else
          var t := s.(attempts := s.attempts + 1, guesses := s.guesses + [n]);
          if n == s.targetNumber then (t.(status := Won), Correct)
          else
            (t.(status := if t.attempts < t.numberOfAttempts then Active else Lost),
             if n < s.targetNumber then TryHigher else TryLower)
  }

  /** The session after the given lines, in order. */
  function Run(s: Session, inputs: seq<Input>): Session
    decreases |inputs|
  {
    if inputs == [] then s
    else Next(Run(s, inputs[..|inputs| - 1]), inputs[|inputs| - 1]).0
  }

  // ---------------------------------------------------------------------------
  // Properties of one step

  /** The quit keyword ends an active session at once and keeps attempts and guesses. */
  lemma QuitEndsSession(s: Session)
    requires s.status == Active
    ensures Next(s, Quit) == (s.(status := Quitted), QuitGame)
    ensures Next(s, Quit).0.attempts == s.attempts && Next(s, Quit).0.guesses == s.guesses
  {
  }

  /** A line that is no integer, or an integer outside the range, changes nothing and the session stays active. */
  lemma RejectedInputChangesNothing(s: Session, input: Input)
    requires s.status == Active
    requires input.NotANumber? || (input.Num? && !InRange(s, input.n))
    ensures Next(s, input).0 == s
    ensures Next(s, input).1 == if input.NotANumber? then InvalidInput else OutOfRange
  {
  }

  /** An in-range guess costs exactly one attempt and goes to the end of the history. */
  lemma AcceptedGuessIsRecorded(s: Session, n: int)
    requires s.status == Active && InRange(s, n)
    ensures Next(s, Num(n)).0.attempts == s.attempts + 1
    ensures Next(s, Num(n)).0.guesses == s.guesses + [n]
  {
  }

  /** The feedback of an active session, case by case, in both directions. */
  lemma FeedbackMeaning(s: Session, input: Input)
    requires s.status == Active
    ensures Next(s, input).1 == QuitGame <==> input.Quit?
    ensures Next(s, input).1 == InvalidInput <==> input.NotANumber?
    ensures Next(s, input).1 == OutOfRange <==> input.Num? && !InRange(s, input.n)
    ensures Next(s, input).1 == Correct <==> input.Num? && InRange(s, input.n) && input.n == s.targetNumber
    ensures Next(s, input).1 == TryHigher <==> input.Num? && InRange(s, input.n) && input.n < s.targetNumber
    ensures Next(s, input).1 == TryLower <==> input.Num? && InRange(s, input.n) && input.n > s.targetNumber
    ensures Next(s, input).1 != Ignored
  {
  }

  /** A correct guess wins; the session is lost exactly when a wrong guess uses up the budget. */
  lemma OutcomeOfStep(s: Session, input: Input)
    requires ValidSession(s) && s.status == Active
    ensures Next(s, input).0.status == Won <==>
              input.Num? && InRange(s, input.n) && input.n == s.targetNumber
    ensures Next(s, input).0.status == Lost <==>
              input.Num? && InRange(s, input.n) && input.n != s.targetNumber &&
              s.attempts + 1 == s.numberOfAttempts
    ensures Next(s, input).0.status == Quitted <==> input.Quit?
  {
  }

  /** Won, Lost and Quitted are absorbing: no line changes them. */
  lemma TerminalIsAbsorbing(s: Session, input: Input)
    requires s.status != Active
    ensures Next(s, input) == (s, Ignored)
  {
  }

  // ---------------------------------------------------------------------------
  // Properties of whole runs

  /** Running two lists one after the other is running their concatenation. */
  lemma {:induction false} RunAppend(s: Session, a: seq<Input>, b: seq<Input>)
    ensures Run(s, a + b) == Run(Run(s, a), b)
    decreases |b|
  {
    if b == [] {
      assert a + b == a;
    } else {
      var b' := b[..|b| - 1];
      assert (a + b)[..|a + b| - 1] == a + b';
      assert (a + b)[|a + b| - 1] == b[|b| - 1];
      RunAppend(s, a, b');
    }
  }

  /** Once a session has ended, no further lines change it. */
  lemma {:induction false} RunAbsorbing(s: Session, inputs: seq<Input>)
    requires s.status != Active
    ensures Run(s, inputs) == s
    decreases |inputs|
  {
    if inputs != [] {
      RunAbsorbing(s, inputs[..|inputs| - 1]);
    }
  }

  /**
   * The invariant holds after any list of lines: attempts equals the number of
   * recorded guesses, never exceeds the budget, and every guess is in range.
   */
  lemma {:induction false} RunPreservesValid(s: Session, inputs: seq<Input>)
    requires ValidSession(s)
    ensures ValidSession(Run(s, inputs))
    ensures |Run(s, inputs).guesses| == Run(s, inputs).attempts <= s.numberOfAttempts
    decreases |inputs|
  {
    if inputs != [] {
      RunPreservesValid(s, inputs[..|inputs| - 1]);
    }
    RunExtendsHistory(s, inputs);
  }

  /**
   * After any list of lines, a session whose budget is used up and that was not won is lost:
   * it can be neither active nor quit.
   */
  lemma RunUsedUpBudgetIsLost(s: Session, inputs: seq<Input>)
    requires ValidSession(s)
    ensures Run(s, inputs).attempts == s.numberOfAttempts && Run(s, inputs).status != Won ==>
              Run(s, inputs).status == Lost
    ensures Run(s, inputs).status == Lost ==>
              Run(s, inputs).attempts == s.numberOfAttempts &&
              forall i :: 0 <= i < |Run(s, inputs).guesses| ==> Run(s, inputs).guesses[i] != s.targetNumber
  {
    RunPreservesValid(s, inputs);
    RunExtendsHistory(s, inputs);
  }

  /** The setup never changes, and the guess history only grows at its end. */
  lemma {:induction false} RunExtendsHistory(s: Session, inputs: seq<Input>)
    ensures SameSetup(s, Run(s, inputs))
    ensures s.guesses <= Run(s, inputs).guesses
    ensures s.attempts <= Run(s, inputs).attempts <= s.attempts + |inputs|
    decreases |inputs|
  {
    if inputs != [] {
      var p := inputs[..|inputs| - 1];
      RunExtendsHistory(s, p);
      var t := Run(s, p);
      assert Next(t, inputs[|inputs| - 1]).0.guesses == t.guesses ||
             Next(t, inputs[|inputs| - 1]).0.guesses == t.guesses + [inputs[|inputs| - 1].n];
    }
  }

  /** A session for the Easy preset with target 25 and the lines 10, "abc", 60, 25. */
  lemma EasyScenario()
    ensures Start(Easy, 24).targetNumber == 25
    ensures Next(Start(Easy, 24), Num(10)).1 == TryHigher
    ensures Run(Start(Easy, 24), [Num(10), NotANumber]).attempts == 1
    ensures Run(Start(Easy, 24), [Num(10), NotANumber, Num(60)]).attempts == 1
    ensures Run(Start(Easy, 24), [Num(10), NotANumber, Num(60), Num(25)]) ==
              Session(1, 50, 10, 25, 2, [10, 25], Won)
  {
    var s0 := Start(Easy, 24);
    var s1 := Run(s0, [Num(10)]);
    assert [Num(10), NotANumber][..1] == [Num(10)];
    assert [Num(10), NotANumber, Num(60)][..2] == [Num(10), NotANumber];
    assert [Num(10), NotANumber, Num(60), Num(25)][..3] == [Num(10), NotANumber, Num(60)];
  }

  /** Five wrong guesses on the Hard preset lose the session with all five attempts used. */
  lemma HardScenario()
    ensures Run(Start(Hard, 99), [Num(1), Num(2), Num(3), Num(4), Num(5)]) ==
              Session(1, 200, 5, 100, 5, [1, 2, 3, 4, 5], Lost)
  {
    var s0 := Start(Hard, 99);
    var p1, p2, p3, p4 := [Num(1)], [Num(1), Num(2)], [Num(1), Num(2), Num(3)], [Num(1), Num(2), Num(3), Num(4)];
    var p5 := [Num(1), Num(2), Num(3), Num(4), Num(5)];
    assert p1[..0] == [];
    assert Run(s0, p1) == Session(1, 200, 5, 100, 1, [1], Active);
    assert p2[..1] == p1;
    assert Run(s0, p2) == Session(1, 200, 5, 100, 2, [1, 2], Active);
    assert p3[..2] == p2;
    assert Run(s0, p3) == Session(1, 200, 5, 100, 3, [1, 2, 3], Active);
    assert p4[..3] == p3;
    assert Run(s0, p4) == Session(1, 200, 5, 100, 4, [1, 2, 3, 4], Active);
    assert p5[..4] == p4;
  }

  // ---------------------------------------------------------------------------
  // The game object

  class NumberGuessingGame {
    const lowerBound: int
    const upperBound: int
    const numberOfAttempts: int
    const targetNumber: int
    var attempts: int
    var guesses: seq<int>
    var status: Status

    function State(): Session
      reads this
    {
      Session(lowerBound, upperBound, numberOfAttempts, targetNumber, attempts, guesses, status)
    }

    predicate Valid()
      reads this
    {
      ValidSession(State())
    }

    /** A game for a preset; draw is the value Random.nextInt(upper - lower + 1) returned. */
    constructor (difficulty: Difficulty, draw: int)
      requires 0 <= draw < difficulty.UpperBound() - difficulty.LowerBound() + 1
      ensures Valid()
      ensures State() == Start(difficulty, draw)
    {
      lowerBound := difficulty.LowerBound();
      upperBound := difficulty.UpperBound();
      numberOfAttempts := difficulty.NumberOfAttempts();
      targetNumber := DrawTarget(difficulty.LowerBound(), difficulty.UpperBound(), draw);
      attempts := 0;
      guesses := [];
      status := Active;
    }

    /** Handle one line of input, as one pass of the play loop does. */
    method Step(input: Input) returns (feedback: Feedback)
      modifies this
      ensures (State(), feedback) == Next(old(State()), input)
    {
      if status != Active {
        return Ignored;
      }
      match input {
        case Quit =>
          status := Quitted;
          feedback := QuitGame;
        case NotANumber =>
          feedback := InvalidInput;
        case Num(n) =>
          if n < lowerBound || n > upperBound {
            feedback := OutOfRange;
          } else {
            attempts := attempts + 1;
            guesses := guesses + [n];
            if n == targetNumber {
              status := Won;
              feedback := Correct;
            } else {
              feedback := if n < targetNumber then TryHigher else TryLower;
              if attempts >= numberOfAttempts {
                status := Lost;
              }
            }
          }
      }
    }

    /**
     * The play loop: read lines until the session ends or the lines run out.
     * Returns how many lines were read; the lines after those are never looked at.
     */
    method Play(lines: seq<Input>) returns (used: nat)
      modifies this
      ensures used <= |lines|
      ensures State() == Run(old(State()), lines)
      ensures State() == Run(old(State()), lines[..used])
      ensures used < |lines| ==> status != Active
      ensures 0 < used ==> Run(old(State()), lines[..used - 1]).status == Active
    {
      used := 0;
      while used < |lines| && status == Active
        invariant used <= |lines|
        invariant State() == Run(old(State()), lines[..used])
        invariant 0 < used ==> Run(old(State()), lines[..used - 1]).status == Active
        decreases |lines| - used
      {
        var _ := Step(lines[used]);
        used := used + 1;
        assert lines[..used][..used - 1] == lines[..used - 1];
      }
      // the lines after the end of the session change nothing
      if used < |lines| {
        RunAbsorbing(State(), lines[used..]);
      }
      assert lines[..used] + lines[used..] == lines;
      RunAppend(old(State()), lines[..used], lines[used..]);
    }

    function GetAttempts(): (n: int)
      reads this
      requires Valid()
      ensures n == |guesses|
      ensures 0 <= n <= numberOfAttempts
    {
      attempts
    }
  }
}
