/** The high-score registry: for each difficulty, the lowest score submitted so far. */
module HighScores {
  import opened Difficulties

  /** Java's Integer.MAX_VALUE, the score a difficulty without an entry is compared against. */
  const IntMaxValue: int := 0x7fff_ffff

  function Min(a: int, b: int): int {
    if a <= b then a else b
  }

  /** The stored best for d, or IntMaxValue when there is no entry. */
  function Current(scores: map<Difficulty, int>, d: Difficulty): int {
    if d in scores then scores[d] else IntMaxValue
  }

  /** Every stored score beats the default of an absent entry. */
  predicate BelowDefault(scores: map<Difficulty, int>) {
    forall e :: e in scores ==> scores[e] < IntMaxValue
  }

  /** Submit one score: the entry for d is written only when the score is strictly lower than the current best. */
  function Update(scores: map<Difficulty, int>, d: Difficulty, score: int): (r: map<Difficulty, int>)
    ensures Current(r, d) == Min(score, Current(scores, d))
    ensures r != scores ==> score < Current(scores, d) && d in r && r[d] == score
    ensures d in r <==> d in scores || score < IntMaxValue
    ensures forall e :: e != d ==> (e in r <==> e in scores) && Current(r, e) == Current(scores, e)
    ensures BelowDefault(scores) ==> BelowDefault(r)
  {
    if score < Current(scores, d) then scores[d := score] else scores
  }

  /** The registry after a list of (difficulty, score) submissions, in order. */
  function Replay(scores: map<Difficulty, int>, subs: seq<(Difficulty, int)>): map<Difficulty, int>
    decreases |subs|
  {
    if subs == [] then scores
    else Update(Replay(scores, subs[..|subs| - 1]), subs[|subs| - 1].0, subs[|subs| - 1].1)
  }

  /**
   * After any list of submissions the best for d is at most its old value and at most
   * every score submitted for d, and it is either the old value or one of those scores.
   */
  lemma {:induction false} ReplayIsMinimum(m: map<Difficulty, int>, subs: seq<(Difficulty, int)>, d: Difficulty)
    ensures Current(Replay(m, subs), d) <= Current(m, d)
    ensures forall i :: 0 <= i < |subs| && subs[i].0 == d ==> Current(Replay(m, subs), d) <= subs[i].1
    ensures Current(Replay(m, subs), d) == Current(m, d) ||
            exists i :: 0 <= i < |subs| && subs[i] == (d, Current(Replay(m, subs), d))
    decreases |subs|
  {
    if subs != [] {
      var p := subs[..|subs| - 1];
      var last := subs[|subs| - 1];
      ReplayIsMinimum(m, p, d);
      var before := Replay(m, p);
      var after := Replay(m, subs);
      assert after == Update(before, last.0, last.1);
      forall i | 0 <= i < |subs| && subs[i].0 == d
        ensures Current(after, d) <= subs[i].1
      {
        if i < |subs| - 1 {
          assert subs[i] == p[i];
        }
      }
      if Current(after, d) != Current(m, d) {
        if Current(after, d) == Current(before, d) {
          var i :| 0 <= i < |p| && p[i] == (d, Current(before, d));
          assert subs[i] == p[i];
        } else {
          assert subs[|subs| - 1] == (d, Current(after, d));
        }
      }
    }
  }

  /** A difficulty that no submission names keeps its entry, or its absence. */
  lemma {:induction false} ReplayLeavesOthers(m: map<Difficulty, int>, subs: seq<(Difficulty, int)>, d: Difficulty)
    requires forall i :: 0 <= i < |subs| ==> subs[i].0 != d
    ensures d in Replay(m, subs) <==> d in m
    ensures Current(Replay(m, subs), d) == Current(m, d)
    decreases |subs|
  {
    if subs != [] {
      ReplayLeavesOthers(m, subs[..|subs| - 1], d);
    }
  }

  /** A registry whose entries all lie below the default keeps that property under any submissions. */
  lemma {:induction false} ReplayBelowDefault(m: map<Difficulty, int>, subs: seq<(Difficulty, int)>)
    requires BelowDefault(m)
    ensures BelowDefault(Replay(m, subs))
    decreases |subs|
  {
    if subs != [] {
      ReplayBelowDefault(m, subs[..|subs| - 1]);
    }
  }

  /**
   * From an empty registry: d has an entry exactly when some score below IntMaxValue was
   * submitted for it, and that entry is the minimum of the scores submitted for d.
   */
  lemma StoredIsMinimumSubmitted(subs: seq<(Difficulty, int)>, d: Difficulty)
    ensures d in Replay(map[], subs) <==>
              exists i :: 0 <= i < |subs| && subs[i].0 == d && subs[i].1 < IntMaxValue
    ensures d in Replay(map[], subs) ==>
              (forall i :: 0 <= i < |subs| && subs[i].0 == d ==> Replay(map[], subs)[d] <= subs[i].1) &&
              (exists i :: 0 <= i < |subs| && subs[i] == (d, Replay(map[], subs)[d]))
  {
    var r := Replay(map[], subs);
    ReplayIsMinimum(map[], subs, d);
    ReplayBelowDefault(map[], subs);
    if d in r {
      assert Current(r, d) < IntMaxValue;
      var i :| 0 <= i < |subs| && subs[i] == (d, Current(r, d));
      assert subs[i].0 == d && subs[i].1 < IntMaxValue;
    }
  }

  /** No entry, then 7, 9 and 3 for Medium: 7 is a record, 9 is not, 3 is. */
  lemma MediumScenario()
    ensures Update(map[], Medium, 7) == map[Medium := 7]
    ensures Update(map[Medium := 7], Medium, 9) == map[Medium := 7]
    ensures Update(map[Medium := 7], Medium, 3) == map[Medium := 3]
  {
  }

  class HighScoreManager {
    var highScores: map<Difficulty, int>

    constructor ()
      ensures highScores == map[]
    {
      highScores := map[];
    }

    /** Submit a score; newRecord tells whether it replaced the stored best. */
    method UpdateHighScore(difficulty: Difficulty, score: int) returns (newRecord: bool)
      modifies this
      ensures newRecord <==> score < Current(old(highScores), difficulty)
      ensures highScores == Update(old(highScores), difficulty, score)
    {
      var currentHighScore := if difficulty in highScores then highScores[difficulty] else IntMaxValue;
      newRecord := score < currentHighScore;
      if newRecord {
        highScores := highScores[difficulty := score];
      }
    }
  }
}
