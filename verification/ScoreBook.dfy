/** src/api/ai_groups.py: the agent_scores log, the agent_capabilities table and score_task, the
    endpoint that writes both. */
module ScoreBooks {
  import opened Options
  import opened MergeSorting
  import opened QuickSorting
  import opened Scoring

  datatype ScoreRow = ScoreRow(group: string, task: string, scored: string, scorer: string, score: int, capability: string)

  /** The unique key of agent_capabilities. */
  datatype ProfileKey = ProfileKey(group: string, agent: string, capability: string)

  datatype Book = Book(rows: seq<ScoreRow>, profiles: map<ProfileKey, Profile>)

  datatype Reply = TaskMissing | ScoreRejected | Recorded(avg: Option<real>, allScored: bool)

  // ----- The two tables -----

  function TaskScores(rows: seq<ScoreRow>, task: string): seq<int> {
    if |rows| == 0 then []
    else
      var last := rows[|rows| - 1];
      TaskScores(rows[..|rows| - 1], task) + (if last.task == task then [last.score] else [])
  }

  function KeyOf(row: ScoreRow): ProfileKey {
    ProfileKey(row.group, row.scored, row.capability)
  }

  /** A score counts for a profile when the task had an agent and the scorer named a capability. */
  predicate Profiled(row: ScoreRow) {
    row.capability != "" && row.scored != ""
  }

  /** The scores that went into a profile, in the order in which they were given. */
  function ProfileScores(rows: seq<ScoreRow>, key: ProfileKey): seq<int> {
    if |rows| == 0 then []
    else
      var last := rows[|rows| - 1];
      ProfileScores(rows[..|rows| - 1], key) + (if Profiled(last) && KeyOf(last) == key then [last.score] else [])
  }

  function Lookup(profiles: map<ProfileKey, Profile>, key: ProfileKey): Option<Profile> {
    if key in profiles then Some(profiles[key]) else None
  }

  function Accept(round: real -> real, book: Book, row: ScoreRow): Book {
    var key := KeyOf(row);
    Book(
      book.rows + [row],
      if Profiled(row) then book.profiles[key := Updated(round, Lookup(book.profiles, key), row.score)] else book.profiles)
  }

  predicate ValidScore(score: int) { 1 <= score <= 10 }

  /** One more row of the log, on its fields: it adds its score to its task, and to the profile of the
      scored agent in the group and capability, if both names are there. */
  lemma ScoresOnFields(rows: seq<ScoreRow>, row: ScoreRow, task: string, key: ProfileKey)
    ensures TaskScores([], task) == [] && ProfileScores([], key) == []
    ensures TaskScores(rows + [row], task) == TaskScores(rows, task) + (if row.task == task then [row.score] else [])
    ensures ProfileScores(rows + [row], key)
         == ProfileScores(rows, key)
            + (if row.group == key.group && row.scored == key.agent != "" && row.capability == key.capability != ""
               then [row.score] else [])
  {
    assert (rows + [row])[..|rows|] == rows;
  }

  /** The rows that score the agent of a profile in its group for its capability. */
  function Mine(rows: seq<ScoreRow>, key: ProfileKey): set<nat> {
    set i: nat | i < |rows| && rows[i].group == key.group && rows[i].scored == key.agent && rows[i].capability == key.capability
  }

  lemma MineGrows(rows: seq<ScoreRow>, row: ScoreRow, key: ProfileKey)
    ensures Mine(rows + [row], key)
         == Mine(rows, key)
            + (if row.group == key.group && row.scored == key.agent && row.capability == key.capability then {|rows|} else {})
  {
    var more := rows + [row];
    assert forall i :: 0 <= i < |rows| ==> more[i] == rows[i];
    assert more[|rows|] == row;
  }

  lemma {:induction false} ProfileScoresCounted(rows: seq<ScoreRow>, key: ProfileKey)
    ensures |ProfileScores(rows, key)| == if key.agent == "" || key.capability == "" then 0 else |Mine(rows, key)|
  {
    if |rows| == 0 {
      assert Mine(rows, key) == {};
    } else {
      var front, last := rows[..|rows| - 1], rows[|rows| - 1];
      ProfileScoresCounted(front, key);
      MineGrows(front, last, key);
      assert rows == front + [last];
    }
  }

  // ----- Every run -----

  /** The book after the accepted score_task calls `rows`, from an empty database. */
  function Run(round: real -> real, rows: seq<ScoreRow>): (book: Book)
    ensures book.rows == rows
  {
    if |rows| == 0 then Book([], map[]) else Accept(round, Run(round, rows[..|rows| - 1]), rows[|rows| - 1])
  }

  /** The capability table is the running average of the log, key by key, and holds nothing else. */
  ghost predicate ProfilesMatchLog(round: real -> real, book: Book) {
    forall key :: Lookup(book.profiles, key) == ProfileOf(round, ProfileScores(book.rows, key))
  }

  lemma AcceptKeepsMatch(round: real -> real, book: Book, row: ScoreRow)
    requires ProfilesMatchLog(round, book)
    ensures ProfilesMatchLog(round, Accept(round, book, row))
  {
    var next := Accept(round, book, row);
    assert next.rows[..|next.rows| - 1] == book.rows;
    forall key
      ensures Lookup(next.profiles, key) == ProfileOf(round, ProfileScores(next.rows, key))
    {
      var before := ProfileScores(book.rows, key);
      assert Lookup(book.profiles, key) == ProfileOf(round, before);
      if Profiled(row) && KeyOf(row) == key {
        ProfileStep(round, before, row.score);
      } else {
        assert ProfileScores(next.rows, key) == before;
      }
    }
  }

  lemma {:induction false} ProfileScoresValid(rows: seq<ScoreRow>, key: ProfileKey)
    requires forall i :: 0 <= i < |rows| ==> ValidScore(rows[i].score)
    ensures forall i :: 0 <= i < |ProfileScores(rows, key)| ==> 1 <= ProfileScores(rows, key)[i] <= 10
  {
    if |rows| == 0 {
    } else {
      ProfileScoresValid(rows[..|rows| - 1], key);
    }
  }

  lemma {:induction false} RunMatches(round: real -> real, rows: seq<ScoreRow>)
    ensures ProfilesMatchLog(round, Run(round, rows))
  {
    if |rows| == 0 {
    } else {
      RunMatches(round, rows[..|rows| - 1]);
      AcceptKeepsMatch(round, Run(round, rows[..|rows| - 1]), rows[|rows| - 1]);
    }
  }

  /** After any run of accepted scores: a profile exists exactly when the log has rows that score its
      agent in its group for its capability, both named; its count is their number, and its average lies in
      [1, 10] and within (n+1)/400 of their mean. */
  lemma RunProfiles(round: real -> real, rows: seq<ScoreRow>, key: ProfileKey)
    requires IsRounding(round)
    requires forall i :: 0 <= i < |rows| ==> ValidScore(rows[i].score)
    ensures var mine := set i: nat | i < |rows| && rows[i].group == key.group && rows[i].scored == key.agent
                                     && rows[i].capability == key.capability;
            var profiles := Run(round, rows).profiles;
            && (key in profiles <==> key.agent != "" && key.capability != "" && mine != {})
            && (key in profiles ==> profiles[key].count == |mine| == |ProfileScores(rows, key)|)
            && (key in profiles ==> 1.0 <= profiles[key].avg <= 10.0 && NearMean(profiles[key].avg, ProfileScores(rows, key)))
  {
    var scores := ProfileScores(rows, key);
    RunMatches(round, rows);
    ProfileScoresCounted(rows, key);
    assert |Mine(rows, key)| == 0 <==> Mine(rows, key) == {};
    assert Lookup(Run(round, rows).profiles, key) == ProfileOf(round, scores);
    if scores != [] {
      ProfileScoresValid(rows, key);
      ProfileInRange(round, scores, 1, 10);
      ProfileNearMean(round, scores);
    }
  }

  // ----- The code -----

  /** calculate_task_avg_score: selects the task's scores, sorts them in place, drops the two ends. */
  method CalculateTaskAvgScore(round: real -> real, rows: seq<ScoreRow>, task: string) returns (avg: Option<real>)
    ensures avg == TaskAverage(round, TaskScores(rows, task))
  {
    var scores := [];
    for i := 0 to |rows|
      invariant scores == TaskScores(rows[..i], task)
    {
      assert rows[..i + 1][..i] == rows[..i];
      if rows[i].task == task {
        scores := scores + [rows[i].score];
      }
    }
    assert rows[..|rows|] == rows;
    if |scores| == 0 {
      return None;
    }
    if |scores| <= 2 {
      var sum := SumOf(scores);
      return Some(round(sum as real / |scores| as real));
    }
    var sorted := new int[|scores|](i requires 0 <= i < |scores| => scores[i]);
    assert sorted[..] == scores;
    MergeSortWholeArray(Self, sorted, 0);
    var trimmed := sorted[1..sorted.Length - 1];
    assert trimmed == Trimmed(scores);
    var sum := SumOf(trimmed);
    return Some(round(sum as real / |trimmed| as real));
  }

  method SumOf(s: seq<int>) returns (sum: int)
    ensures sum == Total(Self, s)
  {
    sum := 0;
    for i := 0 to |s|
      invariant sum + Total(Self, s[i..]) == Total(Self, s)
    {
      assert s[i..][1..] == s[i + 1..];
      sum := sum + s[i];
    }
  }

  class ScoreBook {
    var rows: seq<ScoreRow>
    var profiles: map<ProfileKey, Profile>
    var scored: map<string, real>  // the tasks with status scored, and their quality_score

    function Contents(): Book
      reads this
    {
      Book(rows, profiles)
    }

    constructor ()
      ensures Contents() == Book([], map[]) && scored == map[]
    {
      rows, profiles, scored := [], map[], map[];
    }

    method UpdateAgentCapability(round: real -> real, group: string, agent: string, capability: string, score: int)
      modifies this`profiles
      ensures var key := ProfileKey(group, agent, capability);
              profiles == old(profiles)[key := Updated(round, Lookup(old(profiles), key), score)]
    ensures var key := ProfileKey(group, agent, capability);
            && key in profiles
            && (key !in old(profiles) ==> profiles[key] == Profile(score as real, 1, Steady))
            && (key in old(profiles) ==>
                  var was, now := old(profiles)[key], profiles[key];
                  && now.avg == round(Blend(was.avg, was.count as real, score as real))
                  && now.count == was.count + 1
                  && (now.trend == Up <==> score as real > was.avg + 0.5)
                  && (now.trend == Down <==> (score as real) < was.avg - 0.5))
            && forall k :: k != key ==>
                 (k in profiles <==> k in old(profiles)) && (k in profiles ==> profiles[k] == old(profiles)[k])
    {
      var key := ProfileKey(group, agent, capability);
      if key in profiles {
        var row := profiles[key];
        var newCount := row.count + 1;
        assert newCount as real == row.count as real + 1.0;
        var newAvg := (row.avg * row.count as real + score as real) / newCount as real;
        assert newAvg == Blend(row.avg, row.count as real, score as real);
        var trend := Steady;
        if score as real > row.avg + 0.5 {
          trend := Up;
        } else if (score as real) < row.avg - 0.5 {
          trend := Down;
        }
        profiles := profiles[key := Profile(round(newAvg), newCount, trend)];
      } else {
        profiles := profiles[key := Profile(score as real, 1, Steady)];
      }
    }

    /** score_task. `found` and `assignee` are what the task row says ("" for no agent), `online` the
        number of online agents of the group. The task becomes scored, at the average, when all have scored. */
    method ScoreTask(round: real -> real, found: bool, assignee: string, online: nat,
                     group: string, task: string, scorer: string, score: int, capability: string)
      returns (reply: Reply)
      modifies this
      ensures !found ==> reply == TaskMissing
      ensures found && !ValidScore(score) ==> reply == ScoreRejected
      ensures !found || !ValidScore(score) ==> Contents() == old(Contents()) && scored == old(scored)
      ensures found && ValidScore(score) ==>
                && Contents() == Accept(round, old(Contents()), ScoreRow(group, task, assignee, scorer, score, capability))
                && rows == old(rows) + [ScoreRow(group, task, assignee, scorer, score, capability)]
                && (assignee == "" || capability == "" ==> profiles == old(profiles))
                && (assignee != "" && capability != "" ==>
                      var key := ProfileKey(group, assignee, capability);
                      && profiles.Keys == old(profiles).Keys + {key}
                      && profiles[key].count == (if key in old(profiles) then old(profiles)[key].count else 0) + 1
                      && forall k :: k in old(profiles) && k != key ==> profiles[k] == old(profiles)[k])
                && reply.Recorded?
                && reply.avg == TaskAverage(round, TaskScores(rows, task))
                && reply.avg.Some?
                && (reply.allScored <==> online <= |set row | row in rows && row.task == task :: row.scorer|)
                && scored == if reply.allScored then old(scored)[task := reply.avg.value] else old(scored)
    {
      if !found {
        return TaskMissing;
      }
      if score < 1 || score > 10 {
        return ScoreRejected;
      }
      var row := ScoreRow(group, task, assignee, scorer, score, capability);
      rows := rows + [row];
      assert rows[..|rows| - 1] == old(rows);
      var avg := CalculateTaskAvgScore(round, rows, task);
      if capability != "" && assignee != "" {
        UpdateAgentCapability(round, group, assignee, capability, score);
      }
      var scorers := set r | r in rows && r.task == task :: r.scorer;
      reply := Recorded(avg, |scorers| >= online && avg.Some?);
      if reply.allScored {
        scored := scored[task := avg.value];
      }
    }
  }
}
