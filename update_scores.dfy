/**
 * The score-update cron job: for each of the four sports it fetches the last
 * day's scores, determines each game's winner from the posted scores, writes
 * the event's status and final score, and, for a completed game with a winner,
 * resolves every prediction on that event that is still unresolved.
 *
 * The database is in memory: the rows the job writes are fields of
 * `ScoreStore`; what the job only reads back from the database or the odds
 * service (which event an external id names, whether an update is refused,
 * what a fetch returns) is passed in.
 */
module UpdateScores {
  import opened Wrappers
  import opened JsText
  import LearningEngine

  // ---------------------------------------------------------------- inputs

  /** One `{ name, score }` entry of a game's score list; the score is text. */
  datatype ScoreEntry = ScoreEntry(name: string, score: string)

  /** One game as the scores endpoint returns it. */
  datatype GameScore = GameScore(id: string, homeTeam: string, awayTeam: string, completed: bool,
                                 scores: Option<seq<ScoreEntry>>)

  /** What `getScores(sport, 1)` gives back: the games, or the message of the error it threw. */
  datatype SportFetch = Fetched(games: seq<GameScore>) | FetchFailed(message: string)

  /**
   * The database's answers the job reads: the `sports_events` id for an
   * external event id (absent when `.single()` yields no row), and the event
   * ids whose update comes back with an error.
   */
  datatype Lookup = Lookup(eventIdOf: map<string, string>, refused: set<string>)

  // ---------------------------------------------------------------- rows

  /** The `final_score` written on an event; a `None` score is `parseInt`'s NaN. */
  datatype FinalScore = FinalScore(home: Option<int>, away: Option<int>, winner: Option<string>)

  /** The `gameResult` passed on to prediction processing. */
  datatype GameResult = GameResult(winner: string, homeScore: int, awayScore: int)

  /** The `actual_score` written on a resolved prediction. */
  datatype ActualScore = ActualScore(home: int, away: int)

  /** An `ai_predictions` row, as far as resolving it reads and writes it. */
  datatype Prediction = Prediction(id: string, eventId: string, betType: string, predictedWinner: Option<string>,
                                   wasCorrect: Option<bool>, actualWinner: Option<string>,
                                   actualScore: Option<ActualScore>)

  /** The counters and error list the job returns. */
  datatype Results = Results(updated: nat, completed: nat, errors: seq<string>)

  /** Every row the job writes: event status, event final score, predictions. */
  datatype Db = Db(status: map<string, string>, finalScores: map<string, FinalScore>, predictions: seq<Prediction>)

  /** The sports the job walks, in order. */
  const Sports: seq<string> := ["nfl", "nba", "ncaab", "ncaaf"]

  const Home: string := "home"
  const Away: string := "away"
  const Completed: string := "completed"
  const Live: string := "live"

  // ---------------------------------------------------------------- winner determination

  /** `scores.find(s => s.name === team)`: the first entry for the team. */
  function FindEntry(entries: seq<ScoreEntry>, team: string): (r: Option<ScoreEntry>)
    ensures r.Some? <==> exists i :: 0 <= i < |entries| && entries[i].name == team
    ensures r.Some? ==> r.value in entries && r.value.name == team
    ensures r.Some? ==> exists i :: 0 <= i < |entries| && entries[i] == r.value
                                   && forall j :: 0 <= j < i ==> entries[j].name != team
  {
    if entries == [] then None
    else if entries[0].name == team then Some(entries[0])
    else
      var r := FindEntry(entries[1..], team);
      assert forall i :: 1 <= i < |entries| ==> entries[i] == entries[1..][i - 1];
      r
  }

  /** The comparison of the two parsed scores; NaN compares false both ways, so it gives no winner. */
  function WinnerOf(home: Option<int>, away: Option<int>): (w: Option<string>)
    ensures w.None? <==> home.None? || away.None? || home.value == away.value
    ensures w == Some(Home) ==> home.value > away.value
    ensures w == Some(Away) ==> away.value > home.value
    ensures w.Some? ==> w.value == Home || w.value == Away
  {
    if home.Some? && away.Some? && home.value > away.value then Some(Home)
    else if home.Some? && away.Some? && away.value > home.value then Some(Away)
    else None
  }

  /**
   * The scores and winner written for a game: 0–0 and no winner unless there
   * are at least two entries and both teams have one, and then the parsed
   * scores and their comparison.
   */
  function DetermineResult(game: GameScore): (r: FinalScore)
    ensures !HasBothEntries(game) ==> r == FinalScore(Some(0), Some(0), None)
    ensures HasBothEntries(game) ==> r.winner == WinnerOf(r.home, r.away)
    ensures HasBothEntries(game) ==>
              r.home == ParseInt(FindEntry(game.scores.value, game.homeTeam).value.score) &&
              r.away == ParseInt(FindEntry(game.scores.value, game.awayTeam).value.score)
  {
    if game.scores.Some? && |game.scores.value| >= 2 then
      var h := FindEntry(game.scores.value, game.homeTeam);
      var a := FindEntry(game.scores.value, game.awayTeam);
      if h.Some? && a.Some? then
        var hs := ParseInt(h.value.score);
        var aw := ParseInt(a.value.score);
        FinalScore(hs, aw, WinnerOf(hs, aw))
      else FinalScore(Some(0), Some(0), None)
    else FinalScore(Some(0), Some(0), None)
  }

  /** Both teams' entries, when the list has at least two entries and both teams are in it. */
  predicate HasBothEntries(game: GameScore) {
    game.scores.Some? && |game.scores.value| >= 2
    && FindEntry(game.scores.value, game.homeTeam).Some? && FindEntry(game.scores.value, game.awayTeam).Some?
  }

  /** The home team wins exactly when both scores parse and home's is higher. */
  lemma HomeWins(game: GameScore)
    ensures var r := DetermineResult(game);
      r.winner == Some(Home)
      <==> HasBothEntries(game) && r.home.Some? && r.away.Some? && r.home.value > r.away.value
  {
  }

  /** The away team wins exactly when both scores parse and away's is higher. */
  lemma AwayWins(game: GameScore)
    ensures var r := DetermineResult(game);
      r.winner == Some(Away)
      <==> HasBothEntries(game) && r.home.Some? && r.away.Some? && r.away.value > r.home.value
  {
  }

  /** A tie, an unparsable score, or missing entries give no winner; missing entries leave 0–0. */
  lemma NoWinner(game: GameScore)
    ensures var r := DetermineResult(game);
      (r.winner.None? <==> !HasBothEntries(game) || r.home.None? || r.away.None? || r.home.value == r.away.value)
      && (!HasBothEntries(game) ==> r == FinalScore(Some(0), Some(0), None))
  {
  }

  /** When there is a winner, both scores are numbers, so the game result is well defined. */
  lemma WinnerHasScores(game: GameScore)
    ensures var r := DetermineResult(game);
      r.winner.Some? ==> r.home.Some? && r.away.Some? && (r.winner == Some(Home) || r.winner == Some(Away))
  {
  }

  /** `score.completed ? 'completed' : 'live'`. */
  function EventStatus(completed: bool): (s: string)
    ensures s == Completed <==> completed
    ensures s == Live <==> !completed
  {
    if completed then Completed else Live
  }

  // ---------------------------------------------------------------- processCompletedGame

  /** The selection `.eq('event_id', eventId).is('was_correct', null)`. */
  predicate Unresolved(p: Prediction, eventId: string) {
    p.eventId == eventId && p.wasCorrect.None?
  }

  /** What `processPredictionOutcome` writes on a selected prediction. */
  function Resolve(p: Prediction, result: GameResult): (q: Prediction)
    ensures q.id == p.id && q.eventId == p.eventId && q.betType == p.betType && q.predictedWinner == p.predictedWinner
    ensures q.wasCorrect == Some(p.betType == "moneyline" && p.predictedWinner == Some(result.winner))
    ensures q.actualWinner == Some(result.winner)
    ensures q.actualScore == Some(ActualScore(result.homeScore, result.awayScore))
  {
    p.(wasCorrect := Some(LearningEngine.EvaluatePrediction(p.betType, p.predictedWinner, result.winner)),
       actualWinner := Some(result.winner),
       actualScore := Some(ActualScore(result.homeScore, result.awayScore)))
  }

  /** One prediction after the game on `eventId` is processed. */
  function ResolveIfSelected(p: Prediction, eventId: string, result: GameResult): Prediction {
    if Unresolved(p, eventId) then Resolve(p, result) else p
  }

  /** All predictions after the game on `eventId` is processed. */
  function ResolveEvent(ps: seq<Prediction>, eventId: string, result: GameResult): (r: seq<Prediction>)
    ensures |r| == |ps|
    decreases |ps|
  {
    if ps == [] then []
    else ResolveEvent(ps[..|ps| - 1], eventId, result) + [ResolveIfSelected(ps[|ps| - 1], eventId, result)]
  }

  lemma {:induction false} ResolveEventAt(ps: seq<Prediction>, eventId: string, result: GameResult, i: nat)
    requires i < |ps|
    ensures ResolveEvent(ps, eventId, result)[i] == ResolveIfSelected(ps[i], eventId, result)
    decreases |ps|
  {
    if i < |ps| - 1 {
      ResolveEventAt(ps[..|ps| - 1], eventId, result, i);
    }
  }

  /**
   * Processing a game resolves every unresolved prediction on that event and
   * nothing else: resolved predictions and other events' predictions stay
   * exactly as they were.
   */
  lemma ResolveEventEffect(ps: seq<Prediction>, eventId: string, result: GameResult)
    ensures var r := ResolveEvent(ps, eventId, result);
      |r| == |ps|
      && (forall i :: 0 <= i < |ps| && Unresolved(ps[i], eventId) ==> r[i] == Resolve(ps[i], result))
      && (forall i :: 0 <= i < |ps| && !Unresolved(ps[i], eventId) ==> r[i] == ps[i])
      && (forall i :: 0 <= i < |ps| && ps[i].eventId == eventId ==> r[i].wasCorrect.Some?)
  {
    forall i | 0 <= i < |ps| {
      ResolveEventAt(ps, eventId, result, i);
    }
  }

  /** Processing the same game again changes nothing: a resolved prediction is never re-processed. */
  lemma ResolveEventIdempotent(ps: seq<Prediction>, eventId: string, result: GameResult, again: GameResult)
    ensures ResolveEvent(ResolveEvent(ps, eventId, result), eventId, again) == ResolveEvent(ps, eventId, result)
  {
    var r := ResolveEvent(ps, eventId, result);
    var rr := ResolveEvent(r, eventId, again);
    forall i | 0 <= i < |ps| ensures rr[i] == r[i] {
      ResolveEventAt(ps, eventId, result, i);
      ResolveEventAt(r, eventId, again, i);
    }
  }

  /** Predictions that already have an outcome are left alone by processing any game. */
  predicate KeepsResolved(ps: seq<Prediction>, qs: seq<Prediction>) {
    |qs| == |ps| && forall i :: 0 <= i < |ps| && ps[i].wasCorrect.Some? ==> qs[i] == ps[i]
  }

  lemma ResolveEventKeepsResolved(ps: seq<Prediction>, eventId: string, result: GameResult)
    ensures KeepsResolved(ps, ResolveEvent(ps, eventId, result))
  {
    ResolveEventEffect(ps, eventId, result);
  }

  lemma KeepsResolvedTransitive(ps: seq<Prediction>, qs: seq<Prediction>, rs: seq<Prediction>)
    requires KeepsResolved(ps, qs) && KeepsResolved(qs, rs)
    ensures KeepsResolved(ps, rs)
  {
  }

  // ---------------------------------------------------------------- the job as a function of its inputs

  /** The result handed to prediction processing, when the game is completed with a winner. */
  function Decided(completed: bool, r: FinalScore): Option<GameResult> {
    if completed && r.winner.Some? && r.home.Some? && r.away.Some? then
      Some(GameResult(r.winner.value, r.home.value, r.away.value))
    else None
  }

  /** A game is handed on exactly when it is completed and has a winner. */
  lemma DecidedIs(game: GameScore)
    ensures Decided(game.completed, DetermineResult(game)).Some? <==> game.completed && DetermineResult(game).winner.Some?
  {
    WinnerHasScores(game);
  }

  /** The job's work on one game. */
  function GameStep(db: Db, res: Results, game: GameScore, lookup: Lookup): (Db, Results) {
    if game.id !in lookup.eventIdOf then (db, res)
    else
      var eventId := lookup.eventIdOf[game.id];
      if eventId in lookup.refused then (db, res.(errors := res.errors + [game.id]))
      else WriteStep(db, res, eventId, game.completed, DetermineResult(game))
  }

  /** The accepted update of event `eventId` with result `r`, and the processing of its predictions. */
  function WriteStep(db: Db, res: Results, eventId: string, completed: bool, r: FinalScore): (Db, Results) {
    var written := db.(status := db.status[eventId := EventStatus(completed)],
                       finalScores := db.finalScores[eventId := r]);
    var decided := Decided(completed, r);
    if decided.Some? then
      (written.(predictions := ResolveEvent(db.predictions, eventId, decided.value)),
       Results(res.updated + 1, res.completed + 1, res.errors))
    else (written, res.(updated := res.updated + 1))
  }

  /** The job's work on a sport's games, in order. */
  function GamesStep(db: Db, res: Results, games: seq<GameScore>, lookup: Lookup): (Db, Results)
    decreases |games|
  {
    if games == [] then (db, res)
    else
      var prev := GamesStep(db, res, games[..|games| - 1], lookup);
      GameStep(prev.0, prev.1, games[|games| - 1], lookup)
  }

  /** The job's work on one sport: its games, or one error line when the fetch failed. */
  function SportStep(db: Db, res: Results, sport: string, fetch: SportFetch, lookup: Lookup): (Db, Results) {
    match fetch
    case FetchFailed(message) => (db, res.(errors := res.errors + [sport + ": " + message]))
    case Fetched(games) => GamesStep(db, res, games, lookup)
  }

  /** The job's work on the sports in `sports`, in order. */
  function SportsStep(db: Db, res: Results, sports: seq<string>, getScores: string -> SportFetch, lookup: Lookup): (Db, Results)
    decreases |sports|
  {
    if sports == [] then (db, res)
    else
      var prev := SportsStep(db, res, sports[..|sports| - 1], getScores, lookup);
      SportStep(prev.0, prev.1, sports[|sports| - 1], getScores(sports[|sports| - 1]), lookup)
  }

  /**
   * The whole run, from zero counters and no errors: no prediction that
   * already had an outcome is touched, and the number of processed games
   * never exceeds the number of updated events.
   */
  function Run(db: Db, getScores: string -> SportFetch, lookup: Lookup): (r: (Db, Results))
    ensures r.1.completed <= r.1.updated
    ensures KeepsResolved(db.predictions, r.0.predictions)
  {
    SportsStepSound(db, Results(0, 0, []), Sports, getScores, lookup);
    SportsStep(db, Results(0, 0, []), Sports, getScores, lookup)
  }

  // ---------------------------------------------------------------- properties of the run

  /** A game is only ever resolved when it is completed and has a winner; a tied game never is. */
  lemma GameStepResolvesOnlyDecided(db: Db, res: Results, game: GameScore, lookup: Lookup)
    ensures var (db', res') := GameStep(db, res, game, lookup);
      (Decided(game.completed, DetermineResult(game)).None? ==> db'.predictions == db.predictions && res'.completed == res.completed)
      && (db'.predictions != db.predictions ==> game.completed && DetermineResult(game).winner.Some?)
  {
  }

  /** A game whose event update is refused leaves every row alone and adds its id to the errors. */
  lemma RefusedGameOnlyLogs(db: Db, res: Results, game: GameScore, lookup: Lookup)
    requires game.id in lookup.eventIdOf && lookup.eventIdOf[game.id] in lookup.refused
    ensures GameStep(db, res, game, lookup) == (db, res.(errors := res.errors + [game.id]))
  {
  }

  /** A failed fetch changes no row and no counter and adds exactly one error naming the sport. */
  lemma FailedFetchOnlyLogs(db: Db, res: Results, sport: string, message: string, lookup: Lookup)
    ensures SportStep(db, res, sport, FetchFailed(message), lookup) == (db, res.(errors := res.errors + [sport + ": " + message]))
  {
  }

  /** The counters and the predictions stay consistent from game to game. */
  predicate Sound(db: Db, res: Results, db': Db, res': Results) {
    res.updated <= res'.updated && res.completed <= res'.completed
    && res'.completed - res.completed <= res'.updated - res.updated
    && res.errors <= res'.errors
    && KeepsResolved(db.predictions, db'.predictions)
  }

  lemma SoundTransitive(db: Db, res: Results, db': Db, res': Results, db'': Db, res'': Results)
    requires Sound(db, res, db', res') && Sound(db', res', db'', res'')
    ensures Sound(db, res, db'', res'')
  {
    KeepsResolvedTransitive(db.predictions, db'.predictions, db''.predictions);
  }

  lemma GameStepSound(db: Db, res: Results, game: GameScore, lookup: Lookup)
    ensures var (db', res') := GameStep(db, res, game, lookup); Sound(db, res, db', res')
  {
    if game.id in lookup.eventIdOf {
      var eventId := lookup.eventIdOf[game.id];
      var decided := Decided(game.completed, DetermineResult(game));
      if decided.Some? {
        ResolveEventKeepsResolved(db.predictions, eventId, decided.value);
      }
    }
  }

  lemma {:induction false} GamesStepSound(db: Db, res: Results, games: seq<GameScore>, lookup: Lookup)
    ensures var (db', res') := GamesStep(db, res, games, lookup); Sound(db, res, db', res')
    decreases |games|
  {
    if games != [] {
      var prev := GamesStep(db, res, games[..|games| - 1], lookup);
      GamesStepSound(db, res, games[..|games| - 1], lookup);
      GameStepSound(prev.0, prev.1, games[|games| - 1], lookup);
      var next := GameStep(prev.0, prev.1, games[|games| - 1], lookup);
      SoundTransitive(db, res, prev.0, prev.1, next.0, next.1);
    }
  }

  lemma {:induction false} SportsStepSound(db: Db, res: Results, sports: seq<string>, getScores: string -> SportFetch, lookup: Lookup)
    ensures var (db', res') := SportsStep(db, res, sports, getScores, lookup); Sound(db, res, db', res')
    decreases |sports|
  {
    if sports != [] {
      var sport := sports[|sports| - 1];
      var prev := SportsStep(db, res, sports[..|sports| - 1], getScores, lookup);
      SportsStepSound(db, res, sports[..|sports| - 1], getScores, lookup);
      match getScores(sport)
      case FetchFailed(message) =>
        FailedFetchOnlyLogs(prev.0, prev.1, sport, message, lookup);
      case Fetched(games) =>
        GamesStepSound(prev.0, prev.1, games, lookup);
      var next := SportStep(prev.0, prev.1, sport, getScores(sport), lookup);
      SoundTransitive(db, res, prev.0, prev.1, next.0, next.1);
    }
  }

  /**
   * A failing fetch does not stop the run: the sports after it are processed
   * as they would have been, on the rows as they stood, and the failure adds
   * one error line.
   */
  lemma FailureThenRest(db: Db, res: Results, sports: seq<string>, sport: string, message: string,
                        getScores: string -> SportFetch, lookup: Lookup)
    requires sports != [] && sports[0] == sport && getScores(sport) == FetchFailed(message)
    ensures SportsStep(db, res, sports, getScores, lookup)
         == SportsStep(db, res.(errors := res.errors + [sport + ": " + message]), sports[1..], getScores, lookup)
    decreases |sports|
  {
    if |sports| > 1 {
      var init := sports[..|sports| - 1];
      assert init[0] == sport && init[1..] == sports[1..][..|sports[1..]| - 1];
      FailureThenRest(db, res, init, sport, message, getScores, lookup);
    }
  }

  // ---------------------------------------------------------------- the job, step by step

  /** The rows the job writes. */
  class ScoreStore {
    var status: map<string, string>
    var finalScores: map<string, FinalScore>
    var predictions: seq<Prediction>

    constructor (db: Db)
      ensures status == db.status && finalScores == db.finalScores && predictions == db.predictions
    {
      status, finalScores, predictions := db.status, db.finalScores, db.predictions;
    }

    function Rows(): Db
      reads this
    {
      Db(status, finalScores, predictions)
    }

    /** `processCompletedGame`: resolve each selected prediction of the event in turn. */
    method ProcessCompletedGame(eventId: string, result: GameResult)
      modifies this
      ensures predictions == ResolveEvent(old(predictions), eventId, result)
      ensures status == old(status) && finalScores == old(finalScores)
    {
      ghost var before := predictions;
      var i := 0;
      while i < |predictions|
        invariant 0 <= i <= |predictions| == |before|
        invariant predictions[..i] == ResolveEvent(before[..i], eventId, result)
        invariant predictions[i..] == before[i..]
        invariant status == old(status) && finalScores == old(finalScores)
      {
        var p := predictions[i];
        assert p == before[i];
        var q := if Unresolved(p, eventId) then Resolve(p, result) else p;
        assert before[..i + 1][..i] == before[..i];
        predictions := predictions[i := q];
        assert predictions[..i + 1] == predictions[..i] + [q];
        i := i + 1;
      }
      assert before[..|before|] == before;
      assert predictions[..|predictions|] == predictions;
    }

    /** The body of the inner loop: one game. */
    method UpdateGame(game: GameScore, lookup: Lookup, res: Results) returns (res': Results)
      modifies this
      ensures (Rows(), res') == GameStep(old(Rows()), res, game, lookup)
    {
      res' := res;
      if game.id !in lookup.eventIdOf {
        return;
      }
      var eventId := lookup.eventIdOf[game.id];
      if eventId in lookup.refused {
        res' := res'.(errors := res'.errors + [game.id]);
      } else {
        WinnerHasScores(game);
        res' := WriteEvent(eventId, game.completed, DetermineResult(game), res');
      }
    }

    /** An accepted event update: status and final score, then the predictions of a decided game. */
    method WriteEvent(eventId: string, completed: bool, r: FinalScore, res: Results) returns (res': Results)
      modifies this
      requires r.winner.Some? ==> r.home.Some? && r.away.Some?
      ensures (Rows(), res') == WriteStep(old(Rows()), res, eventId, completed, r)
    {
      status := status[eventId := EventStatus(completed)];
      finalScores := finalScores[eventId := r];
      res' := res.(updated := res.updated + 1);
      if completed && r.winner.Some? {
        ProcessCompletedGame(eventId, GameResult(r.winner.value, r.home.value, r.away.value));
        res' := res'.(completed := res'.completed + 1);
      }
    }

    /** One sport: fetch result in hand, walk its games, or log the failure. */
    method UpdateSport(sport: string, fetch: SportFetch, lookup: Lookup, res: Results) returns (res': Results)
      modifies this
      ensures (Rows(), res') == SportStep(old(Rows()), res, sport, fetch, lookup)
    {
      match fetch {
        case FetchFailed(message) =>
          res' := res.(errors := res.errors + [sport + ": " + message]);
        case Fetched(games) =>
          res' := res;
          var i := 0;
          while i < |games|
            invariant 0 <= i <= |games|
            invariant (Rows(), res') == GamesStep(old(Rows()), res, games[..i], lookup)
          {
            assert games[..i + 1][..i] == games[..i];
            res' := UpdateGame(games[i], lookup, res');
            i := i + 1;
          }
          assert games[..|games|] == games;
      }
    }

    /** The `GET` handler after authorisation: every sport in turn. */
    method UpdateScores(getScores: string -> SportFetch, lookup: Lookup) returns (results: Results)
      modifies this
      ensures (Rows(), results) == Run(old(Rows()), getScores, lookup)
      ensures results.completed <= results.updated
      ensures KeepsResolved(old(predictions), predictions)
    {
      results := Results(0, 0, []);
      var i := 0;
      while i < |Sports|
        invariant 0 <= i <= |Sports|
        invariant (Rows(), results) == SportsStep(old(Rows()), Results(0, 0, []), Sports[..i], getScores, lookup)
      {
        assert Sports[..i + 1][..i] == Sports[..i];
        results := UpdateSport(Sports[i], getScores(Sports[i]), lookup, results);
        i := i + 1;
      }
      assert Sports[..|Sports|] == Sports;
    }
  }
}
