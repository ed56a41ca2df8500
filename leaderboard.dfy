/** The public display: every snapshot of the `teams` collection is
    normalised, ranked by score (highest first) and rendered as a flat
    ranked table, or as the empty or error state. */
module PublicBoard {
  import opened Wrappers
  import opened Teams

  /** Non-increasing by score: the order `(a, b) => b.score - a.score` asks for. */
  ghost predicate SortedByScore(ts: seq<Team>) {
    forall i, j :: 0 <= i < j < |ts| ==> ts[i].score >= ts[j].score
  }

  /** Places `t` in front of the first team it does not score below. */
  function Insert(t: Team, ranked: seq<Team>): (r: seq<Team>)
    ensures |r| == |ranked| + 1
    decreases |ranked|
  {
    if ranked == [] || t.score >= ranked[0].score then [t] + ranked
    else [ranked[0]] + Insert(t, ranked[1..])
  }

  /** The comparator sort of app.js:31, as an insertion sort on values. */
  function RankByScore(ts: seq<Team>): (r: seq<Team>)
    ensures |r| == |ts|
    decreases |ts|
  {
    if ts == [] then [] else Insert(ts[0], RankByScore(ts[1..]))
  }

  lemma {:induction false} InsertPermutes(t: Team, ranked: seq<Team>)
    ensures multiset(Insert(t, ranked)) == multiset(ranked) + multiset{t}
    decreases |ranked|
  {
    if ranked == [] || t.score >= ranked[0].score {
    } else {
      InsertPermutes(t, ranked[1..]);
      assert ranked == [ranked[0]] + ranked[1..];
    }
  }

  lemma {:induction false} InsertSorted(t: Team, ranked: seq<Team>)
    requires SortedByScore(ranked)
    ensures SortedByScore(Insert(t, ranked))
    decreases |ranked|
  {
    if ranked == [] || t.score >= ranked[0].score {
    } else {
      var rest := Insert(t, ranked[1..]);
      InsertSorted(t, ranked[1..]);
      InsertPermutes(t, ranked[1..]);
      forall k | 0 <= k < |rest| ensures ranked[0].score >= rest[k].score {
        assert rest[k] in multiset(rest);
        assert rest[k] in multiset(ranked[1..]) || rest[k] == t;
        if rest[k] != t {
          var m :| 0 <= m < |ranked[1..]| && ranked[1..][m] == rest[k];
          assert ranked[m + 1] == rest[k];
        }
      }
    }
  }

  /** The ranking is a permutation of the normalised records. */
  lemma {:induction false} RankPermutes(ts: seq<Team>)
    ensures multiset(RankByScore(ts)) == multiset(ts)
    decreases |ts|
  {
    if ts != [] {
      RankPermutes(ts[1..]);
      InsertPermutes(ts[0], RankByScore(ts[1..]));
      assert ts == [ts[0]] + ts[1..];
    }
  }

  /** The ranking is sorted non-increasing by score. */
  lemma {:induction false} RankSorted(ts: seq<Team>)
    ensures SortedByScore(RankByScore(ts))
    decreases |ts|
  {
    if ts != [] {
      RankSorted(ts[1..]);
      InsertSorted(ts[0], RankByScore(ts[1..]));
    }
  }

  /** Ranking an already ranked list changes nothing. */
  lemma {:induction false} RankKeepsSorted(ts: seq<Team>)
    requires SortedByScore(ts)
    ensures RankByScore(ts) == ts
    decreases |ts|
  {
    if ts != [] {
      RankKeepsSorted(ts[1..]);
      assert ts == [ts[0]] + ts[1..];
    }
  }

  /** Everything the ranking promises, in one place: same length, a
      permutation, sorted, and every adjacent pair in score order. */
  lemma RankByScoreSpec(ts: seq<Team>)
    ensures |RankByScore(ts)| == |ts|
    ensures multiset(RankByScore(ts)) == multiset(ts)
    ensures SortedByScore(RankByScore(ts))
    ensures forall i :: 0 <= i < |ts| - 1 ==>
      RankByScore(ts)[i].score >= RankByScore(ts)[i + 1].score
  {
    RankPermutes(ts);
    RankSorted(ts);
    assert |multiset(RankByScore(ts))| == |multiset(ts)|;
  }

  /** The marker `getMedalIcon` attaches to a rank. */
  datatype Medal = Gold | Silver | Bronze | NoMedal

  function MedalFor(rank: int): (m: Medal)
    ensures m == Gold <==> rank == 1
    ensures m == Silver <==> rank == 2
    ensures m == Bronze <==> rank == 3
    ensures m == NoMedal <==> (rank < 1 || rank > 3)
  {
    match rank
    case 1 => Gold
    case 2 => Silver
    case 3 => Bronze
    case _ => NoMedal
  }

  /** One `<tr class="team-row">` of the table. */
  datatype Row = Row(rank: nat, medal: Medal, name: string, score: int)

  /** The rows `renderLeaderboard` writes for a ranked list, row i at rank i + 1. */
  function RankedRows(ranked: seq<Team>): (rows: seq<Row>)
    ensures |rows| == |ranked|
    ensures forall i :: 0 <= i < |rows| ==>
      rows[i].rank == i + 1 && rows[i].medal == MedalFor(i + 1) &&
      rows[i].name == ranked[i].name && rows[i].score == ranked[i].score
  {
    seq(|ranked|, i requires 0 <= i < |ranked| => Row(i + 1, MedalFor(i + 1), ranked[i].name, ranked[i].score))
  }

  /** The rows carrying a medal. */
  function MedalRows(rows: seq<Row>): nat {
    if rows == [] then 0
    else MedalRows(rows[..|rows| - 1]) + (if rows[|rows| - 1].medal != NoMedal then 1 else 0)
  }

  lemma {:induction false} MedalRowsPrefix(ranked: seq<Team>, n: nat)
    requires n <= |ranked|
    ensures MedalRows(RankedRows(ranked)[..n]) == if n < 3 then n else 3
  {
    if n > 0 {
      var rows := RankedRows(ranked);
      MedalRowsPrefix(ranked, n - 1);
      assert rows[..n][..n - 1] == rows[..n - 1];
    }
  }

  /** Exactly the first three rows (or all, if fewer) carry a medal:
      gold, silver and bronze, in that order. */
  lemma MedalsOnFirstThreeRanks(ranked: seq<Team>)
    ensures MedalRows(RankedRows(ranked)) == if |ranked| < 3 then |ranked| else 3
    ensures forall i :: 0 <= i < |ranked| ==>
      (RankedRows(ranked)[i].medal != NoMedal <==> i < 3)
  {
    MedalRowsPrefix(ranked, |ranked|);
    assert RankedRows(ranked)[..|ranked|] == RankedRows(ranked);
  }

  /** What the `leaderboardBody` element shows. */
  datatype Display = Loading | Table(rows: seq<Row>) | EmptyState | ErrorState

  /** The teams a snapshot leaves in `this.teams`: ranked when `data` is
      present, empty when it is null. */
  function TeamsOf(data: Option<Snapshot>): (r: seq<Team>)
    ensures |r| == if data.Some? then |data.value| else 0
  {
    match data
    case Some(s) => RankByScore(Normalize(s))
    case None => []
  }

  /** The display a snapshot leaves behind. */
  function ViewOf(data: Option<Snapshot>): (d: Display)
    ensures d != Loading && d != ErrorState
    ensures d.Table? ==> |d.rows| == |TeamsOf(data)| > 0
  {
    var ranked := TeamsOf(data);
    if |ranked| == 0 then EmptyState else Table(RankedRows(ranked))
  }

  /** The empty state shows exactly when there is no team: a null snapshot
      or a present but empty one. */
  lemma ViewEmptyIff(data: Option<Snapshot>)
    ensures ViewOf(data) == EmptyState <==> data.None? || |data.value| == 0
    ensures ViewOf(data) != Loading && ViewOf(data) != ErrorState
  {
    if data.Some? {
      RankByScoreSpec(Normalize(data.value));
    }
  }

  /** A populated table has one row per snapshot entry, ranked 1..n in
      score order, and its rows are the snapshot's records reordered. */
  lemma ViewTable(s: Snapshot)
    requires |s| > 0
    ensures ViewOf(Some(s)).Table?
    ensures |ViewOf(Some(s)).rows| == |s|
    ensures forall i :: 0 <= i < |s| ==> ViewOf(Some(s)).rows[i].rank == i + 1
    ensures forall i, j :: 0 <= i < j < |s| ==>
      ViewOf(Some(s)).rows[i].score >= ViewOf(Some(s)).rows[j].score
    ensures multiset(TeamsOf(Some(s))) == multiset(Normalize(s))
  {
    RankByScoreSpec(Normalize(s));
  }

  /** The example of four teams with a tie at the top: both tied teams take
      ranks 1 and 2, and the lowest one is fourth with no medal. */
  lemma TieExample()
    ensures var s := [Entry("A", StoredTeam("A", Some(50))), Entry("B", StoredTeam("B", Some(80))),
                      Entry("C", StoredTeam("C", Some(80))), Entry("D", StoredTeam("D", Some(10)))];
            var rows := ViewOf(Some(s)).rows;
            ViewOf(Some(s)).Table? && |rows| == 4 &&
            {rows[0].name, rows[1].name} == {"B", "C"} && rows[0].medal == Gold &&
            rows[2].name == "A" && rows[3].name == "D" && rows[3].medal == NoMedal
  {
    var s := [Entry("A", StoredTeam("A", Some(50))), Entry("B", StoredTeam("B", Some(80))),
              Entry("C", StoredTeam("C", Some(80))), Entry("D", StoredTeam("D", Some(10)))];
    var n := Normalize(s);
    assert n == [Team("A", "A", 50), Team("B", "B", 80), Team("C", "C", 80), Team("D", "D", 10)];
    assert n[1..] == [Team("B", "B", 80), Team("C", "C", 80), Team("D", "D", 10)];
    assert n[1..][1..] == [Team("C", "C", 80), Team("D", "D", 10)];
    assert n[1..][1..][1..] == [Team("D", "D", 10)];
    var a, b, c, d := Team("A", "A", 50), Team("B", "B", 80), Team("C", "C", 80), Team("D", "D", 10);
    assert RankByScore([d]) == [d];
    assert RankByScore(n[1..][1..]) == Insert(c, [d]) == [c, d];
    assert RankByScore(n[1..]) == Insert(b, [c, d]) == [b, c, d];
    assert Insert(a, [d]) == [a, d];
    assert Insert(a, [c, d]) == [c] + Insert(a, [c, d][1..]) == [c, a, d];
    assert Insert(a, [b, c, d]) == [b] + Insert(a, [b, c, d][1..]);
    assert RankByScore(n) == [Team("B", "B", 80), Team("C", "C", 80), Team("A", "A", 50), Team("D", "D", 10)];
  }

  /** The `Leaderboard` object: the ranked teams and what the table shows. */
  class Leaderboard {
    var teams: seq<Team>
    var display: Display

    /** `teams` is always ranked, and a shown table is the table of `teams`. */
    ghost predicate Valid()
      reads this
    {
      SortedByScore(teams) &&
      (display.Table? ==> |teams| > 0 && display.rows == RankedRows(teams))
    }

    constructor ()
      ensures Valid()
      ensures teams == [] && display == Loading
    {
      teams := [];
      display := Loading;
    }

    /** The snapshot callback of `setupRealtimeListener`. */
    method OnSnapshot(data: Option<Snapshot>)
      modifies this
      ensures Valid()
      ensures teams == TeamsOf(data)
      ensures display == ViewOf(data)
    {
      match data {
        case Some(s) =>
          teams := Normalize(s);
          teams := RankByScore(teams);
          RankSorted(Normalize(s));
          RenderLeaderboard();
        case None =>
          teams := [];
          RenderEmptyState();
      }
    }

    /** The error callback: the error state replaces the table and the
        cached teams are kept. */
    method OnError()
      requires Valid()
      modifies this
      ensures Valid()
      ensures teams == old(teams)
      ensures display == ErrorState
    {
      RenderErrorState();
    }

    method RenderLeaderboard()
      requires SortedByScore(teams)
      modifies this
      ensures Valid() && teams == old(teams)
      ensures display == if |teams| == 0 then EmptyState else Table(RankedRows(teams))
    {
      if |teams| == 0 {
        RenderEmptyState();
        return;
      }
      display := Table(RankedRows(teams));
    }

    method RenderEmptyState()
      modifies this
      ensures teams == old(teams) && display == EmptyState
    {
      display := EmptyState;
    }

    method RenderErrorState()
      modifies this
      ensures teams == old(teams) && display == ErrorState
    {
      display := ErrorState;
    }
  }
}
