/** Team records as the live collection store delivers them, and the
    normalisation both the public board and the admin console apply to a
    snapshot before using it. */
module Teams {
  import opened Wrappers

  /** A team as the clients hold it once a snapshot is normalised. */
  datatype Team = Team(id: string, name: string, score: int)

  /** The stored fields of one record. `score` is `None` when the field is
      absent or falsy; a stored `0` reads back as 0 either way. */
  datatype StoredTeam = StoredTeam(name: string, score: Option<int>)

  /** One `[id, record]` pair of `Object.entries(snapshot.val())`. */
  datatype Entry = Entry(key: string, record: StoredTeam)

  /** The entries of a snapshot, in the order the store delivers them. */
  type Snapshot = seq<Entry>

  /** The keys of a snapshot; the store never repeats one. */
  ghost predicate DistinctKeys(s: Snapshot) {
    forall i, j :: 0 <= i < j < |s| ==> s[i].key != s[j].key
  }

  /** The keys of a snapshot and the ids of a team list, as sets. */
  ghost function Keys(s: Snapshot): set<string> { set e | e in s :: e.key }
  ghost function Ids(ts: seq<Team>): set<string> { set t | t in ts :: t.id }

  ghost predicate DistinctIds(ts: seq<Team>) {
    forall i, j :: 0 <= i < j < |ts| ==> ts[i].id != ts[j].id
  }

  /** The score a client reads for a stored record: `team.score || 0`. */
  function ScoreOrZero(score: Option<int>): int {
    score.GetOr(0)
  }

  /** One team record built from one snapshot entry. */
  function ToTeam(e: Entry): Team {
    Team(e.key, e.record.name, ScoreOrZero(e.record.score))
  }

  /** The `map` over `Object.entries(data)`: one team per entry, in the
      store's order, id and name carried over, score defaulted to 0. */
  function Normalize(s: Snapshot): (r: seq<Team>)
    ensures |r| == |s|
    ensures forall i :: 0 <= i < |s| ==>
      r[i].id == s[i].key && r[i].name == s[i].record.name &&
      (s[i].record.score.Some? ==> r[i].score == s[i].record.score.value) &&
      (s[i].record.score.None? ==> r[i].score == 0)
  {
    seq(|s|, i requires 0 <= i < |s| => ToTeam(s[i]))
  }

  /** The fields a client writes for a team: `{name, score}`. */
  function ToStored(t: Team): Entry {
    Entry(t.id, StoredTeam(t.name, Some(t.score)))
  }

  /** Records written by the clients read back unchanged: normalisation is a
      left inverse of storing `{name, score}` under the team's id. */
  lemma {:induction false} NormalizeStored(ts: seq<Team>)
    ensures Normalize(seq(|ts|, i requires 0 <= i < |ts| => ToStored(ts[i]))) == ts
  {
    var s := seq(|ts|, i requires 0 <= i < |ts| => ToStored(ts[i]));
    var r := Normalize(s);
    assert |r| == |ts|;
    forall i | 0 <= i < |ts| ensures r[i] == ts[i] {
      assert s[i] == ToStored(ts[i]);
    }
  }

  /** Exactly one team per key: the ids of the normalised list are the
      snapshot's keys, and distinct keys give distinct ids. */
  lemma {:induction false} NormalizeKeys(s: Snapshot)
    ensures Ids(Normalize(s)) == Keys(s)
    ensures DistinctKeys(s) ==> DistinctIds(Normalize(s))
  {
    var r := Normalize(s);
    forall k | k in Keys(s) ensures k in Ids(r) {
      var i :| 0 <= i < |s| && s[i].key == k;
      assert r[i] in r;
    }
    forall k | k in Ids(r) ensures k in Keys(s) {
      var i :| 0 <= i < |r| && r[i].id == k;
      assert s[i] in s;
    }
  }
}
