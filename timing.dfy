/** The leaderboard that `generar_xml` derives from the runner list on each
    export: the leader, the time-ordered ranking and the two gaps of every
    runner, as values (the XML document and its text formatting are not modelled). */
module Timing {
  import opened Wrappers
  import opened Runners

  /** One `runner` element of the timing document, before formatting. */
  datatype TimingEntry = TimingEntry(
    id: int,
    lapsCompleted: int,
    speed: real,
    lastLapTime: real,
    totalTime: real,
    bestLap: Option<real>,
    totalDistance: real,
    gapToLeader: real,
    gapToNext: real)

  /** Index of `min(corredores, key=tiempo_total)`: Python's `min` scans left
      to right and replaces its candidate only on a strictly smaller key, so
      the leader is the earliest runner with the least total time. */
  function LeaderIndex(rs: seq<RunnerRecord>): (k: nat)
    requires |rs| > 0
    ensures k < |rs|
    ensures forall j :: 0 <= j < |rs| ==> rs[k].totalTime <= rs[j].totalTime
    ensures forall j :: 0 <= j < k ==> rs[j].totalTime > rs[k].totalTime
  {
    if |rs| == 1 then 0
    else
      var k := LeaderIndex(rs[..|rs| - 1]);
      if rs[|rs| - 1].totalTime < rs[k].totalTime then |rs| - 1 else k
  }

  predicate SortedByTime(s: seq<RunnerRecord>) {
    forall i, j :: 0 <= i < j < |s| ==> s[i].totalTime <= s[j].totalTime
  }

  /** Places `x` before the first runner whose total time is not smaller,
      so that it stays ahead of the runners it ties with. */
  function Insert(x: RunnerRecord, s: seq<RunnerRecord>): (r: seq<RunnerRecord>)
    ensures |r| == |s| + 1
  {
    if s == [] || x.totalTime <= s[0].totalTime then [x] + s
    else [s[0]] + Insert(x, s[1..])
  }

  lemma {:induction false} InsertPermutes(x: RunnerRecord, s: seq<RunnerRecord>)
    ensures multiset(Insert(x, s)) == multiset(s) + multiset{x}
  {
    if s != [] && x.totalTime > s[0].totalTime {
      InsertPermutes(x, s[1..]);
      assert s == [s[0]] + s[1..];
    }
  }

  predicate AllAtLeast(s: seq<RunnerRecord>, t: real) {
    forall i :: 0 <= i < |s| ==> t <= s[i].totalTime
  }

  lemma {:induction false} InsertAtLeast(x: RunnerRecord, s: seq<RunnerRecord>, t: real)
    requires t <= x.totalTime && AllAtLeast(s, t)
    ensures AllAtLeast(Insert(x, s), t)
  {
    if s != [] && x.totalTime > s[0].totalTime {
      InsertAtLeast(x, s[1..], t);
    }
  }

  lemma ConsSorted(a: RunnerRecord, s: seq<RunnerRecord>)
    requires SortedByTime(s) && AllAtLeast(s, a.totalTime)
    ensures SortedByTime([a] + s)
  {
  }

  lemma {:induction false} InsertSorted(x: RunnerRecord, s: seq<RunnerRecord>)
    requires SortedByTime(s)
    ensures SortedByTime(Insert(x, s))
  {
    if s == [] || x.totalTime <= s[0].totalTime {
      ConsSorted(x, s);
    } else {
      InsertSorted(x, s[1..]);
      InsertAtLeast(x, s[1..], s[0].totalTime);
      ConsSorted(s[0], Insert(x, s[1..]));
    }
  }

  /** `sorted(corredores, key=tiempo_total)`, a stable sort. */
  function SortByTime(rs: seq<RunnerRecord>): (s: seq<RunnerRecord>)
    ensures SortedByTime(s)
    ensures multiset(s) == multiset(rs)
    ensures |s| == |rs|
  {
    if rs == [] then []
    else
      var tail := SortByTime(rs[1..]);
      InsertSorted(rs[0], tail);
      InsertPermutes(rs[0], tail);
      assert rs == [rs[0]] + rs[1..];
      Insert(rs[0], tail)
  }

  /** The runners with total time `t`, in their order in `s`. */
  function WithTime(s: seq<RunnerRecord>, t: real): seq<RunnerRecord> {
    if s == [] then []
    else (if s[0].totalTime == t then [s[0]] else []) + WithTime(s[1..], t)
  }

  lemma WithTimeCons(a: RunnerRecord, s: seq<RunnerRecord>, t: real)
    ensures WithTime([a] + s, t) == (if a.totalTime == t then [a] else []) + WithTime(s, t)
  {
    assert ([a] + s)[1..] == s;
  }

  lemma {:induction false} InsertKeepsTieOrder(x: RunnerRecord, s: seq<RunnerRecord>, t: real)
    ensures WithTime(Insert(x, s), t) == (if x.totalTime == t then [x] else []) + WithTime(s, t)
  {
    if s == [] || x.totalTime <= s[0].totalTime {
      WithTimeCons(x, s, t);
    } else {
      var rest := Insert(x, s[1..]);
      InsertKeepsTieOrder(x, s[1..], t);
      WithTimeCons(s[0], rest, t);
      WithTimeCons(s[0], s[1..], t);
      assert s == [s[0]] + s[1..];
      if x.totalTime == t {
        assert s[0].totalTime != t;
      } else {
        assert WithTime(rest, t) == WithTime(s[1..], t);
      }
    }
  }

  /** The sort is stable: runners that tie keep their list order. */
  lemma {:induction false} SortIsStable(rs: seq<RunnerRecord>, t: real)
    ensures WithTime(SortByTime(rs), t) == WithTime(rs, t)
  {
    if rs != [] {
      SortIsStable(rs[1..], t);
      InsertKeepsTieOrder(rs[0], SortByTime(rs[1..]), t);
    }
  }

  /** Strict ranking order: faster total time first, lower id among ties. */
  predicate RankedBefore(a: RunnerRecord, b: RunnerRecord) {
    a.totalTime < b.totalTime || (a.totalTime == b.totalTime && a.id < b.id)
  }

  predicate IdsIncreasing(rs: seq<RunnerRecord>) {
    forall i, j :: 0 <= i < j < |rs| ==> rs[i].id < rs[j].id
  }

  lemma {:induction false} InsertRanks(x: RunnerRecord, s: seq<RunnerRecord>)
    requires SortedByTime(s)
    requires forall i, j :: 0 <= i < j < |s| ==> RankedBefore(s[i], s[j])
    requires forall i :: 0 <= i < |s| ==> x.id < s[i].id
    ensures forall i, j :: 0 <= i < j < |Insert(x, s)| ==> RankedBefore(Insert(x, s)[i], Insert(x, s)[j])
  {
    if s != [] && x.totalTime > s[0].totalTime {
      InsertRanks(x, s[1..]);
      var r := Insert(x, s);
      assert r == [s[0]] + Insert(x, s[1..]);
      InsertPermutes(x, s[1..]);
      forall j | 0 < j < |r| ensures RankedBefore(r[0], r[j]) {
        assert r[j] in multiset(Insert(x, s[1..]));
        if r[j] != x {
          assert r[j] in s[1..];
        }
      }
    }
  }

  /** When the list is in id order (as `inicializar_corredores` builds it),
      the ranking is the total order by total time, then id. */
  lemma {:induction false} SortRanksByTimeThenId(rs: seq<RunnerRecord>)
    requires IdsIncreasing(rs)
    ensures forall i, j :: 0 <= i < j < |rs| ==> RankedBefore(SortByTime(rs)[i], SortByTime(rs)[j])
  {
    if rs != [] {
      var tail := SortByTime(rs[1..]);
      SortRanksByTimeThenId(rs[1..]);
      forall i | 0 <= i < |tail| ensures rs[0].id < tail[i].id {
        assert tail[i] in multiset(rs[1..]);
        assert tail[i] in rs[1..];
      }
      InsertRanks(rs[0], tail);
    }
  }

  lemma {:induction false} WithTimeHead(s: seq<RunnerRecord>, k: nat)
    requires k < |s|
    requires forall j :: 0 <= j < k ==> s[j].totalTime != s[k].totalTime
    ensures WithTime(s, s[k].totalTime) != [] && WithTime(s, s[k].totalTime)[0] == s[k]
  {
    if k > 0 {
      WithTimeHead(s[1..], k - 1);
    }
  }

  /** The leader chosen by `min` is exactly the runner the sort ranks first. */
  lemma LeaderRanksFirst(rs: seq<RunnerRecord>)
    requires |rs| > 0
    ensures SortByTime(rs)[0] == rs[LeaderIndex(rs)]
  {
    var k := LeaderIndex(rs);
    var s := SortByTime(rs);
    var t := rs[k].totalTime;
    assert s[0] in multiset(rs);
    assert rs[k] in multiset(s);
    assert s[0].totalTime == t;
    SortIsStable(rs, t);
    WithTimeHead(rs, k);
    WithTimeHead(s, 0);
  }

  /** `list.index`: the first position holding a record equal to `x`. */
  function IndexOf(s: seq<RunnerRecord>, x: RunnerRecord): (k: nat)
    requires x in s
    ensures k < |s| && s[k] == x
    ensures forall j :: 0 <= j < k ==> s[j] != x
  {
    if s[0] == x then 0 else 1 + IndexOf(s[1..], x)
  }

  /** `diferencia_siguiente`: own total minus the total of the runner after
      it in the time order, or 0.0 for the last one. */
  function GapToNext(sorted: seq<RunnerRecord>, x: RunnerRecord): real
    requires x in sorted
  {
    var k := IndexOf(sorted, x);
    if k < |sorted| - 1 then x.totalTime - sorted[k + 1].totalTime else 0.0
  }

  function Entry(r: RunnerRecord, leader: RunnerRecord, sorted: seq<RunnerRecord>): TimingEntry
    requires r in sorted
  {
    TimingEntry(r.id, r.currentLap, r.speed, r.lastLapTime, r.totalTime, r.bestLap,
                r.totalDistance, r.totalTime - leader.totalTime, GapToNext(sorted, r))
  }

  /** The entries of the runners `xs`, one each, in the order of `xs`. */
  function Entries(xs: seq<RunnerRecord>, leader: RunnerRecord, sorted: seq<RunnerRecord>): (es: seq<TimingEntry>)
    requires forall i :: 0 <= i < |xs| ==> xs[i] in sorted
    ensures |es| == |xs|
    ensures forall i :: 0 <= i < |xs| ==> es[i] == Entry(xs[i], leader, sorted)
  {
    if xs == [] then [] else [Entry(xs[0], leader, sorted)] + Entries(xs[1..], leader, sorted)
  }

  /** One pass of `generar_xml`'s loop body over the runner list. `min` on
      an empty list raises, so there is no document then; otherwise there is
      one entry per runner. */
  function Leaderboard(rs: seq<RunnerRecord>): (doc: Option<seq<TimingEntry>>)
    ensures doc.None? <==> rs == []
    ensures doc.Some? ==> |doc.value| == |rs|
  {
    if rs == [] then None
    else
      var leader := rs[LeaderIndex(rs)];
      var sorted := SortByTime(rs);
      assert forall i :: 0 <= i < |rs| ==> rs[i] in multiset(sorted);
      Some(Entries(rs, leader, sorted))
  }

  /** The entries follow the list (id) order, not the ranking, and each
      carries its runner's fields unchanged. */
  lemma LeaderboardKeepsListOrder(rs: seq<RunnerRecord>, i: nat)
    requires i < |rs|
    ensures var e := Leaderboard(rs).value[i];
      && e.id == rs[i].id && e.lapsCompleted == rs[i].currentLap && e.speed == rs[i].speed
      && e.lastLapTime == rs[i].lastLapTime && e.totalTime == rs[i].totalTime
      && e.bestLap == rs[i].bestLap && e.totalDistance == rs[i].totalDistance
  {
  }

  /** `diferencia_primer_lugar` is the runner's total minus the least total:
      never negative, and zero for the leader. */
  lemma GapToLeaderIsNonNegative(rs: seq<RunnerRecord>, i: nat)
    requires i < |rs|
    ensures var e := Leaderboard(rs).value[i];
      && e.gapToLeader == rs[i].totalTime - rs[LeaderIndex(rs)].totalTime
      && e.gapToLeader >= 0.0
      && (i == LeaderIndex(rs) ==> e.gapToLeader == 0.0)
  {
  }

  /** `diferencia_siguiente` subtracts the total of the runner ranked right
      after, so it is never positive; the last-ranked runner gets 0.0. */
  lemma GapToNextIsNonPositive(rs: seq<RunnerRecord>, i: nat)
    requires i < |rs|
    ensures var s := SortByTime(rs); var e := Leaderboard(rs).value[i];
      && rs[i] in s
      && e.gapToNext <= 0.0
      && (IndexOf(s, rs[i]) == |rs| - 1 ==> e.gapToNext == 0.0)
      && (IndexOf(s, rs[i]) < |rs| - 1 ==> e.gapToNext == rs[i].totalTime - s[IndexOf(s, rs[i]) + 1].totalTime)
  {
  }
}
