/** What the score of a pair of devices is, in terms of the devices themselves. */
module LinkScores {
  import opened Models
  import opened Dictionaries
  import opened Combinatorics
  import opened Topology

  /** s is p, a colon, seg, and nothing more unless it starts with another colon. */
  ghost predicate Splits(s: string, p: string, seg: string, rest: string) {
    && ':' !in p && ':' !in seg
    && s == p + ":" + seg + rest && (rest == "" || rest[0] == ':')
  }

  /** seg stands between the first and the second colon of s, or after the only one. */
  ghost predicate Between(s: string, seg: string) { exists p, rest :: Splits(s, p, seg, rest) }

  lemma {:induction false} NextColonIs(s: string, from: nat)
    requires from <= |s|
    ensures var i := NextColon(s, from);
            (forall j :: from <= j < i ==> s[j] != ':') && (i < |s| ==> s[i] == ':')
    decreases |s| - from
  {
    if from < |s| && s[from] != ':' { NextColonIs(s, from + 1); }
  }

  lemma {:induction false} NextColonAt(s: string, from: nat, i: nat)
    requires from <= i <= |s| && (forall j :: from <= j < i ==> s[j] != ':') && (i < |s| ==> s[i] == ':')
    ensures NextColon(s, from) == i
    decreases i - from
  {
    if from < i { NextColonAt(s, from + 1, i); }
  }

  lemma SplitAt(s: string, i: nat, e: nat)
    requires i < e <= |s| && s[i] == ':'
    ensures s == s[..i] + ":" + s[i + 1..e] + s[e..]
  {
    assert s[..i] + ":" == s[..i + 1];
  }

  lemma SecondFieldStands(s: string)
    requires SecondField(s) != ""
    ensures Between(s, SecondField(s))
  {
    var i := NextColon(s, 0);
    NextColonIs(s, 0);
    NextColonIs(s, i + 1);
    var e := NextColon(s, i + 1);
    SplitAt(s, i, e);
    NoColonIn(s, 0, i);
    NoColonIn(s, i + 1, e);
    assert s[0..i] == s[..i];
    assert Splits(s, s[..i], s[i + 1..e], s[e..]);
  }

  lemma NoColonIn(s: string, from: nat, to: nat)
    requires from <= to <= |s| && forall j :: from <= j < to ==> s[j] != ':'
    ensures ':' !in s[from..to]
  {
  }

  lemma SecondFieldIs(s: string, seg: string)
    requires Between(s, seg)
    ensures SecondField(s) == seg
  {
    hide NextColon;
    var p, rest :| Splits(s, p, seg, rest);
    Pieces(s, p, seg, rest);
    NextColonAt(s, 0, |p|);
    NextColonAt(s, |p| + 1, |p| + 1 + |seg|);
  }

  lemma Pieces(s: string, p: string, seg: string, rest: string)
    requires Splits(s, p, seg, rest)
    ensures |s| == |p| + 1 + |seg| + |rest| && s[|p|] == ':'
    ensures forall j :: 0 <= j < |p| ==> s[j] != ':'
    ensures forall j :: |p| + 1 <= j < |p| + 1 + |seg| ==> s[j] != ':'
    ensures rest != "" ==> s[|p| + 1 + |seg|] == ':'
    ensures s[|p| + 1..|p| + 1 + |seg|] == seg
  {
    forall j | 0 <= j < |p| ensures s[j] != ':' { assert s[j] == p[j]; }
    forall j | |p| + 1 <= j < |p| + 1 + |seg| ensures s[j] != ':' { assert s[j] == seg[j - |p| - 1]; }
  }

  ghost predicate SameGroup(a: ComputeDevice, b: ComputeDevice) {
    a.nvlinkGroup.Some? && a.nvlinkGroup.value != "" && b.nvlinkGroup == a.nvlinkGroup
  }

  ghost predicate SameBus(a: ComputeDevice, b: ComputeDevice) {
    && a.pcieBusId.Some? && b.pcieBusId.Some?
    && exists seg :: seg != "" && Between(a.pcieBusId.value, seg) && Between(b.pcieBusId.value, seg)
  }

  lemma SameBusIs(a: ComputeDevice, b: ComputeDevice)
    ensures SameBus(a, b) <==>
              && Truthy(a.pcieBusId) && Truthy(b.pcieBusId)
              && SecondField(a.pcieBusId.value) != ""
              && SecondField(a.pcieBusId.value) == SecondField(b.pcieBusId.value)
  {
    hide Between, SecondField;
    if SameBus(a, b) {
      var seg :| seg != "" && Between(a.pcieBusId.value, seg) && Between(b.pcieBusId.value, seg);
      SecondFieldIs(a.pcieBusId.value, seg);
      SecondFieldIs(b.pcieBusId.value, seg);
      BetweenSomething(a.pcieBusId.value, seg);
      BetweenSomething(b.pcieBusId.value, seg);
    } else if a.pcieBusId.Some? && b.pcieBusId.Some? && SecondField(a.pcieBusId.value) != "" {
      SecondFieldStands(a.pcieBusId.value);
      if SecondField(b.pcieBusId.value) != "" { SecondFieldStands(b.pcieBusId.value); }
    }
  }

  lemma BetweenSomething(s: string, seg: string)
    requires Between(s, seg)
    ensures s != ""
  {
    var p, rest :| Splits(s, p, seg, rest);
    assert |s| == |p| + 1 + |seg| + |rest|;
  }

  /**
   * The points of two devices: 90 for the same NVLink group; else 70 for the same PCIe bus; else 50 for the
   * same NUMA node and 30 for two different ones; else 0.
   */
  ghost function Points(a: ComputeDevice, b: ComputeDevice): real {
    if SameGroup(a, b) then 90.0
    else if SameBus(a, b) then 70.0
    else if a.numaNode.Some? && b.numaNode.Some? then if a.numaNode == b.numaNode then 50.0 else 30.0
    else 0.0
  }

  /** Looking two devices of a worker up in its graph gives exactly their points. */
  lemma PairScore(ds: seq<ComputeDevice>, a: ComputeDevice, b: ComputeDevice)
    requires DistinctDevices(ds) && a in ds && b in ds && a != b
    ensures BandwidthScore(GraphOf(ds).matrix, a.deviceId, b.deviceId) == Points(a, b)
  {
    hide SameBus, BandwidthScore, GraphOf, DistinctDevices, SecondField;
    PairScoreInferred(ds, a, b);
    SameBusIs(a, b);
  }

  ghost function PointsWith(a: ComputeDevice, g: seq<ComputeDevice>): real {
    if g == [] then 0.0 else Points(a, g[0]) + PointsWith(a, g[1..])
  }

  /** Points of all pairs of a group. */
  ghost function AllPoints(g: seq<ComputeDevice>): real {
    if g == [] then 0.0 else PointsWith(g[0], g[1..]) + AllPoints(g[1..])
  }

  /** Mean points of the n (n - 1) / 2 pairs of a group; a single device counts as fully connected. */
  ghost function MeanPoints(g: seq<ComputeDevice>): real {
    if |g| < 2 then 100.0 else AllPoints(g) / (|g| * (|g| - 1) / 2) as real
  }

  lemma HalfOfEven(n: nat)
    requires n >= 1
    ensures (n - 1) + (n - 1) * (n - 2) / 2 == n * (n - 1) / 2
  {
    assert n * (n - 1) == 2 * (n - 1) + (n - 1) * (n - 2);
  }

  lemma {:induction false} OnesCount<T>(s: seq<T>)
    ensures |Combinations(s, 1)| == |s|
  {
    if s != [] {
      OnesCount(s[1..]);
      assert Combinations(s[1..], 0) == [[]];
    }
  }

  lemma {:induction false} PairsCount<T>(s: seq<T>)
    ensures |Combinations(s, 2)| == if s == [] then 0 else |s| * (|s| - 1) / 2
  {
    if s != [] {
      OnesCount(s[1..]);
      PairsCount(s[1..]);
      HalfOfEven(|s|);
      if |s| == 1 { assert Combinations(s[1..], 2) == []; }
    }
  }

  /** The group is made of different devices of the worker. */
  ghost predicate GroupOf(ds: seq<ComputeDevice>, g: seq<ComputeDevice>) {
    NoDuplicates(g) && forall d :: d in g ==> d in ds
  }

  lemma GroupTail(ds: seq<ComputeDevice>, g: seq<ComputeDevice>)
    requires GroupOf(ds, g) && g != []
    ensures GroupOf(ds, g[1..]) && g[0] in ds && g[0] !in g[1..]
    ensures DeviceIds(g)[0] == g[0].deviceId && DeviceIds(g)[1..] == DeviceIds(g[1..])
  {
    forall i, j | 0 <= i < j < |g[1..]| ensures g[1..][i] != g[1..][j] { assert g[i + 1] != g[j + 1]; }
    forall i | 0 <= i < |g[1..]| ensures g[1..][i] != g[0] { assert g[i + 1] != g[0]; }
  }

  lemma {:induction false} RowPoints(ds: seq<ComputeDevice>, a: ComputeDevice, g: seq<ComputeDevice>)
    requires DistinctDevices(ds) && GroupOf(ds, g) && a in ds && a !in g
    ensures RowSum(GraphOf(ds).matrix, a.deviceId, DeviceIds(g)) == PointsWith(a, g)
  {
    hide DistinctDevices, GraphOf, BandwidthScore, Points, GroupOf;
    if g != [] {
      GroupTail(ds, g);
      PairScore(ds, a, g[0]);
      RowPoints(ds, a, g[1..]);
    }
  }

  lemma {:induction false} SumPoints(ds: seq<ComputeDevice>, g: seq<ComputeDevice>)
    requires DistinctDevices(ds) && GroupOf(ds, g)
    ensures PairSum(GraphOf(ds).matrix, DeviceIds(g)) == AllPoints(g)
  {
    hide DistinctDevices, GraphOf, RowSum, PointsWith, GroupOf;
    if g != [] {
      GroupTail(ds, g);
      RowPoints(ds, g[0], g[1..]);
      SumPoints(ds, g[1..]);
    }
  }

  /** The score of a group of devices in the graph of their worker is the mean of their points. */
  lemma GroupScorePoints(ds: seq<ComputeDevice>, g: seq<ComputeDevice>)
    requires DistinctDevices(ds) && GroupOf(ds, g) && g != []
    ensures GroupScore(GraphOf(ds).matrix, DeviceIds(g)) == MeanPoints(g)
  {
    hide DistinctDevices, GraphOf, PairSum, AllPoints, GroupOf, Combinations;
    SingletonScore(GraphOf(ds).matrix, DeviceIds(g));
    if |g| >= 2 {
      hide GroupScore;
      GroupScoreIsMean(GraphOf(ds).matrix, DeviceIds(g));
      SumPoints(ds, g);
      PairsCount(DeviceIds(g));
    }
  }

  /** A device and itself score 100; a stored link scores by its name, and any other name scores nothing. */
  lemma StoredScore(m: Matrix, a: string, b: string)
    requires a != b && a in m && b in m[a] && m[a][b] != ""
    ensures BandwidthScore(m, a, a) == 100.0
    ensures BandwidthScore(m, a, b) ==
              if m[a][b] == "SELF" then 100.0
              else if m[a][b] == "NVLINK" then 90.0
              else if m[a][b] == "PCIE_SWITCH" then 70.0
              else if m[a][b] == "PCIE" then 50.0
              else if m[a][b] == "NUMA" then 30.0
              else if m[a][b] == "NETWORK" then 10.0
              else 0.0
  {
  }

  /** A link stored in the other direction only counts too, and none counts for nothing. */
  lemma OtherDirection(m: Matrix, a: string, b: string)
    requires a != b && (a in m && b in m[a] ==> m[a][b] == "")
    ensures b in m && a in m[b] && m[b][a] != "" ==> BandwidthScore(m, a, b) == BandwidthScore(m, b, a)
    ensures !(b in m && a in m[b]) ==> BandwidthScore(m, a, b) == 0.0
  {
  }

  // ---- Reports ----

  /**
   * The matrix of a report stands under the key topology_matrix, or is the report itself when there is no such
   * key or nothing under it; what is neither is ignored.
   */
  lemma ReportIsRead(raw: seq<(string, Value)>, i: nat)
    requires DistinctKeys(EntryKey, raw)
    ensures (forall e :: e in raw ==> e.0 != "topology_matrix") ==> MatrixEntries(raw) == raw
    ensures i < |raw| && raw[i].0 == "topology_matrix" ==>
              MatrixEntries(raw) ==
                match raw[i].1
                case Dict(_, es) => if es == [] then raw else es
                case Atom(_, isTrue) => if isTrue then [] else raw
  {
    var found := Find(EntryKey, raw, "topology_matrix");
    if i < |raw| && raw[i].0 == "topology_matrix" {
      assert raw[i] in raw && EntryKey(raw[i]) == "topology_matrix";
      var j :| 0 <= j < |raw| && raw[j] == found.value;
      KeyPosition(EntryKey, raw, i, j);
    }
  }

  /** row has the names of the links under one key, whatever they are given as. */
  ghost predicate RowFor(e: (string, Value), row: (string, seq<(string, string)>)) {
    && e.1.Dict? && row.0 == e.0 && |row.1| == |e.1.entries|
    && forall j :: 0 <= j < |row.1| ==> row.1[j] == (e.1.entries[j].0, e.1.entries[j].1.text)
  }

  lemma LastRow(entries: seq<(string, Value)>)
    requires entries != []
    ensures var init, e := entries[..|entries| - 1], entries[|entries| - 1];
            && (forall x :: x in entries <==> x in init || x == e)
            && forall r :: r in RowsOf(entries) <==> r in RowsOf(init) || (e.1.Dict? && r == (e.0, Neighbours(e.1.entries)))
  {
    assert entries == entries[..|entries| - 1] + [entries[|entries| - 1]];
  }

  /** Each entry that is a dictionary is read as a row. */
  lemma {:induction false} RowOfEntry(entries: seq<(string, Value)>, e: (string, Value)) returns (row: (string, seq<(string, string)>))
    requires e in entries && e.1.Dict?
    ensures row in RowsOf(entries) && RowFor(e, row)
  {
    LastRow(entries);
    if e == entries[|entries| - 1] {
      row := (e.0, Neighbours(e.1.entries));
    } else {
      row := RowOfEntry(entries[..|entries| - 1], e);
    }
  }

  /** And every row is one of these. */
  lemma {:induction false} EntryOfRow(entries: seq<(string, Value)>, row: (string, seq<(string, string)>)) returns (e: (string, Value))
    requires row in RowsOf(entries)
    ensures e in entries && RowFor(e, row)
  {
    LastRow(entries);
    var init := entries[..|entries| - 1];
    if row in RowsOf(init) {
      e := EntryOfRow(init, row);
    } else {
      e := entries[|entries| - 1];
    }
  }
}
