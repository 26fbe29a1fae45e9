/** Interconnect links between devices and the search for the best-connected group. */
module Topology {
  import opened Models
  import opened Dictionaries
  import opened Combinatorics

  datatype LinkType = SELF | NVLINK | PCIE_SWITCH | PCIE | NUMA | NETWORK | UNKNOWN

  /** Device id -> device id -> link name, as reported or inferred. */
  type Matrix = map<string, map<string, string>>

  function LinkName(t: LinkType): string {
    match t
    case SELF => "SELF"
    case NVLINK => "NVLINK"
    case PCIE_SWITCH => "PCIE_SWITCH"
    case PCIE => "PCIE"
    case NUMA => "NUMA"
    case NETWORK => "NETWORK"
    case UNKNOWN => "UNKNOWN"
  }

  /** Names outside the enumeration read as UNKNOWN. */
  function ParseLink(s: string): LinkType {
    if s == "SELF" then SELF
    else if s == "NVLINK" then NVLINK
    else if s == "PCIE_SWITCH" then PCIE_SWITCH
    else if s == "PCIE" then PCIE
    else if s == "NUMA" then NUMA
    else if s == "NETWORK" then NETWORK
    else UNKNOWN
  }

  function LinkScore(t: LinkType): real {
    match t
    case SELF => 100.0
    case NVLINK => 90.0
    case PCIE_SWITCH => 70.0
    case PCIE => 50.0
    case NUMA => 30.0
    case NETWORK => 10.0
    case UNKNOWN => 0.0
  }

  /** The stored name, or "" (which Python treats like a missing entry). */
  function Raw(m: Matrix, a: string, b: string): string {
    if a in m && b in m[a] then m[a][b] else ""
  }

  function WithLink(m: Matrix, a: string, b: string, name: string): Matrix {
    var m := if a in m then m else m[a := map[]];
    var m := if b in m then m else m[b := map[]];
    var m := m[a := m[a][b := name]];
    m[b := m[b][a := name]]
  }

  function GetLinkType(m: Matrix, a: string, b: string): LinkType {
    if a == b then SELF
    else if Raw(m, a, b) != "" then ParseLink(Raw(m, a, b))
    else ParseLink(Raw(m, b, a))
  }

  function BandwidthScore(m: Matrix, a: string, b: string): real {
    LinkScore(GetLinkType(m, a, b))
  }

  function SumPairs(m: Matrix, pairs: seq<seq<string>>): real
    requires forall p :: p in pairs ==> |p| == 2
  {
    if pairs == [] then 0.0
    else BandwidthScore(m, pairs[0][0], pairs[0][1]) + SumPairs(m, pairs[1..])
  }

  /** Mean link score over all pairs of a group. */
  function GroupScore(m: Matrix, ids: seq<string>): real {
    if ids == [] then 0.0
    else if |ids| == 1 then 100.0
    else
      var pairs := Combinations(ids, 2);
      assert forall p :: p in pairs ==> |p| == 2 by { PairsArePairs(ids); }
      assert |pairs| > 0 by { CombinationsCount(ids, ids, 2); }
      SumPairs(m, pairs) / |pairs| as real
  }

  lemma PairsArePairs(ids: seq<string>)
    ensures forall p :: p in Combinations(ids, 2) ==> |p| == 2
  {
    forall p | p in Combinations(ids, 2) ensures |p| == 2 { CombinationsSound(ids, 2, p); }
  }

  // ---- Inference of links from device attributes ----

  /** Position of the first ':' at or after `from`, or the length of the string. */
  function NextColon(s: string, from: nat): (i: nat)
    requires from <= |s|
    ensures from <= i <= |s|
    decreases |s| - from
  {
    if from == |s| || s[from] == ':' then from else NextColon(s, from + 1)
  }

  /** `s.split(":")[1]`, or "" when there is no colon. */
  function SecondField(s: string): string {
    var i := NextColon(s, 0);
    if i == |s| then "" else s[i + 1..NextColon(s, i + 1)]
  }

  predicate Truthy(s: Option<string>) { s.Some? && s.value != "" }

  function InferLinkType(a: ComputeDevice, b: ComputeDevice): LinkType {
    if Truthy(a.nvlinkGroup) && Truthy(b.nvlinkGroup) && a.nvlinkGroup == b.nvlinkGroup then NVLINK
    else if Truthy(a.pcieBusId) && Truthy(b.pcieBusId)
            && SecondField(a.pcieBusId.value) != ""
            && SecondField(a.pcieBusId.value) == SecondField(b.pcieBusId.value) then PCIE_SWITCH
    else if a.numaNode.Some? && b.numaNode.Some? then
      if a.numaNode == b.numaNode then PCIE else NUMA
    else UNKNOWN
  }

  function PutDevice(ds: seq<ComputeDevice>, d: ComputeDevice): seq<ComputeDevice> { Put(DeviceKey, ds, d) }

  function LinkToOthers(m: Matrix, d: ComputeDevice, others: seq<ComputeDevice>): Matrix {
    if others == [] then m
    else
      var before := LinkToOthers(m, d, others[..|others| - 1]);
      var o := others[|others| - 1];
      if o.deviceId == d.deviceId then before
      else WithLink(before, d.deviceId, o.deviceId, LinkName(InferLinkType(d, o)))
  }

  datatype GraphState = GraphState(devices: seq<ComputeDevice>, matrix: Matrix)

  function Added(g: GraphState, d: ComputeDevice): GraphState {
    var ds := PutDevice(g.devices, d);
    GraphState(ds, LinkToOthers(WithLink(g.matrix, d.deviceId, d.deviceId, "SELF"), d, ds))
  }

  function GraphOf(ds: seq<ComputeDevice>): GraphState {
    if ds == [] then GraphState([], map[]) else Added(GraphOf(ds[..|ds| - 1]), ds[|ds| - 1])
  }

  /** An untyped value: a dictionary in insertion order, or anything else. `text` is what `str` makes of it. */
  datatype Value =
    | Atom(text: string, isTrue: bool)
    | Dict(text: string, entries: seq<(string, Value)>)

  predicate IsTrue(v: Value) {
    match v
    case Atom(_, t) => t
    case Dict(_, es) => es != []
  }

  function EntryKey(e: (string, Value)): string { e.0 }

  /** The reported matrix: the topology_matrix entry, or the raw topology itself when that is missing or falsy. */
  function MatrixEntries(raw: seq<(string, Value)>): seq<(string, Value)> {
    var found := Find(EntryKey, raw, "topology_matrix");
    if found.None? || !IsTrue(found.value.1) then raw
    else if found.value.1.Dict? then found.value.1.entries
    else []
  }

  type Rows = seq<(string, seq<(string, string)>)>

  function Neighbours(entries: seq<(string, Value)>): seq<(string, string)> {
    seq(|entries|, i requires 0 <= i < |entries| => (entries[i].0, entries[i].1.text))
  }

  /** The rows that are dictionaries, each with the names of its links. */
  function RowsOf(entries: seq<(string, Value)>): Rows {
    if entries == [] then []
    else
      var last := entries[|entries| - 1];
      RowsOf(entries[..|entries| - 1]) + if last.1.Dict? then [(last.0, Neighbours(last.1.entries))] else []
  }

  function ReportedRows(raw: seq<(string, Value)>): Rows { RowsOf(MatrixEntries(raw)) }

  function WithRow(m: Matrix, a: string, row: seq<(string, string)>): Matrix {
    if row == [] then m
    else WithLink(WithRow(m, a, row[..|row| - 1]), a, row[|row| - 1].0, row[|row| - 1].1)
  }

  function WithRaw(m: Matrix, raw: Rows): Matrix {
    if raw == [] then m
    else WithRow(WithRaw(m, raw[..|raw| - 1]), raw[|raw| - 1].0, raw[|raw| - 1].1)
  }

  ghost predicate Symmetric(m: Matrix) {
    forall a, b :: Raw(m, a, b) == Raw(m, b, a)
  }

  lemma WithLinkRaw(m: Matrix, a: string, b: string, name: string)
    ensures forall x, y :: Raw(WithLink(m, a, b, name), x, y) ==
              if (x == a && y == b) || (x == b && y == a) then name else Raw(m, x, y)
  {
  }

  lemma InferenceSymmetric(a: ComputeDevice, b: ComputeDevice)
    ensures InferLinkType(a, b) == InferLinkType(b, a)
  {
  }

  ghost predicate LinksKept(before: Matrix, after: Matrix, id: string) {
    forall x, y | x != id && y != id :: Raw(after, x, y) == Raw(before, x, y)
  }

  ghost predicate LinkedBothWays(m: Matrix, d: ComputeDevice, e: ComputeDevice) {
    var name := LinkName(InferLinkType(d, e));
    Raw(m, d.deviceId, e.deviceId) == name && Raw(m, e.deviceId, d.deviceId) == name
  }

  lemma LinkOne(before: Matrix, d: ComputeDevice, o: ComputeDevice)
    requires o.deviceId != d.deviceId
    ensures var after := WithLink(before, d.deviceId, o.deviceId, LinkName(InferLinkType(d, o)));
            && LinksKept(before, after, d.deviceId) && LinkedBothWays(after, d, o)
            && forall e: ComputeDevice :: e.deviceId != o.deviceId && LinkedBothWays(before, d, e) ==> LinkedBothWays(after, d, e)
  {
    hide Raw, WithLink, InferLinkType, LinkName;
    WithLinkRaw(before, d.deviceId, o.deviceId, LinkName(InferLinkType(d, o)));
  }

  lemma {:induction false} LinkToOthersRaw(m: Matrix, d: ComputeDevice, others: seq<ComputeDevice>)
    requires DistinctDevices(others)
    ensures LinksKept(m, LinkToOthers(m, d, others), d.deviceId)
    ensures forall o :: o in others && o.deviceId != d.deviceId ==> LinkedBothWays(LinkToOthers(m, d, others), d, o)
  {
    if others != [] {
      hide DistinctKeys, WithLink, LinkedBothWays, Raw;
      var prefix, o := others[..|others| - 1], others[|others| - 1];
      assert others == prefix + [o];
      InitKeys(DeviceKey, others);
      LinkToOthersRaw(m, d, prefix);
      if o.deviceId != d.deviceId { LinkOne(LinkToOthers(m, d, prefix), d, o); }
    }
  }

  /** Adding d keeps the links among the earlier devices and links d to each of them. */
  lemma AddedLinks(ds: seq<ComputeDevice>, d: ComputeDevice, m: Matrix)
    requires DistinctDevices(ds + [d])
    ensures var g := Added(GraphState(ds, m), d);
            && g.devices == ds + [d]
            && (forall x, y | x != d.deviceId && y != d.deviceId :: Raw(g.matrix, x, y) == Raw(m, x, y))
            && (forall e | e in ds ::
                  && Raw(g.matrix, d.deviceId, e.deviceId) == LinkName(InferLinkType(d, e))
                  && Raw(g.matrix, e.deviceId, d.deviceId) == LinkName(InferLinkType(d, e)))
  {
    var all := ds + [d];
    forall i | 0 <= i < |ds| ensures ds[i].deviceId != d.deviceId {
      assert all[i] == ds[i] && all[|ds|] == d;
    }
    PutNew(DeviceKey, ds, d);
    var base := WithLink(m, d.deviceId, d.deviceId, "SELF");
    WithLinkRaw(m, d.deviceId, d.deviceId, "SELF");
    LinkToOthersRaw(base, d, all);
    forall e | e in ds ensures LinkedBothWays(LinkToOthers(base, d, all), d, e) {
      var i :| 0 <= i < |ds| && ds[i] == e;
      assert all[i] == e && e in all;
    }
  }

  lemma ParseLinkName(t: LinkType)
    ensures LinkName(t) != "" && ParseLink(LinkName(t)) == t
  {
  }

  /** The graph of a worker links every two of its devices by exactly their inferred type. */
  lemma {:induction false} GraphLinks(ds: seq<ComputeDevice>)
    requires DistinctDevices(ds)
    ensures GraphOf(ds).devices == ds
    ensures forall a, b | a in ds && b in ds && a != b ::
              Raw(GraphOf(ds).matrix, a.deviceId, b.deviceId) == LinkName(InferLinkType(a, b))
  {
    if ds != [] {
      var n := |ds| - 1;
      var prefix, d := ds[..n], ds[n];
      GraphLinks(prefix);
      assert prefix + [d] == ds;
      AddedLinks(prefix, d, GraphOf(prefix).matrix);
      var m := GraphOf(ds).matrix;
      forall a, b | a in ds && b in ds && a != b
        ensures Raw(m, a.deviceId, b.deviceId) == LinkName(InferLinkType(a, b))
      {
        InferenceSymmetric(a, b);
        if a == d {
          assert b in prefix;
        } else if b == d {
          assert a in prefix;
        } else {
          DistinctIds(ds, a, d);
          DistinctIds(ds, b, d);
          assert a in prefix && b in prefix;
        }
      }
    }
  }

  lemma DistinctIds(ds: seq<ComputeDevice>, a: ComputeDevice, b: ComputeDevice)
    requires DistinctDevices(ds) && a in ds && b in ds && a != b
    ensures a.deviceId != b.deviceId
  {
    var i :| 0 <= i < |ds| && ds[i] == a;
    var j :| 0 <= j < |ds| && ds[j] == b;
    assert i < j || j < i;
  }

  /** The score of a pair is the score of the link inferred from the two devices' own attributes. */
  lemma PairScoreInferred(ds: seq<ComputeDevice>, a: ComputeDevice, b: ComputeDevice)
    requires DistinctDevices(ds) && a in ds && b in ds && a != b
    ensures BandwidthScore(GraphOf(ds).matrix, a.deviceId, b.deviceId) == LinkScore(InferLinkType(a, b))
  {
    GraphLinks(ds);
    DistinctIds(ds, a, b);
    ParseLinkName(InferLinkType(a, b));
  }

  lemma {:induction false} LinkToOthersSymmetric(m: Matrix, d: ComputeDevice, others: seq<ComputeDevice>)
    requires Symmetric(m)
    ensures Symmetric(LinkToOthers(m, d, others))
  {
    if others != [] {
      var prefix, o := others[..|others| - 1], others[|others| - 1];
      LinkToOthersSymmetric(m, d, prefix);
      WithLinkRaw(LinkToOthers(m, d, prefix), d.deviceId, o.deviceId, LinkName(InferLinkType(d, o)));
    }
  }

  lemma {:induction false} GraphSymmetric(ds: seq<ComputeDevice>)
    ensures Symmetric(GraphOf(ds).matrix)
  {
    if ds != [] {
      var g, d := GraphOf(ds[..|ds| - 1]), ds[|ds| - 1];
      GraphSymmetric(ds[..|ds| - 1]);
      WithLinkRaw(g.matrix, d.deviceId, d.deviceId, "SELF");
      LinkToOthersSymmetric(WithLink(g.matrix, d.deviceId, d.deviceId, "SELF"), d, PutDevice(g.devices, d));
    }
  }

  lemma {:induction false} WithRowSymmetric(m: Matrix, a: string, row: seq<(string, string)>)
    requires Symmetric(m)
    ensures Symmetric(WithRow(m, a, row))
  {
    if row != [] {
      WithRowSymmetric(m, a, row[..|row| - 1]);
      WithLinkRaw(WithRow(m, a, row[..|row| - 1]), a, row[|row| - 1].0, row[|row| - 1].1);
    }
  }

  /** Whatever a hardware backend reports, even contradictory directions, the matrix stays symmetric. */
  lemma {:induction false} WithRawSymmetric(m: Matrix, raw: Rows)
    requires Symmetric(m)
    ensures Symmetric(WithRaw(m, raw))
  {
    if raw != [] {
      WithRawSymmetric(m, raw[..|raw| - 1]);
      WithRowSymmetric(WithRaw(m, raw[..|raw| - 1]), raw[|raw| - 1].0, raw[|raw| - 1].1);
    }
  }

  /** Every reported link is a link of `m`. */
  ghost predicate Reports(raw: Rows, m: Matrix) {
    forall i, j :: 0 <= i < |raw| && 0 <= j < |raw[i].1| ==> Raw(m, raw[i].0, raw[i].1[j].0) == raw[i].1[j].1
  }

  ghost predicate InRow(row: seq<(string, string)>, b: string) {
    exists j :: 0 <= j < |row| && row[j].0 == b
  }

  ghost predicate InRows(raw: Rows, a: string, b: string) {
    exists i :: 0 <= i < |raw| && raw[i].0 == a && InRow(raw[i].1, b)
  }

  lemma InLongerRow(row: seq<(string, string)>)
    requires row != []
    ensures forall b :: InRow(row, b) == (InRow(row[..|row| - 1], b) || b == row[|row| - 1].0)
  {
    var prefix, last := row[..|row| - 1], row[|row| - 1];
    forall b ensures InRow(row, b) == (InRow(prefix, b) || b == last.0) {
      if InRow(prefix, b) {
        var j :| 0 <= j < |prefix| && prefix[j].0 == b;
        assert row[j].0 == b;
      }
      assert row[|row| - 1] == last;
    }
  }

  lemma {:induction false} RowIsLoaded(base: Matrix, a: string, row: seq<(string, string)>, m: Matrix)
    requires Symmetric(m)
    requires forall j :: 0 <= j < |row| ==> Raw(m, a, row[j].0) == row[j].1
    ensures forall x, y :: Raw(WithRow(base, a, row), x, y) ==
              if (x == a && InRow(row, y)) || (y == a && InRow(row, x)) then Raw(m, x, y) else Raw(base, x, y)
  {
    if row != [] {
      var prefix, last := row[..|row| - 1], row[|row| - 1];
      assert Raw(m, last.0, a) == Raw(m, a, last.0);
      assert WithRow(base, a, row) == WithLink(WithRow(base, a, prefix), a, last.0, last.1);
      hide Symmetric, WithRow, WithLink, Raw;
      RowIsLoaded(base, a, prefix, m);
      WithLinkRaw(WithRow(base, a, prefix), a, last.0, last.1);
      InLongerRow(row);
    }
  }

  lemma InLongerRows(raw: Rows)
    requires raw != []
    ensures forall a, b :: InRows(raw, a, b) ==
              (InRows(raw[..|raw| - 1], a, b) || (a == raw[|raw| - 1].0 && InRow(raw[|raw| - 1].1, b)))
  {
    hide InRow;
    var prefix, last := raw[..|raw| - 1], raw[|raw| - 1];
    forall a, b ensures InRows(raw, a, b) == (InRows(prefix, a, b) || (a == last.0 && InRow(last.1, b))) {
      if InRows(prefix, a, b) {
        var i :| 0 <= i < |prefix| && prefix[i].0 == a && InRow(prefix[i].1, b);
        assert raw[i].0 == a;
      }
      assert raw[|raw| - 1] == last;
    }
  }

  lemma {:induction false} RowsAreLoaded(base: Matrix, raw: Rows, m: Matrix)
    requires Symmetric(m) && Reports(raw, m)
    ensures forall x, y :: Raw(WithRaw(base, raw), x, y) ==
              if InRows(raw, x, y) || InRows(raw, y, x) then Raw(m, x, y) else Raw(base, x, y)
  {
    hide Symmetric, Raw;
    if raw != [] {
      var prefix, last := raw[..|raw| - 1], raw[|raw| - 1];
      assert WithRaw(base, raw) == WithRow(WithRaw(base, prefix), last.0, last.1);
      RowsAreLoaded(base, prefix, m);
      RowIsLoaded(WithRaw(base, prefix), last.0, last.1, m);
      InLongerRows(raw);
      hide InRow, InRows, WithRow, WithRaw, Reports;
    }
  }

  /** A report that names every link of a symmetric matrix in at least one direction loads as that matrix. */
  lemma ReportRoundTrip(m: Matrix, raw: Rows)
    requires Symmetric(m) && Reports(raw, m)
    requires forall a, b :: Raw(m, a, b) != "" ==> InRows(raw, a, b) || InRows(raw, b, a)
    ensures forall a, b :: Raw(WithRaw(map[], raw), a, b) == Raw(m, a, b)
  {
    RowsAreLoaded(map[], raw, m);
  }

  // ---- The group score does not depend on the order of the group ----

  function RowSum(m: Matrix, x: string, ids: seq<string>): real {
    if ids == [] then 0.0 else BandwidthScore(m, x, ids[0]) + RowSum(m, x, ids[1..])
  }

  function PairSum(m: Matrix, ids: seq<string>): real {
    if ids == [] then 0.0 else RowSum(m, ids[0], ids[1..]) + PairSum(m, ids[1..])
  }

  lemma {:induction false} SumPairsAppend(m: Matrix, p: seq<seq<string>>, q: seq<seq<string>>)
    requires forall x :: x in p + q ==> |x| == 2
    ensures (forall x :: x in p ==> |x| == 2) && (forall x :: x in q ==> |x| == 2)
    ensures SumPairs(m, p + q) == SumPairs(m, p) + SumPairs(m, q)
  {
    hide BandwidthScore;
    assert forall x :: x in p ==> x in p + q;
    assert forall x :: x in q ==> x in p + q;
    if p == [] {
      assert p + q == q;
    } else {
      assert (p + q)[1..] == p[1..] + q;
      SumPairsAppend(m, p[1..], q);
    }
  }

  lemma {:induction false} RowOfPairs(m: Matrix, x: string, ids: seq<string>)
    ensures var row := PrependAll(x, Combinations(ids, 1));
            (forall p :: p in row ==> |p| == 2) && SumPairs(m, row) == RowSum(m, x, ids)
  {
    hide BandwidthScore;
    if ids != [] {
      RowOfPairs(m, x, ids[1..]);
      var row, rest := PrependAll(x, Combinations(ids, 1)), PrependAll(x, Combinations(ids[1..], 1));
      var first := PrependAll(ids[0], Combinations(ids[1..], 0));
      assert Combinations(ids[1..], 0) == [[]];
      assert first == [[ids[0]]] by { assert first[0] == [ids[0]] + [] == [ids[0]]; }
      assert Combinations(ids, 1) == [[ids[0]]] + Combinations(ids[1..], 1);
      assert row[0] == [x] + [ids[0]] == [x, ids[0]];
      assert row == [[x, ids[0]]] + rest;
      assert row[1..] == rest;
    }
  }

  lemma {:induction false} PairsSum(m: Matrix, ids: seq<string>)
    ensures forall p :: p in Combinations(ids, 2) ==> |p| == 2
    ensures SumPairs(m, Combinations(ids, 2)) == PairSum(m, ids)
  {
    hide BandwidthScore;
    PairsArePairs(ids);
    if ids != [] {
      PairsSum(m, ids[1..]);
      RowOfPairs(m, ids[0], ids[1..]);
      SumPairsAppend(m, PrependAll(ids[0], Combinations(ids[1..], 1)), Combinations(ids[1..], 2));
    }
  }

  lemma {:induction false} RowSumRemove(m: Matrix, x: string, ids: seq<string>, i: nat)
    requires i < |ids|
    ensures RowSum(m, x, ids) == BandwidthScore(m, x, ids[i]) + RowSum(m, x, RemoveAt(ids, i))
  {
    hide BandwidthScore, RemoveAt;
    RemoveAtCases(ids, i);
    if i > 0 { RowSumRemove(m, x, ids[1..], i - 1); }
  }

  lemma {:induction false} RowSumPermutes(m: Matrix, x: string, s: seq<string>, t: seq<string>)
    requires multiset(s) == multiset(t)
    ensures RowSum(m, x, s) == RowSum(m, x, t)
  {
    hide BandwidthScore, RemoveAt;
    if s == [] {
      assert |multiset(t)| == 0;
    } else {
      var i := Matching(s, t);
      RowSumPermutes(m, x, s[1..], RemoveAt(t, i));
      RowSumRemove(m, x, t, i);
    }
  }

  /** The element of t that a permutation s starts with, and what is left of both without it. */
  lemma Matching<T>(s: seq<T>, t: seq<T>) returns (i: nat)
    requires s != [] && multiset(s) == multiset(t)
    ensures i < |t| && t[i] == s[0]
    ensures multiset(s[1..]) == multiset(RemoveAt(t, i))
  {
    assert s[0] in multiset(t);
    i :| 0 <= i < |t| && t[i] == s[0];
    SplitFirst(s);
    RemovedMultiset(t, i);
  }

  lemma {:induction false} PairSumRemove(m: Matrix, ids: seq<string>, i: nat)
    requires Symmetric(m) && i < |ids|
    ensures PairSum(m, ids) == RowSum(m, ids[i], RemoveAt(ids, i)) + PairSum(m, RemoveAt(ids, i))
  {
    hide RemoveAt;
    RemoveAtCases(ids, i);
    if i > 0 {
      PairSumRemove(m, ids[1..], i - 1);
      RowSumRemove(m, ids[0], ids[1..], i - 1);
      PairSymmetric(m, ids[0], ids[i]);
    }
  }

  lemma PairSymmetric(m: Matrix, a: string, b: string)
    requires Symmetric(m)
    ensures BandwidthScore(m, a, b) == BandwidthScore(m, b, a)
  {
  }

  lemma {:induction false} PairSumPermutes(m: Matrix, s: seq<string>, t: seq<string>)
    requires Symmetric(m) && multiset(s) == multiset(t)
    ensures PairSum(m, s) == PairSum(m, t)
  {
    hide Symmetric, RemoveAt;
    if s == [] {
      assert |multiset(t)| == 0;
    } else {
      var i := Matching(s, t);
      PairSumPermutes(m, s[1..], RemoveAt(t, i));
      PairSumRemove(m, t, i);
      RowSumPermutes(m, s[0], s[1..], RemoveAt(t, i));
    }
  }

  lemma GroupScoreIsMean(m: Matrix, ids: seq<string>)
    requires |ids| >= 2
    ensures |Combinations(ids, 2)| > 0
    ensures GroupScore(m, ids) == PairSum(m, ids) / |Combinations(ids, 2)| as real
  {
    PairsSum(m, ids);
    CombinationsCount(ids, ids, 2);
  }

  lemma GroupScorePermutes(m: Matrix, s: seq<string>, t: seq<string>)
    requires Symmetric(m) && multiset(s) == multiset(t)
    ensures GroupScore(m, s) == GroupScore(m, t)
  {
    hide BandwidthScore, PairSum, Symmetric;
    assert |s| == |multiset(s)| == |multiset(t)| == |t|;
    if |s| >= 2 {
      PairSumPermutes(m, s, t);
      GroupScoreIsMean(m, s);
      GroupScoreIsMean(m, t);
      CombinationsCount(s, t, 2);
    }
  }

  lemma {:induction false} RowSumNonNegative(m: Matrix, x: string, ids: seq<string>)
    ensures RowSum(m, x, ids) >= 0.0
  {
    if ids != [] { RowSumNonNegative(m, x, ids[1..]); }
  }

  lemma {:induction false} PairSumNonNegative(m: Matrix, ids: seq<string>)
    ensures PairSum(m, ids) >= 0.0
  {
    if ids != [] {
      RowSumNonNegative(m, ids[0], ids[1..]);
      PairSumNonNegative(m, ids[1..]);
    }
  }

  lemma QuotientNonNegative(x: real, n: nat)
    requires x >= 0.0 && n > 0
    ensures x / n as real >= 0.0
  {
  }

  lemma GroupScoreNonNegative(m: Matrix, ids: seq<string>)
    ensures GroupScore(m, ids) >= 0.0
  {
    if |ids| >= 2 {
      hide GroupScore, BandwidthScore, PairSum, Combinations;
      GroupScoreIsMean(m, ids);
      PairSumNonNegative(m, ids);
      QuotientNonNegative(PairSum(m, ids), |Combinations(ids, 2)|);
    }
  }

  // ---- The clique search ----

  /** First combination with the highest score. */
  function FirstBest(m: Matrix, cs: seq<seq<string>>): Option<seq<string>> {
    if cs == [] then None
    else
      var best, c := FirstBest(m, cs[..|cs| - 1]), cs[|cs| - 1];
      if GroupScore(m, c) > (if best.Some? then GroupScore(m, best.value) else -1.0) then Some(c) else best
  }

  function BestClique(m: Matrix, k: int, ids: seq<string>): seq<string> {
    if k <= 0 || k > |ids| then []
    else if k == 1 then [ids[0]]
    else
      var best := FirstBest(m, Combinations(ids, k));
      if best.Some? then best.value else []
  }

  lemma {:induction false} FirstBestIsBest(m: Matrix, cs: seq<seq<string>>)
    requires cs != []
    ensures FirstBest(m, cs).Some? && FirstBest(m, cs).value in cs
    ensures forall c :: c in cs ==> GroupScore(m, c) <= GroupScore(m, FirstBest(m, cs).value)
  {
    hide GroupScore;
    var prefix, c := cs[..|cs| - 1], cs[|cs| - 1];
    GroupScoreNonNegative(m, c);
    if prefix != [] { FirstBestIsBest(m, prefix); }
    assert cs == prefix + [c];
  }

  lemma SingletonScore(m: Matrix, ids: seq<string>)
    ensures |ids| == 1 ==> GroupScore(m, ids) == 100.0
  {
  }

  /** The search returns k of the given devices, none better connected. */
  lemma BestCliqueOptimal(m: Matrix, k: nat, ids: seq<string>, t: seq<string>)
    requires Symmetric(m)
    requires 0 < k <= |ids|
    ensures |BestClique(m, k, ids)| == k
    ensures multiset(BestClique(m, k, ids)) <= multiset(ids)
    ensures |t| == k && multiset(t) <= multiset(ids) ==> GroupScore(m, t) <= GroupScore(m, BestClique(m, k, ids))
  {
    hide GroupScore, Symmetric;
    if k == 1 {
      assert ids == [ids[0]] + ids[1..];
      SingletonScore(m, t);
      SingletonScore(m, [ids[0]]);
    } else {
      var cs := Combinations(ids, k);
      CombinationsCount(ids, ids, k);
      FirstBestIsBest(m, cs);
      CombinationsSound(ids, k, BestClique(m, k, ids));
      if |t| == k && multiset(t) <= multiset(ids) {
        var c := CombinationsComplete(ids, k, t);
        GroupScorePermutes(m, c, t);
      }
    }
  }

  lemma EmptyRow(m: Matrix, a: string)
    ensures forall row :: row == [] ==> WithRow(m, a, row) == m
  {
  }

  lemma RowsStep(entries: seq<(string, Value)>, i: nat)
    requires i < |entries|
    ensures RowsOf(entries[..i + 1]) ==
              if entries[i].1.Dict? then RowsOf(entries[..i]) + [(entries[i].0, Neighbours(entries[i].1.entries))]
              else RowsOf(entries[..i])
  {
    assert entries[..i + 1][..i] == entries[..i];
  }

  lemma OneMoreRow(m: Matrix, rows: Rows, a: string, row: seq<(string, string)>)
    ensures WithRaw(m, rows + [(a, row)]) == WithRow(WithRaw(m, rows), a, row)
  {
    assert (rows + [(a, row)])[..|rows|] == rows;
  }

  lemma RowStep(m: Matrix, a: string, row: seq<(string, string)>, j: nat)
    requires j < |row|
    ensures WithRow(m, a, row[..j + 1]) == WithLink(WithRow(m, a, row[..j]), a, row[j].0, row[j].1)
  {
    assert row[..j + 1][..j] == row[..j];
  }

  lemma {:induction false} FirstBestIsFirst(m: Matrix, cs: seq<seq<string>>) returns (i: nat)
    requires FirstBest(m, cs).Some?
    ensures i < |cs| && cs[i] == FirstBest(m, cs).value
    ensures forall j :: 0 <= j < i ==> GroupScore(m, cs[j]) < GroupScore(m, cs[i])
  {
    hide GroupScore;
    var prefix := cs[..|cs| - 1];
    if FirstBest(m, cs) == FirstBest(m, prefix) {
      i := FirstBestIsFirst(m, prefix);
    } else {
      i := |cs| - 1;
      if prefix != [] { FirstBestIsBest(m, prefix); }
    }
  }

  lemma FirstAlone(ids: seq<string>, t: seq<string>)
    requires ids != [] && t in Combinations(ids, 1) && t != [ids[0]]
    ensures LexBefore(ids, [ids[0]], t)
  {
    CombinationsSound(ids, 1, t);
    assert t == [t[0]] && t[0] in multiset(t) && t[0] in multiset(ids);
    var b :| 0 <= b < |ids| && ids[b] == t[0];
    assert ids[1..][b - 1] == t[0];
    LexAtHead(ids, [ids[0]], t);
  }

  /** Of the groups that are connected equally well, the search returns the one that comes first. */
  lemma BestCliqueFirst(m: Matrix, k: nat, ids: seq<string>, t: seq<string>)
    requires 1 <= k <= |ids| && t in Combinations(ids, k) && t != BestClique(m, k, ids)
    requires GroupScore(m, t) == GroupScore(m, BestClique(m, k, ids))
    ensures LexBefore(ids, BestClique(m, k, ids), t)
  {
    hide GroupScore, LexBefore, Combinations;
    if k == 1 {
      FirstAlone(ids, t);
      return;
    }
    var cs := Combinations(ids, k);
    CombinationsCount(ids, ids, k);
    FirstBestIsBest(m, cs);
    var i := FirstBestIsFirst(m, cs);
    var j :| 0 <= j < |cs| && cs[j] == t;
    assert i < j;
    CombinationsInOrder(ids, k, i, j);
  }

  // ---- The mutable graph ----

  class TopologyMatrix {
    var links: Matrix

    constructor ()
      ensures links == map[]
    {
      links := map[];
    }

    method SetLink(a: string, b: string, name: string)
      modifies this
      ensures links == WithLink(old(links), a, b, name)
      ensures forall x, y :: Raw(links, x, y) == if (x == a && y == b) || (x == b && y == a) then name else Raw(old(links), x, y)
    {
      WithLinkRaw(links, a, b, name);
      if a !in links { links := links[a := map[]]; }
      if b !in links { links := links[b := map[]]; }
      links := links[a := links[a][b := name]];
      links := links[b := links[b][a := name]];
    }
  }

  class TopologyGraph {
    var devices: seq<ComputeDevice>
    const matrix: TopologyMatrix

    ghost function State(): GraphState
      reads this, matrix
    {
      GraphState(devices, matrix.links)
    }

    constructor (ds: seq<ComputeDevice>, raw: seq<(string, Value)>)
      ensures fresh(matrix)
      ensures devices == GraphOf(ds).devices
      ensures matrix.links == WithRaw(GraphOf(ds).matrix, ReportedRows(raw))
    {
      devices := [];
      matrix := new TopologyMatrix();
      new;
      for i := 0 to |ds|
        invariant State() == GraphOf(ds[..i])
      {
        assert ds[..i + 1][..i] == ds[..i];
        AddDevice(ds[i]);
      }
      assert ds[..|ds|] == ds;
      if raw != [] { LoadRawTopology(raw); }
    }

    method AddDevice(d: ComputeDevice)
      modifies this, matrix
      ensures State() == Added(old(State()), d)
    {
      devices := PutDevice(devices, d);
      matrix.SetLink(d.deviceId, d.deviceId, LinkName(SELF));
      ghost var base := matrix.links;
      for i := 0 to |devices|
        invariant devices == PutDevice(old(devices), d)
        invariant matrix.links == LinkToOthers(base, d, devices[..i])
      {
        assert devices[..i + 1][..i] == devices[..i];
        if devices[i].deviceId != d.deviceId {
          matrix.SetLink(d.deviceId, devices[i].deviceId, LinkName(InferLinkType(d, devices[i])));
        }
      }
      assert devices[..|devices|] == devices;
    }

    /** Links reported by a hardware backend; entries that are not dictionaries are skipped. */
    method LoadRawTopology(raw: seq<(string, Value)>)
      modifies matrix
      ensures matrix.links == WithRaw(old(matrix.links), ReportedRows(raw))
    {
      ghost var before := matrix.links;
      var source := MatrixEntries(raw);
      for i := 0 to |source|
        invariant matrix.links == WithRaw(before, RowsOf(source[..i]))
      {
        hide WithRow, WithRaw, RowsOf;
        RowsStep(source, i);
        var (a, v) := source[i];
        if v.Dict? {
          ghost var base, row := matrix.links, Neighbours(v.entries);
          EmptyRow(base, a);
          for j := 0 to |v.entries|
            invariant matrix.links == WithRow(base, a, row[..j])
          {
            RowStep(base, a, row, j);
            matrix.SetLink(a, v.entries[j].0, v.entries[j].1.text);
          }
          assert row[..|v.entries|] == row;
          OneMoreRow(before, RowsOf(source[..i]), a, row);
        }
      }
      assert source[..|source|] == source;
    }

    method FindBestClique(k: int, ids: seq<string>) returns (best: seq<string>)
      ensures best == BestClique(matrix.links, k, ids)
    {
      if k <= 0 || k > |ids| { return []; }
      if k == 1 { return [ids[0]]; }
      var cs := Combinations(ids, k);
      var bestScore, found := -1.0, None;
      for i := 0 to |cs|
        invariant found == FirstBest(matrix.links, cs[..i])
        invariant bestScore == if found.Some? then GroupScore(matrix.links, found.value) else -1.0
      {
        assert cs[..i + 1][..i] == cs[..i];
        var score := GroupScore(matrix.links, cs[i]);
        if score > bestScore {
          bestScore := score;
          found := Some(cs[i]);
        }
      }
      assert cs[..|cs|] == cs;
      best := if found.Some? then found.value else [];
    }
  }
}
