/**
 `df.groupby(key)["id"].count()`: one group per distinct non-null key, in
 ascending key order, whose size is the number of non-null `id`s in it.
 */
module Aggregation {

  import opened Wrappers
  import opened Ordering
  import opened Records

  /** The two grouping columns of the bar charts. */
  datatype GroupKey = BySku | ByMontador

  function KeyOf(r: Record, g: GroupKey): Option<string>
  {
    match g
    case BySku => r.sku
    case ByMontador => r.montador
  }

  /** Some row of `rows` has key `k` (null keys form no group). */
  ghost predicate HasKey(rows: seq<Record>, g: GroupKey, k: string)
  {
    exists r :: r in rows && KeyOf(r, g) == Some(k)
  }

  /** A row adds one to group `k` when its key is `k` and its `id` is not null. */
  predicate Counted(r: Record, g: GroupKey, k: string)
  {
    KeyOf(r, g) == Some(k) && r.id.Some?
  }

  /** The number of rows of `rows` counted in group `k`. */
  function CountWhere(rows: seq<Record>, g: GroupKey, k: string): nat
  {
    if rows == [] then 0
    else (if Counted(rows[0], g, k) then 1 else 0) + CountWhere(rows[1..], g, k)
  }

  /** The number of rows counted in some group: non-null key and non-null `id`. */
  function CountKeyed(rows: seq<Record>, g: GroupKey): (n: nat)
    ensures n <= |rows|
  {
    if rows == [] then 0
    else (if KeyOf(rows[0], g).Some? && rows[0].id.Some? then 1 else 0) + CountKeyed(rows[1..], g)
  }

  lemma HasKeyCons(rows: seq<Record>, g: GroupKey, k: string)
    requires rows != []
    ensures HasKey(rows, g, k) <==> KeyOf(rows[0], g) == Some(k) || HasKey(rows[1..], g, k)
  {
  }

  lemma {:induction false} NoKeyNoCount(rows: seq<Record>, g: GroupKey, k: string)
    requires !HasKey(rows, g, k)
    ensures CountWhere(rows, g, k) == 0
  {
    if rows != [] {
      HasKeyCons(rows, g, k);
      NoKeyNoCount(rows[1..], g, k);
    }
  }

  /** The group sizes accumulated row by row, as a hash aggregation does. */
  function Tally(rows: seq<Record>, g: GroupKey): (m: map<string, nat>)
    ensures forall k :: k in m <==> HasKey(rows, g, k)
    ensures forall k :: k in m ==> m[k] == CountWhere(rows, g, k)
  {
    if rows == [] then map[]
    else
      var m := Tally(rows[1..], g);
      var r := rows[0];
      forall k ensures HasKey(rows, g, k) <==> KeyOf(r, g) == Some(k) || HasKey(rows[1..], g, k) {
        HasKeyCons(rows, g, k);
      }
      match KeyOf(r, g)
      case None => m
      case Some(k) =>
        if k !in m then NoKeyNoCount(rows[1..], g, k); m[k := if r.id.Some? then 1 else 0]
        else m[k := m[k] + if r.id.Some? then 1 else 0]
  }

  /** `df[key].dropna()`: the non-null keys present in `rows`. */
  function Values(rows: seq<Record>, g: GroupKey): (vs: seq<string>)
    ensures |vs| <= |rows|
    ensures forall k :: k in vs <==> HasKey(rows, g, k)
  {
    if rows == [] then []
    else
      var rest := Values(rows[1..], g);
      forall k ensures HasKey(rows, g, k) <==> KeyOf(rows[0], g) == Some(k) || HasKey(rows[1..], g, k) {
        HasKeyCons(rows, g, k);
      }
      match KeyOf(rows[0], g)
      case None => rest
      case Some(k) => [k] + rest
  }

  /** One bar of a count chart: a group key and its size (`Quantidade`). */
  datatype Bar = Bar(key: string, quantidade: nat)

  function Labels(bars: seq<Bar>): seq<string>
  {
    seq(|bars|, i requires 0 <= i < |bars| => bars[i].key)
  }

  /** `groupby(key)["id"].count().reset_index()`: the data of a count chart. */
  function GroupCount(rows: seq<Record>, g: GroupKey): (bars: seq<Bar>)
    ensures Ascending(Labels(bars))
    ensures forall k :: k in Labels(bars) <==> HasKey(rows, g, k)
    ensures forall i :: 0 <= i < |bars| ==> bars[i].quantidade == CountWhere(rows, g, bars[i].key)
  {
    var ks := SortUnique(Values(rows, g));
    var m := Tally(rows, g);
    var bars := seq(|ks|, i requires 0 <= i < |ks| => Bar(ks[i], m[ks[i]]));
    assert Labels(bars) == ks;
    bars
  }

  /** The contract of GroupCount determines its result: sorted keys, exactly the present keys, their counts. */
  lemma GroupCountUnique(rows: seq<Record>, g: GroupKey, bars: seq<Bar>)
    requires Ascending(Labels(bars))
    requires forall k :: k in Labels(bars) <==> HasKey(rows, g, k)
    requires forall i :: 0 <= i < |bars| ==> bars[i].quantidade == CountWhere(rows, g, bars[i].key)
    ensures GroupCount(rows, g) == bars
  {
    var mine := GroupCount(rows, g);
    AscendingUnique(Labels(mine), Labels(bars));
    assert forall i :: 0 <= i < |bars| ==> mine[i].key == Labels(mine)[i] == Labels(bars)[i] == bars[i].key;
  }

  /** The sum of the bar heights. */
  function Total(bars: seq<Bar>): nat
  {
    if bars == [] then 0 else bars[0].quantidade + Total(bars[1..])
  }

  // Summing group sizes over a list of keys.
  function SumCounts(rows: seq<Record>, g: GroupKey, ks: seq<string>): nat
  {
    if ks == [] then 0 else CountWhere(rows, g, ks[0]) + SumCounts(rows, g, ks[1..])
  }

  lemma {:induction false} TotalIsSumCounts(rows: seq<Record>, g: GroupKey, bars: seq<Bar>)
    requires forall i :: 0 <= i < |bars| ==> bars[i].quantidade == CountWhere(rows, g, bars[i].key)
    ensures Total(bars) == SumCounts(rows, g, Labels(bars))
  {
    if bars != [] {
      TotalIsSumCounts(rows, g, bars[1..]);
      assert Labels(bars)[1..] == Labels(bars[1..]);
    }
  }

  // How many of the keys `ks` count row `r`: at most one when the keys are distinct.
  function Hits(r: Record, g: GroupKey, ks: seq<string>): nat
  {
    if ks == [] then 0 else (if Counted(r, g, ks[0]) then 1 else 0) + Hits(r, g, ks[1..])
  }

  lemma {:induction false} HitsDistinct(r: Record, g: GroupKey, ks: seq<string>)
    requires forall i, j :: 0 <= i < j < |ks| ==> ks[i] != ks[j]
    ensures Hits(r, g, ks) == if KeyOf(r, g).Some? && KeyOf(r, g).value in ks && r.id.Some? then 1 else 0
  {
    if ks != [] {
      assert ks == [ks[0]] + ks[1..];
      var ks' := ks[1..];
      assert forall i, j :: 0 <= i < j < |ks'| ==> ks'[i] != ks'[j] by {
        forall i, j | 0 <= i < j < |ks'| ensures ks'[i] != ks'[j] {
          assert ks'[i] == ks[i + 1] && ks'[j] == ks[j + 1];
        }
      }
      HitsDistinct(r, g, ks');
      if Counted(r, g, ks[0]) {
        forall j | 0 <= j < |ks'| ensures ks'[j] != ks[0] {
          assert ks'[j] == ks[j + 1];
        }
      }
    }
  }

  lemma {:induction false} SumCountsCons(rows: seq<Record>, g: GroupKey, ks: seq<string>)
    requires rows != []
    ensures SumCounts(rows, g, ks) == Hits(rows[0], g, ks) + SumCounts(rows[1..], g, ks)
  {
    if ks != [] {
      SumCountsCons(rows, g, ks[1..]);
    }
  }

  /** Summing over distinct keys that cover every key of `rows` counts each keyed row once. */
  lemma {:induction false} SumCountsCovering(rows: seq<Record>, g: GroupKey, ks: seq<string>)
    requires forall i, j :: 0 <= i < j < |ks| ==> ks[i] != ks[j]
    requires forall k :: HasKey(rows, g, k) ==> k in ks
    ensures SumCounts(rows, g, ks) == CountKeyed(rows, g)
  {
    if rows == [] {
      SumCountsEmpty(g, ks);
    } else {
      forall k | HasKey(rows[1..], g, k) ensures k in ks {
        HasKeyCons(rows, g, k);
      }
      SumCountsCovering(rows[1..], g, ks);
      SumCountsCons(rows, g, ks);
      HitsDistinct(rows[0], g, ks);
      if KeyOf(rows[0], g).Some? {
        HasKeyCons(rows, g, KeyOf(rows[0], g).value);
      }
    }
  }

  lemma {:induction false} SumCountsEmpty(g: GroupKey, ks: seq<string>)
    ensures SumCounts([], g, ks) == 0
  {
    if ks != [] {
      SumCountsEmpty(g, ks[1..]);
    }
  }

  /** The bars of a count chart add up to the keyed rows with an `id`: never more than the rows. */
  lemma GroupCountTotal(rows: seq<Record>, g: GroupKey)
    ensures Total(GroupCount(rows, g)) == CountKeyed(rows, g) <= |rows|
  {
    var bars := GroupCount(rows, g);
    TotalIsSumCounts(rows, g, bars);
    AscendingHasNoDuplicates(Labels(bars));
    SumCountsCovering(rows, g, Labels(bars));
  }

}
