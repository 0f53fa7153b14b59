/**
 * The part of a pandas DataFrame the scoring code touches: an ordered list
 * of column labels, one column of cells per label, and a row count shared
 * by every column. `df[name] = values` is SetColumn; `df[name]` is
 * columns[name]; `df.iloc[i].to_dict()` is Row(i).
 */
module Frames {

  import opened Optional

  /** One cell: a string, an integer, a float, or a missing value (NaN). */
  datatype Cell = Text(s: string) | Int(i: int) | Real(r: real) | Null

  predicate Distinct<T(==)>(xs: seq<T>) {
    forall i, j :: 0 <= i < j < |xs| ==> xs[i] != xs[j]
  }

  /** The position of `x` in `xs`. */
  function IndexOf<T(==)>(xs: seq<T>, x: T): (k: nat)
    requires x in xs
    ensures k < |xs| && xs[k] == x
  {
    if xs[0] == x then 0 else 1 + IndexOf(xs[1..], x)
  }

  /** `labels` after `df[name] = ...`: a new label goes at the end, an existing one stays put. */
  function WithLabel(labels: seq<string>, name: string): seq<string> {
    if name in labels then labels else labels + [name]
  }

  /** Adding a label keeps the labels distinct and adds only that label. */
  lemma WithLabelDistinct(labels: seq<string>, name: string)
    requires Distinct(labels)
    ensures Distinct(WithLabel(labels, name))
    ensures forall l :: l in WithLabel(labels, name) <==> l in labels || l == name
  {
  }

  /** A record `{label: value}` as an ordered list of pairs with distinct labels. */
  type Record = seq<(string, Cell)>

  function Keys(rec: Record): (ks: seq<string>)
    ensures |ks| == |rec| && forall i :: 0 <= i < |rec| ==> ks[i] == rec[i].0
  {
    seq(|rec|, i requires 0 <= i < |rec| => rec[i].0)
  }

  /** `rec.get(key)`. */
  function Get(rec: Record, key: string): (v: Option<Cell>)
    ensures v.Some? <==> key in Keys(rec)
    ensures v.Some? ==> (key, v.value) in rec
  {
    if rec == [] then None
    else if rec[0].0 == key then Some(rec[0].1)
    else Get(rec[1..], key)
  }

  class Frame {
    var labels: seq<string>
    var columns: map<string, seq<Cell>>
    var height: nat

    ghost predicate Valid()
      reads this
    {
      && Distinct(labels)
      && (forall l :: l in columns <==> l in labels)
      && (forall l :: l in columns ==> |columns[l]| == height)
    }

    /** `df.iloc[i].to_dict()`: row `i` as a record, in label order. */
    function Row(i: nat): (rec: Record)
      reads this
      requires Valid() && i < height
      ensures Keys(rec) == labels
      ensures forall l :: l in labels ==> Get(rec, l) == Some(columns[l][i])
    {
      var ls, cols := labels, columns;
      var rec := seq(|ls|, k requires 0 <= k < |ls| => (ls[k], cols[ls[k]][i]));
      assert Keys(rec) == labels;
      forall l | l in labels
        ensures Get(rec, l) == Some(columns[l][i])
      {
        GetDistinct(rec, IndexOf(labels, l));
      }
      rec
    }

    static lemma {:induction false} GetDistinct(rec: Record, k: nat)
      requires k < |rec| && Distinct(Keys(rec))
      ensures Get(rec, rec[k].0) == Some(rec[k].1)
    {
      if k > 0 {
        assert Keys(rec[1..]) == Keys(rec)[1..];
        GetDistinct(rec[1..], k - 1);
        assert rec[0].0 != rec[k].0 by { assert Keys(rec)[0] != Keys(rec)[k]; }
      }
    }

    /** A frame whose `k`-th column is labelled `labels0[k]` and holds `data0[k]`. */
    constructor (labels0: seq<string>, data0: seq<seq<Cell>>, height0: nat)
      requires |data0| == |labels0| && Distinct(labels0)
      requires forall k :: 0 <= k < |data0| ==> |data0[k]| == height0
      ensures Valid()
      ensures labels == labels0 && height == height0
      ensures forall k :: 0 <= k < |labels0| ==> columns[labels0[k]] == data0[k]
    {
      labels := labels0;
      columns := map k | 0 <= k < |labels0| :: labels0[k] := data0[k];
      height := height0;
      new;
      forall l | l in columns
        ensures |columns[l]| == height
      {
        var k := IndexOf(labels0, l);
      }
    }

    /** `pd.DataFrame([rec])`: one row, one column per key, in key order. */
    constructor FromRecord(rec: Record)
      requires Distinct(Keys(rec))
      ensures Valid() && height == 1 && labels == Keys(rec)
      ensures forall l :: l in labels ==> Get(rec, l) == Some(columns[l][0])
    {
      labels := Keys(rec);
      columns := map k | 0 <= k < |rec| :: rec[k].0 := [rec[k].1];
      height := 1;
      new;
      forall l | l in labels
        ensures Get(rec, l) == Some(columns[l][0])
      {
        GetDistinct(rec, IndexOf(labels, l));
      }
    }

    /**
     * `df[name] = values`: replaces the column labelled `name` where there
     * is one, else appends a new column at the right; nothing else changes.
     */
    method SetColumn(name: string, values: seq<Cell>)
      requires Valid() && |values| == height
      modifies this
      ensures Valid() && height == old(height)
      ensures labels == WithLabel(old(labels), name)
      ensures columns == old(columns)[name := values]
    {
      WithLabelDistinct(labels, name);
      labels := WithLabel(labels, name);
      columns := columns[name := values];
    }

    /** `df[name] = value` for a scalar: broadcast to every row. */
    method FillColumn(name: string, value: Cell)
      requires Valid()
      modifies this
      ensures Valid() && height == old(height)
      ensures labels == WithLabel(old(labels), name)
      ensures columns == old(columns)[name := seq(old(height), _ => value)]
    {
      SetColumn(name, seq(height, _ => value));
    }
  }
}
