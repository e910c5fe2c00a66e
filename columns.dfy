/** The column registry: an ordered sequence of column descriptors and the
    three ways the grid's handlers rewrite it (append a placeholder, remove by
    position, overwrite one field of one descriptor). */
module Columns {
  import opened Wrappers

  /** One column: the header label (`labelText`), the row field it projects, and an
      advisory type tag. The source calls the first and third fields `label` and
      `type`, which are Dafny keywords.
      */
  datatype ColumnConfig = ColumnConfig(labelText: string, key: string, dataType: string)

  /** The three fields an edit can name. */
  datatype Field = Label | Key | Type

  /** The descriptor that the add button appends. */
  const Placeholder := ColumnConfig("Label", "Key", "string")

  function FieldOf(c: ColumnConfig, f: Field): (r: string)
  {
    match f
    case Label => c.labelText
    case Key => c.key
    case Type => c.dataType
  }

  /** Overwrites field `f` of `c` with `v`; no validation of `v`. */
  function SetField(c: ColumnConfig, f: Field, v: string): (r: ColumnConfig)
    ensures FieldOf(r, f) == v
    ensures forall g :: g != f ==> FieldOf(r, g) == FieldOf(c, g)
  {
    match f
    case Label => c.(labelText := v)
    case Key => c.(key := v)
    case Type => c.(dataType := v)
  }

  /** A descriptor is determined by its three fields. */
  lemma FieldsDetermine(c: ColumnConfig, d: ColumnConfig)
    requires forall f :: FieldOf(c, f) == FieldOf(d, f)
    ensures c == d
  {
    assert FieldOf(c, Label) == FieldOf(d, Label);
    assert FieldOf(c, Key) == FieldOf(d, Key);
    assert FieldOf(c, Type) == FieldOf(d, Type);
  }

  // ---------------------------------------------------------------------
  // Add

  /** `handleAddColumn`: the registry with one placeholder appended. */
  function Added(cols: seq<ColumnConfig>): (r: seq<ColumnConfig>)
    ensures |r| == |cols| + 1
    ensures r[..|cols|] == cols
    ensures r[|cols|] == Placeholder
  {
    cols + [Placeholder]
  }

  // ---------------------------------------------------------------------
  // Remove

  /** Where `Array.prototype.splice(index, 1)` starts deleting in an array of
      length `len`: a negative index counts back from the end (clamped at 0),
      an index past the end is clamped to the end. */
  function SpliceStart(len: nat, index: int): (s: nat)
    ensures s <= len
    ensures 0 <= index <= len ==> s == index
    ensures index < 0 && 0 <= len + index ==> s == len + index
    ensures len + index < 0 ==> s == 0
    ensures index > len ==> s == len
  {
    if index < 0 then
      (if len + index < 0 then 0 else len + index)
    else if index > len then len
    else index
  }

  /** `handleRemoveColumn(index)`: the copy of the registry after
      `splice(index, 1)`. Deletes at most one descriptor; a start position at
      the end (an index at or past the end, or any index on an empty registry)
      deletes nothing. */
  function Removed(cols: seq<ColumnConfig>, index: int): (r: seq<ColumnConfig>)
    ensures 0 <= index < |cols| ==> |r| == |cols| - 1
    ensures 0 <= index < |cols| ==>
              (forall j :: 0 <= j < index ==> r[j] == cols[j]) &&
              (forall j :: index <= j < |r| ==> r[j] == cols[j + 1])
    ensures SpliceStart(|cols|, index) == |cols| ==> r == cols
    ensures index >= |cols| ==> r == cols
    ensures |cols| + index < 0 && |cols| > 0 ==> r == cols[1..]
  {
    var s := SpliceStart(|cols|, index);
    if s < |cols| then cols[..s] + cols[s + 1..] else cols
  }

  /** An in-range removal is the concatenation of the parts before and after
      the removed descriptor, so the survivors keep their relative order. */
  lemma RemovedSplits(cols: seq<ColumnConfig>, i: int)
    requires 0 <= i < |cols|
    ensures Removed(cols, i) == cols[..i] + cols[i + 1..]
  {
    var r := Removed(cols, i);
    var e := cols[..i] + cols[i + 1..];
    assert |r| == |e|;
    forall j | 0 <= j < |r| ensures r[j] == e[j] {
      if j < i {
      } else {
        assert e[j] == cols[j + 1];
      }
    }
  }

  /** A negative index counts back from the end of the registry. */
  lemma RemovedNegative(cols: seq<ColumnConfig>, index: int)
    requires index < 0 && 0 <= |cols| + index
    ensures Removed(cols, index) == Removed(cols, |cols| + index)
  {
  }

  /** An in-range removal loses exactly the removed descriptor. */
  lemma RemovedMultiset(cols: seq<ColumnConfig>, i: int)
    requires 0 <= i < |cols|
    ensures multiset(Removed(cols, i)) + multiset{cols[i]} == multiset(cols)
  {
    RemovedSplits(cols, i);
    var before, after := cols[..i], cols[i + 1..];
    assert cols == before + [cols[i]] + after;
    calc {
      multiset(cols);
      multiset(before + [cols[i]]) + multiset(after);
      multiset(before) + multiset{cols[i]} + multiset(after);
      multiset(before + after) + multiset{cols[i]};
    }
  }

  /** Adding a column and removing the last one restores the registry. */
  lemma AddThenRemoveLast(cols: seq<ColumnConfig>)
    ensures Removed(Added(cols), |cols|) == cols
  {
    RemovedSplits(Added(cols), |cols|);
    assert Added(cols)[|cols| + 1..] == [];
  }

  // ---------------------------------------------------------------------
  // Edit

  /** The registry with field `f` of descriptor `i` set to `v`. */
  function Edited(cols: seq<ColumnConfig>, i: nat, f: Field, v: string): (r: seq<ColumnConfig>)
    requires i < |cols|
    ensures |r| == |cols|
    ensures FieldOf(r[i], f) == v
    ensures forall g :: g != f ==> FieldOf(r[i], g) == FieldOf(cols[i], g)
    ensures forall j :: 0 <= j < |cols| && j != i ==> r[j] == cols[j]
  {
    cols[i := SetField(cols[i], f, v)]
  }

  /** `handleColumnConfigChange(index, field, value)`: `newColumnConfig[index]`
      is `undefined` for an index outside the registry, and assigning a field
      of it throws. */
  function EditColumn(cols: seq<ColumnConfig>, index: int, f: Field, v: string): (r: Outcome<seq<ColumnConfig>>)
    ensures r.Ok? <==> 0 <= index < |cols|
    ensures r.Ok? ==> r.value == Edited(cols, index, f, v)
  {
    if 0 <= index < |cols| then Ok(Edited(cols, index, f, v)) else TypeError
  }

  /** Writing back the field's previous value undoes an edit. */
  lemma EditUndo(cols: seq<ColumnConfig>, i: nat, f: Field, v: string)
    requires i < |cols|
    ensures Edited(Edited(cols, i, f, v), i, f, FieldOf(cols[i], f)) == cols
  {
    var r := Edited(Edited(cols, i, f, v), i, f, FieldOf(cols[i], f));
    forall g ensures FieldOf(r[i], g) == FieldOf(cols[i], g) {
    }
    FieldsDetermine(r[i], cols[i]);
  }

  /** Repeating an edit changes nothing more. */
  lemma EditIdempotent(cols: seq<ColumnConfig>, i: nat, f: Field, v: string)
    requires i < |cols|
    ensures Edited(Edited(cols, i, f, v), i, f, v) == Edited(cols, i, f, v)
  {
    var once := Edited(cols, i, f, v);
    var twice := Edited(once, i, f, v);
    forall g ensures FieldOf(twice[i], g) == FieldOf(once[i], g) {
    }
    FieldsDetermine(twice[i], once[i]);
  }

  /** Edits of two different fields of a descriptor commute. */
  lemma EditsCommute(cols: seq<ColumnConfig>, i: nat, f: Field, v: string, g: Field, w: string)
    requires i < |cols| && f != g
    ensures Edited(Edited(cols, i, f, v), i, g, w) == Edited(Edited(cols, i, g, w), i, f, v)
  {
    var a := Edited(Edited(cols, i, f, v), i, g, w);
    var b := Edited(Edited(cols, i, g, w), i, f, v);
    forall h ensures FieldOf(a[i], h) == FieldOf(b[i], h) {
    }
    FieldsDetermine(a[i], b[i]);
  }
}
