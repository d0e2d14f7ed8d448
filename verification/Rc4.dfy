/**
 The RC4 of `jsScript/webmssdk.js` (lines 5499-5517). The table is an array that is shuffled in place,
 first by the key and then once for every unit of data. With an empty key the script computes with NaN,
 and the element it then swaps is the array's property of that name.
 */
module Rc4 {
  import opened Bits
  import opened Options
  import opened Packing

  /** A number, or undefined or NaN, which behave alike here. */
  type Slot = Option<nat>

  /** The 256 elements and the property "NaN". */
  datatype Table = Table(cells: seq<Slot>, extra: Slot)

  predicate IsByte(x: Slot) {
    x.Some? ==> x.value < 256
  }

  predicate IsTable(t: Table) {
    |t.cells| == 256 && IsByte(t.extra) && forall i :: 0 <= i < 256 ==> IsByte(t.cells[i])
  }

  /** Every number below 256 occurs exactly once. */
  predicate IsPermutation(t: Table) {
    && IsTable(t) && t.extra.None?
    && (forall i :: 0 <= i < 256 ==> t.cells[i].Some?)
    && (forall i, j :: 0 <= i < j < 256 ==> t.cells[i] != t.cells[j])
  }

  function Plus(a: Slot, b: Slot): (r: Slot)
    ensures IsByte(r)
  {
    if a.Some? && b.Some? then Some((a.value + b.value) % 256) else None
  }

  function At(t: Table, j: Slot): (r: Slot)
    requires IsTable(t) && IsByte(j)
    ensures IsByte(r)
  {
    if j.Some? then t.cells[j.value] else t.extra
  }

  function Swapped(t: Table, i: nat, j: Slot): (r: Table)
    requires IsTable(t) && i < 256 && IsByte(j)
    ensures IsTable(r)
  {
    if j.Some? then t.(cells := t.cells[i := t.cells[j.value]][j.value := t.cells[i]])
    else Table(t.cells[i := t.extra], t.cells[i])
  }

  lemma SwapKeepsPermutation(t: Table, i: nat, j: nat)
    requires IsPermutation(t) && i < 256 && j < 256
    ensures IsPermutation(Swapped(t, i, Some(j)))
  {
  }

  // ----- the shuffles as functions

  datatype Cursor = Cursor(table: Table, i: nat, j: Slot) {
    predicate Valid() {
      IsTable(table) && i < 256 && IsByte(j)
    }

    /** What holds with a key that has at least one unit. */
    predicate Proper() {
      Valid() && j.Some? && IsPermutation(table)
    }
  }

  function Identity(): Table {
    Table(seq(256, i requires i >= 0 => Some(i)), None)
  }

  function KeyUnit(key: Text, n: nat): Slot {
    if key == [] then None else Some(key[n % |key|])
  }

  function ScheduleStep(c: Cursor, i: nat, unit: Slot): (r: Cursor)
    requires c.Valid() && i < 256
    ensures r.Valid() && (c.Proper() && unit.Some? ==> r.Proper())
  {
    var j := Plus(Plus(c.j, c.table.cells[i]), unit);
    if c.Proper() && unit.Some? then
      SwapKeepsPermutation(c.table, i, j.value);
      Cursor(Swapped(c.table, i, j), 0, j)
    else Cursor(Swapped(c.table, i, j), 0, j)
  }

  function GenerateStep(c: Cursor): (r: Cursor)
    requires c.Valid()
    ensures r.Valid() && (c.Proper() ==> r.Proper())
  {
    var i := (c.i + 1) % 256;
    var j := Plus(c.j, c.table.cells[i]);
    if c.Proper() then
      SwapKeepsPermutation(c.table, i, j.value);
      Cursor(Swapped(c.table, i, j), i, j)
    else Cursor(Swapped(c.table, i, j), i, j)
  }

  /** Table and `j` after the first `n` steps of the key schedule; unless the key is empty, the table stays
      a permutation. */
  function Scheduled(key: Text, n: nat): (c: Cursor)
    requires n <= 256
    ensures c.Valid() && (key != [] ==> c.Proper())
  {
    if n == 0 then Cursor(Identity(), 0, Some(0))
    else ScheduleStep(Scheduled(key, n - 1), n - 1, KeyUnit(key, n - 1))
  }

  /** The generator after `n` units of data; unless the key is empty, the table stays a permutation. */
  function Generated(key: Text, n: nat): (c: Cursor)
    ensures c.Valid() && (key != [] ==> c.Proper())
  {
    if n == 0 then Cursor(Scheduled(key, 256).table, 0, Some(0))
    else GenerateStep(Generated(key, n - 1))
  }

  /** The byte that unit `n` of the data is combined with. It depends on the key and `n` alone. */
  function KeyByte(key: Text, n: nat): (b: Slot)
    ensures IsByte(b)
  {
    var c := Generated(key, n + 1);
    At(c.table, Plus(c.table.cells[c.i], At(c.table, c.j)))
  }

  /** `c ^ b`, which takes anything but a number for zero. */
  function Masked(c: Unit, b: Slot): Unit {
    Xor(c, if b.Some? then b.value else 0) % 0x1_0000
  }

  function Applied(key: Text, data: Text): (r: Text)
    ensures |r| == |data|
  {
    seq(|data|, n requires 0 <= n < |data| => Masked(data[n], KeyByte(key, n)))
  }

  // ----- the in-place algorithm

  lemma ScheduleStart(key: Text)
    ensures Scheduled(key, 0) == Cursor(Identity(), 0, Some(0))
    ensures Generated(key, 0) == Cursor(Scheduled(key, 256).table, 0, Some(0))
  {
  }

  lemma ScheduleUnfolds(key: Text, n: nat)
    requires n < 256
    ensures var c := Scheduled(key, n);
            var j := Plus(Plus(c.j, c.table.cells[n]), KeyUnit(key, n));
            Scheduled(key, n + 1) == Cursor(Swapped(c.table, n, j), 0, j)
  {
    hide Swapped, Plus, IsTable, IsPermutation;
  }

  lemma GeneratorUnfolds(key: Text, n: nat)
    ensures var c := Generated(key, n);
            var i := (c.i + 1) % 256;
            var j := Plus(c.j, c.table.cells[i]);
            var t := Swapped(c.table, i, j);
            Generated(key, n + 1) == Cursor(t, i, j) && KeyByte(key, n) == At(t, Plus(t.cells[i], At(t, j)))
  {
    hide Swapped, Plus, IsTable, IsPermutation, At;
  }

  /** The array and its property. */
  class Sbox {
    var cells: array<Slot>
    var extra: Slot

    function View(): Table
      reads this, cells
    {
      Table(cells[..], extra)
    }

    constructor ()
      ensures fresh(cells) && View() == Identity()
    {
      cells := new Slot[256]((k: nat) => Some(k));
      extra := None;
      new;
      assert cells[..] == Identity().cells;
    }

    method Get(j: Slot) returns (x: Slot)
      requires IsTable(View()) && IsByte(j)
      ensures x == At(View(), j)
    {
      if j.Some? { return cells[j.value]; }
      return extra;
    }

    method Swap(i: nat, j: Slot)
      requires IsTable(View()) && i < 256 && IsByte(j)
      modifies this`extra, cells
      ensures View() == Swapped(old(View()), i, j)
    {
      var t := cells[i];
      if j.Some? {
        cells[i] := cells[j.value];
        cells[j.value] := t;
      } else {
        cells[i] := extra;
        extra := t;
      }
    }
  }

  method Apply(key: Text, data: Text) returns (r: Text)
    ensures r == Applied(key, data)
  {
    hide Masked, IsPermutation, Swapped, Scheduled, Generated, KeyByte, Plus, At;
    var s := new Sbox();
    ScheduleStart(key);
    var j: Slot := Some(0);
    for i := 0 to 256
      invariant fresh(s) && fresh(s.cells) && Cursor(s.View(), 0, j) == Scheduled(key, i)
    {
      ScheduleUnfolds(key, i);
      j := Plus(Plus(j, s.cells[i]), KeyUnit(key, i));
      s.Swap(i, j);
    }
    var i: nat := 0;
    j := Some(0);
    r := [];
    for n := 0 to |data|
      invariant fresh(s) && fresh(s.cells) && Cursor(s.View(), i, j) == Generated(key, n)
      invariant |r| == n && forall k :: 0 <= k < n ==> r[k] == Masked(data[k], KeyByte(key, k))
    {
      GeneratorUnfolds(key, n);
      i := (i + 1) % 256;
      j := Plus(j, s.cells[i]);
      s.Swap(i, j);
      var other := s.Get(j);
      var b := s.Get(Plus(s.cells[i], other));
      r := r + [Masked(data[n], b)];
    }
  }

  // ----- applying it twice

  lemma MaskCancels(c: Unit, b: Slot)
    requires IsByte(b)
    ensures Masked(Masked(c, b), b) == c
  {
    hide Xor;
    assert Pow2(16) == 0x1_0000 by { Powers(); }
    var x := if b.Some? then b.value else 0;
    XorBound(c, x, 16);
    XorCancels(c, x);
  }

  /** With the same key, even an empty one, RC4 is its own inverse on every string. */
  lemma ApplyIsInvolution(key: Text, data: Text)
    ensures Applied(key, Applied(key, data)) == data
  {
    forall n | 0 <= n < |data|
      ensures Masked(Masked(data[n], KeyByte(key, n)), KeyByte(key, n)) == data[n]
    {
      MaskCancels(data[n], KeyByte(key, n));
    }
  }
}
