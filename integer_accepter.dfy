/** A fixed-size repository for integers: an `Int` array written through a
    cursor. Restarting resets the cursor without clearing the array, so
    values from an earlier round stay readable past the new ones. */
module IntegerAccepters {
  import opened Wrappers
  import opened JavaInt

  /** What an `add` did: stored its value, or found the cursor outside the
      array, where the store throws `ArrayIndexOutOfBoundsException`. */
  datatype AddOutcome = Stored | OutOfBounds

  /** The array's contents and the cursor. */
  datatype AccepterState = AccepterState(values: seq<int>, index: int)

  /** One `add`. The cursor is post-incremented as the index expression is
      evaluated, before the store is attempted, so it also advances (as a
      wrapping `Int`) when the store throws. */
  function AddStep(s: AccepterState, v: int): (t: AccepterState)
    ensures |t.values| == |s.values|
    ensures 0 <= s.index < |s.values| ==> t.values[s.index] == v
    ensures forall i :: 0 <= i < |s.values| && i != s.index ==> t.values[i] == s.values[i]
    ensures IsInt(s.index) && s.index < INT_MAX ==> t.index == s.index + 1
  {
    var values := if 0 <= s.index < |s.values| then s.values[s.index := v] else s.values;
    AccepterState(values, WrapInt(s.index + 1))
  }

  /** A run of `add`s, first value first. */
  function AddAll(s: AccepterState, vs: seq<int>): (t: AccepterState)
    ensures |t.values| == |s.values|
    decreases |vs|
  {
    if |vs| == 0 then s else AddAll(AddStep(s, vs[0]), vs[1..])
  }

  /** Adding `vs` from cursor `k`, with room for all of them, writes them in
      order at k, k+1, ... and leaves every other slot as it was. */
  lemma {:induction false} AddAllFrom(values: seq<int>, k: nat, vs: seq<int>)
    requires k + |vs| <= |values| <= INT_MAX
    ensures AddAll(AccepterState(values, k), vs) == AccepterState(values[..k] + vs + values[k + |vs|..], k + |vs|)
    decreases |vs|
  {
    if |vs| > 0 {
      var next := AddStep(AccepterState(values, k), vs[0]);
      assert next == AccepterState(values[k := vs[0]], k + 1);
      AddAllFrom(values[k := vs[0]], k + 1, vs[1..]);
      assert values[k := vs[0]][..k + 1] + vs[1..] == values[..k] + vs;
      assert values[k := vs[0]][k + 1 + |vs[1..]|..] == values[k + |vs|..];
    }
  }

  /** After `init` and then `add(v0) ... add(vk-1)`, slot j holds vj for every
      j < k and the slots from k on keep their earlier contents. */
  lemma ReadBackAfterInit(s: AccepterState, vs: seq<int>)
    requires |vs| <= |s.values| <= INT_MAX
    ensures var t := AddAll(AccepterState(s.values, 0), vs);
      t.index == |vs| && t.values[..|vs|] == vs && t.values[|vs|..] == s.values[|vs|..]
  {
    AddAllFrom(s.values, 0, vs);
  }

  /** One add too many changes no slot, yet still moves the cursor. */
  lemma AddWhenFull(s: AccepterState, v: int)
    requires s.index == |s.values| < INT_MAX
    ensures AddStep(s, v) == AccepterState(s.values, s.index + 1)
  {
  }

  class IntegerAccepter {
    const values: array<int>
    var index: int

    function State(): AccepterState
      reads this, values
    {
      AccepterState(values[..], index)
    }

    /** `pSize` slots, all 0, with the cursor at 0. */
    constructor (size: int)
      requires 0 <= size <= INT_MAX
      ensures values.Length == size && fresh(values)
      ensures State() == AccepterState(seq(size, _ => 0), 0)
    {
      values := new int[size](_ => 0);
      index := 0;
    }

    /** `init`: back to the first slot; the stored values stay. */
    method Init()
      modifies this`index
      ensures State() == AccepterState(old(State()).values, 0)
    {
      index := 0;
    }

    method Add(v: int) returns (outcome: AddOutcome)
      modifies this`index, values
      ensures State() == AddStep(old(State()), v)
      ensures outcome == if 0 <= old(index) < values.Length then Stored else OutOfBounds
    {
      var i := index;
      index := WrapInt(index + 1);
      if 0 <= i < values.Length {
        values[i] := v;
        outcome := Stored;
      } else {
        outcome := OutOfBounds;
      }
    }

    /** `getValue`: the slot's content, or `None` where the read throws. */
    method GetValue(i: int) returns (r: Option<int>)
      ensures 0 <= i < values.Length <==> r.Some?
      ensures 0 <= i < values.Length ==> r.value == values[i]
    {
      if 0 <= i < values.Length {
        r := Some(values[i]);
      } else {
        r := None;
      }
    }

    /** `end`: nothing to finish; the contents and the cursor stay. */
    method End()
      ensures State() == old(State())
    {
    }

    /** `flush`: the same reset as `init`. */
    method Flush()
      modifies this`index
      ensures State() == AccepterState(old(State()).values, 0)
    {
      index := 0;
    }
  }
}
