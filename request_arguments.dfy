/**
 * The argument list of a request: a fixed-size array whose slots hold
 * RequestArgument objects (or nothing yet), built slot by slot or from a
 * PHP array, and flattened into a name => value query map.
 */
module Arguments {
  import opened Wrappers
  import opened Php
  import opened Argument

  /** What a PHP array handed to the list may hold at one key. */
  datatype Item = ArgumentItem(arg: RequestArgument) | OtherItem(value: PhpValue)

  /** Exceptions and errors the list raises. */
  datatype ArgumentsError =
    | InvalidArgument     // \InvalidArgumentException: the value is not a RequestArgument
    | IndexOutOfRange     // SplFixedArray's RuntimeException: index outside [0, size)
    | MemberCallOnNull    // PHP Error: getName() called on an empty slot

  /** A PHP array as the list receives it: its (integer) keys with their values, in iteration order. */
  type PhpArray = seq<(int, Item)>

  /** PHP array keys are unique. */
  ghost predicate DistinctKeys(data: PhpArray) {
    forall i, j :: 0 <= i < j < |data| ==> data[i].0 != data[j].0
  }

  ghost predicate AllArguments(data: PhpArray) {
    forall i :: 0 <= i < |data| ==> data[i].1.ArgumentItem?
  }

  /** `max(array_keys($data))`. */
  function MaxKey(data: PhpArray): (m: int)
    requires |data| > 0
    ensures forall i :: 0 <= i < |data| ==> data[i].0 <= m
    ensures exists i :: 0 <= i < |data| && data[i].0 == m
  {
    if |data| == 1 then data[0].0
    else
      var rest := MaxKey(data[1..]);
      assert forall i :: 1 <= i < |data| ==> data[i] == data[1..][i - 1];
      if data[0].0 >= rest then data[0].0 else rest
  }

  /** `min(array_keys($data))`, the bound the corrected guard adds. */
  function MinKey(data: PhpArray): (m: int)
    requires |data| > 0
    ensures forall i :: 0 <= i < |data| ==> m <= data[i].0
    ensures exists i :: 0 <= i < |data| && data[i].0 == m
  {
    if |data| == 1 then data[0].0
    else
      var rest := MinKey(data[1..]);
      assert forall i :: 1 <= i < |data| ==> data[i] == data[1..][i - 1];
      if data[0].0 <= rest then data[0].0 else rest
  }

  /** Every key is a valid slot of a list of |data| slots. */
  ghost predicate KeysFit(data: PhpArray) {
    forall i :: 0 <= i < |data| ==> 0 <= data[i].0 < |data|
  }

  /** The guard as written: keep the keys when asked to and the largest key is below the count. */
  function KeepIndexesAsWritten(data: PhpArray, saveIndexes: bool): (keep: bool)
    requires |data| > 0
    ensures keep <==> saveIndexes && forall i :: 0 <= i < |data| ==> data[i].0 < |data|
  {
    saveIndexes && MaxKey(data) < |data|
  }

  /** The corrected guard: the smallest key must not be negative either. */
  predicate KeepIndexes(data: PhpArray, saveIndexes: bool)
    requires |data| > 0
  {
    saveIndexes && MaxKey(data) < |data| && MinKey(data) >= 0
  }

  /** The corrected guard keeps the keys exactly when asked to and every key fits a slot. */
  lemma KeepIndexesExactlyWhenKeysFit(data: PhpArray, saveIndexes: bool)
    requires |data| > 0
    ensures KeepIndexes(data, saveIndexes) <==> saveIndexes && KeysFit(data)
  {
    if saveIndexes && KeysFit(data) {
      var i :| 0 <= i < |data| && data[i].0 == MaxKey(data);
      var j :| 0 <= j < |data| && data[j].0 == MinKey(data);
    }
  }

  /** The slot the entry at position i of the iteration goes to. */
  function Position(data: PhpArray, keep: bool, i: nat): int
    requires i < |data|
  {
    if keep then data[i].0 else i
  }

  /**
   * The foreach of fromArray from position i on, over the slots filled so
   * far: stop at the first value that is not a RequestArgument, otherwise
   * store it through offsetSet at its own key (keep) or at its position.
   */
  function Fill(data: PhpArray, keep: bool, i: nat, slots: seq<RequestArgument?>)
    : Result<seq<RequestArgument?>, ArgumentsError>
    requires i <= |data|
    decreases |data| - i
  {
    if i == |data| then Success(slots)
    else if data[i].1.OtherItem? then Failure(InvalidArgument)
    else
      var pos := Position(data, keep, i);
      if 0 <= pos < |slots| then Fill(data, keep, i + 1, slots[pos := data[i].1.arg])
      else Failure(IndexOutOfRange)
  }

  function EmptySlots(n: nat): (s: seq<RequestArgument?>)
    ensures |s| == n && forall i :: 0 <= i < n ==> s[i] == null
  {
    seq(n, _ => null)
  }

  /**
   * fromArray as written: the slots of the built list, or the exception
   * raised. It agrees with the corrected guard whenever the guard as
   * written does not keep the keys or no key is negative.
   */
  function FromArrayAsWrittenSpec(data: PhpArray, saveIndexes: bool): (r: Result<seq<RequestArgument?>, ArgumentsError>)
    ensures |data| == 0 || !KeepIndexesAsWritten(data, saveIndexes) || MinKey(data) >= 0 ==> r == FromArraySpec(data, saveIndexes)
  {
    if |data| == 0 then Success([])
    else Fill(data, KeepIndexesAsWritten(data, saveIndexes), 0, EmptySlots(|data|))
  }

  /** fromArray with the corrected guard: the slots of the built list, or the exception raised. */
  function FromArraySpec(data: PhpArray, saveIndexes: bool): Result<seq<RequestArgument?>, ArgumentsError> {
    if |data| == 0 then Success([])
    else Fill(data, KeepIndexes(data, saveIndexes), 0, EmptySlots(|data|))
  }

  /** Every position from i on is a slot of a list of n slots. */
  ghost predicate PositionsFit(data: PhpArray, keep: bool, i: nat, n: nat)
    requires i <= |data|
  {
    forall j :: i <= j < |data| ==> 0 <= Position(data, keep, j) < n
  }

  /** ... and no two of them coincide. */
  ghost predicate PositionsDistinct(data: PhpArray, keep: bool, i: nat)
    requires i <= |data|
  {
    forall j, k :: i <= j < k < |data| ==> Position(data, keep, j) != Position(data, keep, k)
  }

  /** No entry from i on goes to slot p. */
  ghost predicate Untouched(data: PhpArray, keep: bool, i: nat, p: int)
    requires i <= |data|
  {
    forall j :: i <= j < |data| ==> Position(data, keep, j) != p
  }

  /** When every position is a slot, Fill fails exactly on a non-argument, with InvalidArgument. */
  lemma {:induction false} FillFails(data: PhpArray, keep: bool, i: nat, slots: seq<RequestArgument?>)
    requires i <= |data|
    requires PositionsFit(data, keep, i, |slots|)
    ensures Fill(data, keep, i, slots).Failure? <==> exists j :: i <= j < |data| && data[j].1.OtherItem?
    ensures Fill(data, keep, i, slots).Failure? ==> Fill(data, keep, i, slots).error == InvalidArgument
    decreases |data| - i
  {
    if i < |data| && data[i].1.ArgumentItem? {
      var next := slots[Position(data, keep, i) := data[i].1.arg];
      FillFails(data, keep, i + 1, next);
      assert Fill(data, keep, i, slots) == Fill(data, keep, i + 1, next);
      if exists j :: i <= j < |data| && data[j].1.OtherItem? {
        var j :| i <= j < |data| && data[j].1.OtherItem?;
        assert j != i;
      }
    }
  }

  /**
   * When every value is an argument and the positions are distinct slots,
   * each argument ends up at its position and every other slot keeps its
   * content.
   */
  lemma {:induction false} FillStores(data: PhpArray, keep: bool, i: nat, slots: seq<RequestArgument?>)
    requires i <= |data|
    requires forall j :: i <= j < |data| ==> data[j].1.ArgumentItem?
    requires PositionsFit(data, keep, i, |slots|) && PositionsDistinct(data, keep, i)
    ensures Fill(data, keep, i, slots).Success?
    ensures |Fill(data, keep, i, slots).value| == |slots|
    ensures forall j :: i <= j < |data| ==> Fill(data, keep, i, slots).value[Position(data, keep, j)] == data[j].1.arg
    ensures forall p :: 0 <= p < |slots| && Untouched(data, keep, i, p) ==> Fill(data, keep, i, slots).value[p] == slots[p]
    decreases |data| - i
  {
    if i < |data| {
      var pos := Position(data, keep, i);
      var next := slots[pos := data[i].1.arg];
      FillStores(data, keep, i + 1, next);
      assert Fill(data, keep, i, slots) == Fill(data, keep, i + 1, next);
      var r := Fill(data, keep, i + 1, next).value;
      assert Untouched(data, keep, i + 1, pos);
      assert r[pos] == data[i].1.arg;
      forall p | 0 <= p < |slots| && Untouched(data, keep, i, p)
        ensures r[p] == slots[p]
      {
        assert Untouched(data, keep, i + 1, p);
        assert p != pos;
      }
    }
  }

  /** When all values are arguments, Fill fails with IndexOutOfRange as soon as some later position is not a slot. */
  lemma {:induction false} FillOutOfRange(data: PhpArray, keep: bool, i: nat, slots: seq<RequestArgument?>, j: nat)
    requires i <= j < |data|
    requires forall k :: i <= k < |data| ==> data[k].1.ArgumentItem?
    requires !(0 <= Position(data, keep, j) < |slots|)
    ensures Fill(data, keep, i, slots) == Failure(IndexOutOfRange)
    decreases |data| - i
  {
    var pos := Position(data, keep, i);
    if i < j && 0 <= pos < |slots| {
      FillOutOfRange(data, keep, i + 1, slots[pos := data[i].1.arg], j);
    }
  }

  /**
   * fromArray as written, on arguments only: when the keys are asked for,
   * every key is below the count and some key is negative, the keys are kept
   * and the store at the negative key raises the fixed array's
   * RuntimeException.
   */
  lemma FromArrayAsWrittenRaisesOnNegativeKey(data: PhpArray, saveIndexes: bool)
    requires AllArguments(data) && |data| > 0
    requires KeepIndexesAsWritten(data, saveIndexes) && MinKey(data) < 0
    ensures FromArrayAsWrittenSpec(data, saveIndexes) == Failure(IndexOutOfRange)
  {
    var j :| 0 <= j < |data| && data[j].0 == MinKey(data);
    FillOutOfRange(data, true, 0, EmptySlots(|data|), j);
  }

  /** fromArray([]) builds the empty list. */
  lemma FromArrayEmpty(saveIndexes: bool)
    ensures FromArraySpec([], saveIndexes) == Success([])
  {
  }

  /**
   * fromArray raises InvalidArgumentException exactly when some value is not
   * a RequestArgument; otherwise the list has one slot per input entry.
   */
  lemma FromArrayOutcome(data: PhpArray, saveIndexes: bool)
    requires DistinctKeys(data)
    ensures FromArraySpec(data, saveIndexes).Failure? <==> !AllArguments(data)
    ensures FromArraySpec(data, saveIndexes).Failure? ==> FromArraySpec(data, saveIndexes).error == InvalidArgument
    ensures FromArraySpec(data, saveIndexes).Success? ==> |FromArraySpec(data, saveIndexes).value| == |data|
  {
    if |data| > 0 {
      var keep := KeepIndexes(data, saveIndexes);
      KeepIndexesExactlyWhenKeysFit(data, saveIndexes);
      FillFails(data, keep, 0, EmptySlots(|data|));
      if AllArguments(data) {
        FillStores(data, keep, 0, EmptySlots(|data|));
      }
    }
  }

  /** When the (corrected) guard keeps the keys, every argument lands at its own key. */
  lemma FromArrayKeepsKeys(data: PhpArray, saveIndexes: bool)
    requires DistinctKeys(data) && AllArguments(data) && |data| > 0
    requires KeepIndexes(data, saveIndexes)
    ensures FromArraySpec(data, saveIndexes).Success? && |FromArraySpec(data, saveIndexes).value| == |data|
    ensures forall i :: 0 <= i < |data| ==> FromArraySpec(data, saveIndexes).value[data[i].0] == data[i].1.arg
  {
    KeepIndexesExactlyWhenKeysFit(data, saveIndexes);
    FillStores(data, true, 0, EmptySlots(|data|));
  }

  /** Otherwise the arguments are stored at 0, 1, 2, ... in iteration order. */
  lemma FromArrayReindexes(data: PhpArray, saveIndexes: bool)
    requires AllArguments(data) && |data| > 0
    requires !KeepIndexes(data, saveIndexes)
    ensures FromArraySpec(data, saveIndexes).Success? && |FromArraySpec(data, saveIndexes).value| == |data|
    ensures forall i :: 0 <= i < |data| ==> FromArraySpec(data, saveIndexes).value[i] == data[i].1.arg
  {
    FillStores(data, false, 0, EmptySlots(|data|));
  }

  /**
   * The guard as written lets a negative key through: with keys -1 and 0 the
   * largest key is below the count, so the first argument is stored at slot
   * -1 and SplFixedArray raises; the corrected guard re-indexes instead.
   */
  lemma NegativeKeyPassesAsWrittenGuard(a: RequestArgument, b: RequestArgument)
    ensures FromArrayAsWrittenSpec([(-1, ArgumentItem(a)), (0, ArgumentItem(b))], true) == Failure(IndexOutOfRange)
    ensures FromArraySpec([(-1, ArgumentItem(a)), (0, ArgumentItem(b))], true) == Success([a, b])
  {
    var data: PhpArray := [(-1, ArgumentItem(a)), (0, ArgumentItem(b))];
    assert MaxKey(data) == 0 && MinKey(data) == -1;
    assert KeepIndexesAsWritten(data, true) && !KeepIndexes(data, true);
    var none := EmptySlots(2);
    assert Fill(data, true, 0, none) == Failure(IndexOutOfRange);
    assert Fill(data, false, 2, none[0 := a][1 := b]) == Success(none[0 := a][1 := b]);
    assert Fill(data, false, 1, none[0 := a]) == Success(none[0 := a][1 := b]);
    var ab: seq<RequestArgument?> := [a, b];
    assert none[0 := a][1 := b] == ab;
  }

  /**
   * toArray's loop: argument names mapped to values, a later duplicate name
   * overwriting an earlier one; an empty slot makes getName() fail.
   */
  function Flatten(items: seq<RequestArgument?>): Result<map<string, PhpValue>, ArgumentsError>
    reads items
    decreases |items|
  {
    if |items| == 0 then Success(map[])
    else
      match Flatten(items[..|items| - 1])
      case Failure(e) => Failure(e)
      case Success(m) =>
        var last := items[|items| - 1];
        if last == null then Failure(MemberCallOnNull)
        else Success(m[last.GetName() := last.GetValue()])
  }

  /** The names of the arguments in the slots. */
  ghost function Names(items: seq<RequestArgument?>): set<string>
    reads items
  {
    set i | 0 <= i < |items| && items[i] != null :: items[i].GetName()
  }

  /** Flattening fails exactly when some slot is empty. */
  lemma {:induction false} FlattenFailsOnEmptySlot(items: seq<RequestArgument?>)
    ensures Flatten(items).Failure? <==> null in items
    ensures Flatten(items).Failure? ==> Flatten(items).error == MemberCallOnNull
    decreases |items|
  {
    if |items| > 0 {
      var init := items[..|items| - 1];
      FlattenFailsOnEmptySlot(init);
      assert items == init + [items[|items| - 1]];
    }
  }

  /** The flattened map has exactly the argument names as keys. */
  lemma {:induction false} FlattenKeys(items: seq<RequestArgument?>)
    requires null !in items
    ensures Flatten(items).Success?
    ensures Flatten(items).value.Keys == Names(items)
    decreases |items|
  {
    if |items| > 0 {
      var n := |items| - 1;
      var init := items[..n];
      FlattenKeys(init);
      var last := items[n];
      assert Flatten(items).value.Keys == Flatten(init).value.Keys + {last.GetName()};
      assert Names(items) == Names(init) + {last.GetName()} by {
        forall x | x in Names(items) ensures x in Names(init) + {last.GetName()} {
          var i :| 0 <= i < |items| && items[i] != null && items[i].GetName() == x;
          if i < n { assert init[i] == items[i]; }
        }
        forall x | x in Names(init) ensures x in Names(items) {
          var i :| 0 <= i < |init| && init[i] != null && init[i].GetName() == x;
          assert items[i] == init[i];
        }
      }
    }
  }

  /** The argument at position i is the last one carrying its name. */
  ghost predicate LastWithName(items: seq<RequestArgument?>, i: int)
    requires null !in items && 0 <= i < |items|
    reads items
  {
    forall j :: i < j < |items| ==> items[j].GetName() != items[i].GetName()
  }

  /** Each name maps to the value of the LAST argument carrying it. */
  lemma {:induction false} FlattenLastWins(items: seq<RequestArgument?>)
    requires null !in items
    ensures Flatten(items).Success?
    ensures forall i :: 0 <= i < |items| && LastWithName(items, i)
              ==> items[i].GetName() in Flatten(items).value && Flatten(items).value[items[i].GetName()] == items[i].GetValue()
    decreases |items|
  {
    if |items| > 0 {
      var n := |items| - 1;
      var init := items[..n];
      FlattenLastWins(init);
      var m := Flatten(init).value;
      var last := items[n];
      assert Flatten(items).value == m[last.GetName() := last.GetValue()];
      forall i | 0 <= i < |items| && LastWithName(items, i)
        ensures items[i].GetName() in Flatten(items).value && Flatten(items).value[items[i].GetName()] == items[i].GetValue()
      {
        if i < n {
          assert init[i] == items[i];
          assert items[i].GetName() != last.GetName();
          assert LastWithName(init, i) by {
            forall j | i < j < |init| ensures init[j].GetName() != init[i].GetName() {
              assert init[j] == items[j];
            }
          }
        }
      }
    }
  }

  /** toArray over the slots [0, 1, 2] of distinct names yields each name with its own value. */
  lemma FlattenDistinctNames(a: RequestArgument, b: RequestArgument, c: RequestArgument)
    requires a.GetName() != b.GetName() && b.GetName() != c.GetName() && a.GetName() != c.GetName()
    ensures Flatten([a, b, c]) == Success(map[a.GetName() := a.GetValue(), b.GetName() := b.GetValue(), c.GetName() := c.GetValue()])
  {
    assert [a, b, c][..2] == [a, b];
    assert [a, b][..1] == [a];
    assert [a][..0] == [];
    assert Flatten([a]) == Success(map[a.GetName() := a.GetValue()]);
    assert Flatten([a, b]) == Success(map[a.GetName() := a.GetValue(), b.GetName() := b.GetValue()]);
  }

  class RequestArguments {
    /** The fixed-size storage (SplFixedArray); an unset slot holds null. */
    const slots: array<RequestArgument?>

    /** `new RequestArguments($size)`: size empty slots. */
    constructor (size: nat)
      ensures fresh(slots) && slots.Length == size
      ensures forall i :: 0 <= i < size ==> slots[i] == null
    {
      slots := new RequestArgument?[size](_ => null);
    }

    /** count(): the size fixed at construction. */
    function Count(): nat {
      slots.Length
    }

    /**
     * `$list[$index] = $newval`: refuses anything but a RequestArgument, then
     * stores it if the index is a slot; on failure nothing is stored.
     */
    method OffsetSet(index: int, newval: Item) returns (r: Outcome<ArgumentsError>)
      modifies slots
      ensures newval.OtherItem? ==> r == Fail(InvalidArgument)
      ensures newval.ArgumentItem? && !(0 <= index < slots.Length) ==> r == Fail(IndexOutOfRange)
      ensures r.Fail? ==> slots[..] == old(slots[..])
      ensures r.Pass? <==> newval.ArgumentItem? && 0 <= index < slots.Length
      ensures r.Pass? ==> slots[..] == old(slots[..])[index := newval.arg]
    {
      if newval.OtherItem? {
        return Fail(InvalidArgument);
      }
      if !(0 <= index < slots.Length) {
        return Fail(IndexOutOfRange);
      }
      slots[index] := newval.arg;
      r := Pass;
    }

    /**
     * fromArray (with the corrected guard): one slot per entry, filled in
     * iteration order through offsetSet, either at the entries' own keys or
     * at 0, 1, 2, ...
     */
    static method FromArray(data: PhpArray, saveIndexes: bool := true) returns (r: Result<RequestArguments, ArgumentsError>)
      ensures r.Success? ==> fresh(r.value) && fresh(r.value.slots)
      ensures r.Success? <==> FromArraySpec(data, saveIndexes).Success?
      ensures r.Failure? ==> r.error == FromArraySpec(data, saveIndexes).error
      ensures r.Success? ==> r.value.slots[..] == FromArraySpec(data, saveIndexes).value
      ensures r.Success? ==> r.value.Count() == |data|
    {
      var dataLength := |data|;
      if dataLength == 0 {
        var empty := new RequestArguments(0);
        assert empty.slots[..] == [];
        return Success(empty);
      }
      var keep := saveIndexes;
      if keep {
        var maxIndexKey := MaxKey(data);
        var minIndexKey := MinKey(data);
        if maxIndexKey >= dataLength || minIndexKey < 0 {
          keep := false;
        }
      }
      assert keep == KeepIndexes(data, saveIndexes);
      var instance := new RequestArguments(dataLength);
      assert instance.slots[..] == EmptySlots(dataLength);
      var index := 0;
      while index < dataLength
        invariant 0 <= index <= dataLength
        invariant Fill(data, keep, index, instance.slots[..]) == FromArraySpec(data, saveIndexes)
      {
        var (dataIndex, value) := data[index];
        if value.OtherItem? {
          return Failure(InvalidArgument);
        }
        var arrayIndex := index;
        if keep {
          arrayIndex := dataIndex;
        }
        // every position is a slot once the corrected guard has chosen
        var placed := instance.OffsetSet(arrayIndex, value);
        assert placed.Pass?;
        index := index + 1;
      }
      return Success(instance);
    }

    /** toArray: the query map, name => value, last duplicate winning. */
    method ToArray() returns (r: Result<map<string, PhpValue>, ArgumentsError>)
      ensures r == Flatten(slots[..])
    {
      var arr: map<string, PhpValue> := map[];
      var i := 0;
      while i < slots.Length
        invariant 0 <= i <= slots.Length
        invariant Flatten(slots[..i]) == Success(arr)
      {
        var item := slots[i];
        if item == null {
          FlattenFailsOnEmptySlot(slots[..]);
          return Failure(MemberCallOnNull);
        }
        assert slots[..i + 1][..i] == slots[..i];
        arr := arr[item.GetName() := item.GetValue()];
        i := i + 1;
      }
      assert slots[..] == slots[..slots.Length];
      r := Success(arr);
    }
  }
}
