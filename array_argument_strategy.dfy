/**
 * `ArrayArgumentStrategy`: a fixed-capacity buffer that collects the values of
 * one array-typed property and hands the array over once it is exactly full.
 */
module ArrayArgumentStrategy {
  import opened Wrappers
  import opened Reflection
  import opened Errors
  import opened Spi

  /** `Factory.supports`: the strategy serves array-typed properties only. */
  predicate FactorySupports(t: JClass)
  {
    t.ArrayOf?
  }

  /** What the strategy holds: the component class, the size it was created for, and the values added so far. */
  datatype Collected = Collected(componentType: JClass, targetSize: nat, values: seq<Value>)

  /**
   * `Factory.create(property, size)`. The buffer is `Object[]`, so a primitive
   * component class makes the cast fail.
   */
  function Start(componentType: JClass, size: nat): Result<Collected, Error>
  {
    if componentType.Primitive? then Err(ClassCast) else Ok(Collected(componentType, size, []))
  }

  /** `add(value)`. */
  function Append(s: Collected, v: Value): Result<Collected, Error>
  {
    if |s.values| >= s.targetSize then Err(Read(ArrayFull)) else Ok(s.(values := s.values + [v]))
  }

  /** `create()`. */
  function Finish(s: Collected): Result<Value, Error>
  {
    if |s.values| != s.targetSize then Err(Read(ArrayUnderfilled)) else Ok(Arr(ArrayOf(s.componentType), s.values))
  }

  /** A sequence of `add` calls, stopping at the first failure. */
  function AppendAll(s: Collected, vs: seq<Value>): Result<Collected, Error>
    decreases |vs|
  {
    if |vs| == 0 then Ok(s)
    else
      match Append(s, vs[0])
      case Err(e) => Err(e)
      case Ok(s') => AppendAll(s', vs[1..])
  }

  /**
   * Adding values to a strategy keeps them in insertion order and succeeds
   * exactly while they fit.
   */
  lemma {:induction false} AppendAllCollects(s: Collected, vs: seq<Value>)
    requires |s.values| <= s.targetSize
    ensures AppendAll(s, vs).Ok? <==> |s.values| + |vs| <= s.targetSize
    ensures AppendAll(s, vs).Ok? ==> AppendAll(s, vs).value == s.(values := s.values + vs)
    ensures AppendAll(s, vs).Err? ==> AppendAll(s, vs).error == Read(ArrayFull)
    decreases |vs|
  {
    if |vs| > 0 && |s.values| < s.targetSize {
      AppendAllCollects(s.(values := s.values + [vs[0]]), vs[1..]);
      assert s.values + [vs[0]] + vs[1..] == s.values + vs;
    } else if |vs| == 0 {
      assert s.values + vs == s.values;
    }
  }

  /**
   * The round trip of the strategy: an array created for `n` slots over a
   * reference component, filled with exactly `n` values, is handed over as
   * those values in order; fewer values make `create` fail and more make `add`
   * fail.
   */
  lemma RoundTrip(componentType: JClass, vs: seq<Value>, size: nat)
    requires !componentType.Primitive?
    ensures var s := Start(componentType, size).value;
            && (|vs| == size ==> AppendAll(s, vs).Ok? && Finish(AppendAll(s, vs).value) == Ok(Arr(ArrayOf(componentType), vs)))
            && (|vs| < size ==> AppendAll(s, vs).Ok? && Finish(AppendAll(s, vs).value) == Err(Read(ArrayUnderfilled)))
            && (|vs| > size ==> AppendAll(s, vs) == Err(Read(ArrayFull)))
  {
    AppendAllCollects(Start(componentType, size).value, vs);
    assert [] + vs == vs;
  }

  class ArrayArguments {
    /** The component class the buffer was allocated with (the property's intrinsic type). */
    const componentType: JClass
    const buffer: array<Value>
    const targetSize: nat
    var index: nat

    /** The fill counter never passes the buffer's length, which is the size it was created for. */
    ghost predicate Valid()
      reads this
    {
      buffer.Length == targetSize && index <= buffer.Length
    }

    /** The strategy's state: the values added so far, in insertion order. */
    function State(): Collected
      reads this, buffer
      requires Valid()
    {
      Collected(componentType, targetSize, buffer[..index])
    }

    /** The constructor: an empty buffer of `size` null slots. */
    constructor (componentType: JClass, size: nat)
      requires !componentType.Primitive?
      ensures Valid() && fresh(buffer)
      ensures buffer[..] == seq(size, _ => Null)
      ensures Start(componentType, size) == Ok(State())
    {
      this.componentType := componentType;
      buffer := new Value[size](_ => Null);
      targetSize := size;
      index := 0;
    }

    /**
     * Appends a value. When the buffer is full this is a read error that leaves
     * the buffer as it was; otherwise the value goes to the next slot and no
     * other slot changes.
     */
    method Add(value: Value) returns (failure: Option<Error>)
      requires Valid()
      modifies this, buffer
      ensures Valid()
      ensures failure.Some? <==> old(index) == buffer.Length
      ensures failure.Some? ==> Append(old(State()), value) == Err(failure.value) && State() == old(State())
      ensures failure.None? ==> Append(old(State()), value) == Ok(State())
      ensures failure.None? ==> buffer[..] == old(buffer[..])[old(index) := value]
    {
      if index >= buffer.Length {
        return Some(Read(ArrayFull));
      }
      ghost var before := buffer[..index];
      buffer[index] := value;
      index := index + 1;
      assert buffer[..index] == before + [value];
      failure := None;
    }

    /** Hands over the array, which must have been filled up to its size. Nothing changes. */
    method Create() returns (r: Result<Value, Error>)
      requires Valid()
      ensures r == Finish(State())
    {
      if index != targetSize {
        return Err(Read(ArrayUnderfilled));
      }
      assert buffer[..] == buffer[..index];
      r := Ok(Arr(ArrayOf(componentType), buffer[..]));
    }
  }

  /** `Factory.create(property, size)` with the property's intrinsic type as the component class. */
  method Create(componentType: JClass, size: nat) returns (r: Result<ArrayArguments, Error>)
    ensures r.Err? <==> Start(componentType, size).Err?
    ensures r.Err? ==> Start(componentType, size) == Err(r.error)
    ensures r.Ok? ==> fresh(r.value) && fresh(r.value.buffer) && r.value.Valid() && Start(componentType, size) == Ok(r.value.State())
  {
    if componentType.Primitive? {
      return Err(ClassCast);
    }
    var strategy := new ArrayArguments(componentType, size);
    r := Ok(strategy);
  }
}
