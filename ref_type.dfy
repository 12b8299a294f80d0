/** RefType<T>: a mutable box around a null-able value, with null-aware equality. */
module RefTypes {
  import opened Common

  /**
   * `None` stands for a null `Value`. `T` is taken to be a reference type, so `default(T)` is null.
   */
  class RefType<T(==)> {
    var value: Option<T>

    /** `RefType(T value)`. */
    constructor(value: Option<T>)
      ensures this.value == value
    {
      this.value := value;
    }

    /** `RefType()`: `Value` keeps its default. */
    constructor Empty()
      ensures value.None?
    {
      value := None;
    }

    /** The `Value` setter. */
    method SetValue(v: Option<T>)
      modifies this
      ensures value == v
    {
      value := v;
    }

    /** A null box or a box holding null, the case `operator ==` treats alike. */
    static predicate IsNullish(x: RefType?<T>)
      reads x
    {
      x == null || x.value.None?
    }

    /** The implicit conversion to `T`: `default(T)` for a null box, `Value` otherwise. */
    static function Unwrap(b: RefType?<T>): (r: Option<T>)
      reads b
      ensures r.None? <==> IsNullish(b)
      ensures b != null ==> r == b.value
    {
      if b == null then None else b.value
    }

    /** The implicit conversion from `T`: a new box. */
    static method Wrap(v: Option<T>) returns (b: RefType<T>)
      ensures fresh(b)
      ensures Unwrap(b) == v
    {
      b := new RefType(v);
    }

    /**
     * `Equals(object)`: false for null or another type; otherwise `Value.Equals(other.Value)`,
     * which throws when this box holds null.
     */
    function Equals(obj: Obj<RefType<T>>): (r: Result<bool, Error>)
      reads this, if obj.Inst? then {obj.value} else {}
      ensures !obj.Inst? ==> r == Success(false)
      ensures obj.Inst? && value.None? ==> r == Failure(NullReference)
      ensures obj.Inst? && value.Some? ==> r == Success(Unwrap(obj.value) == value)
    {
      match obj
      case NullRef => Success(false)
      case Foreign => Success(false)
      case Inst(b) => if value.None? then Failure(NullReference) else Success(value == b.value)
    }

    /** `operator ==`: two nullish boxes are equal, a nullish box never equals another, else `a.Equals(b)`. */
    static function Eq(a: RefType?<T>, b: RefType?<T>): (r: bool)
      reads a, b
      ensures r <==> Unwrap(a) == Unwrap(b)
    {
      if IsNullish(a) then IsNullish(b)
      else
        var e := a.Equals(if b == null then NullRef else Inst(b));
        e.Success? && e.value
    }

    /** `operator !=`. */
    static function NotEq(a: RefType?<T>, b: RefType?<T>): (r: bool)
      reads a, b
      ensures r <==> !Eq(a, b)
    {
      !Eq(a, b)
    }

    /** `GetHashCode()`: the value's hash; throws when the box holds null. */
    function HashCode(hash: T -> int): (r: Result<int, Error>)
      reads this
      ensures r.Failure? <==> value.None?
      ensures r.Failure? ==> r.error == NullReference
      ensures r.Success? ==> r.value == hash(value.value)
    {
      if value.None? then Failure(NullReference) else Success(hash(value.value))
    }
  }

  /** Wrapping a value and converting the box back gives the value. */
  method WrapUnwrap<T(==)>(v: Option<T>) returns (w: Option<T>)
    ensures w == v
  {
    var b := RefType.Wrap(v);
    w := RefType.Unwrap(b);
  }

  /** `operator ==` over the four combinations of nullish and non-nullish operands. */
  lemma EqualityCases<T>(a: RefType?<T>, b: RefType?<T>)
    ensures RefType.IsNullish(a) && RefType.IsNullish(b) ==> RefType.Eq(a, b)
    ensures RefType.IsNullish(a) != RefType.IsNullish(b) ==> !RefType.Eq(a, b) && !RefType.Eq(b, a)
    ensures !RefType.IsNullish(a) && !RefType.IsNullish(b) ==> (RefType.Eq(a, b) <==> a.value == b.value)
    ensures RefType.Eq(a, b) == RefType.Eq(b, a)
  {
  }

  /** Boxes that `Equals` calls equal have equal hash codes. */
  lemma EqualBoxesHashEqually<T>(a: RefType<T>, b: RefType<T>, hash: T -> int)
    requires a.Equals(Inst(b)) == Success(true)
    ensures a.HashCode(hash).Success? && a.HashCode(hash) == b.HashCode(hash)
  {
  }
}
