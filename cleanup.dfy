/**
 * The release and cleanup entry points of CNTKLibraryC.cpp. The structs they
 * clean belong to the caller and are changed in place: the owned buffers are
 * released and the size fields set to 0, while the pointer fields keep the
 * addresses just released. Releasing is observed through an allocator that
 * logs every non-null address handed to `delete` or `delete[]`.
 */
module Cleanup {
  import opened Header

  /** What releasing `p` adds to the log: nothing for the null pointer, which `delete` ignores. */
  function Released(p: Address): (r: seq<Address>)
  {
    if p == Null then [] else [p]
  }

  /** The single-release discipline: no address appears twice in the log. */
  ghost predicate SingleRelease(log: seq<Address>)
  {
    forall i, j :: 0 <= i < j < |log| ==> log[i] != log[j]
  }

  /**
   * Releasing keeps the discipline exactly when the address is null or was not
   * released before: a second release of the same buffer is a double free.
   */
  lemma ReleaseKeepsSingleRelease(log: seq<Address>, p: Address)
    ensures SingleRelease(log + Released(p)) <==> SingleRelease(log) && (p == Null || p !in log)
  {
    var after := log + Released(p);
    assert forall i :: 0 <= i < |log| ==> after[i] == log[i];
    if p != Null && p in log {
      var k :| 0 <= k < |log| && log[k] == p;
      assert after[k] == after[|log|];
    }
  }

  /** The C runtime's allocator, observed only through the log of what was released. */
  class Allocator {
    ghost var released: seq<Address>

    constructor ()
      ensures released == []
    {
      released := [];
    }

    /** `delete p` or `delete[] p`: a null pointer is ignored. */
    method Delete(p: Address)
      modifies this
      ensures released == old(released) + Released(p)
    {
      if p != Null {
        released := released + [p];
      }
    }
  }

  /** CNTK_Shape: a buffer of dimension sizes and their count. */
  class Shape {
    var value: Address
    var size: nat

    constructor (value: Address, size: nat)
      ensures this.value == value && this.size == size
    {
      this.value := value;
      this.size := size;
    }
  }

  /** CNTK_Value: a shape held by value, a data buffer and its element count. */
  class Value {
    const shape: Shape
    var data: Address
    var dataSize: nat

    constructor (dims: Address, rank: nat, data: Address, dataSize: nat)
      ensures fresh(shape) && shape.value == dims && shape.size == rank
      ensures this.data == data && this.dataSize == dataSize
    {
      shape := new Shape(dims, rank);
      this.data := data;
      this.dataSize := dataSize;
    }
  }

  /** CNTK_Variable: a name buffer and a shape held by value. */
  class Variable {
    var name: Address
    const shape: Shape

    constructor (name: Address, dims: Address, rank: nat)
      ensures fresh(shape) && shape.value == dims && shape.size == rank
      ensures this.name == name
    {
      this.name := name;
      shape := new Shape(dims, rank);
    }
  }

  /** CNTK_ReleaseModel: `delete` on the handle's address, with no check against the sentinel. */
  method ReleaseModel(model: Address, heap: Allocator)
    modifies heap
    ensures heap.released == old(heap.released) + Released(model)
  {
    heap.Delete(model);
  }

  /** CNTK_ReleaseArray: `delete[]` on an array the adapter handed out. */
  method ReleaseArray(buffer: Address, heap: Allocator)
    modifies heap
    ensures heap.released == old(heap.released) + Released(buffer)
  {
    heap.Delete(buffer);
  }

  /**
   * CNTK_CleanShape: nothing on a null shape; otherwise release the dimension
   * buffer and set the count to 0, leaving the released address in `value`.
   */
  method CleanShape(shape: Shape?, heap: Allocator)
    modifies shape, heap
    ensures shape != null ==> shape.size == 0 && shape.value == old(shape.value)
    ensures heap.released == old(heap.released) + if shape == null then [] else Released(old(shape.value))
  {
    if shape == null {
      return;
    }
    heap.Delete(shape.value);
    shape.size := 0;
  }

  /**
   * CNTK_CleanValue: nothing on a null value; otherwise release the data buffer,
   * set its count to 0, then clean the shape. `data` keeps the released address.
   */
  method CleanValue(value: Value?, heap: Allocator)
    modifies value, heap, if value == null then {} else {value.shape}
    ensures value != null ==> value.data == old(value.data) && value.dataSize == 0
    ensures value != null ==> value.shape.value == old(value.shape.value) && value.shape.size == 0
    ensures heap.released == old(heap.released) +
      if value == null then [] else Released(old(value.data)) + Released(old(value.shape.value))
  {
    if value == null {
      return;
    }
    heap.Delete(value.data);
    value.dataSize := 0;
    CleanShape(value.shape, heap);
  }

  /**
   * CNTK_CleanVariable: nothing on a null variable; otherwise release the name,
   * then clean the shape. Neither `name` nor the shape's `value` is reset.
   */
  method CleanVariable(variable: Variable?, heap: Allocator)
    modifies variable, heap, if variable == null then {} else {variable.shape}
    ensures variable != null ==> variable.name == old(variable.name)
    ensures variable != null ==> variable.shape.value == old(variable.shape.value) && variable.shape.size == 0
    ensures heap.released == old(heap.released) +
      if variable == null then [] else Released(old(variable.name)) + Released(old(variable.shape.value))
  {
    if variable == null {
      return;
    }
    heap.Delete(variable.name);
    CleanShape(variable.shape, heap);
  }

  /**
   * The double-free hazard: since cleaning leaves the released address in place,
   * cleaning the same shape twice releases its buffer twice.
   */
  method CleanShapeTwice(shape: Shape, heap: Allocator)
    requires shape.value != Null
    modifies shape, heap
    ensures heap.released == old(heap.released) + [shape.value, shape.value]
    ensures !SingleRelease(heap.released)
  {
    CleanShape(shape, heap);
    ghost var once := heap.released;
    CleanShape(shape, heap);
    ReleaseKeepsSingleRelease(once, shape.value);
  }

  /**
   * A variable with a name buffer and a two-dimension shape buffer, both fresh
   * and distinct, cleaned once: the name and then the dimension buffer are each
   * released exactly once.
   */
  method CleanVariableOnce(name: Address, dims: Address, heap: Allocator)
    requires name != Null && dims != Null && name != dims
    requires SingleRelease(heap.released) && name !in heap.released && dims !in heap.released
    modifies heap
    ensures heap.released == old(heap.released) + [name, dims]
    ensures SingleRelease(heap.released)
  {
    var variable := new Variable(name, dims, 2);
    CleanVariable(variable, heap);
    ReleaseKeepsSingleRelease(old(heap.released), name);
    ReleaseKeepsSingleRelease(old(heap.released) + [name], dims);
  }
}
