/** The owning byte buffer. A block of memory is an array; owning it means holding
    the only reference to it. */
module Buffer {
  import opened Common

  class Cbuffer {
    var data: array?<char>
    var length: nat
    var maxLength: nat

    ghost predicate Valid()
      reads this
    {
      && length <= maxLength
      && (data == null <==> maxLength == 0)
      && (data != null ==> data.Length == maxLength)
    }

    /** The bytes between the start and the length. */
    ghost function Contents(): (s: string)
      reads this, data
      requires Valid()
      ensures |s| == length
    {
      if data == null then "" else data[..length]
    }

    constructor ()
      ensures Valid() && data == null && length == 0
    {
      data, length, maxLength := null, 0, 0;
    }

    /** A buffer with a block of its own, for which there is memory. */
    constructor Holding(source: array<char>, n: nat)
      requires n <= source.Length
      ensures Valid() && Contents() == source[..n] && length == n && maxLength == n
      ensures data != null ==> fresh(data)
    {
      length, maxLength := n, n;
      if n == 0 {
        data := null;
      } else {
        data := new char[n](i requires 0 <= i < n reads source => source[i]);
      }
    }

    /** Construction from bytes. `memory` is whether the allocator has a block; if not,
        construction throws, for which null stands here. */
    static method FromBytes(source: array<char>, n: nat, memory: bool) returns (made: Cbuffer?)
      requires n <= source.Length
      ensures made == null <==> n > 0 && !memory
      ensures made != null ==>
        && fresh(made) && made.Valid() && made.Contents() == source[..n] && made.maxLength == n
        && (made.data != null ==> fresh(made.data))
    {
      if n > 0 && !memory {
        return null;
      }
      made := new Cbuffer.Holding(source, n);
    }

    /** The copy constructor allocates what is in use, not what is reserved. */
    static method Copy(another: Cbuffer, memory: bool) returns (made: Cbuffer?)
      requires another.Valid()
      ensures made == null <==> another.length > 0 && !memory
      ensures made != null ==>
        && fresh(made) && made.Valid() && made.Contents() == another.Contents() && made.maxLength == another.length
        && (made.data != null ==> fresh(made.data))
    {
      if another.length == 0 {
        made := new Cbuffer();
      } else {
        made := FromBytes(another.data, another.length, memory);
      }
    }

    /** The move constructor takes the block over. */
    constructor Move(another: Cbuffer)
      requires another.Valid()
      modifies another
      ensures Valid() && another.Valid()
      ensures data == old(another.data) && length == old(another.length) && maxLength == old(another.maxLength)
      ensures another.data == null && another.length == 0
    {
      data, length, maxLength := another.data, another.length, another.maxLength;
      new;
      another.data, another.length, another.maxLength := null, 0, 0;
    }

    /** `set`, and copy assignment from another buffer's block: reuse the block when
        it is large enough, otherwise free it and allocate another one. If that throws,
        the buffer has no block and still its old lengths. */
    method Set(source: array?<char>, n: nat, memory: bool) returns (thrown: bool)
      requires Valid() && (n > 0 ==> source != null && n <= source.Length)
      modifies this, data
      ensures thrown <==> n > old(maxLength) && !memory
      ensures thrown ==> data == null && length == old(length) && maxLength == old(maxLength)
      ensures !thrown ==> Valid() && length == n && maxLength == (if n <= old(maxLength) then old(maxLength) else n)
      ensures !thrown ==> Contents() == if n == 0 then "" else old(source[..n])
      ensures data == null || data == old(data) || fresh(data)
    {
      thrown := false;
      if n <= maxLength {
        if n > 0 {
          if source != data {
            forall i | 0 <= i < n { data[i] := source[i]; }
          }
        }
        length := n;
      } else {
        data := null;
        if !memory {
          return true;
        }
        data := new char[n](i requires source != null && 0 <= i < n <= source.Length reads source => source[i]);
        length, maxLength := n, n;
      }
      if data != null && n > 0 {
        assert data[..n] == old(source[..n]);
      }
    }

    /** Move assignment takes the block over, whatever this buffer held before; moved
        to itself a buffer ends up empty. */
    method MoveFrom(another: Cbuffer)
      requires Valid() && another.Valid()
      modifies this, another
      ensures Valid() && another.Valid()
      ensures another != this ==>
        data == old(another.data) && length == old(another.length) && maxLength == old(another.maxLength)
      ensures another.data == null && another.length == 0
    {
      // The block held before is freed.
      data := null;
      data, length, maxLength := another.data, another.length, another.maxLength;
      another.data, another.length, another.maxLength := null, 0, 0;
    }

    /** Hands the block to a libuv buffer descriptor and gives it up. */
    method Transfer() returns (base: array?<char>, n: nat)
      requires Valid()
      modifies this
      ensures Valid() && data == null && length == 0
      ensures base == old(data) && n == old(length)
    {
      base, n := data, length;
      data, length, maxLength := null, 0, 0;
    }

    /** Changes the length; the first `validLength` bytes survive, as far as there
        were that many and as far as they still fit. If the allocation throws, nothing
        has changed when there was something to copy, and otherwise the block is gone
        and the lengths are not. */
    method Resize(preferLength: nat, validLength: nat, memory: bool) returns (thrown: bool)
      requires Valid()
      modifies this
      ensures thrown <==> preferLength > old(maxLength) && !memory
      ensures thrown ==> length == old(length) && maxLength == old(maxLength)
      ensures thrown ==> data == if Min(validLength, old(length)) > 0 then old(data) else null
      ensures !thrown ==> Valid() && length == preferLength
      ensures !thrown ==> maxLength == if preferLength <= old(maxLength) then old(maxLength) else preferLength
      ensures data == null || data == old(data) || fresh(data)
      ensures var keep := Min(Min(validLength, old(length)), preferLength);
        !thrown && keep > 0 ==> data != null && keep <= data.Length && data[..keep] == old(data[..keep])
      ensures preferLength <= old(maxLength) ==> data == old(data)
    {
      thrown := false;
      if preferLength <= maxLength {
        length := preferLength;
        return;
      }
      var copy := if validLength > length then length else validLength;
      if copy > 0 {
        if !memory {
          return true;
        }
        var newBuffer := new char[preferLength];
        forall i | 0 <= i < copy { newBuffer[i] := data[i]; }
        assert newBuffer[..copy] == data[..copy];
        data := newBuffer;
      } else {
        data := null;
        if !memory {
          return true;
        }
        data := new char[preferLength];
      }
      length, maxLength := preferLength, preferLength;
    }
  }
}
