/** Values shared by every component: optional results, machine-integer ranges, and block time. */
module Common {

  /** The result of an operation that may abort; `None` stands for a panic or an absent value. */
  datatype Option<+T> = None | Some(value: T) {
    predicate IsFailure() {
      None?
    }

    function PropagateFailure<U>(): Option<U>
      requires None?
    {
      None
    }

    function Extract(): T
      requires Some?
    {
      value
    }
  }

  datatype Result<+T, +E> = Ok(value: T) | Err(error: E)

  const U64_MAX: nat := 0xFFFF_FFFF_FFFF_FFFF
  const U128_MAX: nat := 0xFFFF_FFFF_FFFF_FFFF_FFFF_FFFF_FFFF_FFFF

  type U64 = n: nat | n <= U64_MAX
  type U128 = n: nat | n <= U128_MAX

  type Addr = string

  datatype BlockInfo = BlockInfo(height: U64, time: U64) {
    /** Neither height nor time runs backwards between two blocks of one chain. */
    predicate UpTo(later: BlockInfo) {
      height <= later.height && time <= later.time
    }
  }

  datatype Expiration = AtHeight(height: U64) | AtTime(time: U64) | Never {
    predicate IsExpired(block: BlockInfo) {
      match this
      case AtHeight(h) => block.height >= h
      case AtTime(t) => block.time >= t
      case Never => false
    }
  }

  /** An expiration is reached at its own height or time, and not a block or a nanosecond earlier. */
  lemma ExpiresAtItsPoint(point: U64, other: U64)
    ensures AtHeight(point).IsExpired(BlockInfo(point, other)) && AtTime(point).IsExpired(BlockInfo(other, point))
    ensures point > 0 ==>
              && !AtHeight(point).IsExpired(BlockInfo(point - 1, other))
              && !AtTime(point).IsExpired(BlockInfo(other, point - 1))
    ensures !Never.IsExpired(BlockInfo(point, other))
  {
  }

  /** Once expired, expired for every block in the future. */
  lemma ExpiredStays(e: Expiration, block: BlockInfo, later: BlockInfo)
    requires block.UpTo(later) && e.IsExpired(block)
    ensures e.IsExpired(later)
  {
  }

  /** `whole` is an order-preserving merge of `left` and `right`. */
  predicate Interleaves<T(==)>(whole: seq<T>, left: seq<T>, right: seq<T>)
    decreases |whole|
  {
    if whole == [] then left == [] && right == []
    else
      || (left != [] && left[0] == whole[0] && Interleaves(whole[1..], left[1..], right))
      || (right != [] && right[0] == whole[0] && Interleaves(whole[1..], left, right[1..]))
  }

  lemma {:induction false} InterleavesKeepsAll<T>(whole: seq<T>, left: seq<T>, right: seq<T>)
    requires Interleaves(whole, left, right)
    ensures multiset(whole) == multiset(left) + multiset(right)
    decreases |whole|
  {
    if whole == [] {
    } else {
      assert whole == [whole[0]] + whole[1..];
      if left != [] && left[0] == whole[0] && Interleaves(whole[1..], left[1..], right) {
        InterleavesKeepsAll(whole[1..], left[1..], right);
        assert left == [left[0]] + left[1..];
      } else {
        InterleavesKeepsAll(whole[1..], left, right[1..]);
        assert right == [right[0]] + right[1..];
      }
    }
  }
}
