/** socket/sendqueue.go:159-315, SendQueue: the list producers append to and the batch the consumer
    works on are two backing arrays that change places.  A slice is a backing array and a length;
    append writes in place while there is room and moves to a larger array otherwise. */
module SendQueue {

  datatype AddResult = Added | QueueClosed | QueueFull

  const INIT_CAP: int := 64

  class SendQueue<T(0)> {
    var list: array<T>
    var len: int
    var fullSize: int
    var closed: bool

    ghost predicate Valid()
      reads this
    {
      0 <= len <= list.Length && fullSize > 0
    }

    ghost function Contents(): seq<T>
      requires Valid()
      reads this, list
    {
      list[..len]
    }

    constructor (fullSize: int)
      requires fullSize > 0
      ensures Valid() && Contents() == [] && !closed && this.fullSize == fullSize && fresh(list)
    {
      list := new T[INIT_CAP];
      len, closed := 0, false;
      this.fullSize := fullSize;
    }

    /** append(self.list, item) */
    method Append(item: T)
      requires Valid()
      modifies this`list, this`len, list
      ensures Valid() && Contents() == old(Contents()) + [item]
      ensures list == old(list) || fresh(list)
    {
      if len == list.Length {
        var larger := new T[2 * len + 1];
        forall i | 0 <= i < len {
          larger[i] := list[i];
        }
        list := larger;
      }
      list[len] := item;
      len := len + 1;
    }

    /** Add: refused when closed or full, and then nothing changes. */
    method Add(item: T) returns (r: AddResult)
      requires Valid()
      modifies this`list, this`len, list
      ensures Valid() && (list == old(list) || fresh(list))
      ensures r == if closed then QueueClosed else if |old(Contents())| >= fullSize then QueueFull else Added
      ensures Contents() == if r == Added then old(Contents()) + [item] else old(Contents())
    {
      if closed {
        return QueueClosed;
      }
      if len >= fullSize {
        return QueueFull;
      }
      Append(item);
      r := Added;
    }

    /** Get once its wait is over: the list becomes the batch, the storage handed in becomes the list. */
    method Get(swaped: array<T>) returns (wasClosed: bool, datas: array<T>, n: int)
      requires Valid() && (closed || len > 0)
      modifies this`list, this`len
      ensures Valid() && Contents() == [] && list == swaped
      ensures datas == old(list) && 0 <= n <= datas.Length && datas[..n] == old(Contents()) && wasClosed == closed
    {
      datas, n := list, len;
      wasClosed := closed;
      list, len := swaped, 0;
    }

    /** Close: only the first caller closes; both learn how many items were left. */
    method Close() returns (first: bool, n: int)
      requires Valid()
      modifies this`closed
      ensures closed && first == !old(closed) && n == |Contents()|
    {
      n := len;
      first := !closed;
      closed := true;
    }
  }

  /** A queue with a consumer that always hands back the slice it last received, as doSend does. */
  class Session<T(0)> {
    const q: SendQueue<T>
    var swaped: array<T>
    var n: int
    ghost var accepted: seq<T>  // every item added, in order
    ghost var fetched: seq<T>   // the batches received, concatenated

    /** The batch never shares storage with the list, and nothing is lost, repeated or reordered. */
    ghost predicate Valid()
      reads this, q, q.list
    {
      && q.Valid() && 0 <= n <= swaped.Length
      && swaped != q.list
      && fetched + q.Contents() == accepted
    }

    constructor (fullSize: int)
      requires fullSize > 0
      ensures Valid() && accepted == [] && fetched == [] && fresh(q) && fresh(q.list) && fresh(swaped)
    {
      q := new SendQueue<T>(fullSize);
      swaped := new T[0];
      n, accepted, fetched := 0, [], [];
    }

    /** A producer adds: the batch the consumer is working on does not change. */
    method Offer(item: T) returns (r: AddResult)
      requires Valid()
      modifies this`accepted, q, q.list
      ensures Valid() && swaped[..n] == old(swaped[..n]) && fetched == old(fetched)
      ensures r == if old(q.closed) then QueueClosed
              else if |old(q.Contents())| >= old(q.fullSize) then QueueFull else Added
      ensures accepted == if r == Added then old(accepted) + [item] else old(accepted)
    {
      r := q.Add(item);
      if r == Added {
        accepted := accepted + [item];
      }
    }

    /** The consumer fetches: the batch is everything queued, in order, and the list starts empty. */
    method Fetch() returns (wasClosed: bool)
      requires Valid() && (q.closed || q.len > 0)
      modifies this`swaped, this`n, this`fetched, q`list, q`len
      ensures Valid() && accepted == old(accepted) && q.Contents() == []
      ensures swaped[..n] == old(q.Contents()) && fetched == old(fetched) + swaped[..n] == accepted
      ensures wasClosed == q.closed
    {
      wasClosed, swaped, n := q.Get(swaped);
      fetched := fetched + swaped[..n];
    }

    /** The consumer overwrites a slot of its batch: the queue does not change. */
    method Overwrite(i: int, x: T)
      requires Valid() && 0 <= i < n
      modifies swaped
      ensures Valid() && q.Contents() == old(q.Contents()) && swaped[..n] == old(swaped[..n])[i := x]
    {
      swaped[i] := x;
    }

    method Close() returns (first: bool, left: int)
      requires Valid()
      modifies q`closed
      ensures Valid() && q.closed && first == !old(q.closed) && left == |q.Contents()|
    {
      first, left := q.Close();
    }
  }
}
