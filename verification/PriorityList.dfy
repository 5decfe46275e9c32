/** The reference order of event/priorityQueue.go: one list, highest priority
    first, arrival order within a priority. */
module PriorityList {

  datatype Entry<T> = Entry(pri: int, v: T)

  /** A priority outside 0..levels-1 is moved to the nearest level. */
  function Clamp(levels: int, pri: int): (p: int)
    requires levels >= 1
    ensures 0 <= p < levels
    ensures 0 <= pri < levels ==> p == pri
    ensures pri < 0 ==> p == 0
    ensures pri >= levels ==> p == levels - 1
  {
    if pri < 0 then 0 else if pri >= levels then levels - 1 else pri
  }

  /** Stable insertion: behind everything of the same or a higher priority. */
  function Insert<T>(q: seq<Entry<T>>, e: Entry<T>): (r: seq<Entry<T>>)
    ensures |r| == |q| + 1
  {
    if q == [] then [e]
    else if q[0].pri >= e.pri then [q[0]] + Insert(q[1..], e)
    else [e] + q
  }

  lemma {:induction false} InsertAddsOne<T>(q: seq<Entry<T>>, e: Entry<T>)
    ensures multiset(Insert(q, e)) == multiset(q) + multiset{e}
  {
    if q != [] && q[0].pri >= e.pri {
      assert q == [q[0]] + q[1..];
      InsertAddsOne(q[1..], e);
    }
  }

  ghost predicate ByPriority<T>(q: seq<Entry<T>>) {
    forall i, j :: 0 <= i < j < |q| ==> q[i].pri >= q[j].pri
  }
}
