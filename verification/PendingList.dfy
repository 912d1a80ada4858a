/** The list of client values that wait for an instance: lib/proposer_values_handler.c:115-214, a
    singly linked list with a head, a tail and a size. */
module PendingList {
  import opened PaxosConfig

  /** vh_value_wrapper. */
  class Wrapper {
    const value: Value
    var next: Wrapper?

    constructor (value: Value)
      ensures this.value == value && next == null
    {
      this.value := value;
      next := null;
    }
  }

  ghost function ValuesOf(nodes: seq<Wrapper>): (r: seq<Value>)
    ensures |r| == |nodes| && forall i :: 0 <= i < |nodes| ==> r[i] == nodes[i].value
  {
    seq(|nodes|, i requires 0 <= i < |nodes| => nodes[i].value)
  }

  class List {
    var head: Wrapper?
    var tail: Wrapper?
    var size: int
    /** The wrappers from head to tail. */
    ghost var nodes: seq<Wrapper>

    ghost predicate Valid()
      reads this, nodes
    {
      && size == |nodes|
      && (if nodes == [] then head == null && tail == null
          else head == nodes[0] && tail == nodes[|nodes| - 1] && tail.next == null)
      && (forall i :: 0 <= i < |nodes| - 1 ==> nodes[i].next == nodes[i + 1])
      && (forall i, j :: 0 <= i < j < |nodes| ==> nodes[i] != nodes[j])
    }

    ghost function Contents(): seq<Value>
      reads this
    {
      ValuesOf(nodes)
    }

    /** The static initialisation, and vh_init. */
    constructor ()
      ensures Valid() && Contents() == []
    {
      head, tail, size := null, null, 0;
      nodes := [];
    }

    /** vh_enqueue_value: the list takes one value more than LEADER_MAX_QUEUE_LENGTH. */
    method Enqueue(value: Value)
      requires Valid()
      modifies this, nodes
      ensures Valid()
      ensures Contents() == if |old(Contents())| <= LEADER_MAX_QUEUE_LENGTH then old(Contents()) + [value] else old(Contents())
      ensures fresh(set n | n in nodes && n !in old(nodes))
    {
      if size > LEADER_MAX_QUEUE_LENGTH {
        return;
      }
      var wrapper := new Wrapper(value);
      if head == null && tail == null {
        head := wrapper;
        tail := wrapper;
        size := 1;
      } else {
        tail.next := wrapper;
        tail := wrapper;
        size := size + 1;
      }
      nodes := nodes + [wrapper];
    }

    /** vh_get_next_pending. */
    method GetNextPending() returns (value: Option<Value>)
      requires Valid()
      modifies this
      ensures Valid()
      ensures if old(Contents()) == [] then value == None && Contents() == []
              else value == Some(old(Contents())[0]) && Contents() == old(Contents())[1..]
      ensures forall n :: n in nodes ==> n in old(nodes)
    {
      if head == null && tail == null {
        return None;
      }
      var first := head;
      head := first.next;
      if tail == first {
        tail := null;
      }
      size := size - 1;
      nodes := nodes[1..];
      return Some(first.value);
    }

    /** vh_push_back_value: back to the head of the list, whatever its length. */
    method PushBack(value: Value)
      requires Valid()
      modifies this
      ensures Valid()
      ensures Contents() == [value] + old(Contents())
      ensures fresh(set n | n in nodes && n !in old(nodes))
    {
      var wrapper := new Wrapper(value);
      wrapper.next := head;
      if head == null && tail == null {
        head := wrapper;
        tail := wrapper;
        size := 1;
      } else {
        head := wrapper;
        size := size + 1;
      }
      nodes := [wrapper] + nodes;
    }

    /** The loop of vh_shutdown: the clients of all pending values are notified. */
    method Drain() returns (notified: seq<Value>)
      requires Valid()
      modifies this
      ensures Valid() && Contents() == [] && notified == old(Contents())
    {
      notified := [];
      var value := GetNextPending();
      while value.Some?
        invariant Valid()
        invariant notified + (if value.Some? then [value.value] else []) + Contents() == old(Contents())
        invariant value.None? ==> Contents() == []
        decreases |nodes| + if value.Some? then 1 else 0
      {
        notified := notified + [value.value];
        value := GetNextPending();
      }
    }
  }
}
