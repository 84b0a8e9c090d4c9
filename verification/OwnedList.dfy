/** The singly linked list that owns its nodes (list/examples/linked_list.rs).

    A `Box<Node>` is a heap object; that no box is shared and that the chain ends is not
    given by a type system here, so it is part of `Valid`. */
module OwnedList {
  import opened Wrappers

  class Node<T> {
    var next: Node?<T>
    var value: T

    constructor (value: T, next: Node?<T>)
      ensures this.value == value && this.next == next
    {
      this.value, this.next := value, next;
    }
  }

  /** One call on the list. */
  datatype Op<T> = Push(value: T) | Append(value: T) | Pop | PopBack

  /** What one call does to the sequence of values. */
  function Effect<T>(s: seq<T>, op: Op<T>): seq<T> {
    match op
    case Push(x) => [x] + s
    case Append(x) => s + [x]
    case Pop => if s == [] then s else s[1..]
    case PopBack => if s == [] then s else s[..|s| - 1]
  }

  /** What one call returns to its caller; the two insertions return no value. */
  function Answer<T>(s: seq<T>, op: Op<T>): Option<T> {
    match op
    case Pop => if s == [] then None else Some(s[0])
    case PopBack => if s == [] then None else Some(s[|s| - 1])
    case _ => None
  }

  /** One call took `s` to `t` and answered `r`. */
  ghost predicate Follows<T>(s: seq<T>, op: Op<T>, t: seq<T>, r: Option<T>) {
    match op
    case Push(x) => t == [x] + s && r == None
    case Append(x) => t == s + [x] && r == None
    case Pop => if s == [] then t == [] && r == None else r.Some? && s == [r.value] + t
    case PopBack => if s == [] then t == [] && r == None else r.Some? && s == t + [r.value]
  }

  function After<T>(s: seq<T>, ops: seq<Op<T>>): seq<T> {
    if ops == [] then s else Effect(After(s, ops[..|ops| - 1]), ops[|ops| - 1])
  }

  /** Calls took `start` to `now` over these states and gave these answers. */
  ghost predicate Ran<T>(ops: seq<Op<T>>, start: seq<T>, now: seq<T>, answers: seq<Option<T>>, states: seq<seq<T>>) {
    && |answers| == |ops| && |states| == |ops| + 1 && states[0] == start && states[|ops|] == now
    && now == After(start, ops)
    && (forall k :: 0 <= k < |ops| ==> answers[k] == Answer(After(start, ops[..k]), ops[k]))
    && (forall k :: 0 <= k < |ops| ==> Follows(states[k], ops[k], states[k + 1], answers[k]))
  }

  lemma {:induction false} RanOn<T>(ops: seq<Op<T>>, op: Op<T>, start: seq<T>, s: seq<T>, t: seq<T>, r: Option<T>,
                                    answers: seq<Option<T>>, states: seq<seq<T>>)
    requires Ran(ops, start, s, answers, states)
    requires t == Effect(s, op) && r == Answer(s, op) && Follows(s, op, t, r)
    ensures Ran(ops + [op], start, t, answers + [r], states + [t])
  {
    var more := ops + [op];
    assert more[..|ops|] == ops;
    forall k | 0 <= k < |more|
      ensures (answers + [r])[k] == Answer(After(start, more[..k]), more[k])
    {
      assert k < |ops| ==> more[..k] == ops[..k];
    }
  }

  /** Following `next` from `n` meets exactly `k` nodes and then the end. */
  ghost predicate ChainOf<T>(n: Node?<T>, k: nat, nodes: set<Node<T>>)
    reads nodes
    decreases k
  {
    if k == 0 then n == null
    else n != null && n in nodes && ChainOf(n.next, k - 1, nodes - {n})
  }

  class LinkedList<T> {
    var head: Node?<T>
    var size: nat
    ghost var spine: seq<Node<T>>
    ghost var contents: seq<T>

    ghost predicate Valid()
      reads this, Nodes(spine)
    {
      && size == |spine| == |contents|
      && head == NodeAt(spine, 0)
      && (forall i, j :: 0 <= i < j < |spine| ==> spine[i] != spine[j])
      && (forall i :: 0 <= i < |spine| ==> spine[i].next == NodeAt(spine, i + 1))
      && (forall i :: 0 <= i < |spine| ==> spine[i].value == contents[i])
    }

    static ghost function NodeAt(s: seq<Node<T>>, i: nat): Node?<T> {
      if i < |s| then s[i] else null
    }

    constructor ()
      ensures Valid() && contents == []
    {
      head, size := null, 0;
      spine, contents := [], [];
    }

    method Push(element: T)
      requires Valid()
      modifies this
      ensures Valid() && fresh(Nodes(spine) - Nodes(old(spine)))
      ensures contents == [element] + old(contents)
    {
      var node := new Node(element, head);
      head := node;
      size := size + 1;
      spine := [node] + spine;
      contents := [element] + contents;
    }

    method Append(value: T)
      requires Valid()
      modifies this, Nodes(spine)
      ensures Valid() && fresh(Nodes(spine) - Nodes(old(spine)))
      ensures contents == old(contents) + [value]
    {
      var tail := new Node(value, null);
      if head == null {
        head := tail;
      } else {
        var current: Node<T> := head;
        ghost var i := 0;
        while current.next != null
          invariant 0 <= i < |spine| && current == spine[i]
          decreases |spine| - i
        {
          current := current.next;
          i := i + 1;
        }
        assert current == spine[|spine| - 1];
        current.next := tail;
      }
      size := size + 1;
      Lengthen(tail, value);
    }

    /** The chain has been lengthened by `tail`; only the ghost fields are behind. */
    ghost method Lengthen(tail: Node<T>, value: T)
      requires size == |spine| + 1 && |spine| == |contents| && tail !in Nodes(spine)
      requires head == NodeAt(spine + [tail], 0)
      requires forall i, j :: 0 <= i < j < |spine| ==> spine[i] != spine[j]
      requires forall i :: 0 <= i < |spine| ==> spine[i].next == NodeAt(spine + [tail], i + 1)
      requires forall i :: 0 <= i < |spine| ==> spine[i].value == contents[i]
      requires tail.next == null && tail.value == value
      modifies `spine, `contents
      ensures Valid() && spine == old(spine) + [tail] && contents == old(contents) + [value]
    {
      assert forall i :: 0 <= i < |spine| ==> spine[i] in Nodes(spine);
      spine := spine + [tail];
      contents := contents + [value];
    }

    method Len() returns (n: nat)
      requires Valid()
      ensures n == |contents|
    {
      n := size;
    }

    method Pop() returns (r: Option<T>)
      requires Valid()
      modifies this
      ensures Valid() && spine == (if old(spine) == [] then [] else old(spine)[1..])
      ensures r.None? <==> old(contents) == []
      ensures r.None? ==> contents == []
      ensures r.Some? ==> old(contents) == [r.value] + contents
    {
      if head == null {
        return None;
      }
      var node: Node<T> := head;
      size := size - 1;
      head := node.next;
      r := Some(node.value);
      spine, contents := spine[1..], contents[1..];
    }

    /** Neither `unwrap` fails: `head` is known to be there, and so is the successor of `current`
        as long as the walk goes on. */
    method PopBack() returns (r: Option<T>)
      requires Valid()
      modifies this, Nodes(spine)
      ensures Valid() && spine == (if old(spine) == [] then [] else old(spine)[..|old(spine)| - 1])
      ensures r.None? <==> old(contents) == []
      ensures r.None? ==> contents == []
      ensures r.Some? ==> old(contents) == contents + [r.value]
    {
      if head == null {
        return None;
      }
      if head.next == null {
        size := size - 1;
        r := Some(head.value);
        head := null;
        spine, contents := [], [];
        return;
      }
      var current: Node<T> := head;
      ghost var i := 0;
      while current.next.next != null
        invariant 0 <= i < |spine| - 1 && current == spine[i]
        invariant current.next == spine[i + 1]
        decreases |spine| - i
      {
        current := current.next;
        i := i + 1;
      }
      size := size - 1;
      r := Some(current.next.value);
      current.next := null;
      spine, contents := spine[..|spine| - 1], contents[..|contents| - 1];
    }

    /** One call, chosen by `op`. */
    method Call(op: Op<T>) returns (r: Option<T>)
      requires Valid()
      modifies this, Nodes(spine)
      ensures Valid() && forall n :: n in Nodes(spine) ==> n in Nodes(old(spine)) || fresh(n)
      ensures contents == Effect(old(contents), op)
      ensures r == Answer(old(contents), op)
      ensures Follows(old(contents), op, contents, r)
      ensures op.Push? ==> contents == [op.value] + old(contents) && r == None
      ensures op.Append? ==> contents == old(contents) + [op.value] && r == None
      ensures (op.Pop? || op.PopBack?) && old(contents) == [] ==> contents == [] && r == None
      ensures op.Pop? && old(contents) != [] ==> r.Some? && old(contents) == [r.value] + contents
      ensures op.PopBack? && old(contents) != [] ==> r.Some? && old(contents) == contents + [r.value]
    {
      r := None;
      match op {
        case Push(x) => Push(x);
        case Append(x) => Append(x);
        case Pop => r := Pop();
        case PopBack => r := PopBack();
      }
    }

    /** Every mix of calls: the list follows the sequence and answers as the sequence does. `states` are
        the sequences of values on the way. */
    method Execute(ops: seq<Op<T>>) returns (answers: seq<Option<T>>, ghost states: seq<seq<T>>)
      requires Valid()
      modifies this, Nodes(spine)
      ensures Valid()
      ensures contents == After(old(contents), ops)
      ensures |answers| == |ops|
      ensures forall k :: 0 <= k < |ops| ==> answers[k] == Answer(After(old(contents), ops[..k]), ops[k])
      ensures |states| == |ops| + 1 && states[0] == old(contents) && states[|ops|] == contents
      ensures forall k :: 0 <= k < |ops| ==> Follows(states[k], ops[k], states[k + 1], answers[k])
    {
      answers, states := [], [contents];
      ghost var start := contents;
      for k := 0 to |ops|
        invariant Valid() && Ran(ops[..k], start, contents, answers, states)
        invariant forall n :: n in Nodes(spine) ==> n in Nodes(old(spine)) || fresh(n)
      {
        assert ops[..k + 1] == ops[..k] + [ops[k]];
        ghost var s := contents;
        var r := Call(ops[k]);
        RanOn(ops[..k], ops[k], start, s, contents, r, answers, states);
        answers, states := answers + [r], states + [contents];
      }
      assert ops[..|ops|] == ops;
    }

    /** `size` is the length of the chain, and no node is met twice on the way. */
    lemma {:induction false} SizeIsChainLength()
      requires Valid()
      ensures ChainOf(head, size, Nodes(spine))
    {
      ChainFrom(0);
      assert spine[0..] == spine;
    }

    static ghost function Nodes(s: seq<Node<T>>): set<Node<T>> {
      set n | n in s
    }

    lemma {:induction false} ChainFrom(i: nat)
      requires Valid() && i <= size
      ensures ChainOf(NodeAt(spine, i), size - i, Nodes(spine[i..]))
      decreases size - i
    {
      if i < size {
        ChainFrom(i + 1);
        RestOfChain(i);
        assert spine[i] in Nodes(spine[i..]);
      }
    }

    lemma RestOfChain(i: nat)
      requires Valid() && i < size
      ensures Nodes(spine[i..]) - {spine[i]} == Nodes(spine[i + 1..])
    {
    }
  }
}
