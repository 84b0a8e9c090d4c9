/** The list linked by raw pointers (list/examples/linked_list_unsafe.rs).

    Nothing frees a leaked node and `next` is written once, right after the node is made, so the
    chain behind `head` is fixed; `Valid` says so with a ghost spine. How one value is displayed
    is the type's own `Display`, here a function `show`. */
module RawList {
  import OwnedList

  class Node<T> {
    var next: Node?<T>
    var value: T

    constructor (value: T)
      ensures this.value == value && next == null
    {
      this.value, next := value, null;
    }
  }

  function Reversed<T>(s: seq<T>): seq<T> {
    if s == [] then [] else Reversed(s[1..]) + [s[0]]
  }

  lemma {:induction false} ReversedSnoc<T>(s: seq<T>, x: T)
    ensures Reversed(s + [x]) == [x] + Reversed(s)
  {
    if s != [] {
      assert (s + [x])[1..] == s[1..] + [x];
      ReversedSnoc(s[1..], x);
    }
  }

  /** The displayed values with one space between neighbours. */
  function Spaced<T>(values: seq<T>, show: T -> string): string {
    if values == [] then ""
    else if |values| == 1 then show(values[0])
    else show(values[0]) + " " + Spaced(values[1..], show)
  }

  /** The pieces of a text between its spaces. */
  function Pieces(text: string): (r: seq<string>)
    ensures |r| > 0
  {
    if text == "" then [""]
    else
      var rest := Pieces(text[1..]);
      if text[0] == ' ' then [""] + rest else [[text[0]] + rest[0]] + rest[1..]
  }

  /** Cutting a text at its first space. */
  lemma {:induction false} PiecesOfWord(word: string, rest: string)
    requires ' ' !in word
    ensures Pieces(word) == [word]
    ensures Pieces(word + " " + rest) == [word] + Pieces(rest)
  {
    if word == "" {
      assert (word + " " + rest)[1..] == rest;
    } else {
      PiecesOfWord(word[1..], rest);
      assert (word + " " + rest)[1..] == word[1..] + " " + rest;
      assert word == [word[0]] + word[1..];
    }
  }

  /** The displayed text gives back every value's text, once each and in order. */
  lemma {:induction false} PiecesOfSpaced<T>(values: seq<T>, show: T -> string)
    requires values != [] && forall v :: v in values ==> ' ' !in show(v)
    ensures |Pieces(Spaced(values, show))| == |values|
    ensures forall i :: 0 <= i < |values| ==> Pieces(Spaced(values, show))[i] == show(values[i])
  {
    PiecesOfWord(show(values[0]), if |values| == 1 then "" else Spaced(values[1..], show));
    if |values| > 1 {
      assert forall v :: v in values[1..] ==> v in values;
      PiecesOfSpaced(values[1..], show);
    }
  }

  class LinkedList<T> {
    var head: Node?<T>
    var size: nat
    ghost var spine: seq<Node<T>>
    ghost var contents: seq<T>

    static ghost function Nodes(s: seq<Node<T>>): set<Node<T>> {
      set n | n in s
    }

    static ghost function NodeAt(s: seq<Node<T>>, i: nat): Node?<T> {
      if i < |s| then s[i] else null
    }

    ghost predicate Valid()
      reads this, Nodes(spine)
    {
      && size == |spine| == |contents|
      && head == NodeAt(spine, 0)
      && (forall i, j :: 0 <= i < j < |spine| ==> spine[i] != spine[j])
      && (forall i :: 0 <= i < |spine| ==> spine[i].next == NodeAt(spine, i + 1))
      && (forall i :: 0 <= i < |spine| ==> spine[i].value == contents[i])
    }

    constructor ()
      ensures Valid() && contents == [] && fresh(Nodes(spine))
    {
      head, size := null, 0;
      spine, contents := [], [];
    }

    method Push(value: T)
      requires Valid()
      modifies this
      ensures Valid() && fresh(Nodes(spine) - Nodes(old(spine)))
      ensures contents == [value] + old(contents)
    {
      var node := new Node(value);
      if head == null {
        head := node;
      } else {
        node.next := head;
        head := node;
      }
      size := size + 1;
      spine, contents := [node] + spine, [value] + contents;
    }

    /** `Display` of a node: its value, then a space and the rest if there is a rest. `i` is the
        node's place in the chain; the recursion ends because it grows. */
    method FormatNode(node: Node<T>, show: T -> string, ghost i: nat) returns (text: string)
      requires Valid() && i < size && spine[i] == node
      ensures text == Spaced(contents[i..], show)
      decreases size - i
    {
      if node.next == null {
        text := show(node.value);
      } else {
        var rest := FormatNode(node.next, show, i + 1);
        text := show(node.value) + " " + rest;
        assert contents[i..][1..] == contents[i + 1..];
      }
    }

    /** `Display` of the list: nothing for an empty list. */
    method Format(show: T -> string) returns (text: string)
      requires Valid()
      ensures text == Spaced(contents, show)
    {
      if head == null {
        text := "";
      } else {
        text := FormatNode(head, show, 0);
        assert contents[0..] == contents;
      }
    }
  }

  method FillRaw<T>(values: seq<T>) returns (list: LinkedList<T>)
    ensures list.Valid() && list.contents == Reversed(values)
  {
    list := new LinkedList<T>();
    for k := 0 to |values|
      invariant list.Valid() && fresh(list)
      invariant list.contents == Reversed(values[..k])
    {
      assert values[..k + 1] == values[..k] + [values[k]];
      ReversedSnoc(values[..k], values[k]);
      list.Push(values[k]);
    }
    assert values[..|values|] == values;
  }

  method FillOwned<T>(values: seq<T>) returns (list: OwnedList.LinkedList<T>)
    ensures list.Valid() && list.contents == Reversed(values)
  {
    list := new OwnedList.LinkedList<T>();
    for k := 0 to |values|
      invariant list.Valid() && fresh(list)
      invariant list.contents == Reversed(values[..k])
    {
      assert values[..k + 1] == values[..k] + [values[k]];
      ReversedSnoc(values[..k], values[k]);
      list.Push(values[k]);
    }
    assert values[..|values|] == values;
  }

  /** The same pushes on a raw and on an owned list: equal contents. The raw list displays as the
      pushes in reverse, and cutting that text at its spaces yields each pushed value's text once. */
  method PushAll<T>(values: seq<T>, show: T -> string)
    returns (raw: LinkedList<T>, owned: OwnedList.LinkedList<T>, text: string)
    ensures raw.Valid() && owned.Valid()
    ensures raw.contents == owned.contents && raw.size == owned.size == |values|
    ensures values == [] ==> text == ""
    ensures values != [] && (forall v :: v in values ==> ' ' !in show(v)) ==>
              |Pieces(text)| == |values| &&
              forall i :: 0 <= i < |values| ==> Pieces(text)[i] == show(values[|values| - 1 - i])
  {
    raw := FillRaw(values);
    owned := FillOwned(values);
    text := raw.Format(show);
    ReversedAt(values);
    if values != [] && forall v :: v in values ==> ' ' !in show(v) {
      PiecesOfSpaced(Reversed(values), show);
    }
  }

  /** Reversing puts the k-th value at the k-th place from the end. */
  lemma {:induction false} ReversedAt<T>(s: seq<T>)
    ensures |Reversed(s)| == |s|
    ensures forall k :: 0 <= k < |s| ==> Reversed(s)[k] == s[|s| - 1 - k]
  {
    if s != [] {
      ReversedAt(s[1..]);
    }
  }
}
