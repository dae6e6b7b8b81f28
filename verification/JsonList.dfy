/**
 The children of a cJSON array or object: a doubly linked list edited in place, proved to behave as a sequence.
 */
module JsonList {
  import opened CText

  // ----- names

  /** tolower in the C locale. */
  function ToLower(c: char): char {
    if 'A' <= c <= 'Z' then (c as int + 32) as char else c
  }

  const UPPER: string := "ABCDEFGHIJKLMNOPQRSTUVWXYZ"
  const LOWER: string := "abcdefghijklmnopqrstuvwxyz"

  /** Each capital becomes its letter, and all else stays as it is. */
  lemma LowerCase(c: char)
    ensures (forall i :: 0 <= i < 26 && UPPER[i] == c ==> ToLower(c) == LOWER[i]) && (c !in UPPER ==> ToLower(c) == c)
  {
    if 'A' <= c <= 'Z' {
      assert UPPER[c as int - 65] == c && LOWER[c as int - 65] == (c as int + 32) as char;
    }
  }

  /** Equality of names as object look-ups see it. */
  predicate SameName(a: string, b: string) {
    |a| == |b| && forall i :: 0 <= i < |a| ==> ToLower(a[i]) == ToLower(b[i])
  }

  /** cJSON_strcasecmp on two C strings: zero exactly for names that differ in case only. */
  method StrCaseCmp(s1: string, s2: string) returns (r: int)
    requires NulFree(s1) && NulFree(s2)
    ensures r == 0 <==> SameName(s1, s2)
  {
    var i := 0;
    while ToLower(At(s1, i)) == ToLower(At(s2, i))
      invariant i <= |s1| && i <= |s2|
      invariant forall j :: 0 <= j < i ==> ToLower(s1[j]) == ToLower(s2[j])
      decreases |s1| - i
    {
      if At(s1, i) == NUL {
        return 0;
      }
      i := i + 1;
    }
    r := ToLower(At(s1, i)) as int - ToLower(At(s2, i)) as int;
  }

  class Node {
    var name: string
    var prev: Node?
    var next: Node?

    constructor (name: string)
      ensures this.name == name && prev == null && next == null
    {
      this.name, prev, next := name, null, null;
    }
  }

  /** The position an index argument selects: a negative one selects the first child. */
  function Position(which: int): nat {
    if which > 0 then which else 0
  }

  ghost predicate NoRepeats(items: seq<Node>) {
    forall i, j :: 0 <= i < j < |items| ==> items[i] != items[j]
  }

  class Parent {
    var child: Node?
    ghost var items: seq<Node>

    ghost predicate Valid()
      reads this, items`prev, items`next
    {
      && child == (if items == [] then null else items[0])
      && (forall i {:trigger items[i].prev} :: 0 <= i < |items| ==> items[i].prev == if i == 0 then null else items[i - 1])
      && (forall i {:trigger items[i].next} :: 0 <= i < |items| ==> items[i].next == if i + 1 < |items| then items[i + 1] else null)
      && NoRepeats(items)
    }

    /** The child at `k`, NULL past the end. */
    ghost function Child(k: nat): Node?
      reads this
    {
      if k < |items| then items[k] else null
    }

    /** Child `k` is the first whose name matches; `k` is the number of children when none does. */
    ghost predicate IsFirstMatch(k: nat, name: string)
      reads this, items`name
    {
      && k <= |items|
      && (k < |items| ==> SameName(items[k].name, name))
      && forall i :: 0 <= i < k ==> !SameName(items[i].name, name)
    }

    constructor ()
      ensures Valid() && items == []
    {
      child, items := null, [];
    }

    /** cJSON_GetArraySize */
    method GetArraySize() returns (n: nat)
      requires Valid()
      ensures n == |items|
    {
      n := 0;
      var c := child;
      while c != null
        invariant n <= |items| && c == Child(n)
        decreases |items| - n
      {
        n := n + 1;
        c := c.next;
      }
    }

    /** cJSON_GetArrayItem, and the walk of the operations that take an index. */
    method GetArrayItem(which: int) returns (c: Node?)
      requires Valid()
      ensures c == Child(Position(which))
    {
      c := child;
      var item := which;
      ghost var k: nat := 0;
      while c != null && item > 0
        invariant k <= |items| && c == Child(k)
        invariant item > 0 ==> k + item == which
        invariant item <= 0 ==> k == Position(which)
        decreases |items| - k
      {
        item := item - 1;
        c := c.next;
        k := k + 1;
      }
    }

    /** The walk of the operations that take a name. */
    method FindName(name: string) returns (i: nat, c: Node?)
      requires Valid() && NulFree(name) && forall j :: 0 <= j < |items| ==> NulFree(items[j].name)
      ensures IsFirstMatch(i, name) && c == Child(i)
    {
      i, c := 0, child;
      while c != null
        invariant i <= |items| && c == Child(i)
        invariant forall j :: 0 <= j < i ==> !SameName(items[j].name, name)
        decreases |items| - i
      {
        var r := StrCaseCmp(c.name, name);
        if r == 0 {
          return;
        }
        i := i + 1;
        c := c.next;
      }
    }

    /** cJSON_GetObjectItem */
    method GetObjectItem(name: string) returns (c: Node?)
      requires Valid() && NulFree(name) && forall j :: 0 <= j < |items| ==> NulFree(items[j].name)
      ensures exists k :: IsFirstMatch(k, name) && c == Child(k)
    {
      var i;
      i, c := FindName(name);
    }

    /** cJSON_AddItemToArray, for an item that is in no list. */
    method AddItemToArray(item: Node)
      requires Valid() && item !in items && item.prev == null && item.next == null
      modifies this, items`next, item`prev
      ensures Valid() && items == old(items) + [item]
    {
      if child == null {
        child := item;
      } else {
        var c := child;
        ghost var k: nat := 0;
        while c.next != null
          invariant k < |items| && c == items[k]
          decreases |items| - k
        {
          c := c.next;
          k := k + 1;
        }
        c.next := item;
        item.prev := c;
      }
      items := items + [item];
    }

    /** cJSON_AddItemToObject */
    method AddItemToObject(name: string, item: Node)
      requires Valid() && item !in items && item.prev == null && item.next == null
      modifies this, items`next, item`prev, item`name
      ensures Valid() && items == old(items) + [item] && item.name == name
      ensures forall i :: 0 <= i < |old(items)| ==> items[i].name == old(items[i].name)
    {
      item.name := name;
      AddItemToArray(item);
    }

    /** The links around child `k` pass it by. */
    method Unlink(c: Node, ghost k: nat)
      requires Valid() && k < |items| && c == items[k]
      modifies this, items`prev, items`next
      ensures Valid() && items == old(items)[..k] + old(items)[k + 1..] && c !in items
      ensures c.prev == old(c.prev) && c.next == old(c.next)
    {
      if c.prev != null {
        c.prev.next := c.next;
      }
      if c.next != null {
        c.next.prev := c.prev;
      }
      if c == child {
        child := c.next;
      }
      items := items[..k] + items[k + 1..];
    }

    /** cJSON_DetachItemFromArray */
    method DetachItemFromArray(which: int) returns (c: Node?)
      requires Valid()
      modifies this, items`prev, items`next
      ensures Valid() && c == old(Child(Position(which)))
      ensures c == null ==> items == old(items)
      ensures c != null ==> c.prev == null && c.next == null && c !in items
      ensures c != null ==> items == old(items)[..Position(which)] + old(items)[Position(which) + 1..]
    {
      c := GetArrayItem(which);
      if c == null {
        return;
      }
      Unlink(c, Position(which));
      c.prev, c.next := null, null;
    }

    /** cJSON_DetachItemFromObject: the first child with the name, in any case, is taken out. */
    method DetachItemFromObject(name: string) returns (c: Node?, ghost k: nat)
      requires Valid() && NulFree(name) && forall j :: 0 <= j < |items| ==> NulFree(items[j].name)
      modifies this, items`prev, items`next
      ensures old(IsFirstMatch(k, name)) && c == old(Child(k)) && Valid()
      ensures c == null ==> items == old(items)
      ensures c != null ==> c !in items && items == old(items)[..k] + old(items)[k + 1..]
    {
      var i;
      i, c := FindName(name);
      k := i;
      if c != null {
        c := DetachItemFromArray(i);
      }
    }

    /** cJSON_ReplaceItemInArray; the replaced child, deleted by the code, ends up unlinked. */
    method ReplaceItemInArray(which: int, newitem: Node)
      requires Valid() && newitem !in items
      modifies this, items`prev, items`next, newitem`prev, newitem`next
      ensures Valid()
      ensures items == if Position(which) < |old(items)| then old(items)[Position(which) := newitem] else old(items)
      ensures Position(which) < |old(items)| ==>
                var c := old(items)[Position(which)]; c.prev == null && c.next == null && c !in items
    {
      var c := GetArrayItem(which);
      if c == null {
        return;
      }
      ghost var k := Position(which);
      newitem.next := c.next;
      newitem.prev := c.prev;
      if newitem.next != null {
        newitem.next.prev := newitem;
      }
      if c == child {
        child := newitem;
      } else {
        newitem.prev.next := newitem;
      }
      items := items[k := newitem];
      c.next, c.prev := null, null;
    }

    /** cJSON_ReplaceItemInObject: the new child takes the place, and the name as given, of the first match. */
    method ReplaceItemInObject(name: string, newitem: Node) returns (ghost k: nat)
      requires Valid() && newitem !in items
      requires NulFree(name) && forall j :: 0 <= j < |items| ==> NulFree(items[j].name)
      modifies this, items`prev, items`next, newitem
      ensures old(IsFirstMatch(k, name)) && Valid()
      ensures k == |old(items)| ==> items == old(items)
      ensures k < |old(items)| ==> items == old(items)[k := newitem] && newitem.name == name
    {
      var i, c := FindName(name);
      k := i;
      if c != null {
        newitem.name := name;
        ReplaceItemInArray(i, newitem);
      }
    }
  }

  // ----- what the edits undo

  /** Adding a child and detaching the last one leaves the list, and the child, as they were. */
  method AddThenDetach(p: Parent, item: Node) returns (c: Node?)
    requires p.Valid() && item !in p.items && item.prev == null && item.next == null
    modifies p, p.items`prev, p.items`next, item`prev, item`next
    ensures p.Valid() && p.items == old(p.items) && c == item && item.prev == null && item.next == null
  {
    var n := p.GetArraySize();
    p.AddItemToArray(item);
    c := p.DetachItemFromArray(n);
  }
}
