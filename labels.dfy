/**
 * The assembler's label list (asm8080/label_list.h): a singly linked list
 * of (label, address) nodes whose head also points at the tail through
 * `last_node`.  The label field is a `char[5]` filled by `strncpy`, so a
 * label of five or more characters is stored without a terminator.
 */
module Labels {
  import opened AsmCommon

  /** `sizeof(new_node -> label)`. */
  const LABEL_SIZE: nat := 5

  /** The value `FindLabelValue` returns for an absent label: one past the 16-bit range. */
  const NOT_FOUND: int := 0x10000

  type uint16 = x: int | 0 <= x < 0x10000

  /** `strncpy(label, name, 5)`: the first five characters of name, padded with NULs. */
  function Strncpy(name: string): (chars: string)
    ensures |chars| == LABEL_SIZE
  {
    seq(LABEL_SIZE, i requires 0 <= i < LABEL_SIZE => CharAt(name, i))
  }

  /**
   * `strcmp(label, query)` would read past the five bytes of label: label
   * holds no terminator and query agrees with all five of its characters.
   */
  predicate ReadsPast(chars: string, query: string)
  {
    NoNul(chars) && LABEL_SIZE <= |query| && query[..LABEL_SIZE] == chars
  }

  /** The contents of one node. */
  datatype Entry = Entry(chars: string, address: uint16)

  /** What `FindLabelValue` returns, or `Undefined` when its `strcmp` reads past a node's label. */
  datatype Lookup = Value(value: int) | Undefined

  /** `FindLabelValue(query, head)` over the entries of the list, in order. */
  function FindIn(entries: seq<Entry>, query: string): Lookup
    decreases |entries|
  {
    if |entries| == 0 then Value(NOT_FOUND)
    else if ReadsPast(entries[0].chars, query) then Undefined
    else if Strcmp(entries[0].chars, query) == 0 then Value(entries[0].address)
    else FindIn(entries[1..], query)
  }

  /** `node`. */
  class LabelNode {
    var chars: string
    var address: uint16
    var nextNode: LabelNode?
    var lastNode: LabelNode?

    /** The fields `AddLabelNode` sets before linking the node in. */
    constructor (chars: string, address: uint16)
      ensures this.chars == chars && this.address == address
      ensures nextNode == null && lastNode == null
    {
      this.chars := chars;
      this.address := address;
      nextNode := null;
      lastNode := null;
    }
  }

  /** The variable `head` the assembler passes by address, with the nodes it reaches. */
  class LabelList {
    var head: LabelNode?
    ghost var nodes: seq<LabelNode>
    ghost var entries: seq<Entry>
    ghost var Repr: set<object>

    /**
     * The nodes are distinct and linked in order through `next_node`; the
     * head's `last_node` is the tail and the other nodes' is NULL; each
     * node holds the corresponding entry.
     */
    ghost predicate Valid()
      reads this, Repr
    {
      && this in Repr
      && (forall i :: 0 <= i < |nodes| ==> nodes[i] in Repr)
      && |entries| == |nodes|
      && (forall i, j :: 0 <= i < j < |nodes| ==> nodes[i] != nodes[j])
      && head == (if |nodes| == 0 then null else nodes[0])
      && (forall i :: 0 <= i < |nodes| ==>
            nodes[i].nextNode == (if i + 1 < |nodes| then nodes[i + 1] else null))
      && (|nodes| > 0 ==> nodes[0].lastNode == nodes[|nodes| - 1])
      && (forall i :: 0 < i < |nodes| ==> nodes[i].lastNode == null)
      && (forall i :: 0 <= i < |nodes| ==>
            nodes[i].chars == entries[i].chars && nodes[i].address == entries[i].address)
    }

    /** `node *head = NULL`. */
    constructor ()
      ensures Valid() && fresh(Repr) && entries == []
    {
      head := null;
      nodes := [];
      entries := [];
      Repr := {this};
    }

    /** `AddLabelNode(name, address, &head)`: a new node at the tail. */
    method AddLabelNode(name: string, address: uint16)
      requires Valid()
      modifies Repr
      ensures Valid() && fresh(Repr - old(Repr))
      ensures entries == old(entries) + [Entry(Strncpy(name), address)]
      ensures old(head) != null ==> head == old(head)
    {
      var node := new LabelNode(Strncpy(name), address);
      if head == null {
        head := node;
        head.lastNode := head;
        nodes := [node];
        entries := [Entry(node.chars, node.address)];
        Repr := Repr + {node};
        return;
      }
      Append(node);
    }

    /** The non-empty case of `AddLabelNode`: link the node after the tail and make it the tail. */
    method Append(node: LabelNode)
      requires Valid() && head != null && node !in Repr
      requires node.nextNode == null && node.lastNode == null
      modifies Repr
      ensures Valid() && Repr == old(Repr) + {node} && head == old(head)
      ensures entries == old(entries) + [Entry(node.chars, node.address)]
    {
      ghost var n := |nodes|;
      var last := head.lastNode;
      assert forall i :: 0 <= i < n - 1 ==> nodes[i] != last;
      last.nextNode := node;
      head.lastNode := node;
      nodes := nodes + [node];
      entries := entries + [Entry(node.chars, node.address)];
      Repr := Repr + {node};
    }

    /** `FindLabelValue(query, head)`; `defined` is false when `strcmp` reads past a label. */
    method FindLabelValue(query: string) returns (value: int, defined: bool)
      requires Valid() && NoNul(query)
      ensures FindIn(entries, query) == if defined then Value(value) else Undefined
    {
      var current := head;
      ghost var i := 0;
      while current != null
        invariant 0 <= i <= |nodes|
        invariant current == if i < |nodes| then nodes[i] else null
        invariant FindIn(entries, query) == FindIn(entries[i..], query)
        decreases |nodes| - i
      {
        assert entries[i..][1..] == entries[i + 1..];
        if ReadsPast(current.chars, query) {
          return 0, false;
        }
        if Strcmp(current.chars, query) == 0 {
          return current.address, true;
        }
        current := current.nextNode;
        i := i + 1;
      }
      return NOT_FOUND, true;
    }

    /** `FreeLabelList(&head)`: the list becomes empty. */
    method FreeLabelList()
      requires Valid()
      modifies this
      ensures Valid() && head == null && entries == []
    {
      head := null;
      nodes := [];
      entries := [];
      Repr := {this};
    }
  }

  // ---------------------------------------------------------------- properties

  /** strncpy copies the first min(|name|, 5) characters and pads with NULs; a short name keeps its terminator. */
  lemma StrncpyLaws(name: string)
    requires NoNul(name)
    ensures forall i :: 0 <= i < LABEL_SIZE ==> Strncpy(name)[i] == if i < |name| then name[i] else NUL
    ensures NoNul(Strncpy(name)) == (LABEL_SIZE <= |name|)
    ensures LABEL_SIZE <= |name| ==> Strncpy(name) == name[..LABEL_SIZE]
  {
    if |name| < LABEL_SIZE {
      assert Strncpy(name)[|name|] == NUL;
    } else {
      assert forall i :: 0 <= i < LABEL_SIZE ==> name[i] in name;
    }
  }

  lemma {:induction false} StrcmpShortLabel(name: string, query: string, i: nat)
    requires NoNul(name) && |name| < LABEL_SIZE && i <= |name|
    ensures StrcmpFrom(Strncpy(name), query, i) == StrcmpFrom(name, query, i)
    decreases |name| - i
  {
    StrncpyLaws(name);
    if i < |name| {
      assert name[i] in name;
      StrcmpShortLabel(name, query, i + 1);
    }
  }

  /**
   * Where the comparison stays inside the five bytes, a stored label
   * compares equal to a query exactly when the name it was copied from
   * is the query.
   */
  lemma LabelMatches(name: string, query: string)
    requires NoNul(name) && NoNul(query)
    requires !ReadsPast(Strncpy(name), query)
    ensures (Strcmp(Strncpy(name), query) == 0) == (name == query)
  {
    StrncpyLaws(name);
    var chars := Strncpy(name);
    if |name| < LABEL_SIZE {
      StrcmpShortLabel(name, query, 0);
      StrcmpEqual(name, query);
    } else {
      assert chars == name[..LABEL_SIZE];
      StrcmpEqual(chars, query);
    }
  }

  /**
   * The lookup returns the address of the first entry whose label equals
   * the query, NOT_FOUND (outside the 16-bit range) when no entry does,
   * and is undefined only at an entry before any match whose comparison
   * reads past its label.
   */
  lemma {:induction false} FindInResult(entries: seq<Entry>, query: string)
    ensures var r := FindIn(entries, query);
      && (r == Value(NOT_FOUND) <==>
            forall j :: 0 <= j < |entries| ==>
              !ReadsPast(entries[j].chars, query) && Strcmp(entries[j].chars, query) != 0)
      && (r.Value? && r.value != NOT_FOUND ==>
            exists i :: 0 <= i < |entries| && r.value == entries[i].address
              && Strcmp(entries[i].chars, query) == 0 && !ReadsPast(entries[i].chars, query)
              && forall j :: 0 <= j < i ==>
                   !ReadsPast(entries[j].chars, query) && Strcmp(entries[j].chars, query) != 0)
      && (r.Undefined? ==>
            exists i :: 0 <= i < |entries| && ReadsPast(entries[i].chars, query))
    decreases |entries|
  {
    if |entries| > 0 {
      var rest := entries[1..];
      FindInResult(rest, query);
      assert forall j :: 0 < j < |entries| ==> entries[j] == rest[j - 1];
      var r := FindIn(entries, query);
      if !ReadsPast(entries[0].chars, query) && Strcmp(entries[0].chars, query) != 0 {
        if r.Value? && r.value != NOT_FOUND {
          var k :| 0 <= k < |rest| && r.value == rest[k].address
            && Strcmp(rest[k].chars, query) == 0 && !ReadsPast(rest[k].chars, query)
            && forall j :: 0 <= j < k ==>
                 !ReadsPast(rest[j].chars, query) && Strcmp(rest[j].chars, query) != 0;
          assert entries[k + 1] == rest[k];
        }
        if r.Undefined? {
          var k :| 0 <= k < |rest| && ReadsPast(rest[k].chars, query);
          assert entries[k + 1] == rest[k];
        }
      }
    }
  }

  /** Appending an entry leaves every earlier answer alone; only an absent label can find the new one. */
  lemma {:induction false} FindAfterAppend(entries: seq<Entry>, e: Entry, query: string)
    ensures FindIn(entries + [e], query) ==
      if FindIn(entries, query) == Value(NOT_FOUND) then FindIn([e], query) else FindIn(entries, query)
    decreases |entries|
  {
    if |entries| > 0 {
      assert (entries + [e])[1..] == entries[1..] + [e];
      FindAfterAppend(entries[1..], e, query);
    }
  }

  /**
   * A label of at most four characters that is not yet in the list is
   * found, after `AddLabelNode`, at the address it was added with.
   */
  lemma AddedLabelFound(entries: seq<Entry>, name: string, address: uint16)
    requires NoNul(name) && |name| < LABEL_SIZE
    requires FindIn(entries, name) == Value(NOT_FOUND)
    ensures FindIn(entries + [Entry(Strncpy(name), address)], name) == Value(address)
  {
    FindAfterAppend(entries, Entry(Strncpy(name), address), name);
    StrncpyLaws(name);
    LabelMatches(name, name);
  }
}
