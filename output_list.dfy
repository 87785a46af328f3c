/**
 * The assembler's output list (asm8080/output_list.h): one node per
 * emitted instruction, holding the opcode, a private copy of the operand
 * text (a string value here, which nothing else can alias) and the
 * operand's type, linked in order with the head pointing at the tail.  The
 * results of the two `malloc` calls are parameters of `AddOutputNode`.
 */
module OutputList {
  import opened AsmCommon

  /** The `final_operand` of a node not yet resolved: one past the 16-bit range. */
  const UNRESOLVED: int := 0x10000

  /** The contents of one node: opcode, operand text, final operand, operand type. */
  datatype Entry = Entry(opcode: int, operand: string, finalOperand: int, operandType: OperandType)

  /** `output`. */
  class OutputNode {
    var opcode: int
    var operand: string
    var finalOperand: int
    var operandType: OperandType
    var next: OutputNode?
    var last: OutputNode?

    /**
     * The fields `AddOutputNode` sets before linking the node in; `last`,
     * which C leaves uninitialised and never reads on a non-head node, is
     * NULL here.
     */
    constructor (opcode: int, operand: string, operandType: OperandType)
      ensures this.opcode == opcode && this.operand == operand && this.operandType == operandType
      ensures finalOperand == UNRESOLVED && next == null && last == null
    {
      this.opcode := opcode;
      this.operand := operand;
      finalOperand := UNRESOLVED;
      this.operandType := operandType;
      next := null;
      last := null;
    }
  }

  /** The variable `head` the assembler passes by address, with the nodes it reaches. */
  class Output {
    var head: OutputNode?
    ghost var nodes: seq<OutputNode>
    ghost var entries: seq<Entry>
    ghost var Repr: set<object>

    /**
     * The nodes are distinct and linked in order through `next`; the
     * head's `last` is the tail; each node holds the corresponding entry,
     * its operand text included.
     */
    ghost predicate Valid()
      reads this, Repr
    {
      && this in Repr
      && (forall i :: 0 <= i < |nodes| ==> nodes[i] in Repr)
      && |entries| == |nodes|
      && (forall i, j :: 0 <= i < j < |nodes| ==> nodes[i] != nodes[j])
      && head == (if |nodes| == 0 then null else nodes[0])
      && (forall i :: 0 <= i < |nodes| ==>
            nodes[i].next == (if i + 1 < |nodes| then nodes[i + 1] else null))
      && (|nodes| > 0 ==> nodes[0].last == nodes[|nodes| - 1])
      && (forall i :: 0 <= i < |nodes| ==>
            && nodes[i].opcode == entries[i].opcode
            && nodes[i].operand == entries[i].operand
            && nodes[i].finalOperand == entries[i].finalOperand
            && nodes[i].operandType == entries[i].operandType)
    }

    /** `output *head = NULL`. */
    constructor ()
      ensures Valid() && fresh(Repr) && entries == []
    {
      head := null;
      nodes := [];
      entries := [];
      Repr := {this};
    }

    /**
     * `AddOutputNode(opcode, operand, type, &head)`, where `nodeAllocated`
     * and `operandAllocated` say whether its two `malloc` calls succeed:
     * on success the new entry is at the tail and the result is
     * EXIT_SUCCESS; otherwise the list is unchanged and the result is
     * EXIT_FAILURE.
     */
    method AddOutputNode(opcode: int, operand: string, operandType: OperandType,
                         nodeAllocated: bool, operandAllocated: bool) returns (status: int)
      requires Valid() && NoNul(operand)
      modifies Repr
      ensures Valid() && fresh(Repr - old(Repr))
      ensures status == if nodeAllocated && operandAllocated then EXIT_SUCCESS else EXIT_FAILURE
      ensures status == EXIT_SUCCESS ==> entries == old(entries) + [Entry(opcode, operand, UNRESOLVED, operandType)]
      ensures status == EXIT_FAILURE ==> entries == old(entries)
      ensures old(head) != null ==> head == old(head)
    {
      if !nodeAllocated || !operandAllocated {
        return EXIT_FAILURE;
      }
      var node := new OutputNode(opcode, operand, operandType);
      if head == null {
        head := node;
        node.last := head;
        nodes := [node];
        entries := [Entry(opcode, operand, UNRESOLVED, operandType)];
        Repr := Repr + {node};
        return EXIT_SUCCESS;
      }
      Append(node, Entry(opcode, operand, UNRESOLVED, operandType));
      return EXIT_SUCCESS;
    }

    /** The non-empty case of `AddOutputNode`: link the node after the tail and make it the tail. */
    method Append(node: OutputNode, ghost e: Entry)
      requires Valid() && head != null && node !in Repr
      requires node.next == null
      requires node.opcode == e.opcode && node.operand == e.operand
      requires node.finalOperand == e.finalOperand && node.operandType == e.operandType
      modifies Repr
      ensures Valid() && Repr == old(Repr) + {node} && head == old(head)
      ensures entries == old(entries) + [e]
    {
      ghost var n := |nodes|;
      var tail := head.last;
      assert forall i :: 0 <= i < n - 1 ==> nodes[i] != tail;
      tail.next := node;
      head.last := node;
      nodes := nodes + [node];
      entries := entries + [e];
      Repr := Repr + {node};
    }

    /** `FreeOutputList(&head)`: the list becomes empty. */
    method FreeOutputList()
      requires Valid()
      modifies this
      ensures Valid() && head == null && entries == []
    {
      head := null;
      nodes := [];
      entries := [];
      Repr := {this};
    }
  }
}
