/**
 * The runtime's statement syntax nodes: the `Statement` node with its
 * `next`/`prev` links, the default `scan` hook, `prettyPrint`, and the
 * `Attribute` marker with `lookupName` and `isAttribute`.
 */
module RuntimeSyntax {
  import opened Wrappers
  import GlimmerCompiler

  /** What `prettyPrint` produces: a node, a string, a list of strings, a list or a dictionary of values. */
  datatype PrettyPrintValue =
    | Node(node: PrettyPrint)
    | Text(text: string)
    | Texts(texts: seq<string>)
    | List(items: seq<PrettyPrintValue>)
    | Dict(entries: map<string, PrettyPrintValue>)

  /** A `PrettyPrint` record; an absent params, hash or templates argument is `null`, here None. */
  datatype PrettyPrint = PrettyPrint(
    kind: string,
    operation: string,
    params: Option<seq<PrettyPrintValue>>,
    hash: Option<map<string, PrettyPrintValue>>,
    templates: Option<map<string, int>>)

  /** The `PrettyPrint` constructor called with its two required arguments only. */
  function NewPrettyPrint(kind: string, operation: string): (p: PrettyPrint)
    ensures p.kind == kind && p.operation == operation
    ensures p.params.None? && p.hash.None? && p.templates.None?
  {
    PrettyPrint(kind, operation, None, None, None)
  }

  /**
   * A statement node. Its `type` (here `kind`) and, for attributes, its
   * marker, name and namespace never change; `next` and `prev` are the links
   * of the linked list that holds the node, which only that list updates.
   * The ghost `origin` is the serialized statement the node was built from
   * and `scope` the number of compiled blocks it could refer to when it was
   * built; they exist only to state the scanner's contracts.
   */
  class Statement {
    const kind: string
    var next: Statement?
    var prev: Statement?
    /** The ATTRIBUTE marker property: true on every Attribute instance and on nothing else. */
    const marker: bool
    const name: string
    const namespace: string
    ghost const origin: GlimmerCompiler.Record
    ghost const scope: nat

    /** A plain statement node: both links start out null. */
    constructor (kind: string, ghost origin: GlimmerCompiler.Record, ghost scope: nat)
      ensures this.kind == kind && this.origin == origin && this.scope == scope
      ensures next == null && prev == null
      ensures !IsAttribute(this)
    {
      this.kind := kind;
      this.origin := origin;
      this.scope := scope;
      this.marker := false;
      this.name := "";
      this.namespace := "";
      this.next := null;
      this.prev := null;
    }

    /** An Attribute node: it carries the ATTRIBUTE marker, and both links start out null. */
    constructor Attribute(kind: string, name: string, namespace: string, ghost origin: GlimmerCompiler.Record, ghost scope: nat)
      ensures this.kind == kind && this.name == name && this.namespace == namespace
      ensures this.origin == origin && this.scope == scope
      ensures next == null && prev == null
      ensures IsAttribute(this)
    {
      this.kind := kind;
      this.name := name;
      this.namespace := namespace;
      this.origin := origin;
      this.scope := scope;
      this.marker := true;
      this.next := null;
      this.prev := null;
    }

    /** The default `scan` hook: the node itself, links and all. */
    function Scan(): (r: Statement)
      ensures r == this
    {
      this
    }

    /** `prettyPrint`: a PrettyPrint whose type and operation are both the node's type, with nothing else. */
    function PrettyPrinted(): (r: PrettyPrintValue)
      ensures r.Node? && r.node.kind == kind && r.node.operation == kind
      ensures r.node.params.None? && r.node.hash.None? && r.node.templates.None?
    {
      Node(NewPrettyPrint(kind, kind))
    }

    /** `Attribute.lookupName`: the attribute's name prefixed with "@". */
    function LookupName(): (r: string)
      requires IsAttribute(this)
      ensures |r| == |name| + 1 && r[0] == '@' && r[1..] == name
    {
      "@" + name
    }
  }

  /** `isAttribute(value)`: the value is a node and carries the ATTRIBUTE marker. */
  predicate IsAttribute(value: Statement?)
  {
    value != null && value.marker
  }

  /** Two attributes have the same lookup name exactly when they have the same name. */
  lemma LookupNameInjective(a: Statement, b: Statement)
    requires IsAttribute(a) && IsAttribute(b)
    ensures a.LookupName() == b.LookupName() <==> a.name == b.name
  {
    if a.LookupName() == b.LookupName() {
      assert a.name == a.LookupName()[1..] == b.LookupName()[1..] == b.name;
    }
  }
}
