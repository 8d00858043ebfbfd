/**
 * The schema tree the host hands to a configurator: a `Source` and a `Target`
 * branch, each with its top-level child nodes in `Object.values` order. A node
 * carries its field descriptor and possibly nested children.
 */
module SchemaTree {

  datatype FieldInfo = FieldInfo(fieldName: string, fieldLabel: string, isEditable: bool)

  datatype Node = Node(field: FieldInfo, children: seq<Node>)

  datatype Branch = Branch(children: seq<Node>)

  datatype Schema = Schema(source: Branch, target: Branch)

  /**
   * What the host may assign to the `schema` slot: `undefined`, another falsy
   * value (`null`, `false`, `0`, `""`), or a schema tree.
   */
  datatype SchemaValue = Undefined | Falsy | Tree(tree: Schema)
}
