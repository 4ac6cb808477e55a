/** The generated TypeScript code as a small syntax tree, and the two builders
    of src/tsUtils.ts.  Only the node kinds the generator creates appear. */
module TsUtils {

  datatype PropKey = IdentKey(name: string) | StringKey(text: string)

  datatype Expr =
    | Ident(name: string)
    | PropAccess(target: Expr, member: string)   // target.member
    | ElemAccess(target: Expr, key: string)      // target["key"]
    | StringLit(text: string)
    | Call(callee: Expr, typeArgs: seq<string>, args: seq<Expr>)
    | ObjectLit(props: seq<Prop>)
    | Arrow(param: string, body: Expr)
    | Paren(inner: Expr)
    | NoSubstTemplate(text: string)              // `text`
    | Template(head: string, spans: seq<Span>)   // `head${value}literal...`

  datatype Prop = Prop(key: PropKey, value: Expr)

  /** A template span ends either in a template middle or in the template tail. */
  datatype SpanEnd = Middle | Tail

  datatype Span = Span(value: Expr, literal: string, end: SpanEnd)

  /** The root of a property access: a string, or an identifier node. */
  datatype RootObject = RootString(text: string) | RootIdentifier(escapedText: string)

  function RootIdent(root: RootObject): (e: Expr)
    ensures e.Ident?
    ensures root.RootString? ==> e.name == root.text
    ensures root.RootIdentifier? ==> e.name == root.escapedText
  {
    match root
    case RootString(t) => Ident(t)
    case RootIdentifier(t) => Ident(t)
  }

  /** `accessProperty`: dot access when the name is a valid identifier,
      otherwise an element access keyed by a string literal. */
  function AccessProperty(root: RootObject, name: string, isValidIdentifier: string -> bool): (e: Expr)
    ensures e.PropAccess? <==> isValidIdentifier(name)
    ensures e.ElemAccess? <==> !isValidIdentifier(name)
    ensures e.PropAccess? ==> e.target == RootIdent(root) && e.member == name
    ensures e.ElemAccess? ==> e.target == RootIdent(root) && e.key == name
  {
    if isValidIdentifier(name) then PropAccess(RootIdent(root), name)
    else ElemAccess(RootIdent(root), name)
  }

  /** `createObject`: one property assignment per entry, keys and values
      unchanged and in insertion order. */
  function CreateObject(entries: seq<(string, Expr)>): (e: Expr)
    ensures e.ObjectLit? && |e.props| == |entries|
    ensures forall i :: 0 <= i < |entries| ==>
      e.props[i].key == IdentKey(entries[i].0) && e.props[i].value == entries[i].1
  {
    ObjectLit(seq(|entries|, i requires 0 <= i < |entries| => Prop(IdentKey(entries[i].0), entries[i].1)))
  }
}
