/**
 * The parsed derive input, reduced to what the generator inspects: the enum's
 * name, each variant's name, attributes and field shape, and each field's
 * declared type and attributes. Parsing itself happens outside the model.
 */
module Syntax {

  /** One token tree of an attribute's argument list. */
  datatype TokenTree =
    | Ident(text: string)
    | Punct(ch: char)
    | Literal(repr: string)
    | Group(stream: seq<TokenTree>)

  /** An attribute path such as `debug` or `::serde::rename`. */
  datatype AttrPath = AttrPath(leadingColon: bool, segments: seq<string>)

  /** The three forms of `#[...]`: `#[p]`, `#[p(tokens)]` and `#[p = value]`. */
  datatype Attribute =
    | MetaPath(path: AttrPath)
    | MetaList(path: AttrPath, tokens: seq<TokenTree>)
    | MetaNameValue(path: AttrPath)

  /**
   * A field's declared type: a path type keeps the identifiers of its
   * segments (generic arguments dropped); every other type is opaque.
   */
  datatype FieldType = TypePath(segments: seq<string>) | OtherType

  datatype Field = Field(ty: FieldType, attrs: seq<Attribute>)

  datatype NamedField = NamedField(ident: string, ty: FieldType, attrs: seq<Attribute>)

  datatype Fields =
    | Unit
    | Unnamed(unnamed: seq<Field>)
    | Named(named: seq<NamedField>)

  datatype Variant = Variant(ident: string, attrs: seq<Attribute>, fields: Fields)

  datatype Data = Enum(variants: seq<Variant>) | Struct | Union

  datatype DeriveInput = DeriveInput(ident: string, data: Data)

  /** The path is the single identifier `word`, written without a leading `::`. */
  predicate PathIsIdent(path: AttrPath, word: string)
  {
    !path.leadingColon && path.segments == [word]
  }
}
