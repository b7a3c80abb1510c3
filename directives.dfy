/** The directive reader: `#[debug(skip)]` and `#[debug(flatten)]`. */
module Directives {
  import opened Syntax

  /** Only list-form attributes whose path is exactly `debug` are inspected. */
  predicate IsDebugList(attr: Attribute)
  {
    attr.MetaList? && PathIsIdent(attr.path, "debug")
  }

  /** Some top-level token is the identifier `word`; nested groups are not searched. */
  function HasIdentToken(tokens: seq<TokenTree>, word: string): (r: bool)
    ensures r <==> Ident(word) in tokens
  {
    if tokens == [] then false
    else
      (match tokens[0]
       case Ident(text) => text == word
       case _ => false)
      || HasIdentToken(tokens[1..], word)
  }

  /** Some `debug(...)` attribute carries `word` among its top-level tokens. */
  function HasDebugWord(attrs: seq<Attribute>, word: string): (r: bool)
    ensures r <==> exists attr :: attr in attrs && IsDebugList(attr) && Ident(word) in attr.tokens
  {
    if attrs == [] then false
    else
      (IsDebugList(attrs[0]) && HasIdentToken(attrs[0].tokens, word))
      || HasDebugWord(attrs[1..], word)
  }

  function HasDebugSkip(attrs: seq<Attribute>): (r: bool)
    ensures r <==> exists attr :: attr in attrs && IsDebugList(attr) && Ident("skip") in attr.tokens
  {
    HasDebugWord(attrs, "skip")
  }

  function HasDebugFlatten(attrs: seq<Attribute>): (r: bool)
    ensures r <==> exists attr :: attr in attrs && IsDebugList(attr) && Ident("flatten") in attr.tokens
  {
    HasDebugWord(attrs, "flatten")
  }

  /** The attributes of two lists together carry `word` iff one of the lists does. */
  lemma DebugWordAppend(attrs: seq<Attribute>, more: seq<Attribute>, word: string)
    ensures HasDebugWord(attrs + more, word) <==> HasDebugWord(attrs, word) || HasDebugWord(more, word)
  {
  }

  /** Adding attributes, before or after, never turns `skip` off. */
  lemma SkipMonotone(attrs: seq<Attribute>, more: seq<Attribute>)
    requires HasDebugSkip(attrs)
    ensures HasDebugSkip(attrs + more) && HasDebugSkip(more + attrs)
  {
  }

  /** Adding attributes, before or after, never turns `flatten` off. */
  lemma FlattenMonotone(attrs: seq<Attribute>, more: seq<Attribute>)
    requires HasDebugFlatten(attrs)
    ensures HasDebugFlatten(attrs + more) && HasDebugFlatten(more + attrs)
  {
  }

  /**
   * An attribute that is not `debug(...)` (a path or name-value attribute, or a
   * list under another path) changes neither answer wherever it is inserted.
   */
  lemma OtherAttributesIgnored(before: seq<Attribute>, attr: Attribute, after: seq<Attribute>, word: string)
    requires !IsDebugList(attr)
    ensures HasDebugWord(before + [attr] + after, word) == HasDebugWord(before + after, word)
  {
  }

  /**
   * A token that is not the identifier `word` (punctuation, a literal, another
   * identifier, or a group even if `word` occurs inside it) never counts.
   */
  lemma OtherTokensIgnored(before: seq<TokenTree>, token: TokenTree, after: seq<TokenTree>, word: string)
    requires token != Ident(word)
    ensures HasIdentToken(before + [token] + after, word) == HasIdentToken(before + after, word)
  {
  }

  /**
   * Example of `OtherTokensIgnored`: in `#[debug(skip, flatten)]` each reader
   * passes over the other's marker, so both directives are set.
   */
  lemma SkipAndFlattenTogether()
    ensures var attr := MetaList(AttrPath(false, ["debug"]), [Ident("skip"), Punct(','), Ident("flatten")]);
      HasDebugSkip([attr]) && HasDebugFlatten([attr])
  {
  }

  /**
   * Examples of `OtherTokensIgnored` and `OtherAttributesIgnored`: `#[debug(x(skip))]`,
   * `#[debug = ..]`, `#[serde(skip)]` and `#[::debug(skip)]` do not skip.
   */
  lemma NonDirectivesDoNotSkip()
    ensures !HasDebugSkip([MetaList(AttrPath(false, ["debug"]), [Ident("x"), Group([Ident("skip")])])])
    ensures !HasDebugSkip([MetaNameValue(AttrPath(false, ["debug"]))])
    ensures !HasDebugSkip([MetaList(AttrPath(false, ["serde"]), [Ident("skip")])])
    ensures !HasDebugSkip([MetaList(AttrPath(true, ["debug"]), [Ident("skip")])])
  {
  }
}
