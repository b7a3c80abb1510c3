/**
 * What the emitted arms that write plain text do when the generated `fmt`
 * runs. A payload is represented by its own `Debug` output in each mode:
 * `inner(true)` for `{:#?}` (alternate) and `inner(false)` for `{:?}`.
 */
module Render {
  import opened Wrappers
  import opened Syntax
  import opened Directives
  import opened Planner

  /** `str::strip_prefix`: the rest of `s` after `prefix`, if `s` starts with it. */
  function StripPrefix(s: string, prefix: string): (r: Option<string>)
    ensures r.Some? <==> prefix <= s
    ensures r.Some? ==> prefix + r.value == s
  {
    if prefix <= s then Some(s[|prefix|..]) else None
  }

  /** Stripping a prefix undoes prepending it. */
  lemma StripPrefixOfConcat(prefix: string, rest: string)
    ensures StripPrefix(prefix + rest, prefix) == Some(rest)
  {
  }

  /** The arms whose output is written as text rather than through a builder. */
  predicate WritesText(arm: Arm)
  {
    arm.BareName? || arm.BareIgnoring? || arm.Flatten?
  }

  /**
   * The text an arm writes for a payload whose own output is `inner`, when the
   * formatter's alternate flag is `alternate`. The flatten arm renders the
   * payload in the same mode; when that text does not start with the prefix it
   * writes the payload through the same formatter, so again in the same mode.
   */
  function WriteArm(arm: Arm, inner: bool -> string, alternate: bool): (r: string)
    requires WritesText(arm)
    ensures !arm.Flatten? ==> r == arm.variant
    ensures arm.Flatten? ==> arm.variant <= r || r == inner(alternate)
  {
    match arm
    case BareName(variant) => variant
    case BareIgnoring(variant) => variant
    case Flatten(variant, prefix) =>
      var s := inner(alternate);
      match StripPrefix(s, prefix)
      case Some(stripped) => variant + stripped
      case None => inner(alternate)
  }

  /** Unit and skipped-field arms write exactly the variant name, whatever the payload and the mode. */
  lemma BareArmsWriteName(arm: Arm, inner: bool -> string, alternate: bool)
    requires arm.BareName? || arm.BareIgnoring?
    ensures WriteArm(arm, inner, alternate) == arm.variant
  {
  }

  /** When the payload's output starts with the prefix, the prefix is replaced by the variant name. */
  lemma FlattenReplacesPrefix(variant: string, prefix: string, rest: string, inner: bool -> string, alternate: bool)
    requires inner(alternate) == prefix + rest
    ensures WriteArm(Flatten(variant, prefix), inner, alternate) == variant + rest
  {
  }

  /** Otherwise the payload's own output is written unchanged: no variant name, no tuple. */
  lemma FlattenFallsBack(variant: string, prefix: string, inner: bool -> string, alternate: bool)
    requires !(prefix <= inner(alternate))
    ensures WriteArm(Flatten(variant, prefix), inner, alternate) == inner(alternate)
  {
  }

  /** With an empty prefix the variant name is simply prepended. */
  lemma EmptyPrefixPrepends(variant: string, inner: bool -> string, alternate: bool)
    ensures WriteArm(Flatten(variant, ""), inner, alternate) == variant + inner(alternate)
  {
  }

  /** When the prefix is the variant name itself, the payload's output comes out unchanged. */
  lemma SameNameIsIdentity(variant: string, inner: bool -> string, alternate: bool)
    ensures WriteArm(Flatten(variant, variant), inner, alternate) == inner(alternate)
  {
  }

  /** The output depends on the payload only through its output in the caller's mode. */
  lemma ModeIsThreaded(arm: Arm, inner: bool -> string, other: bool -> string, alternate: bool)
    requires WritesText(arm) && inner(alternate) == other(alternate)
    ensures WriteArm(arm, inner, alternate) == WriteArm(arm, other, alternate)
  {
  }

  /** A unit variant's arm writes its name. */
  lemma UnitVariantWritesName(v: Variant, inner: bool -> string, alternate: bool)
    requires v.fields == Unit && !Conflicts(v)
    ensures PlanVariant(v) == Success(BareName(v.ident))
    ensures WriteArm(PlanVariant(v).value, inner, alternate) == v.ident
  {
  }

  /** A variant whose single field is skipped writes its name, independent of the value. */
  lemma SkippedFieldWritesName(v: Variant, f: Field, inner: bool -> string, alternate: bool)
    requires v.fields == Unnamed([f]) && HasDebugSkip(f.attrs) && !Conflicts(v)
    ensures PlanVariant(v) == Success(BareIgnoring(v.ident))
    ensures WriteArm(PlanVariant(v).value, inner, alternate) == v.ident
  {
  }

  /**
   * `V(V)` where the field's type is named like the variant writes the
   * payload's own output unchanged, in the caller's mode.
   */
  lemma NameMatchIsTransparent(v: Variant, f: Field, inner: bool -> string, alternate: bool)
    requires v.fields == Unnamed([f]) && !HasDebugSkip(f.attrs)
    requires !HasDebugSkip(v.attrs) && NameMatches(f.ty, v.ident)
    ensures PlanVariant(v) == Success(Flatten(v.ident, v.ident))
    ensures WriteArm(PlanVariant(v).value, inner, alternate) == inner(alternate)
  {
  }

  /**
   * A flattened variant whose payload's output starts with the payload type's
   * name writes the variant name followed by the rest of that output.
   */
  lemma FlattenedVariantRelabels(v: Variant, f: Field, rest: string, inner: bool -> string, alternate: bool)
    requires v.fields == Unnamed([f]) && !HasDebugSkip(f.attrs)
    requires !HasDebugSkip(v.attrs) && HasDebugFlatten(v.attrs)
    requires inner(alternate) == TypePrefix(f.ty) + rest
    ensures PlanVariant(v) == Success(Flatten(v.ident, TypePrefix(f.ty)))
    ensures WriteArm(PlanVariant(v).value, inner, alternate) == v.ident + rest
  {
  }

  /**
   * Example of `FlattenFallsBack`: a flattened `Wrap(Inner)` whose payload
   * writes `Custom` writes `Custom`, with no variant name and no tuple.
   */
  lemma FallbackDropsVariantName(inner: bool -> string, alternate: bool)
    requires inner(alternate) == "Custom"
    ensures WriteArm(Flatten("Wrap", "Inner"), inner, alternate) == "Custom"
  {
    assert "Custom"[0] != "Inner"[0];
  }
}
