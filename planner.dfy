/**
 * The per-variant plan of `derive_debug_flat`: for each variant of the enum,
 * which kind of `Debug` match arm is emitted, or why generation fails.
 */
module Planner {
  import opened Wrappers
  import opened Syntax
  import opened Directives

  /** One positional slot of a multi-field tuple arm: the binding `field_i`, or `_`. */
  datatype Slot = Bound(index: nat) | Placeholder

  /** The emitted match arm of one variant; `variant` is the name it writes. */
  datatype Arm =
    | BareName(variant: string)                        // unit variant: writes the name
    | BareIgnoring(variant: string)                    // `V(_)`: writes the name, ignores the value
    | Flatten(variant: string, prefix: string)         // writes the value's own output, label replaced
    | Tuple1(variant: string)                          // `debug_tuple(V).field(value)`
    | TupleN(variant: string, slots: seq<Slot>)        // `debug_tuple(V)` over `field_0..field_{n-1}`
    | Struct(variant: string, fieldNames: seq<string>) // `debug_struct(V)` over every named field

  /** The generated `impl Debug for <typeName>` with one arm per variant. */
  datatype DebugImpl = DebugImpl(typeName: string, arms: seq<Arm>)

  datatype Error = ConflictingDirectives(variant: string) | NotAnEnum

  const ConflictMessagePrefix: string :=
    "Cannot use both `#[debug(skip)]` and `#[debug(flatten)]` on the same variant: "
  const NotAnEnumMessage: string := "DebugFlat can only be derived for enums"

  /** The text the build reports for an error; a conflict names its variant. */
  function Message(e: Error): (m: string)
    ensures e.ConflictingDirectives? ==>
      ConflictMessagePrefix <= m && m[|ConflictMessagePrefix|..] == e.variant
    ensures e.NotAnEnum? ==> m == NotAnEnumMessage
  {
    match e
    case ConflictingDirectives(v) => ConflictMessagePrefix + v
    case NotAnEnum => NotAnEnumMessage
  }

  /** Distinct conflicting variants are reported with distinct messages. */
  lemma MessageIdentifiesVariant(a: string, b: string)
    requires Message(ConflictingDirectives(a)) == Message(ConflictingDirectives(b))
    ensures a == b
  {
    var p := ConflictMessagePrefix;
    assert a == (p + a)[|p|..];
    assert b == (p + b)[|p|..];
  }

  /** The variant carries both `#[debug(skip)]` and `#[debug(flatten)]`. */
  predicate Conflicts(v: Variant)
  {
    HasDebugSkip(v.attrs) && HasDebugFlatten(v.attrs)
  }

  /** The identifier of the last segment of a path type. */
  function LastSegment(ty: FieldType): Option<string>
  {
    match ty
    case TypePath(segments) =>
      if |segments| == 0 then None else Some(segments[|segments| - 1])
    case OtherType => None
  }

  /** The label expected at the start of the field's own output; empty when there is none. */
  function TypePrefix(ty: FieldType): string
  {
    match LastSegment(ty)
    case Some(ident) => ident
    case None => ""
  }

  /** The field's type is named like the variant (by its last path segment). */
  predicate NameMatches(ty: FieldType, variantName: string)
  {
    LastSegment(ty) == Some(variantName)
  }

  /** Whether a single-field variant writes its payload's own output instead of a tuple. */
  predicate ShouldOmitVariant(variantSkip: bool, variantFlatten: bool, ty: FieldType, variantName: string)
  {
    !variantSkip && (NameMatches(ty, variantName) || variantFlatten)
  }

  /** The slots of a positional multi-field arm, one per field in order. */
  function TupleSlots(fields: seq<Field>): seq<Slot>
  {
    seq(|fields|, i requires 0 <= i < |fields| =>
      if HasDebugSkip(fields[i].attrs) then Placeholder else Bound(i))
  }

  function FieldNames(fields: seq<NamedField>): seq<string>
  {
    seq(|fields|, i requires 0 <= i < |fields| => fields[i].ident)
  }

  /** The arm kind each field shape admits, and its length for the list arms. */
  predicate ArmFits(fields: Fields, arm: Arm)
  {
    match fields
    case Unit => arm.BareName?
    case Unnamed(fs) =>
      if |fs| == 1 then arm.BareIgnoring? || arm.Flatten? || arm.Tuple1?
      else arm.TupleN? && |arm.slots| == |fs|
    case Named(nfs) => arm.Struct? && |arm.fieldNames| == |nfs|
  }

  /** The arm emitted for one variant, or the conflict that aborts generation. */
  function PlanVariant(v: Variant): (r: Result<Arm, Error>)
    ensures r.Failure? <==> Conflicts(v)
    ensures r.Failure? ==> r.error == ConflictingDirectives(v.ident)
    ensures r.Success? ==> r.value.variant == v.ident && ArmFits(v.fields, r.value)
  {
    var variantSkip := HasDebugSkip(v.attrs);
    var variantFlatten := HasDebugFlatten(v.attrs);
    if variantSkip && variantFlatten then Failure(ConflictingDirectives(v.ident))
    else
      match v.fields
      case Unit => Success(BareName(v.ident))
      case Unnamed(fs) =>
        if |fs| == 1 then
          if HasDebugSkip(fs[0].attrs) then Success(BareIgnoring(v.ident))
          else if ShouldOmitVariant(variantSkip, variantFlatten, fs[0].ty, v.ident) then
            Success(Flatten(v.ident, TypePrefix(fs[0].ty)))
          else Success(Tuple1(v.ident))
        else Success(TupleN(v.ident, TupleSlots(fs)))
      case Named(nfs) => Success(Arm.Struct(v.ident, FieldNames(nfs)))
  }

  /** No variant of `variants` carries both directives. */
  predicate NoConflicts(variants: seq<Variant>)
  {
    forall i | 0 <= i < |variants| :: !Conflicts(variants[i])
  }

  /** `arms` holds, position by position, the arm each variant is planned to. */
  predicate ArmsFollow(variants: seq<Variant>, arms: seq<Arm>)
  {
    |arms| == |variants| &&
    forall i | 0 <= i < |variants| :: PlanVariant(variants[i]) == Success(arms[i])
  }

  /** Variant `k` is the first conflicting one, and `e` is the error that names it. */
  predicate FirstConflictAt(variants: seq<Variant>, k: int, e: Error)
  {
    0 <= k < |variants| && Conflicts(variants[k]) &&
    e == ConflictingDirectives(variants[k].ident) &&
    forall j | 0 <= j < k :: !Conflicts(variants[j])
  }

  /** Steps of `PlanArms` over the first variant and the rest. */
  lemma NoConflictsCons(variants: seq<Variant>)
    requires |variants| > 0
    ensures NoConflicts(variants) <==> !Conflicts(variants[0]) && NoConflicts(variants[1..])
  {
  }

  lemma ArmsFollowCons(variants: seq<Variant>, arm: Arm, arms: seq<Arm>)
    requires |variants| > 0 && PlanVariant(variants[0]) == Success(arm)
    requires ArmsFollow(variants[1..], arms)
    ensures ArmsFollow(variants, [arm] + arms)
  {
  }

  lemma FirstConflictShift(variants: seq<Variant>, k: int, e: Error)
    requires |variants| > 0 && !Conflicts(variants[0])
    requires FirstConflictAt(variants[1..], k, e)
    ensures FirstConflictAt(variants, k + 1, e)
  {
  }

  /**
   * The arms of all variants in declaration order. The variants are planned
   * one after another, so the first conflicting variant aborts the whole derive.
   */
  function PlanArms(variants: seq<Variant>): (r: Result<seq<Arm>, Error>)
    ensures r.Success? <==> NoConflicts(variants)
    ensures r.Success? ==> ArmsFollow(variants, r.value)
    ensures r.Failure? ==> exists k :: FirstConflictAt(variants, k, r.error)
  {
    if variants == [] then Success([])
    else
      NoConflictsCons(variants);
      match PlanVariant(variants[0])
      case Failure(e) =>
        assert FirstConflictAt(variants, 0, e);
        Failure(e)
      case Success(arm) =>
        match PlanArms(variants[1..])
        case Failure(e) =>
          var k :| FirstConflictAt(variants[1..], k, e);
          FirstConflictShift(variants, k, e);
          Failure(e)
        case Success(arms) =>
          ArmsFollowCons(variants, arm, arms);
          Success([arm] + arms)
  }

  /** The whole derive: an impl for an enum, or an error and nothing else. */
  function DeriveDebugFlat(input: DeriveInput): (r: Result<DebugImpl, Error>)
    ensures !input.data.Enum? ==> r == Failure(NotAnEnum)
    ensures r.Success? <==> input.data.Enum? && NoConflicts(input.data.variants)
    ensures r.Success? ==>
      r.value.typeName == input.ident && |r.value.arms| == |input.data.variants| &&
      forall i | 0 <= i < |r.value.arms| ::
        r.value.arms[i].variant == input.data.variants[i].ident &&
        ArmFits(input.data.variants[i].fields, r.value.arms[i])
    ensures r.Failure? && input.data.Enum? ==>
      exists k :: FirstConflictAt(input.data.variants, k, r.error)
  {
    match input.data
    case Enum(variants) =>
      (match PlanArms(variants)
       case Success(arms) => Success(DebugImpl(input.ident, arms))
       case Failure(e) => Failure(e))
    case _ => Failure(NotAnEnum)
  }
}
