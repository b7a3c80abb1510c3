/** Laws of the arm selection, one field shape at a time. */
module PlannerLaws {
  import opened Wrappers
  import opened Syntax
  import opened Directives
  import opened Planner

  /** A skipped single field gives `V(_)` whatever the variant-level directive (short of a conflict). */
  lemma SkippedFieldComesFirst(v: Variant, f: Field)
    requires v.fields == Unnamed([f]) && HasDebugSkip(f.attrs) && !Conflicts(v)
    ensures PlanVariant(v) == Success(BareIgnoring(v.ident))
  {
  }

  /**
   * For a single shown field the payload's own output replaces the tuple
   * exactly when the variant is not skipped and either the type is named like
   * the variant or the variant is flattened; otherwise it is `V(value)`.
   */
  lemma OmitDecision(v: Variant, f: Field)
    requires v.fields == Unnamed([f]) && !HasDebugSkip(f.attrs) && !Conflicts(v)
    ensures PlanVariant(v).Success?
    ensures PlanVariant(v).value.Flatten? <==>
      !HasDebugSkip(v.attrs) && (NameMatches(f.ty, v.ident) || HasDebugFlatten(v.attrs))
    ensures PlanVariant(v).value.Flatten? ==> PlanVariant(v).value.prefix == TypePrefix(f.ty)
    ensures !PlanVariant(v).value.Flatten? ==> PlanVariant(v).value == Tuple1(v.ident)
  {
  }

  /** A variant-level `skip` always shows a single unskipped field in tuple style. */
  lemma VariantSkipShowsTuple(v: Variant, f: Field)
    requires v.fields == Unnamed([f]) && !HasDebugSkip(f.attrs) && HasDebugSkip(v.attrs)
    requires !HasDebugFlatten(v.attrs)
    ensures PlanVariant(v) == Success(Tuple1(v.ident))
  {
  }

  /** Types that are not paths, and paths without segments, never match a name and give an empty prefix. */
  lemma NonPathNeverMatches(name: string)
    ensures !NameMatches(OtherType, name) && TypePrefix(OtherType) == ""
    ensures !NameMatches(TypePath([]), name) && TypePrefix(TypePath([])) == ""
  {
  }

  /** A type named like the variant makes the prefix the variant's own name. */
  lemma MatchingTypeGivesVariantPrefix(ty: FieldType, name: string)
    requires NameMatches(ty, name)
    ensures TypePrefix(ty) == name && ty.TypePath? && |ty.segments| > 0
  {
  }

  /**
   * Positional variants with zero or several fields list one slot per field
   * in order: position i is `field_i`, or a placeholder when that field is skipped.
   */
  lemma TupleSlotsFollowFields(v: Variant, fs: seq<Field>)
    requires v.fields == Unnamed(fs) && |fs| != 1 && !Conflicts(v)
    ensures PlanVariant(v).Success? && PlanVariant(v).value.TupleN?
    ensures var slots := PlanVariant(v).value.slots;
      |slots| == |fs| &&
      forall i | 0 <= i < |fs| ::
        (slots[i] == Placeholder <==> HasDebugSkip(fs[i].attrs)) &&
        (slots[i].Bound? ==> slots[i].index == i)
  {
  }

  /** Named variants list every field by its own name in declaration order. */
  lemma StructListsEveryField(v: Variant, nfs: seq<NamedField>)
    requires v.fields == Named(nfs) && !Conflicts(v)
    ensures PlanVariant(v).Success? && PlanVariant(v).value.Struct?
    ensures var names := PlanVariant(v).value.fieldNames;
      |names| == |nfs| && forall i | 0 <= i < |nfs| :: names[i] == nfs[i].ident
  {
  }

  /**
   * Field-level directives have no effect on a named variant: two variants
   * whose named fields differ only in types and attributes get the same arm.
   */
  lemma NamedFieldDirectivesIgnored(v: Variant, w: Variant, nfs: seq<NamedField>, mfs: seq<NamedField>)
    requires v.fields == Named(nfs) && w.fields == Named(mfs)
    requires v.ident == w.ident && v.attrs == w.attrs
    requires |nfs| == |mfs| && forall i | 0 <= i < |nfs| :: nfs[i].ident == mfs[i].ident
    ensures PlanVariant(v) == PlanVariant(w)
  {
    assert FieldNames(nfs) == FieldNames(mfs);
  }

  /**
   * On list-shaped variants a variant-level `skip` or `flatten` changes
   * nothing: short of a conflict, the arm depends only on name and fields.
   */
  lemma VariantDirectivesIgnoredOnLists(v: Variant, w: Variant)
    requires v.ident == w.ident && v.fields == w.fields
    requires v.fields.Named? || (v.fields.Unnamed? && |v.fields.unnamed| != 1)
    requires !Conflicts(v) && !Conflicts(w)
    ensures PlanVariant(v) == PlanVariant(w)
  {
  }

  /** Every successful plan of a whole enum arms each variant as `PlanVariant` does, in order. */
  lemma DeriveFollowsVariants(input: DeriveInput, i: nat)
    requires DeriveDebugFlat(input).Success? && i < |input.data.variants|
    ensures PlanVariant(input.data.variants[i]) == Success(DeriveDebugFlat(input).value.arms[i])
  {
  }
}
