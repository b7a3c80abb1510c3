# DebugFlat derive: a Dafny model

`DebugFlat` is a Rust derive macro for enums. It generates an
`impl std::fmt::Debug` that writes each variant as one of these:

- the bare variant name;
- `V(value)` in tuple style;
- a field list;
- the payload's own `Debug` output, with the payload type's name at its start
  replaced by the variant's name ("flattening").

Two attribute directives steer the choice: `#[debug(skip)]` and
`#[debug(flatten)]`.

This project models that generator as pure functions over an abstract derive
input and proves properties about them:

- `Syntax` holds the parsed input: the enum and its variants, the field shapes
  (unit, positional, named), the declared field types (path segments or
  opaque), attributes (path, list and name-value form) and their token trees.
- `Directives` is the directive reader (`has_debug_skip`, `has_debug_flatten`).
- `Planner` selects one match arm per variant, or reports the error that aborts
  the derive. Arms are symbolic: `BareName`, `BareIgnoring`, `Flatten`,
  `Tuple1`, `TupleN` with one `Bound(i)`/`Placeholder` slot per field, and
  `Struct` with the field names.
- `PlannerLaws` states the arm selection field shape by field shape.
- `Render` gives the run-time meaning of the arms that write plain text. The
  payload is represented by its own `Debug` output in each formatter mode
  (`inner(alternate)`).

Points of the code's behaviour worth knowing:

- **Flatten fallback.** When the payload's output does not start with the
  expected prefix, the arm writes the payload's own output with no variant
  name and no tuple (`src/lib.rs:72-74`). See `Render.FlattenFallsBack` and
  `Render.FallbackDropsVariantName`.
- **Empty enums.** An enum with no variants is accepted and gets an empty
  `match` (`src/lib.rs:135-143`).
- **Which conflict is reported.** The per-variant generation is a lazy iterator
  that is consumed in declaration order. So when several variants conflict, the
  error names the first of them (`Planner.FirstConflictAt`).
- **Named-field `skip`.** A field-level `skip` on a named field is ignored
  (`src/lib.rs:118-131`, `PlannerLaws.NamedFieldDirectivesIgnored`).

## Model

| member | source | states |
|---|---|---|
| Directives.HasIdentToken | src/lib.rs:166-174 | true iff the identifier `word` is one of the top-level tokens; proved against sequence membership |
| Directives.HasDebugWord | src/lib.rs:157-175 | true iff some attribute is list-form with path exactly `debug` (the helper `IsDebugList`, lines 158-164) and has `word` among its top-level tokens |
| Directives.HasDebugSkip | src/lib.rs:156-176 | true iff some `debug(...)` list attribute has the top-level identifier `skip` |
| Directives.HasDebugFlatten | src/lib.rs:178-198 | true iff some `debug(...)` list attribute has the top-level identifier `flatten` |
| Directives.DebugWordAppend | src/lib.rs:157-175 | the directive holds for `a + b` iff it holds for `a` or for `b` |
| Directives.SkipMonotone | src/lib.rs:156-176 | adding attributes before or after never turns `skip` off |
| Directives.FlattenMonotone | src/lib.rs:178-198 | adding attributes before or after never turns `flatten` off |
| Directives.OtherAttributesIgnored | src/lib.rs:158-164 | inserting a path, name-value or non-`debug` attribute anywhere leaves the answer unchanged |
| Directives.OtherTokensIgnored | src/lib.rs:169-174 | inserting any token other than the identifier itself (punctuation, literal, nested group) leaves the answer unchanged |
| Directives.SkipAndFlattenTogether | src/lib.rs:156-198 | `#[debug(skip, flatten)]` makes both readers true |
| Directives.NonDirectivesDoNotSkip | src/lib.rs:158-174 | `debug(x(skip))`, `debug = ..`, `serde(skip)` and `::debug(skip)` do not skip |
| Planner.Message | src/lib.rs:18-20 | a conflict message is the fixed panic text followed by exactly the variant's name; non-enum input gets the fixed "can only be derived for enums" text (line 147) |
| Planner.MessageIdentifiesVariant | src/lib.rs:19 | two conflict messages are equal only for the same variant name |
| Planner.PlanVariant | src/lib.rs:12-132 | fails iff the variant has both `skip` and `flatten` (`Conflicts`, line 18), whatever its shape, naming that variant; otherwise the arm carries the variant's name and its kind fits the field shape. It is built from `NameMatches` (lines 41-48), `ShouldOmitVariant` (lines 39-49), `LastSegment`/`TypePrefix` (lines 52-59), `TupleSlots` (lines 91-108) and `FieldNames` (lines 119-122), whose behaviour the PlannerLaws rows state |
| Planner.PlanArms | src/lib.rs:12-139 | succeeds iff no variant conflicts; then one arm per variant in declaration order; otherwise the error names the first conflicting variant |
| Planner.DeriveDebugFlat | src/lib.rs:10-151 | non-enum input fails with the non-enum error; an enum succeeds iff no variant conflicts, and then the impl is for the input type with one fitting arm per variant, in order; failure yields no arms |
| PlannerLaws.SkippedFieldComesFirst | src/lib.rs:33-36 | a single skipped field gives the ignoring bare arm, whatever the variant-level directive |
| PlannerLaws.OmitDecision | src/lib.rs:39-86 | a single shown field is flattened iff the variant is not skipped and the type's last segment equals the variant name or the variant is flattened; the prefix is the type's last segment; otherwise the arm is `Tuple1` |
| PlannerLaws.VariantSkipShowsTuple | src/lib.rs:39-49 | a variant-level `skip` shows a single unskipped field in tuple style |
| PlannerLaws.NonPathNeverMatches | src/lib.rs:41-59 | non-path types and paths without segments never match a name and give the empty prefix |
| PlannerLaws.MatchingTypeGivesVariantPrefix | src/lib.rs:52-59 | when the type is named like the variant, the prefix is the variant name |
| PlannerLaws.TupleSlotsFollowFields | src/lib.rs:90-116 | positional variants with 0 or 2+ fields get one slot per field in order: `field_i` at position i, or a placeholder iff that field is skipped |
| PlannerLaws.StructListsEveryField | src/lib.rs:118-131 | named variants list every field by its own name in declaration order |
| PlannerLaws.NamedFieldDirectivesIgnored | src/lib.rs:118-131 | field attributes and types of named fields do not change the arm |
| PlannerLaws.VariantDirectivesIgnoredOnLists | src/lib.rs:89-131 | on multi-field and named variants, variant-level directives do not change the arm (short of a conflict) |
| PlannerLaws.DeriveFollowsVariants | src/lib.rs:135-143 | arm i of a generated impl is the arm planned for variant i |
| Render.StripPrefix | src/lib.rs:68 | yields a rest iff the text starts with the prefix, and prefix + rest is the text |
| Render.StripPrefixOfConcat | src/lib.rs:68 | stripping a prefix undoes prepending it |
| Render.WriteArm | src/lib.rs:24-77 | bare arms write exactly the variant name; the flatten arm writes text that starts with the variant name or is the payload's own output |
| Render.BareArmsWriteName | src/lib.rs:24-36 | unit and skipped-field arms write the variant name, independent of payload and mode |
| Render.FlattenReplacesPrefix | src/lib.rs:68-71 | payload output `prefix + rest` is written as `variant + rest` |
| Render.FlattenFallsBack | src/lib.rs:72-74 | payload output that does not start with the prefix is written unchanged |
| Render.EmptyPrefixPrepends | src/lib.rs:52-71 | with the empty prefix the output is the variant name followed by the payload output |
| Render.SameNameIsIdentity | src/lib.rs:61-77 | when the prefix is the variant name, the output equals the payload output |
| Render.ModeIsThreaded | src/lib.rs:63-74 | the output depends on the payload only through its output in the caller's alternate mode |
| Render.UnitVariantWritesName | src/lib.rs:24-27 | a unit variant is planned to a bare arm and writes exactly its name |
| Render.SkippedFieldWritesName | src/lib.rs:33-36 | a variant whose single field is skipped writes exactly its name, for every value |
| Render.NameMatchIsTransparent | src/lib.rs:39-77 | a single field whose type is named like the variant is flattened with the variant name as prefix, so the payload output comes out unchanged |
| Render.FlattenedVariantRelabels | src/lib.rs:39-77 | a flattened variant whose payload output starts with the type name writes the variant name followed by the rest |
| Render.FallbackDropsVariantName | src/lib.rs:72-74 | a flattened `Wrap(Inner)` whose payload writes `Custom` writes `Custom` |

## Left out

- Parsing the input (`parse_macro_input!`, `syn`) and building the output tokens (`quote!`, `Ident`/`Span` creation, `TokenStream` conversion, compile-error spans). Input and output are abstract datatypes.
- Field types keep only the identifiers of their path segments. Generic arguments and qualified-self types are not modelled, because the generator reads only the last segment's identifier.
- Attribute paths keep only the leading `::` and the segment identifiers. `Path::is_ident` is taken to mean "no leading `::` and exactly the one segment `debug`", as `syn` defines it; `syn` itself is not part of this model.
- The layout written by `debug_tuple`/`debug_struct` and pretty-printing indentation. These are standard-library internals, so `Tuple1`, `TupleN` and `Struct` stay symbolic arms.
- Whether the generated code compiles. The placeholder `dbg.field(&_)` is not valid Rust. It is kept as a `Placeholder` slot only.
- Formatter flags other than alternate mode (width, precision, fill). The fallback path passes the whole formatter to the payload, while the flatten path formats with `{:?}`/`{:#?}` alone. That difference is not captured.
- Errors returned by `Formatter::write_str`. The model treats writing as infallible string concatenation.
- Rust strings are modelled as sequences of characters. `strip_prefix` on UTF-8 text agrees with a prefix test on characters.
