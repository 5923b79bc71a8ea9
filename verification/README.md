# Image sizes: orientation, scale and size values

A Dafny model of a small Rust value-type library that describes image
dimensions. It has three types:

- `Orientation` is `Thumbnail`, `Landscape` or `Portrait`.
- `Scale` is one of seven ordered tiers, `XXSM` to `XXLG`.
- `Size` is a record of a scale, an orientation, and an `i32` width and height.

Each enum converts to and from text in three ways:

- **Display/serialize** writes a fixed uppercase token.
- **Strict deserialize** matches the token without regard to case. It fails
  with an unknown-variant error on anything else.
- **Lenient `From`** never fails. It maps every unrecognised string to the
  default variant, which is `Thumbnail` or `XXSM`.

The model keeps the strict and lenient paths as separate functions. It
proves that they agree wherever the strict path succeeds, and that the
lenient path falls back to the default everywhere else.

`Size` has three constructors and an emptiness test. The database decoder
for a stored `Size` strips one optional leading U+0001 marker and then parses
the rest as JSON.

Modules, one per source concern:

| file | module | models |
|---|---|---|
| `wrappers.dfy` | `Wrappers` | `Option` and `Result` |
| `text.dfy` | `Text` | case folding (`to_lowercase`), ASCII only |
| `serde.dfy` | `Serde` | JSON values as a derived deserializer sees them; deserialization errors |
| `cmp.dfy` | `Cmp` | `Ordering`, and order by declaration position |
| `orientations.dfy` | `Orientations` | `src/orientations.rs` |
| `scales.dfy` | `Scales` | `src/scales.rs` |
| `sizes.dfy` | `Sizes` | `src/sizes.rs`: the record, the constructors, `is_empty`, marker stripping |
| `size_json.dfy` | `SizeJson` | the serde-derived object form of `Size` and the column decoder |

Two details follow the code as written:

- The column decoder strips only the character U+0001. Any other leading
  control character is passed to the JSON parser.
- The expected-token list in the `Orientation` unknown-variant error is
  `["THUMBNAIL", "LANDSCAPE"]`, which omits `PORTRAIT`. `Orientations.Expected`
  keeps that list, and `Orientations.ExpectedListOmitsPortrait` proves that
  the list leaves out a token the strict path accepts.

## Model

| member | source | states |
|---|---|---|
| Text.Lower | src/orientations.rs:62 | folding keeps the length and maps each character on its own, ASCII capitals to small letters |
| Text.LowerFolds | src/orientations.rs:62 | a folded string has no ASCII capital; only ASCII capitals change |
| Text.LowerIdempotent | src/orientations.rs:62 | folding twice is the same as folding once |
| Orientations.Rank | src/orientations.rs:22-29 | a variant's discriminant is its position in the declaration |
| Orientations.Compare | src/orientations.rs:22-29 | the derived comparison gives `Equal` exactly for equal variants |
| Orientations.CompareFollowsDeclaration | src/orientations.rs:22-29 | `a < b` exactly when `a` is declared before `b` |
| Orientations.OrderFacts | src/orientations.rs:22-29 | `Thumbnail < Landscape < Portrait`; swapping the arguments reverses the comparison; the order is transitive; the default is least |
| Orientations.Default | src/orientations.rs:22-29 | the default is the first declared variant, `Thumbnail` |
| Orientations.Display | src/orientations.rs:31-40 | each variant displays as its entry in the table `THUMBNAIL, LANDSCAPE, PORTRAIT`, indexed by declaration position |
| Orientations.DisplayInjective | src/orientations.rs:31-40 | two variants have the same token only if they are the same variant |
| Orientations.LowerDisplay | src/orientations.rs:31-40 | folding a display token gives the lowercase token that both parsers match against |
| Orientations.Serialize | src/orientations.rs:43-53 | serialize emits a JSON string that holds the display token |
| Orientations.Deserialize | src/orientations.rs:55-72 | on success, the input folds to the result's token; on failure, it folds to no variant's token and the error is unknown-variant with the input as given and the two-token list |
| Orientations.StrictAcceptsExactly | src/orientations.rs:62-69 | the strict path succeeds if and only if the folded input is `thumbnail`, `landscape` or `portrait` |
| Orientations.StrictRoundTrip | src/orientations.rs:43-72 | deserializing the serialized token gives the variant back |
| Orientations.ExpectedListOmitsPortrait | src/orientations.rs:62-69 | `PORTRAIT` deserializes, but it is missing from the expected list that every failure reports |
| Orientations.From | src/orientations.rs:74-82 | lenient conversion equals the strict result where the strict path succeeds, and is `Thumbnail` where it fails |
| Orientations.LenientCases | src/orientations.rs:74-82 | `Landscape` and `Portrait` come exactly from their folded tokens; every other input, `thumbnail` included, gives `Thumbnail` |
| Orientations.LenientRoundTrip | src/orientations.rs:74-82 | lenient conversion of a display token gives the variant back |
| Orientations.CaseInsensitive | src/orientations.rs:55-82 | inputs with the same folded form get the same lenient and strict results |
| Orientations.FromOption | src/orientations.rs:96-103 | a present string converts like `From<String>`; the result is the strict result when the strict path accepts the string, and `Thumbnail` when it is absent or rejected |
| Orientations.KnownTokenExamples | src/orientations.rs:12-21 | `from("landscape")` and `from("LANDSCAPE")` are `Landscape`, which displays as `LANDSCAPE`; `from(None)` is `Thumbnail` |
| Orientations.UnknownTokenExamples | src/orientations.rs:66-82 | `from("unknown")` and `from("thumbnail")` are `Thumbnail`; strict `"bogus"` is an unknown-variant error |
| Scales.Rank | src/scales.rs:27-38 | a tier's discriminant is its position in the declaration |
| Scales.Compare | src/scales.rs:27-38 | the derived comparison gives `Equal` exactly for equal tiers |
| Scales.CompareFollowsDeclaration | src/scales.rs:27-38 | `a < b` exactly when `a` is declared before `b` |
| Scales.DeclarationChain | src/scales.rs:27-38 | `XXSM < XSM < SM < MD < LG < XLG < XXLG` holds for every pair in declaration order |
| Scales.OrderFacts | src/scales.rs:27-38 | swapping the arguments reverses the comparison; the order is transitive; `XXSM` (the default) is least and `XXLG` greatest |
| Scales.Default | src/scales.rs:27-38 | the default is the first declared tier, `XXSM` |
| Scales.Display | src/scales.rs:40-54 | each tier displays as its entry in the table `XXSM … XXLG`, indexed by declaration position |
| Scales.DisplayInjective | src/scales.rs:40-54 | two tiers have the same token only if they are the same tier |
| Scales.LowerDisplay | src/scales.rs:40-54 | folding a display token gives the lowercase token that both parsers match against |
| Scales.Serialize | src/scales.rs:56-70 | serialize emits a JSON string that holds the display token |
| Scales.Deserialize | src/scales.rs:72-93 | on success, the input folds to the result's token; on failure, it folds to no tier's token and the error is unknown-variant with the input and all seven tokens |
| Scales.StrictAcceptsExactly | src/scales.rs:79-91 | the strict path succeeds if and only if the folded input is one of the seven lowercase tokens |
| Scales.StrictRoundTrip | src/scales.rs:56-93 | deserializing the serialized token gives the tier back |
| Scales.ExpectedListComplete | src/scales.rs:87-91 | every display token is in the expected list of the error |
| Scales.From | src/scales.rs:95-108 | lenient conversion equals the strict result where the strict path succeeds, and is `XXSM` where it fails |
| Scales.LenientDefault | src/scales.rs:95-108 | unrecognised text gives `XXSM`; any other lenient result is exactly what the strict path returns |
| Scales.LenientRoundTrip | src/scales.rs:95-108 | lenient conversion of a display token gives the tier back |
| Scales.CaseInsensitive | src/scales.rs:72-108 | inputs with the same folded form get the same lenient and strict results |
| Scales.FromOption | src/scales.rs:122-129 | a present string converts like `From<String>`; the result is the strict result when the strict path accepts the string, and `XXSM` when it is absent or rejected |
| Scales.Examples | src/scales.rs:17-26 | `from("lg")` is `LG`, which displays as `LG`; `from(None)` is `XXSM`; strict `"bogus"` is an unknown-variant error |
| Sizes.Default | src/sizes.rs:14-22 | the derived default has the first declared scale and orientation and zero width and height |
| Sizes.NewThumbnail | src/sizes.rs:36-43 | the result is a `Thumbnail` with the given scale; width and height both equal the given side |
| Sizes.NewLandscape | src/sizes.rs:54-61 | the result is a `Landscape` with the given scale, width and height, whatever their relation |
| Sizes.NewPortrait | src/sizes.rs:72-79 | the result is a `Portrait` with the given scale, width and height, whatever their relation |
| Sizes.IsEmpty | src/sizes.rs:93-95 | a size is empty if and only if it is `{XXSM, Thumbnail, 0, 0}` |
| Sizes.DefaultIsEmpty | src/sizes.rs:14-22 | the derived default is empty |
| Sizes.LandscapeNeverEmpty | src/sizes.rs:54-61 | no landscape size is empty |
| Sizes.PortraitNeverEmpty | src/sizes.rs:72-79 | no portrait size is empty |
| Sizes.ThumbnailEmptyIff | src/sizes.rs:36-43 | a thumbnail is empty if and only if its side is 0 and its scale is `XXSM` |
| Sizes.ConstructorsCover | src/sizes.rs:36-79 | a size built again with the constructor its orientation names is unchanged (a thumbnail must be square) |
| Sizes.Examples | src/sizes.rs:81-95 | the documented constructor results; `new_thumbnail(100, MD)` and `new_portrait(800, 1200, MD)` are not empty; a landscape taller than wide is accepted |
| Sizes.StripMarker | src/sizes.rs:113-115 | the result is the text with one leading U+0001 removed, or the text itself when it does not start with U+0001 |
| Sizes.StripAfterMarker | src/sizes.rs:113-115 | a U+0001 put in front of any text is stripped again |
| Sizes.StripWithoutMarker | src/sizes.rs:113-115 | text that does not start with the marker is unchanged |
| Sizes.StripAtMostOne | src/sizes.rs:113-115 | of two leading markers, only one is stripped |
| SizeJson.Encode | src/sizes.rs:14-22 | the object has exactly the four keys, holding the two enum tokens and the two integers |
| SizeJson.DecodeInt32 | src/sizes.rs:17-22 | an `i32` field accepts exactly the integers in range and keeps their value |
| SizeJson.DecodeScale | src/scales.rs:72-93 | a scale value is read exactly when it is a JSON string the strict path accepts, giving the strict result |
| SizeJson.DecodeOrientation | src/orientations.rs:55-72 | an orientation value is read exactly when it is a JSON string the strict path accepts, giving the strict result |
| SizeJson.Decode | src/sizes.rs:14-22 | a read succeeds if and only if all four keys are present with accepted values; the integers come from their keys unchanged, and each enum is the strict path's result on its key's string |
| SizeJson.RoundTrip | src/sizes.rs:14-22 | reading an encoded size gives it back |
| SizeJson.ExtraKeysIgnored | src/sizes.rs:14-22 | adding a key outside the record does not change the read |
| SizeJson.MissingKeyFails | src/sizes.rs:14-22 | when any of the four keys is absent, reading fails, and the error is a missing field when every present key holds an accepted value |
| SizeJson.RejectedValueBeforeMissing | src/sizes.rs:14-22 | a present value its field rejects is reported instead of any missing field |
| SizeJson.DecodeColumn | src/sizes.rs:111-118 | unmarked text is parsed and read as it is; text starting with U+0001 is parsed and read without that first character |
| SizeJson.UnparsableRejected | src/sizes.rs:111-118 | text that is not JSON after stripping is a decode error, with or without a marker |
| SizeJson.MarkerTolerated | src/sizes.rs:111-118 | a stored value decodes the same with or without a leading marker |
| SizeJson.StoredRoundTrip | src/sizes.rs:111-118 | text that parses to a size's object form decodes to that size, with or without the marker |

## Left out

- Case folding: Rust's `to_lowercase` is Unicode-aware, but `Text.Lower` folds only ASCII capitals. Outside ASCII, two characters lowercase to text containing an ASCII letter. The Kelvin sign becomes `k`, and no token contains `k`. The capital dotted I (U+0130) becomes `i` followed by U+0307, and no token contains U+0307. So the set of accepted inputs is the same under both. This argument is not proved in Dafny.
- `From<&String>` and `From<&str>` (src/orientations.rs:84-94, src/scales.rs:110-120) copy the text and call `From<String>`. Dafny strings have no owned/borrowed distinction, so all three forms are the single function `From`.
- Formatter mechanics: `Display` is a pure function to a string. `Serialize` returns a JSON string value, not calls on a `Serializer`.
- Error message text: only the error's variant, the offending token and the expected list are modelled.
- The `sqlx` `Type`/`Encode` impls and the enum `#[sqlx(...)]` attributes are database-driver bindings outside the model. So is the failure of `value.as_str()` on a non-text column.
- JSON text parsing (`serde_json::from_str`) is a parameter of `SizeJson.DecodeColumn`, and a JSON object is modelled as a map. So duplicate keys, array-form input to the derived deserializer, and the text layout are not modelled.
- SizeJson.Decode: when several present values are rejected, serde reports the first one in the order of the input text. A map has no order, so the model reads the present values in field order. Success, failure, the decoded value, and the fact that a rejected value is reported before any missing field are the same either way; only which rejected value is named can differ.
- `src/lib.rs` re-exports the types, and its three free functions call the `Size` constructors; those constructors are modelled directly.
