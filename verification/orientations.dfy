/** Model of the `Orientation` enum: its derived default and order, the
    uppercase display/serialize token, the strict (failing) deserializer and
    the lenient (defaulting) `From` conversions. */
module Orientations {
  import opened Wrappers
  import opened Serde
  import opened Cmp
  import Text

  datatype Orientation = Thumbnail | Landscape | Portrait

  /** The variants in declaration order. */
  const Declared: seq<Orientation> := [Thumbnail, Landscape, Portrait]

  /** The display tokens, listed in declaration order. */
  const Tokens: seq<string> := ["THUMBNAIL", "LANDSCAPE", "PORTRAIT"]

  /** The expected-variant list the strict deserializer puts in its error.
      As written in the source it names only two of the three accepted
      tokens; `PORTRAIT` is missing. */
  const Expected: seq<string> := ["THUMBNAIL", "LANDSCAPE"]

  /** `#[default]` is on `Thumbnail`, the first declared variant. */
  function Default(): (r: Orientation)
    ensures Rank(r) == 0
  {
    Thumbnail
  }

  /** The discriminant: the variant's position in the declaration. */
  function Rank(o: Orientation): (r: nat)
    ensures r < |Declared| && Declared[r] == o
  {
    match o
    case Thumbnail => 0
    case Landscape => 1
    case Portrait => 2
  }

  /** Derived `Ord::cmp`: compares discriminants. */
  function Compare(a: Orientation, b: Orientation): (r: Ordering)
    ensures r == Equal <==> a == b
  {
    CompareIndex(Rank(a), Rank(b))
  }

  /** `Display::fmt`: the fixed uppercase token of the variant, which is
      the variant's entry in the token table. */
  function Display(o: Orientation): (r: string)
    ensures r == Tokens[Rank(o)]
  {
    match o
    case Thumbnail => "THUMBNAIL"
    case Landscape => "LANDSCAPE"
    case Portrait => "PORTRAIT"
  }

  /** `Serialize::serialize`: a JSON string holding the display token. */
  function Serialize(o: Orientation): (r: Json)
    ensures r == JString(Display(o))
  {
    match o
    case Thumbnail => JString("THUMBNAIL")
    case Landscape => JString("LANDSCAPE")
    case Portrait => JString("PORTRAIT")
  }

  /** The folded display token: what both parsers compare the folded
      input against. */
  function Folded(o: Orientation): string {
    match o
    case Thumbnail => "thumbnail"
    case Landscape => "landscape"
    case Portrait => "portrait"
  }

  /** Folding a display token gives the variant's folded token. */
  lemma LowerDisplay(o: Orientation)
    ensures Text.Lower(Display(o)) == Folded(o)
  {
  }

  /** `Deserialize::deserialize` once the JSON string has been read: succeeds
      exactly when the folded input is a variant's folded token, and fails
      with an unknown-variant error naming the input as given otherwise. */
  function Deserialize(s: string): (r: Result<Orientation, DeError>)
    ensures r.Success? ==> Folded(r.value) == Text.Lower(s)
    ensures r.Failure? ==> forall o :: Folded(o) != Text.Lower(s)
    ensures r.Failure? ==> r.error == UnknownVariant(s, Expected)
  {
    var l := Text.Lower(s);
    if l == "thumbnail" then Success(Thumbnail)
    else if l == "landscape" then Success(Landscape)
    else if l == "portrait" then Success(Portrait)
    else Failure(UnknownVariant(s, Expected))
  }

  /** `From<String>`: total; a case-insensitive `landscape` or `portrait`
      selects that variant and everything else, `thumbnail` included, gives
      the default. It agrees with the strict path wherever that succeeds. */
  function From(s: string): (r: Orientation)
    ensures Deserialize(s).Success? ==> r == Deserialize(s).value
    ensures Deserialize(s).Failure? ==> r == Default()
  {
    var l := Text.Lower(s);
    if l == "landscape" then Landscape
    else if l == "portrait" then Portrait
    else Thumbnail
  }

  /** `From<Option<String>>`: a present string is converted like
      `From<String>`, so the result is the strict path's answer when that
      accepts the string, and the default when the string is absent or
      rejected. */
  function FromOption(s: Option<string>): (r: Orientation)
    ensures s.Some? ==> r == From(s.value)
    ensures s.Some? && Deserialize(s.value).Success? ==> r == Deserialize(s.value).value
    ensures s.None? || Deserialize(s.value).Failure? ==> r == Default()
  {
    match s
    case Some(v) => From(v)
    case None => Thumbnail
  }

  // ---------------------------------------------------------------------
  // Properties

  /** Distinct variants display distinct tokens. */
  lemma DisplayInjective(a: Orientation, b: Orientation)
    ensures Display(a) == Display(b) <==> a == b
  {
  }

  /** Strict round trip: deserializing a serialized token gives the variant back. */
  lemma StrictRoundTrip(o: Orientation)
    ensures Serialize(o).JString?
    ensures Deserialize(Serialize(o).str) == Success(o)
  {
    LowerDisplay(o);
  }

  /** The strict path accepts exactly the three folded tokens. */
  lemma StrictAcceptsExactly(s: string)
    ensures Deserialize(s).Success? <==>
      Text.Lower(s) in ["thumbnail", "landscape", "portrait"]
  {
  }

  /** Lenient round trip: converting a display token gives the variant back. */
  lemma LenientRoundTrip(o: Orientation)
    ensures From(Display(o)) == o
  {
    LowerDisplay(o);
  }

  /** The lenient path picks `Landscape` or `Portrait` exactly on their
      folded tokens and `Thumbnail` on every other input. */
  lemma LenientCases(s: string)
    ensures From(s) == Landscape <==> Text.Lower(s) == "landscape"
    ensures From(s) == Portrait <==> Text.Lower(s) == "portrait"
    ensures From(s) == Thumbnail <==>
      Text.Lower(s) != "landscape" && Text.Lower(s) != "portrait"
  {
  }

  /** Both paths depend on the input only through its folded form. */
  lemma CaseInsensitive(s: string, t: string)
    requires Text.Lower(s) == Text.Lower(t)
    ensures From(s) == From(t)
    ensures Deserialize(s).Success? <==> Deserialize(t).Success?
    ensures Deserialize(s).Success? ==> Deserialize(s).value == Deserialize(t).value
  {
  }

  /** The error's expected-variant list omits a token the strict path
      accepts. */
  lemma ExpectedListOmitsPortrait()
    ensures Deserialize("PORTRAIT") == Success(Portrait)
    ensures "PORTRAIT" !in Expected
    ensures forall s :: Deserialize(s).Failure? ==> Deserialize(s).error.expected == Expected
  {
  }

  /** `a` compares `Less` than `b` exactly when `a` is declared before `b`. */
  lemma CompareFollowsDeclaration(a: Orientation, b: Orientation)
    ensures Compare(a, b) == Less <==> Precedes(Declared, a, b)
  {
    if Compare(a, b) == Less {
      assert Declared[Rank(a)] == a && Declared[Rank(b)] == b;
    }
    if Precedes(Declared, a, b) {
      var i, j :| 0 <= i < j < |Declared| && Declared[i] == a && Declared[j] == b;
      assert Rank(Declared[i]) == i && Rank(Declared[j]) == j;
    }
  }

  /** The derived order is `Thumbnail < Landscape < Portrait`, its reverse
      is the swapped comparison, it is transitive, and the default is its
      least element. */
  lemma OrderFacts()
    ensures Compare(Thumbnail, Landscape) == Less && Compare(Landscape, Portrait) == Less
    ensures forall a, b :: Compare(a, b).Reverse() == Compare(b, a)
    ensures forall a, b, c :: Compare(a, b) == Less && Compare(b, c) == Less ==> Compare(a, c) == Less
    ensures forall o :: Compare(Default(), o) != Greater
  {
  }

  /** Examples from the documentation: lenient conversion of known tokens
      in either case, and of an absent string. */
  lemma KnownTokenExamples()
    ensures From("landscape") == Landscape && Display(Landscape) == "LANDSCAPE"
    ensures From("LANDSCAPE") == Landscape
    ensures FromOption(None) == Thumbnail
  {
  }

  /** Unknown text: the lenient path defaults, the strict path fails. */
  lemma UnknownTokenExamples()
    ensures From("unknown") == Thumbnail && From("thumbnail") == Thumbnail
    ensures Deserialize("bogus") == Failure(UnknownVariant("bogus", Expected))
  {
  }
}
