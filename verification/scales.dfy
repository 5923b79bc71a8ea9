/** Model of the `Scale` enum: seven size tiers with a derived default and
    order, the uppercase display/serialize token, the strict (failing)
    deserializer and the lenient (defaulting) `From` conversions. */
module Scales {
  import opened Wrappers
  import opened Serde
  import opened Cmp
  import Text

  datatype Scale = XXSM | XSM | SM | MD | LG | XLG | XXLG

  /** The tiers in declaration order, smallest first. */
  const Declared: seq<Scale> := [XXSM, XSM, SM, MD, LG, XLG, XXLG]

  /** The display tokens, listed in declaration order. */
  const Tokens: seq<string> := ["XXSM", "XSM", "SM", "MD", "LG", "XLG", "XXLG"]

  /** The expected-variant list the strict deserializer puts in its error.
      The source spells it out separately, with the same seven tokens in
      the same order as the display table. */
  const Expected: seq<string> := Tokens

  /** `#[default]` is on `XXSM`, the first declared tier. */
  function Default(): (r: Scale)
    ensures Rank(r) == 0
  {
    XXSM
  }

  /** The discriminant: the tier's position in the declaration. */
  function Rank(s: Scale): (r: nat)
    ensures r < |Declared| && Declared[r] == s
  {
    match s
    case XXSM => 0
    case XSM => 1
    case SM => 2
    case MD => 3
    case LG => 4
    case XLG => 5
    case XXLG => 6
  }

  /** Derived `Ord::cmp`: compares discriminants. */
  function Compare(a: Scale, b: Scale): (r: Ordering)
    ensures r == Equal <==> a == b
  {
    CompareIndex(Rank(a), Rank(b))
  }

  /** `Display::fmt`: the fixed uppercase token of the tier, which is the
      tier's entry in the token table. */
  function Display(s: Scale): (r: string)
    ensures r == Tokens[Rank(s)]
  {
    match s
    case XXSM => "XXSM"
    case XSM => "XSM"
    case SM => "SM"
    case MD => "MD"
    case LG => "LG"
    case XLG => "XLG"
    case XXLG => "XXLG"
  }

  /** `Serialize::serialize`: a JSON string holding the display token. */
  function Serialize(s: Scale): (r: Json)
    ensures r == JString(Display(s))
  {
    match s
    case XXSM => JString("XXSM")
    case XSM => JString("XSM")
    case SM => JString("SM")
    case MD => JString("MD")
    case LG => JString("LG")
    case XLG => JString("XLG")
    case XXLG => JString("XXLG")
  }

  /** The folded display token: what both parsers compare the folded
      input against. */
  function Folded(s: Scale): string {
    match s
    case XXSM => "xxsm"
    case XSM => "xsm"
    case SM => "sm"
    case MD => "md"
    case LG => "lg"
    case XLG => "xlg"
    case XXLG => "xxlg"
  }

  /** Folding a display token gives the tier's folded token. */
  lemma LowerDisplay(s: Scale)
    ensures Text.Lower(Display(s)) == Folded(s)
  {
  }

  /** `Deserialize::deserialize` once the JSON string has been read: succeeds
      exactly when the folded input is a tier's folded token, and fails with
      an unknown-variant error naming the input as given otherwise. */
  function Deserialize(s: string): (r: Result<Scale, DeError>)
    ensures r.Success? ==> Folded(r.value) == Text.Lower(s)
    ensures r.Failure? ==> forall t :: Folded(t) != Text.Lower(s)
    ensures r.Failure? ==> r.error == UnknownVariant(s, Expected)
  {
    var l := Text.Lower(s);
    if l == "xxsm" then Success(XXSM)
    else if l == "xsm" then Success(XSM)
    else if l == "sm" then Success(SM)
    else if l == "md" then Success(MD)
    else if l == "lg" then Success(LG)
    else if l == "xlg" then Success(XLG)
    else if l == "xxlg" then Success(XXLG)
    else Failure(UnknownVariant(s, Expected))
  }

  /** `From<String>`: total; a case-insensitive tier token selects that
      tier and everything else gives the default. It agrees with the strict
      path wherever that succeeds. */
  function From(s: string): (r: Scale)
    ensures Deserialize(s).Success? ==> r == Deserialize(s).value
    ensures Deserialize(s).Failure? ==> r == Default()
  {
    var l := Text.Lower(s);
    if l == "xxsm" then XXSM
    else if l == "xsm" then XSM
    else if l == "sm" then SM
    else if l == "md" then MD
    else if l == "lg" then LG
    else if l == "xlg" then XLG
    else if l == "xxlg" then XXLG
    else XXSM
  }

  /** `From<Option<String>>`: a present string is converted like
      `From<String>`, so the result is the strict path's answer when that
      accepts the string, and the default when the string is absent or
      rejected. */
  function FromOption(s: Option<string>): (r: Scale)
    ensures s.Some? ==> r == From(s.value)
    ensures s.Some? && Deserialize(s.value).Success? ==> r == Deserialize(s.value).value
    ensures s.None? || Deserialize(s.value).Failure? ==> r == Default()
  {
    match s
    case Some(v) => From(v)
    case None => XXSM
  }

  // ---------------------------------------------------------------------
  // Properties

  /** Distinct tiers display distinct tokens. */
  lemma DisplayInjective(a: Scale, b: Scale)
    ensures Display(a) == Display(b) <==> a == b
  {
  }

  /** Strict round trip: deserializing a serialized token gives the tier back. */
  lemma StrictRoundTrip(s: Scale)
    ensures Serialize(s).JString?
    ensures Deserialize(Serialize(s).str) == Success(s)
  {
    LowerDisplay(s);
  }

  /** The strict path accepts exactly the seven folded tokens. */
  lemma StrictAcceptsExactly(s: string)
    ensures Deserialize(s).Success? <==>
      Text.Lower(s) in ["xxsm", "xsm", "sm", "md", "lg", "xlg", "xxlg"]
  {
  }

  /** Lenient round trip: converting a display token gives the tier back. */
  lemma LenientRoundTrip(s: Scale)
    ensures From(Display(s)) == s
  {
    LowerDisplay(s);
  }

  /** The lenient path never fails: unrecognised text lands on the smallest
      tier, the same tier the text `xxsm` selects. */
  lemma LenientDefault(s: string)
    ensures Deserialize(s).Failure? ==> From(s) == XXSM
    ensures From(s) != XXSM ==> Deserialize(s) == Success(From(s))
  {
  }

  /** Both paths depend on the input only through its folded form. */
  lemma CaseInsensitive(s: string, t: string)
    requires Text.Lower(s) == Text.Lower(t)
    ensures From(s) == From(t)
    ensures Deserialize(s).Success? <==> Deserialize(t).Success?
    ensures Deserialize(s).Success? ==> Deserialize(s).value == Deserialize(t).value
  {
  }

  /** The strict path's error lists every token it accepts. */
  lemma ExpectedListComplete(s: Scale)
    ensures Display(s) in Expected
  {
  }

  /** `a` compares `Less` than `b` exactly when `a` is declared before `b`. */
  lemma CompareFollowsDeclaration(a: Scale, b: Scale)
    ensures Compare(a, b) == Less <==> Precedes(Declared, a, b)
  {
    if Compare(a, b) == Less {
      assert Declared[Rank(a)] == a && Declared[Rank(b)] == b;
    }
    if Precedes(Declared, a, b) {
      var i, j :| 0 <= i < j < |Declared| && Declared[i] == a && Declared[j] == b;
      assert Rank(Declared[i]) == i && Rank(Declared[j]) == j;
    }
  }

  /** `XXSM < XSM < SM < MD < LG < XLG < XXLG`, pairwise along the
      declaration. */
  lemma DeclarationChain()
    ensures forall i, j :: 0 <= i < j < |Declared| ==> Compare(Declared[i], Declared[j]) == Less
  {
  }

  /** The derived order is a strict total order whose least element is the
      default and whose greatest is `XXLG`. */
  lemma OrderFacts()
    ensures forall a, b :: Compare(a, b).Reverse() == Compare(b, a)
    ensures forall a, b, c :: Compare(a, b) == Less && Compare(b, c) == Less ==> Compare(a, c) == Less
    ensures forall s :: Compare(Default(), s) != Greater && Compare(s, XXLG) != Greater
  {
  }

  /** Examples: the documented `from("lg")`, an absent string, and an
      unknown token. */
  lemma Examples()
    ensures From("lg") == LG && Display(LG) == "LG"
    ensures FromOption(None) == XXSM
    ensures Deserialize("bogus") == Failure(UnknownVariant("bogus", Expected))
  {
    LenientRoundTrip(LG);
  }
}
