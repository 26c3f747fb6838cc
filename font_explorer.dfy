/**
 * The font explorer's models: the traits read off a font's symbolic-trait flags, font families compared
 * and hashed without their identifiers, the order of the family list, and the order traits are shown in.
 */
module FontExplorer {
  import opened Seqs
  import opened Text

  datatype TraitType = Bold | Italic | Condensed | Monospaced | Expanded | Vertical | TightLeading

  /** The raw value of each trait. */
  function RawValue(t: TraitType): (r: string)
    ensures |r| > 0
  {
    match t
    case Bold => "bold"
    case Italic => "italic"
    case Condensed => "condensed"
    case Monospaced => "monospaced"
    case Expanded => "expanded"
    case Vertical => "vertical"
    case TightLeading => "tightLeading"
  }

  /** `UIFontDescriptor.SymbolicTraits`: a 32-bit option set. */
  type SymbolicTraits = bv32

  const TraitItalic: SymbolicTraits := 1 << 0
  const TraitBold: SymbolicTraits := 1 << 1
  const TraitExpanded: SymbolicTraits := 1 << 5
  const TraitCondensed: SymbolicTraits := 1 << 6
  const TraitMonoSpace: SymbolicTraits := 1 << 10
  const TraitVertical: SymbolicTraits := 1 << 11
  const TraitTightLeading: SymbolicTraits := 1 << 15

  /** The flag `extractTraits(from:)` tests for each trait. */
  function FlagOf(t: TraitType): (f: SymbolicTraits)
    ensures f != 0
  {
    match t
    case Bold => TraitBold
    case Italic => TraitItalic
    case Condensed => TraitCondensed
    case Monospaced => TraitMonoSpace
    case Expanded => TraitExpanded
    case Vertical => TraitVertical
    case TightLeading => TraitTightLeading
  }

  /** Each trait has a flag of its own. */
  lemma FlagsDistinct(s: TraitType, t: TraitType)
    requires s != t
    ensures FlagOf(s) & FlagOf(t) == 0
  {
  }

  /** `extractTraits(from:)`: a trait is in the result exactly when its flag is set. */
  method ExtractTraits(symbolicTraits: SymbolicTraits) returns (traits: set<TraitType>)
    ensures forall t :: t in traits <==> symbolicTraits & FlagOf(t) != 0
  {
    traits := {};
    if symbolicTraits & TraitBold != 0 { traits := traits + {Bold}; }
    if symbolicTraits & TraitItalic != 0 { traits := traits + {Italic}; }
    if symbolicTraits & TraitCondensed != 0 { traits := traits + {Condensed}; }
    if symbolicTraits & TraitExpanded != 0 { traits := traits + {Expanded}; }
    if symbolicTraits & TraitMonoSpace != 0 { traits := traits + {Monospaced}; }
    if symbolicTraits & TraitVertical != 0 { traits := traits + {Vertical}; }
    if symbolicTraits & TraitTightLeading != 0 { traits := traits + {TightLeading}; }
  }

  /** A font; its UUID is an integer drawn by the caller. */
  datatype FontModel = FontModel(id: int, fontName: string, traits: set<TraitType>)

  /** A font family; its UUID is an integer drawn by the caller. */
  datatype FontFamilyModel = FontFamilyModel(id: int, name: string, fonts: seq<FontModel>)

  /** `fontCount`. */
  function FontCount(f: FontFamilyModel): nat {
    |f.fonts|
  }

  /** The family's `==`: same name and same fonts, whatever the family identifiers. */
  predicate SameFamily(a: FontFamilyModel, b: FontFamilyModel) {
    a.name == b.name && a.fonts == b.fonts
  }

  /** What the family's `hash(into:)` feeds the hasher. */
  function HashInputs(f: FontFamilyModel): (string, seq<FontModel>) {
    (f.name, f.fonts)
  }

  /** The hash leaves the identifier out: a family hashes alike whatever UUID it was given. */
  lemma HashIgnoresId(f: FontFamilyModel, id: int)
    ensures HashInputs(f.(id := id)) == HashInputs(f)
    ensures forall g: FontFamilyModel :: HashInputs(g) == HashInputs(f) ==> g.name == f.name && g.fonts == f.fonts
  {
  }

  /**
   * The equality ignores the identifier, is an equivalence, and agrees with the hash: equal families
   * feed the hasher the same values, and families feeding it the same values are equal.
   */
  lemma SameFamilyIsEquivalence(a: FontFamilyModel, b: FontFamilyModel, c: FontFamilyModel, id: int)
    ensures SameFamily(a, a.(id := id))
    ensures SameFamily(a, b) ==> SameFamily(b, a)
    ensures SameFamily(a, b) && SameFamily(b, c) ==> SameFamily(a, c)
    ensures SameFamily(a, b) <==> HashInputs(a) == HashInputs(b)
  {
  }

  datatype SortOrder = ByName | ByCount

  /** `sortPredicate(lhs:rhs:)`: ascending names, or descending font counts. */
  predicate SortPredicate(order: SortOrder, lhs: FontFamilyModel, rhs: FontFamilyModel) {
    match order
    case ByName => Less(lhs.name, rhs.name)
    case ByCount => FontCount(lhs) > FontCount(rhs)
  }

  /** Equal families are never put apart: neither order places one before the other. */
  lemma EqualFamiliesTie(order: SortOrder, a: FontFamilyModel, b: FontFamilyModel)
    requires SameFamily(a, b)
    ensures !SortPredicate(order, a, b) && !SortPredicate(order, b, a)
  {
    LessIrreflexive(a.name);
  }

  /** Two families neither of which the predicate puts first. */
  predicate Incomparable(order: SortOrder, a: FontFamilyModel, b: FontFamilyModel) {
    !SortPredicate(order, a, b) && !SortPredicate(order, b, a)
  }

  /**
   * Both orders are strict weak orders, as `sorted(by:)` requires: irreflexive, transitive, and with
   * transitive incomparability (same name, or same font count).
   */
  lemma SortPredicateIsStrictWeakOrder(order: SortOrder, a: FontFamilyModel, b: FontFamilyModel, c: FontFamilyModel)
    ensures !SortPredicate(order, a, a)
    ensures SortPredicate(order, a, b) && SortPredicate(order, b, c) ==> SortPredicate(order, a, c)
    ensures Incomparable(order, a, b) && Incomparable(order, b, c) ==> Incomparable(order, a, c)
    ensures order == ByName ==> (Incomparable(order, a, b) <==> a.name == b.name)
    ensures order == ByCount ==> (Incomparable(order, a, b) <==> FontCount(a) == FontCount(b))
  {
    if order == ByName {
      LessIrreflexive(a.name);
      if SortPredicate(order, a, b) && SortPredicate(order, b, c) {
        LessTransitive(a.name, b.name, c.name);
      }
      LessTotal(a.name, b.name);
      LessTotal(b.name, c.name);
      LessTotal(a.name, c.name);
      LessIrreflexive(b.name);
    }
  }

  /** All traits in ascending order of raw value. */
  const TraitsByRawValue: seq<TraitType> := [Bold, Condensed, Expanded, Italic, Monospaced, TightLeading, Vertical]

  lemma {:induction false} TraitsByRawValueSorted()
    ensures forall i, j :: 0 <= i < j < |TraitsByRawValue| ==> Less(RawValue(TraitsByRawValue[i]), RawValue(TraitsByRawValue[j]))
  {
    var s := TraitsByRawValue;
    assert Less(RawValue(s[0]), RawValue(s[1])) && Less(RawValue(s[1]), RawValue(s[2]));
    assert Less(RawValue(s[2]), RawValue(s[3])) && Less(RawValue(s[3]), RawValue(s[4]));
    assert Less(RawValue(s[4]), RawValue(s[5])) && Less(RawValue(s[5]), RawValue(s[6]));
    forall i, j | 0 <= i < j < |s| ensures Less(RawValue(s[i]), RawValue(s[j])) {
      ChainLess(s, i, j);
    }
  }

  /** Every trait is listed. */
  lemma AllTraitsListed()
    ensures forall t: TraitType :: t in TraitsByRawValue
  {
    var s := TraitsByRawValue;
    forall t: TraitType ensures t in s {
      match t
      case Bold => assert s[0] == t;
      case Condensed => assert s[1] == t;
      case Expanded => assert s[2] == t;
      case Italic => assert s[3] == t;
      case Monospaced => assert s[4] == t;
      case TightLeading => assert s[5] == t;
      case Vertical => assert s[6] == t;
    }
  }

  /** Neighbours in order give any two in order. */
  lemma {:induction false} ChainLess(s: seq<TraitType>, i: nat, j: nat)
    requires i < j < |s|
    requires forall k :: 0 <= k < |s| - 1 ==> Less(RawValue(s[k]), RawValue(s[k + 1]))
    ensures Less(RawValue(s[i]), RawValue(s[j]))
  {
    if j > i + 1 {
      ChainLess(s, i, j - 1);
      LessTransitive(RawValue(s[i]), RawValue(s[j - 1]), RawValue(s[j]));
    }
  }

  /** `traits.sorted(by: { $0.rawValue < $1.rawValue })`: each trait of the set once, by raw value. */
  function SortedTraits(traits: set<TraitType>): (r: seq<TraitType>)
    ensures forall t :: t in r <==> t in traits
  {
    AllTraitsListed();
    Filter(TraitsByRawValue, t => t in traits)
  }

  /** The traits are listed in strictly ascending raw-value order. */
  lemma SortedTraitsAscending(traits: set<TraitType>)
    ensures forall i, j :: 0 <= i < j < |SortedTraits(traits)| ==>
              Less(RawValue(SortedTraits(traits)[i]), RawValue(SortedTraits(traits)[j]))
  {
    TraitsByRawValueSorted();
    FilterKeepsOrder(TraitsByRawValue, t => t in traits, (a, b) => Less(RawValue(a), RawValue(b)));
  }
}
