/**
 * The adaptive bottom sheet: how its presentation and position follow changes of the horizontal size
 * class, and where it snaps when a drag of its handle ends. Geometry is exact `real` arithmetic.
 */
module AdaptiveSheet {
  import opened Wrappers

  datatype SizeClass = Compact | Regular

  datatype SheetPosition = Collapsed | FullyExpanded

  /** The two values the size-class handler reads and writes. */
  datatype SheetState = SheetState(isPresented: bool, sheetPosition: SheetPosition)

  /**
   * `handleSizeClassChange(from:to:)`. Going compact, the sheet is presented exactly when it was fully
   * expanded. Going regular, it is fully expanded exactly when it was presented, and no longer presented.
   * Every other change, including one from or to an unknown size class, leaves both values alone.
   */
  function SizeClassChange(from: Option<SizeClass>, to: Option<SizeClass>, s: SheetState): (r: SheetState)
    ensures from == Some(Regular) && to == Some(Compact) ==>
              r.isPresented == (s.sheetPosition == FullyExpanded) && r.sheetPosition == s.sheetPosition
    ensures from == Some(Compact) && to == Some(Regular) ==>
              (r.sheetPosition == FullyExpanded <==> s.isPresented) && !r.isPresented
    ensures !(from == Some(Regular) && to == Some(Compact)) && !(from == Some(Compact) && to == Some(Regular)) ==> r == s
  {
    var s := if from == Some(Regular) && to == Some(Compact) then s.(isPresented := s.sheetPosition == FullyExpanded) else s;
    if from == Some(Compact) && to == Some(Regular) then
      SheetState(false, if s.isPresented then FullyExpanded else Collapsed)
    else s
  }

  /** Compact, then regular, then compact again: the sheet is presented again exactly when it was before. */
  lemma CompactRegularCompact(s: SheetState)
    ensures SizeClassChange(Some(Regular), Some(Compact), SizeClassChange(Some(Compact), Some(Regular), s)).isPresented == s.isPresented
  {
  }

  /** Regular, then compact, then regular again: the sheet comes back to the position it had. */
  lemma RegularCompactRegular(s: SheetState)
    ensures SizeClassChange(Some(Compact), Some(Regular), SizeClassChange(Some(Regular), Some(Compact), s)).sheetPosition == s.sheetPosition
  {
  }

  /** The view modifier's state. The sheet starts collapsed; `isPresented` is the caller's binding. */
  class AdaptiveSheetModifier {
    var isPresented: bool
    var sheetPosition: SheetPosition

    constructor(presented: bool)
      ensures isPresented == presented && sheetPosition == Collapsed
    {
      isPresented := presented;
      sheetPosition := Collapsed;
    }

    /** The `onChange(of: horizontalSizeClass)` handler. */
    method HandleSizeClassChange(from: Option<SizeClass>, to: Option<SizeClass>)
      modifies this
      ensures SheetState(isPresented, sheetPosition) == SizeClassChange(from, to, old(SheetState(isPresented, sheetPosition)))
    {
      if from == Some(Regular) && to == Some(Compact) {
        isPresented := sheetPosition == FullyExpanded;
      }
      if from == Some(Compact) && to == Some(Regular) {
        sheetPosition := if isPresented then FullyExpanded else Collapsed;
        isPresented := false;
      }
    }

    /** `onAppear`: a sheet shown in the regular size class starts dismissed. */
    method OnAppear(sizeClass: Option<SizeClass>)
      modifies this`isPresented
      ensures sizeClass == Some(Regular) ==> !isPresented
      ensures sizeClass != Some(Regular) ==> isPresented == old(isPresented)
    {
      if sizeClass == Some(Regular) {
        isPresented := false;
      }
    }
  }

  /** The distances from the top in the compact and other size classes, and the expanded fraction. */
  const CompactOffsetPosition: real := 140.0
  const RegularOffsetPosition: real := 80.0
  const ExpandedOffsetPositionMultiplier: real := 0.075

  /**
   * `calculatedOffset(for:height:)`: the sheet's distance from the top in each position. The sheet's top
   * never lies below the bottom of the screen, lies on screen once the screen is 140 points tall, and a
   * collapsed sheet always shows at least 80 points.
   */
  function CalculatedOffset(position: SheetPosition, height: real, sizeClass: Option<SizeClass>): (r: real)
    ensures height >= 0.0 ==> r <= height
    ensures height >= 140.0 ==> 0.0 <= r
    ensures position == Collapsed ==> height - r >= 80.0
  {
    match position
    case Collapsed => height - (if sizeClass == Some(Compact) then CompactOffsetPosition else RegularOffsetPosition)
    case FullyExpanded => height * ExpandedOffsetPositionMultiplier
  }

  /** On any screen taller than 160 points the expanded sheet sits higher than the collapsed one. */
  lemma ExpandedAboveCollapsed(height: real, sizeClass: Option<SizeClass>)
    requires height > 160.0
    ensures CalculatedOffset(FullyExpanded, height, sizeClass) < CalculatedOffset(Collapsed, height, sizeClass)
  {
  }

  /** How far a drag must go to force a position whatever it ends near. */
  const Threshold: real := 100.0

  /**
   * The snap rule as `handleDragEnd(translation:height:)` writes it: a long drag down collapses, a long
   * drag up expands, and a shorter one snaps to the nearer point, where the current point is measured
   * from the collapsed offset whatever the position the drag started from.
   */
  function SnapAsWritten(translation: real, dragOffset: real, height: real, sizeClass: Option<SizeClass>)
    : (r: SheetPosition)
    ensures translation > Threshold ==> r == Collapsed
    ensures translation < -Threshold ==> r == FullyExpanded
  {
    var collapsedY := CalculatedOffset(Collapsed, height, sizeClass);
    var expandedY := CalculatedOffset(FullyExpanded, height, sizeClass);
    var currentY := collapsedY + dragOffset;
    if translation > Threshold then Collapsed
    else if translation < -Threshold then FullyExpanded
    else
      var midpoint := (collapsedY + expandedY) / 2.0;
      if currentY > midpoint then Collapsed else FullyExpanded
  }

  /** From the fully expanded position, a short drag up of 50 points on a compact 800-point screen collapses the sheet. */
  lemma ShortDragUpCollapsesExpandedSheet()
    ensures SnapAsWritten(-50.0, -50.0, 800.0, Some(Compact)) == Collapsed
  {
  }

  /**
   * The snap rule measured from where the drag started: a long drag forces the position as before, and a
   * shorter one snaps to whichever of the two points the sheet ends nearer to.
   */
  function Snap(from: SheetPosition, translation: real, dragOffset: real, height: real, sizeClass: Option<SizeClass>)
    : (r: SheetPosition)
    ensures translation > Threshold ==> r == Collapsed
    ensures translation < -Threshold ==> r == FullyExpanded
    ensures -Threshold <= translation <= Threshold ==>
              var currentY := CalculatedOffset(from, height, sizeClass) + dragOffset;
              var collapsedY := CalculatedOffset(Collapsed, height, sizeClass);
              var expandedY := CalculatedOffset(FullyExpanded, height, sizeClass);
              (r == Collapsed <==> currentY - expandedY > collapsedY - currentY)
  {
    var collapsedY := CalculatedOffset(Collapsed, height, sizeClass);
    var expandedY := CalculatedOffset(FullyExpanded, height, sizeClass);
    var currentY := CalculatedOffset(from, height, sizeClass) + dragOffset;
    if translation > Threshold then Collapsed
    else if translation < -Threshold then FullyExpanded
    else
      var midpoint := (collapsedY + expandedY) / 2.0;
      if currentY > midpoint then Collapsed else FullyExpanded
  }

  /** A short drag that moves the sheet less than half the way to the other point leaves it where it was. */
  lemma ShortDragKeepsPosition(from: SheetPosition, translation: real, dragOffset: real, height: real,
                               sizeClass: Option<SizeClass>)
    requires height > 160.0
    requires -Threshold <= translation <= Threshold
    requires var gap := CalculatedOffset(Collapsed, height, sizeClass) - CalculatedOffset(FullyExpanded, height, sizeClass);
             -gap / 2.0 < dragOffset < gap / 2.0
    ensures Snap(from, translation, dragOffset, height, sizeClass) == from
  {
    ExpandedAboveCollapsed(height, sizeClass);
  }

  /** Both rules agree for a drag that starts collapsed. */
  lemma SnapAgreesFromCollapsed(translation: real, dragOffset: real, height: real, sizeClass: Option<SizeClass>)
    ensures Snap(Collapsed, translation, dragOffset, height, sizeClass) == SnapAsWritten(translation, dragOffset, height, sizeClass)
  {
  }

  /** When the offset follows the finger, dragging further down never turns a collapse into an expansion. */
  lemma SnapMonotone(from: SheetPosition, t1: real, t2: real, height: real, sizeClass: Option<SizeClass>)
    requires t1 <= t2
    requires Snap(from, t1, t1, height, sizeClass) == Collapsed
    ensures Snap(from, t2, t2, height, sizeClass) == Collapsed
  {
  }

  /** The bottom sheet's state: its position (shared with the modifier) and the live drag offset. */
  class BottomSheet {
    var sheetPosition: SheetPosition
    var dragOffset: real

    constructor(position: SheetPosition)
      ensures sheetPosition == position && dragOffset == 0.0
    {
      sheetPosition := position;
      dragOffset := 0.0;
    }

    /** `onDragChanged`: the sheet follows the finger. */
    method DragChanged(value: real)
      modifies this`dragOffset
      ensures dragOffset == value
    {
      dragOffset := value;
    }

    /** `handleDragEnd(translation:height:)`: snap, and drop the live offset. */
    method HandleDragEnd(translation: real, height: real, sizeClass: Option<SizeClass>)
      modifies this
      ensures sheetPosition == Snap(old(sheetPosition), translation, old(dragOffset), height, sizeClass)
      ensures dragOffset == 0.0
    {
      var threshold := Threshold;
      var collapsedY := CalculatedOffset(Collapsed, height, sizeClass);
      var expandedY := CalculatedOffset(FullyExpanded, height, sizeClass);
      var currentY := CalculatedOffset(sheetPosition, height, sizeClass) + dragOffset;
      var newPosition;
      if translation > threshold {
        newPosition := Collapsed;
      } else if translation < -threshold {
        newPosition := FullyExpanded;
      } else {
        var midpoint := (collapsedY + expandedY) / 2.0;
        newPosition := if currentY > midpoint then Collapsed else FullyExpanded;
      }
      sheetPosition := newPosition;
      dragOffset := 0.0;
    }
  }
}
