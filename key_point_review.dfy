/**
 * The key-point review page: it loads the extracted key points from storage and lets
 * the user edit, delete, reorder and add points.  Every handler builds a new list from
 * the current one and replaces the `keyPoints` state with it.
 *
 * The list operations are specified by functions on sequences; the page is a class
 * whose `keyPoints` field the handlers reassign.
 */
module KeyPointReview {
  import opened JsText

  /** The point `handleAddKeyPoint` appends. */
  const NewKeyPoint := "New key point - click edit to modify"

  /** The single point shown when storage holds no extracted key points. */
  const NothingExtracted := "No key points extracted. Please go back and try again."

  /** `handleEdit`: point `i` becomes `text`; every other point stays where it was. */
  function Edited(points: seq<string>, i: nat, text: string): (r: seq<string>)
    requires i < |points|
    ensures |r| == |points| && r[i] == text
    ensures forall j :: 0 <= j < |points| && j != i ==> r[j] == points[j]
  {
    points[i := text]
  }

  /** `handleDelete`: `filter((_, j) => j !== i)` drops the point at `i`, if there is
      one, and keeps the others in their order. */
  function Deleted(points: seq<string>, i: nat): (r: seq<string>)
    ensures i < |points| ==> |r| == |points| - 1
                             && (forall j :: 0 <= j < i ==> r[j] == points[j])
                             && (forall j :: i <= j < |r| ==> r[j] == points[j + 1])
    ensures i >= |points| ==> r == points
  {
    if i < |points| then points[..i] + points[i + 1..] else points
  }

  /** Positions `i` and `j` exchanged. */
  function Swapped(points: seq<string>, i: nat, j: nat): (r: seq<string>)
    requires i < |points| && j < |points|
    ensures |r| == |points| && r[i] == points[j] && r[j] == points[i]
    ensures forall k :: 0 <= k < |points| && k != i && k != j ==> r[k] == points[k]
    ensures multiset(r) == multiset(points)
  {
    points[i := points[j]][j := points[i]]
  }

  /** `handleMoveUp`: nothing happens to the first point; any other changes places with
      the point above it. */
  function MovedUp(points: seq<string>, i: nat): seq<string>
    requires i < |points|
  {
    if i == 0 then points else Swapped(points, i - 1, i)
  }

  /** `handleMoveDown`: nothing happens to the last point; any other changes places with
      the point below it. */
  function MovedDown(points: seq<string>, i: nat): seq<string>
    requires i < |points|
  {
    if i == |points| - 1 then points else Swapped(points, i, i + 1)
  }

  /** `handleAddKeyPoint`: the placeholder point goes at the end. */
  function Added(points: seq<string>): (r: seq<string>)
    ensures |r| == |points| + 1 && r[..|points|] == points && r[|points|] == NewKeyPoint
  {
    points + [NewKeyPoint]
  }

  /** Deleting a point takes exactly that point out of the collection. */
  lemma DeletedRemovesOne(points: seq<string>, i: nat)
    requires i < |points|
    ensures multiset(Deleted(points, i)) + multiset{points[i]} == multiset(points)
  {
    assert points == points[..i] + [points[i]] + points[i + 1..];
  }

  /** Moving a point up or down only reorders the list: the same points, as often as
      before. */
  lemma MovesPermute(points: seq<string>, i: nat)
    requires i < |points|
    ensures multiset(MovedUp(points, i)) == multiset(points)
    ensures multiset(MovedDown(points, i)) == multiset(points)
  {
  }

  /** Moving point `i` up and then moving it down again, from `i - 1`, restores the
      list; so does the other order. */
  lemma MoveUpThenDown(points: seq<string>, i: nat)
    requires 1 <= i < |points|
    ensures MovedDown(MovedUp(points, i), i - 1) == points
    ensures MovedUp(MovedDown(points, i - 1), i) == points
  {
    var up := MovedUp(points, i);
    assert up == Swapped(points, i - 1, i);
    assert MovedDown(up, i - 1) == Swapped(up, i - 1, i);
    assert Swapped(up, i - 1, i) == points;
  }

  /** What the page loads: the parse of the stored text, or the empty list when it does
      not parse; a single explanatory point when nothing (or the empty text) is stored.
      `parse` stands for `JSON.parse`, None meaning that it threw. */
  function Loaded(stored: Option<string>, parse: string -> Option<seq<string>>): (r: seq<string>)
    ensures stored.None? || stored == Some("") ==> r == [NothingExtracted]
    ensures stored.Some? && stored.value != "" ==>
              r == (if parse(stored.value).Some? then parse(stored.value).value else [])
  {
    match stored
    case None => [NothingExtracted]
    case Some(text) =>
      if text == "" then [NothingExtracted]
      else match parse(text)
        case Some(points) => points
        case None => []
  }

  /** The page's state: the list of key points the handlers replace. */
  class KeyPointReviewPage {
    var keyPoints: seq<string>

    /** The `useEffect` that runs when the page is shown. */
    constructor (stored: Option<string>, parse: string -> Option<seq<string>>)
      ensures keyPoints == Loaded(stored, parse)
    {
      keyPoints := Loaded(stored, parse);
    }

    method HandleEdit(index: nat, newText: string)
      requires index < |keyPoints|
      modifies this
      ensures keyPoints == Edited(old(keyPoints), index, newText)
    {
      var updated := keyPoints;
      updated := updated[index := newText];
      keyPoints := updated;
    }

    method HandleDelete(index: nat)
      modifies this
      ensures keyPoints == Deleted(old(keyPoints), index)
    {
      if index < |keyPoints| {
        keyPoints := keyPoints[..index] + keyPoints[index + 1..];
      }
    }

    method HandleMoveUp(index: nat)
      requires index < |keyPoints|
      modifies this
      ensures keyPoints == MovedUp(old(keyPoints), index)
    {
      if index == 0 {
        return;
      }
      var updated := keyPoints;
      updated := updated[index := keyPoints[index - 1]][index - 1 := keyPoints[index]];
      keyPoints := updated;
    }

    method HandleMoveDown(index: nat)
      requires index < |keyPoints|
      modifies this
      ensures keyPoints == MovedDown(old(keyPoints), index)
    {
      if index == |keyPoints| - 1 {
        return;
      }
      var updated := keyPoints;
      updated := updated[index := keyPoints[index + 1]][index + 1 := keyPoints[index]];
      keyPoints := updated;
    }

    method HandleAddKeyPoint()
      modifies this
      ensures keyPoints == Added(old(keyPoints))
    {
      keyPoints := keyPoints + [NewKeyPoint];
    }

    /** `handleContinue`: the list the page stores for the next step. */
    method HandleContinue() returns (saved: seq<string>)
      ensures saved == keyPoints
    {
      saved := keyPoints;
    }
  }
}
