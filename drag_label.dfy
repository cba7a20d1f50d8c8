/** The drag-to-label interaction of the root component: a vertical drag
    long enough asks for a name and records a numbered label. */
module DragLabel {
  import opened Common
  import opened AnnotationModel

  /** Minimum vertical drag length, as a fraction of the image height. */
  const MinDistance: real := 0.02

  /** The record the component keeps (not the store's record shape). */
  datatype LabelAnnotation = LabelAnnotation(id: string, name: string, labelNumber: nat, start: Point, end: Point)

  function Abs(x: real): (r: real)
    ensures r >= 0.0 && (r == x || r == -x)
  {
    if x < 0.0 then -x else x
  }

  /** A drag counts only when its vertical extent reaches `MinDistance`;
      the horizontal extent plays no part. */
  predicate IsLongEnough(start: Point, end: Point)
    ensures IsLongEnough(start, end) <==>
      end.yPct - start.yPct >= MinDistance || start.yPct - end.yPct >= MinDistance
  {
    !(Abs(end.yPct - start.yPct) < MinDistance)
  }

  /** The dialog gave a name: it returned a string and that string is not
      empty (the result is tested for truthiness). */
  predicate IsName(result: Option<string>)
    ensures !IsName(result) <==> result == None || result == Some("")
    ensures IsName(result) ==> |result.value| > 0
  {
    result.Some? && result.value != ""
  }

  /** Labels increase strictly along the collection. */
  ghost predicate LabelsIncreasing(s: seq<LabelAnnotation>) {
    forall i, j :: 0 <= i < j < |s| ==> s[i].labelNumber < s[j].labelNumber
  }

  /** The collection without the records carrying `id`. */
  function RemoveById(s: seq<LabelAnnotation>, id: string): (r: seq<LabelAnnotation>)
    ensures forall i :: 0 <= i < |r| ==> r[i].id != id
    ensures forall x :: multiset(r)[x] == if x.id == id then 0 else multiset(s)[x]
    ensures (forall i :: 0 <= i < |s| ==> s[i].id != id) ==> r == s
  {
    var keep := (x: LabelAnnotation) => x.id != id;
    FilterCounts(s, keep);
    if forall i :: 0 <= i < |s| ==> s[i].id != id then
      FilterAllKept(s, keep);
      Filter(s, keep)
    else
      var r := Filter(s, keep);
      assert forall i :: 0 <= i < |r| ==> r[i] in r;
      r
  }

  /** Deleting keeps the relative order of the remaining records: deleting
      from a concatenation deletes from each part. */
  lemma RemoveKeepsOrder(a: seq<LabelAnnotation>, b: seq<LabelAnnotation>, id: string)
    ensures RemoveById(a + b, id) == RemoveById(a, id) + RemoveById(b, id)
  {
    FilterConcat(a, b, (x: LabelAnnotation) => x.id != id);
  }

  /** Deleting from the collection keeps the remaining labels increasing. */
  lemma {:induction false} RemoveKeepsLabelsIncreasing(s: seq<LabelAnnotation>, id: string)
    requires LabelsIncreasing(s)
    ensures LabelsIncreasing(RemoveById(s, id))
  {
    FilterKeepsLabelsIncreasing(s, (x: LabelAnnotation) => x.id != id);
  }

  lemma {:induction false} FilterKeepsLabelsIncreasing(s: seq<LabelAnnotation>, keep: LabelAnnotation -> bool)
    requires LabelsIncreasing(s)
    ensures LabelsIncreasing(Filter(s, keep))
  {
    if s != [] {
      var rest := s[1..];
      assert LabelsIncreasing(rest);
      FilterKeepsLabelsIncreasing(rest, keep);
      var fr := Filter(rest, keep);
      forall k | 0 <= k < |fr| ensures s[0].labelNumber < fr[k].labelNumber {
        assert fr[k] in rest;
      }
    }
  }

  /** The component's state. Pointer positions are given as image
      fractions; fresh ids and dialog outcomes are passed in. */
  class AppComponent {
    var annotations: seq<LabelAnnotation>
    var isDragging: bool
    var dragStart: Point
    var dragCurrent: Point
    var nextLabelNumber: nat

    /** Label numbers are never reused: every recorded label is below the
        next number and labels increase in creation order. */
    ghost predicate Valid()
      reads this
    {
      && nextLabelNumber >= 1
      && LabelsIncreasing(annotations)
      && forall i :: 0 <= i < |annotations| ==> 1 <= annotations[i].labelNumber < nextLabelNumber
    }

    constructor ()
      ensures Valid()
      ensures annotations == [] && !isDragging && nextLabelNumber == 1
      ensures dragStart == Point(0.0, 0.0) && dragCurrent == Point(0.0, 0.0)
    {
      annotations := [];
      isDragging := false;
      dragStart := Point(0.0, 0.0);
      dragCurrent := Point(0.0, 0.0);
      nextLabelNumber := 1;
    }

    method StartDrag(p: Point)
      requires Valid()
      modifies this
      ensures Valid()
      ensures dragStart == p && dragCurrent == p && isDragging
      ensures annotations == old(annotations) && nextLabelNumber == old(nextLabelNumber)
    {
      dragStart := p;
      dragCurrent := p;
      isDragging := true;
    }

    method DragMove(p: Point)
      requires Valid()
      modifies this
      ensures Valid()
      ensures !old(isDragging) ==> unchanged(this)
      ensures old(isDragging) ==> dragCurrent == p
      ensures isDragging == old(isDragging) && dragStart == old(dragStart)
      ensures annotations == old(annotations) && nextLabelNumber == old(nextLabelNumber)
    {
      if !isDragging {
        return;
      }
      dragCurrent := p;
    }

    /** Ends a drag. `dialogResult` is what the naming dialog returned and
        `newId` the id given to a recorded label. */
    method EndDrag(dialogResult: Option<string>, newId: string)
      requires Valid()
      modifies this
      ensures Valid()
      ensures !old(isDragging) ==> unchanged(this)
      ensures !isDragging && dragStart == old(dragStart) && dragCurrent == old(dragCurrent)
      ensures nextLabelNumber == old(nextLabelNumber) +
        if old(isDragging) && IsLongEnough(old(dragStart), old(dragCurrent)) then 1 else 0
      ensures annotations == old(annotations) +
        if old(isDragging) && IsLongEnough(old(dragStart), old(dragCurrent)) && IsName(dialogResult)
        then [LabelAnnotation(newId, dialogResult.value, old(nextLabelNumber), old(dragStart), old(dragCurrent))]
        else []
    {
      if !isDragging {
        return;
      }
      isDragging := false;
      var start, end := dragStart, dragCurrent;
      var verticalDistance := Abs(end.yPct - start.yPct);
      if verticalDistance < MinDistance {
        return;
      }
      var labelNumber := nextLabelNumber;
      nextLabelNumber := nextLabelNumber + 1;
      if IsName(dialogResult) {
        annotations := annotations + [LabelAnnotation(newId, dialogResult.value, labelNumber, start, end)];
      }
    }

    /** Renames the record at `index` when the dialog returned a name. */
    method RenameAnn(index: nat, dialogResult: Option<string>)
      requires Valid()
      requires index < |annotations|
      modifies this
      ensures Valid()
      ensures annotations == if IsName(dialogResult)
        then old(annotations)[index := old(annotations)[index].(name := dialogResult.value)]
        else old(annotations)
      ensures isDragging == old(isDragging) && dragStart == old(dragStart) && dragCurrent == old(dragCurrent)
      ensures nextLabelNumber == old(nextLabelNumber)
    {
      if IsName(dialogResult) {
        annotations := annotations[index := annotations[index].(name := dialogResult.value)];
      }
    }

    method DeleteAnn(id: string)
      requires Valid()
      modifies this
      ensures Valid()
      ensures annotations == RemoveById(old(annotations), id)
      ensures isDragging == old(isDragging) && dragStart == old(dragStart) && dragCurrent == old(dragCurrent)
      ensures nextLabelNumber == old(nextLabelNumber)
    {
      RemoveKeepsLabelsIncreasing(annotations, id);
      var r := RemoveById(annotations, id);
      assert forall i :: 0 <= i < |r| ==> r[i] in annotations by {
        forall i | 0 <= i < |r| ensures r[i] in annotations {
          assert multiset(r)[r[i]] > 0;
        }
      }
      annotations := r;
    }
  }

  /** A client of the component: a drag of vertical extent 0.01 records
      nothing and consumes no label; one of 0.05 records label 1. */
  method DragScenario()
  {
    var c := new AppComponent();
    c.StartDrag(Point(0.5, 0.50));
    c.DragMove(Point(0.9, 0.51));
    c.EndDrag(Some("Ann"), "id-1");
    assert c.annotations == [] && c.nextLabelNumber == 1;

    c.StartDrag(Point(0.5, 0.50));
    c.DragMove(Point(0.5, 0.55));
    c.EndDrag(Some("Ann"), "id-2");
    assert c.annotations == [LabelAnnotation("id-2", "Ann", 1, Point(0.5, 0.50), Point(0.5, 0.55))];

    c.StartDrag(Point(0.1, 0.10));
    c.DragMove(Point(0.1, 0.40));
    c.EndDrag(Some(""), "id-3");
    assert |c.annotations| == 1 && c.nextLabelNumber == 3;
  }
}
