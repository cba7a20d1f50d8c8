/** The in-memory annotation store: an ordered list of records that is
    appended to, renamed in place, filtered, cleared and replaced on import. */
module AnnotationStore {
  import opened Common
  import opened AnnotationModel

  /** What parsing an import payload produced: the parser threw, the value
      was not an array, or it was an array of records. */
  datatype ParseOutcome = ParseError | NotAnArray | ArrayValue(records: seq<Annotation>)

  /** `findIndex(x => x.id === id)`: the first index holding `id`, or -1. */
  function FindIndex(s: seq<Annotation>, id: string): (r: int)
    ensures -1 <= r < |s|
    ensures r >= 0 ==> s[r].id == id && forall j :: 0 <= j < r ==> s[j].id != id
    ensures r == -1 <==> forall j :: 0 <= j < |s| ==> s[j].id != id
  {
    if s == [] then -1
    else if s[0].id == id then 0
    else
      var k := FindIndex(s[1..], id);
      if k < 0 then -1 else k + 1
  }

  /** The collection after renaming: only the first record with `id` gets
      the new name; an absent id leaves the collection as it was. */
  function Renamed(s: seq<Annotation>, id: string, name: string): (r: seq<Annotation>)
    ensures |r| == |s|
    ensures (forall j :: 0 <= j < |s| ==> s[j].id != id) ==> r == s
    ensures forall i :: 0 <= i < |s| && s[i].id == id && (forall j :: 0 <= j < i ==> s[j].id != id) ==>
      r == s[i := s[i].(name := name)]
  {
    var i := FindIndex(s, id);
    if i < 0 then s else s[i := s[i].(name := name)]
  }

  /** The collection without the records carrying `id`. */
  function RemoveById(s: seq<Annotation>, id: string): (r: seq<Annotation>)
    ensures forall i :: 0 <= i < |r| ==> r[i].id != id
    ensures forall x :: multiset(r)[x] == if x.id == id then 0 else multiset(s)[x]
    ensures (forall i :: 0 <= i < |s| ==> s[i].id != id) ==> r == s
  {
    var keep := (x: Annotation) => x.id != id;
    if forall i :: 0 <= i < |s| ==> s[i].id != id then
      FilterAllKept(s, keep);
      FilterCounts(s, keep);
      Filter(s, keep)
    else
      FilterCounts(s, keep);
      var r := Filter(s, keep);
      assert forall i :: 0 <= i < |r| ==> r[i] in r;
      r
  }

  /** Removal keeps the relative order of the remaining records: removing
      from a concatenation removes from each part. */
  lemma RemoveKeepsOrder(a: seq<Annotation>, b: seq<Annotation>, id: string)
    ensures RemoveById(a + b, id) == RemoveById(a, id) + RemoveById(b, id)
  {
    FilterConcat(a, b, (x: Annotation) => x.id != id);
  }

  /** Removing an id a second time changes nothing. */
  lemma RemoveIdempotent(s: seq<Annotation>, id: string)
    ensures RemoveById(RemoveById(s, id), id) == RemoveById(s, id)
  {
    var r := RemoveById(s, id);
    assert forall i :: 0 <= i < |r| ==> r[i].id != id;
  }

  /** The record `addPoint` builds. */
  function NewPoint(id: string, name: string, p: Point, color: Option<string>, createdAt: string): (a: Annotation)
    ensures a.kind == PointType && a.points == [p] && WellShaped(a)
    ensures a.id == id && a.name == name && a.color == color && a.note == None && a.createdAt == createdAt
  {
    Annotation(id, name, PointType, [p], color, None, createdAt)
  }

  /** The record `addPolygon` builds: the vertices exactly as given. */
  function NewPolygon(id: string, name: string, pts: seq<Point>, color: Option<string>, createdAt: string): (a: Annotation)
    ensures a.kind == PolygonType && a.points == pts && WellShaped(a)
    ensures a.id == id && a.name == name && a.color == color && a.note == None && a.createdAt == createdAt
  {
    Annotation(id, name, PolygonType, pts, color, None, createdAt)
  }

  /** The store. Fresh ids and creation timestamps are passed in. */
  class AnnotationService {
    var items: seq<Annotation>

    constructor ()
      ensures items == []
    {
      items := [];
    }

    /** The current collection (`get all`). */
    method All() returns (r: seq<Annotation>)
      ensures r == items
    {
      r := items;
    }

    method AddPoint(name: string, p: Point, color: Option<string>, id: string, createdAt: string)
      returns (a: Annotation)
      modifies this
      ensures a == NewPoint(id, name, p, color, createdAt)
      ensures items == old(items) + [a]
    {
      a := NewPoint(id, name, p, color, createdAt);
      items := items + [a];
    }

    method AddPolygon(name: string, pts: seq<Point>, color: Option<string>, id: string, createdAt: string)
      returns (a: Annotation)
      modifies this
      ensures a == NewPolygon(id, name, pts, color, createdAt)
      ensures items == old(items) + [a]
    {
      a := NewPolygon(id, name, pts, color, createdAt);
      items := items + [a];
    }

    method UpdateName(id: string, name: string)
      modifies this
      ensures items == Renamed(old(items), id, name)
    {
      var i := FindIndex(items, id);
      if i >= 0 {
        items := items[i := items[i].(name := name)];
      }
    }

    method Remove(id: string)
      modifies this
      ensures items == RemoveById(old(items), id)
    {
      items := RemoveById(items, id);
    }

    method Clear()
      modifies this
      ensures items == []
    {
      items := [];
    }

    /** Replaces the collection only when the payload parsed to an array. */
    method Import(payload: ParseOutcome)
      modifies this
      ensures payload.ArrayValue? ==> items == payload.records
      ensures !payload.ArrayValue? ==> items == old(items)
    {
      match payload
      case ArrayValue(records) =>
        items := records;
      case _ =>
    }
  }
}
