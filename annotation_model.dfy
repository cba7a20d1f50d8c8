/** The annotation record of the point/polygon annotator. */
module AnnotationModel {
  import opened Common

  /** A position as a fraction of the image's width and height. */
  datatype Point = Point(xPct: real, yPct: real)

  /** An annotation is either a single point or a polygon. */
  datatype AnnotationType = PointType | PolygonType

  /** `id`, `name`, `kind`, `points` and `createdAt` are always present;
      `color` and `note` may be absent. */
  datatype Annotation = Annotation(
    id: string,
    name: string,
    kind: AnnotationType,
    points: seq<Point>,
    color: Option<string>,
    note: Option<string>,
    createdAt: string)

  /** The documented shape: a point annotation carries exactly one point.
      A polygon may carry any number of vertices (nothing checks a count). */
  predicate WellShaped(a: Annotation)
    ensures WellShaped(a) && a.kind == PointType ==> |a.points| == 1 && a.points == [a.points[0]]
    ensures a.kind == PolygonType ==> WellShaped(a)
  {
    a.kind == PointType ==> |a.points| == 1
  }
}
