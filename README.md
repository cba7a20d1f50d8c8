# Family annotator: a Dafny model of its annotation and export core

This project models the core of a browser tool for annotating family photos.
The user drags over a photo to place numbered labels, names them, and exports
the photo with its overlay as PNG or PDF. Five parts of the core are modelled:

- **The annotation record** (`AnnotationModel`, `annotation_model.dfy`). A
  `Point` is a pair of image fractions. An annotation's type is one of
  `PointType` and `PolygonType`. `Annotation` carries `id`, `name`, `kind`,
  `points`, `createdAt`, and an optional `color` and `note`. `WellShaped`
  states the documented rule that a point annotation has exactly one point.
  Nothing in the code checks a vertex count for polygons.
- **The annotation store** (`AnnotationStore`, `annotation_store.dfy`). The
  class `AnnotationService` holds the ordered list `items: seq<Annotation>`.
  Its methods append a point or a polygon, rename the first record with an
  id, remove every record with an id, clear, and import. Each method states
  its new list in terms of the old one. Appends go through the record
  builders `NewPoint` and `NewPolygon`, and rename and removal through the
  specification functions `Renamed` and `RemoveById`. `Renamed` finds the
  first record with `FindIndex`. Lemmas then prove that removal
  keeps order and is idempotent. Import takes the parse outcome as a value:
  a parse error, a non-array, or an array of records. Only the third
  replaces the list.
- **The drag-to-label component** (`DragLabel`, `drag_label.dfy`). The class
  `AppComponent` has the fields `isDragging`, `dragStart`, `dragCurrent`,
  `nextLabelNumber` and `annotations`. Pointer positions are given as image
  fractions. The naming dialog's answer is an `Option<string>` argument, and
  a fresh id is a string argument. The component stores its own record
  shape, `LabelAnnotation` (id, name, label number, start, end), not the
  store's. The object invariant `Valid` says that label numbers increase
  along the list and stay below `nextLabelNumber`, so a label number is
  never reused. Every handler preserves it.
- **SVG preparation** (`SvgPrep`, `svg_prep.dfy`). The overlay is a tree of
  `Node`s: elements with a tag, an attribute map and children, text, and
  comments. `CleanSvg` removes every comment. `FixSvgPercentUnits` turns
  percentages into pixels on every `line`, `circle` and `text` element below
  the root:
  - `x1`, `x2`, `cx`, `x` and `r` are scaled by the width;
  - `y1`, `y2`, `cy` and `y` are scaled by the height;
  - an absent attribute is not added.

  The eight `setAttr` calls and the inline conversion of `r` after them
  are the table `Conversions`, applied in that order. Trees are values, so the caller's tree is never changed. This is
  what the source gets by working on a clone.
- **Export decisions** (`Export`, `export.dfy`). Both exports fail when the
  image element, the SVG element or the image source is missing. An empty
  source string counts as missing. Image export fails with "Nothing to
  export" and PDF export with "No image loaded". The canvas has the image's
  natural size. Image export rasterises the cleaned and converted overlay.
  PDF export uses the cleaned overlay only. The PDF document is requested
  in portrait orientation, in pixel units, with the page format
  [canvas width, canvas height + 400]. The second page has the title "Family
  Tags List" at (20, 40) in 18-point type. Under it, legend line i reads
  `<label>. <name>` at (20, 80 + 24·i) in 14-point type. `LayoutLegend`
  keeps the source's loop, which steps `y` by 24.

Positions and lengths are Dafny `real`s, so percentage scaling is exact.
`Common` (`common.dfy`) holds `Option` and the order-preserving `Filter`
that both collections use for removal.

Facts about the code that the model keeps:
- the drag threshold looks only at the vertical distance;
- nothing checks a polygon's vertex count;
- the store's `save` is empty, so nothing persists.

The component declares its list as the store's `Annotation[]` but pushes
`{id, name, label, start, end}` records into it. PDF export reads `label`
from them. The model gives these records their own type, `LabelAnnotation`,
and PDF export takes that type.

## Model

| member | source | states |
|---|---|---|
| `Common.Filter` | src/app/services/annotation.service.ts:63 | an element is in the result exactly when it is in the input and passes the test; the result is never longer than the input |
| `Common.FilterCounts` | src/app/services/annotation.service.ts:63 | each element that passes the test occurs in the result as often as in the input, and no other element occurs |
| `Common.FilterConcat` | src/app/services/annotation.service.ts:63 | filtering a concatenation is the concatenation of the filtered parts, so kept elements keep their relative order |
| `Common.FilterAllKept` | src/app/app.component.ts:104 | when every element passes the test, filtering returns the input unchanged |
| `Common.FilterIdempotent` | src/app/app.component.ts:104 | filtering twice with the same test is the same as filtering once |
| `AnnotationModel.WellShaped` | src/app/models/annotation.model.ts:9 | a well-shaped point annotation carries exactly one point; a polygon is always well shaped, since no vertex count is required |
| `AnnotationStore.FindIndex` | src/app/services/annotation.service.ts:54 | the result is the first index holding the id, or -1 exactly when no record has that id |
| `AnnotationStore.Renamed` | src/app/services/annotation.service.ts:53-58 | only the name of the first record with the id changes; every other field and record stays; an absent id leaves the list as it was; the length never changes |
| `AnnotationStore.RemoveById` | src/app/services/annotation.service.ts:62-65 | no remaining record has the id; every other record keeps its multiplicity; removing an absent id changes nothing |
| `AnnotationStore.RemoveKeepsOrder` | src/app/services/annotation.service.ts:63 | removal distributes over concatenation, so the remaining records keep their relative order |
| `AnnotationStore.RemoveIdempotent` | src/app/services/annotation.service.ts:62-65 | removing the same id twice is the same as removing it once |
| `AnnotationStore.NewPoint` | src/app/services/annotation.service.ts:24-31 | the new record has type point, exactly the one given point, and the given id, name, color and timestamp; it has no note and is well shaped |
| `AnnotationStore.NewPolygon` | src/app/services/annotation.service.ts:39-46 | the new record has type polygon, its vertices exactly as given with no count check, and the given id, name, color and timestamp |
| `AnnotationStore.AnnotationService.constructor` | src/app/services/annotation.service.ts:12-17 | the store starts empty |
| `AnnotationStore.AnnotationService.All` | src/app/services/annotation.service.ts:20 | returns the current collection |
| `AnnotationStore.AnnotationService.AddPoint` | src/app/services/annotation.service.ts:23-35 | appends exactly the new point record at the end, leaves earlier records alone, and returns the appended record |
| `AnnotationStore.AnnotationService.AddPolygon` | src/app/services/annotation.service.ts:38-50 | appends exactly the new polygon record at the end, leaves earlier records alone, and returns the appended record |
| `AnnotationStore.AnnotationService.UpdateName` | src/app/services/annotation.service.ts:53-59 | the new collection is `Renamed` of the old one: only the first matching record is renamed, and an absent id changes nothing |
| `AnnotationStore.AnnotationService.Remove` | src/app/services/annotation.service.ts:62-65 | the new collection is the old one without the id, order kept |
| `AnnotationStore.AnnotationService.Clear` | src/app/services/annotation.service.ts:68 | the collection is empty afterwards |
| `AnnotationStore.AnnotationService.Import` | src/app/services/annotation.service.ts:72-80 | the collection becomes the parsed records exactly when the payload parsed to an array; after a parse error or a non-array it is unchanged |
| `DragLabel.Abs` | src/app/app.component.ts:61 | the result is non-negative and equals the argument or its negation |
| `DragLabel.IsLongEnough` | src/app/app.component.ts:59-63 | a drag passes exactly when the end lies at least 0.02 above or below the start; the horizontal positions play no part |
| `DragLabel.IsName` | src/app/app.component.ts:79 | the dialog's answer counts as a name exactly when it is neither absent nor the empty string |
| `DragLabel.RemoveById` | src/app/app.component.ts:103-105 | no remaining label record has the id; every other record keeps its multiplicity; deleting an absent id changes nothing |
| `DragLabel.RemoveKeepsOrder` | src/app/app.component.ts:104 | deletion distributes over concatenation, so the remaining records keep their relative order |
| `DragLabel.FilterKeepsLabelsIncreasing` | src/app/app.component.ts:104 | filtering a list whose label numbers increase strictly keeps them increasing |
| `DragLabel.RemoveKeepsLabelsIncreasing` | src/app/app.component.ts:103-105 | deleting a label record keeps the label numbers in creation order |
| `DragLabel.AppComponent.constructor` | src/app/app.component.ts:17-24 | the component starts with no records, not dragging, both drag points at (0, 0), next label 1, and the invariant holds |
| `DragLabel.AppComponent.StartDrag` | src/app/app.component.ts:37-42 | both drag points become the pointer position, dragging starts, and the records and the label counter are untouched |
| `DragLabel.AppComponent.DragMove` | src/app/app.component.ts:45-48 | without a drag in progress nothing changes; during a drag only the current point moves |
| `DragLabel.AppComponent.EndDrag` | src/app/app.component.ts:51-90 | without a drag nothing changes; otherwise dragging stops; a label number is used up exactly when the vertical extent reaches 0.02, whatever the horizontal extent and whatever the dialog returns; a record with that label, the start and the end is appended exactly when the drag was long enough and the dialog returned a non-empty name; the invariant is kept |
| `DragLabel.AppComponent.RenameAnn` | src/app/app.component.ts:92-101 | the record's name is overwritten only when the dialog returned a non-empty name; nothing else changes |
| `DragLabel.AppComponent.DeleteAnn` | src/app/app.component.ts:103-105 | every record with the id is removed and the rest keep their order; label numbers stay increasing |
| `SvgPrep.CleanNode` | src/app/utils/svg-utils.ts:8-17 | the cleaned node has no comment anywhere below it; an element keeps its tag and attributes, and text is untouched |
| `SvgPrep.CleanChildren` | src/app/utils/svg-utils.ts:8-17 | no cleaned child holds a comment, and the result is never longer than the input |
| `SvgPrep.CleanSvg` | src/app/utils/svg-utils.ts:4-20 | the output of `cleanSVG` contains no comment node, and the root keeps its tag and attributes |
| `SvgPrep.CleanKeepsOutline` | src/app/utils/svg-utils.ts:8-17 | cleaning keeps every non-comment node, in document order and at the same depth, so under the same parent |
| `SvgPrep.CleanChildrenKeepOutline` | src/app/utils/svg-utils.ts:8-17 | the same outline property for a list of sibling nodes |
| `SvgPrep.OutlineAllConcat` | src/app/utils/svg-utils.ts:8-17 | the outline of a concatenation of siblings is the concatenation of their outlines |
| `SvgPrep.CleanCommentFree` | src/app/utils/svg-utils.ts:8-17 | a tree without comments comes out of cleaning unchanged |
| `SvgPrep.CleanChildrenCommentFree` | src/app/utils/svg-utils.ts:8-17 | siblings without comments come out of cleaning unchanged |
| `SvgPrep.CleanIdempotent` | src/app/utils/svg-utils.ts:4-20 | cleaning an already-cleaned SVG changes nothing |
| `SvgPrep.Scale` | src/app/utils/svg-utils.ts:36 | a number stays a number and becomes that percentage of the dimension; text that is not a number becomes NaN |
| `SvgPrep.Apply` | src/app/utils/svg-utils.ts:40-52 | applying a run of conversions keeps the attribute key set and leaves every attribute the run does not name alone |
| `SvgPrep.SetAttr` | src/app/utils/svg-utils.ts:33-38 | a present attribute becomes its value as a percentage of the dimension; no attribute is added and no other attribute changes |
| `SvgPrep.ApplyConverts` | src/app/utils/svg-utils.ts:40-52 | a run of conversions with distinct names converts each present named attribute once, by its own extent, keeps the key set, and leaves unnamed attributes alone |
| `SvgPrep.ConversionsCover` | src/app/utils/svg-utils.ts:40-52 | the conversion table names exactly the x-like attributes along the width, the y-like ones along the height, and `r` along the width |
| `SvgPrep.ScaleAttrs` | src/app/utils/svg-utils.ts:32-53 | every present x-like attribute and `r` becomes v/100·width, every present y-like one v/100·height; `r` is never scaled by height; other attributes are kept and absent ones are not added |
| `SvgPrep.FixNode` | src/app/utils/svg-utils.ts:30-53 | line, circle and text elements get converted attributes; other elements keep theirs; text and comments are untouched; tags and child counts stay; the children are converted in turn |
| `SvgPrep.FixChildren` | src/app/utils/svg-utils.ts:30-53 | conversion keeps the number of siblings and converts each sibling at its own position |
| `SvgPrep.FixSvgPercentUnits` | src/app/utils/svg-utils.ts:22-56 | the root keeps its tag, attributes and child count, because the selector only matches descendants; every child below it is converted |
| `SvgPrep.GrandchildLineConverted` | src/app/utils/svg-utils.ts:30-47 | a `line` two levels below the root has its `x1` scaled by the width, for any extents, zero included |
| `SvgPrep.FixKeepsCommentFree` | src/app/utils/svg-utils.ts:30-53 | conversion adds no node, so a comment-free tree stays comment-free |
| `SvgPrep.FixChildrenKeepCommentFree` | src/app/utils/svg-utils.ts:30-53 | the same for a list of siblings |
| `SvgPrep.ScaleRoundTrip` | src/app/utils/svg-utils.ts:36 | scaling a number to pixels and back gives the number, for a non-zero dimension |
| `SvgPrep.ScaleAttrsRoundTrip` | src/app/utils/svg-utils.ts:32-53 | converting an element's numeric attributes to pixels and back gives the original map |
| `SvgPrep.FixRoundTrip` | src/app/utils/svg-utils.ts:22-56 | converting a tree to pixels and back returns the original tree, so no node, attribute or value other than the converted positions changes |
| `SvgPrep.FixChildrenRoundTrip` | src/app/utils/svg-utils.ts:30-53 | the same round trip for a list of siblings |
| `Export.HasSources` | src/app/services/export.service.ts:11 | the sources are missing exactly when the image element or the SVG element is absent, or the image source is absent or the empty string |
| `Export.CreateCanvas` | src/app/services/export.service.ts:75-80 | the canvas width and height are the image's natural width and height |
| `Export.ExportAsImage` | src/app/services/export.service.ts:9-29 | fails with "Nothing to export" exactly when the image, the SVG or a non-empty source is missing; otherwise the canvas has the natural size, the overlay is the cleaned SVG converted to canvas pixels and holds no comment, and the file is family_tags.png |
| `Export.DigitChar` | src/app/services/export.service.ts:62 | the character is the decimal digit of the given value |
| `Export.NatToDecimal` | src/app/services/export.service.ts:62 | a label number prints as one or more decimal digits without a leading zero; a label below 10, including 0, prints as a single digit |
| `Export.DecimalRoundTrip` | src/app/services/export.service.ts:62 | reading back the printed digits gives the label number |
| `Export.LeadingDigits` | src/app/services/export.service.ts:62 | the result is the longest prefix of the string made only of digits |
| `Export.LeadingDigitsOfPrefix` | src/app/services/export.service.ts:62 | the leading digits of digits followed by a non-digit are exactly those digits |
| `Export.LegendText` | src/app/services/export.service.ts:62 | the line is its leading digits, then `. `, then the name; the digits are a single `0` or have no leading zero, and they read back as the label number, so the line is exactly `<label>. <name>` |
| `Export.LayoutLegend` | src/app/services/export.service.ts:59-64 | there is one legend line per annotation, in annotation order; line i reads `<label>. <name>` at x = 20, y = 80 + 24·i, in 14-point type |
| `Export.ExportAsPdf` | src/app/services/export.service.ts:31-67 | fails with "No image loaded" exactly when the image, the SVG or a non-empty source is missing; otherwise the overlay is only cleaned, the document is requested in portrait, in pixel units, with the page format [width, height + 400], the title is at (20, 40) in 18-point type, the legend follows `LayoutLegend`, and the file is family_tags.pdf |

## Left out

- Persistence: `localStorage` in `load` and the empty `save` are not modelled, and the store starts empty. `load`, unlike `import`, has no array check.
- JSON: `JSON.parse`, `JSON.stringify` and `export()` are not modelled. Import takes the parse outcome as a value.
- AnnotationStore.AnnotationService.Import: the source's `as Annotation[]` is only a type cast. It accepts any array, such as `[1, 2]` or `[{}]`, without checking its elements. The model can only express an array of well-formed records, so arrays with malformed elements are not modelled.
- Ids and timestamps: `uuidv4`, `crypto.randomUUID` and `new Date().toISOString()` are parameters. Nothing in the code makes ids unique, and the model assumes nothing about them.
- `toPct`: the read of the container's bounding box is not modelled. Pointer positions arrive as image fractions.
- Browser work: canvas drawing, `Image` loading and its promise, `XMLSerializer`, `Blob` and object URLs, the jsPDF calls and `link.click()` are not modelled. The export results describe what would be drawn and saved. Image-load failures after the guard are not modelled.
- DOM walking: the `TreeWalker` and `querySelectorAll` mechanics become recursion over a node tree.
- Number conversion: `parseFloat` and `toString` are not modelled. A numeric attribute is the number `parseFloat` reads. Text that does not start with a number is modelled as `Other` and becomes the text "NaN". IEEE rounding is not modelled.
- Console output: `endDrag` logs "drag too small" before it returns. Logging has no effect on the modelled state and is not modelled.
- UI glue: the dialog, annotation-list and topbar components are not modelled. The dialog is an optional-string argument.
- `NameDialogData`: it is imported from the record file but not declared there. It is not part of this model.
- DragLabel.AppComponent.EndDrag: the dialog's answer arrives asynchronously in the source. The model takes it as an argument and appends in the same step. A later `deleteAnn` or drag that runs while the dialog is open is not interleaved.
- DragLabel.AppComponent.RenameAnn: the source changes the name on the object it was given, which is shared with the list. The model names the record by its index in the list. A record removed while the rename dialog is open is not modelled.
- AnnotationStore.AnnotationService.All: the source returns the live array, which callers could mutate. The model returns a value, so aliasing is not modelled.
- AnnotationStore.AnnotationService.AddPoint: the stored record is the same object as the one returned, and its `points` holds the caller's `p` itself. The model stores values, so a later change to either object through another reference is not modelled.
- AnnotationStore.AnnotationService.AddPolygon: the stored record's `points` is the caller's `pts` array itself, and the record is the one returned. A later change to that array or record by the caller is not modelled.
- Export.ExportAsPdf: the result records the requested orientation and page format. How the PDF library treats a format wider than it is tall under a portrait request is not modelled, because the library is not part of this model.
- Zoom/pan mapping and point or polygon hit-testing: the code has no such operations.
