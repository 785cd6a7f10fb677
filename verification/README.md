# Triangle area slideshow — a Dafny model

This project models the computable core of a single-page slideshow that teaches
three ways of finding the area of a triangle. The slideshow is one React component,
`src/App.jsx`. Its core is the following:

- three area formulas:
  - base × height / 2;
  - Heron's formula on three side lengths, where a negative radicand (NaN in the
    source) gives 0;
  - the shoelace formula on three vertex coordinates, divided by 10 for display;
- the inline triangle-inequality test ("Triangle exists");
- the "Triangle Properties" panel, which computes three side lengths, the
  perimeter and a tolerance-based type (Equilateral / Isosceles / Scalene);
- the vertex-drag explorer: three points, `isDragging` and `dragVertex`, changed by
  the mouse handlers and the "Reset Triangle" button;
- slide navigation: `currentSlide` with `nextSlide`, `prevSlide`, the dot buttons
  and the disabled Previous/Next buttons.

The model has four modules:

- `Geometry` (`geometry.dfy`) holds the area formulas and the validity test. These
  are pure functions over `real`.
- `Measurements` (`measurements.dfy`) holds side lengths, perimeter and
  classification. It also proves that Heron's formula on the vertices' side
  lengths gives exactly the coordinate area.
- `Explorer` (`explorer.dfy`) holds the class `TriangleExplorer`. Its fields are the
  component's drag state, and one method stands for each event handler.
- `Navigation` (`navigation.dfy`) holds the class `SlideDeck`, which keeps the slide
  index, and the index arithmetic.

## Modelling decisions

- The source works in IEEE doubles. The model uses exact `real`, so rounding and
  `toFixed` formatting are not modelled.
- `Math.sqrt` is not computable over exact reals, so its values are inputs to the
  model:
  - `HeronArea` takes `root`. When the radicand is non-negative, `root` must satisfy
    `IsRoot(radicand, root)`, meaning `root >= 0` and `root * root == radicand`.
  - When the radicand is negative, `Math.sqrt` gives NaN, the source returns 0, and
    the model returns 0 without looking at `root`.
  - The three side lengths on the properties panel come as a `Sides` value. `IsSidesOf`
    ties each length to the squared distance between two vertices in the same way.
- Classification follows the code. The code's Equilateral test compares only AB
  with BC and BC with CA, and never CA with AB. So "all three pairwise differences
  below the tolerance" is NOT what the code checks. `EquilateralWithFarPair` shows
  sides 10, 11.9, 13.8 classified Equilateral even though CA and AB differ by 3.8.
- `OnMouseMove` receives the pointer position already normalised to the 0..100
  plane.
- The component's state becomes the fields of two classes. The two class invariants
  (`Valid`) say:
  - a vertex is selected exactly while a drag is in progress, and every vertex lies
    in the [5, 95] margin;
  - the slide index is below the slide count (6).

## Model

| member | source | states |
|---|---|---|
| `Geometry.Triangle.With` | src/App.jsx:464-467 | replacing corner `v` yields `p` at `v`, and every other corner keeps its old point |
| `Geometry.BasicArea` | src/App.jsx:30 | twice the area is the base×height rectangle (`area + area == base * height`), and the area is positive for positive base and height |
| `Geometry.BasicAreaOnSliders` | src/App.jsx:230-248 | with the slider ranges (base 1..20, height 1..15) the area lies between 0.5 and 150 |
| `Geometry.BasicAreaExample` | src/App.jsx:1020-1025 | base 12, height 8 gives 48 |
| `Geometry.SemiPerimeter` | src/App.jsx:34 | twice the semi-perimeter is the sum of the sides |
| `Geometry.IsValidTriangle` | src/App.jsx:416-417 | the "Triangle exists" test (its negation shows the warning at src/App.jsx:430): all three strict triangle inequalities; a triple that passes has every side positive |
| `Geometry.Radicand` | src/App.jsx:35 | the argument s(s−a)(s−b)(s−c) handed to the square root; its sign and factor form are the lemmas below |
| `Geometry.HeronArea` | src/App.jsx:33-37 | never negative; its square is the radicand, or 0 when the radicand is negative (NaN replaced by 0); for positive sides it is positive exactly when the triangle test passes |
| `Geometry.RadicandFactors` | src/App.jsx:34-35 | 16 × radicand equals (a+b+c)(b+c−a)(a+c−b)(a+b−c) |
| `Geometry.HeronRadicandSign` | src/App.jsx:416-417 | for positive sides the radicand is strictly positive if and only if all three strict triangle inequalities hold |
| `Geometry.HeronAreaInvalidIsZero` | src/App.jsx:33-37 | for positive sides that fail the triangle test, Heron's area is exactly 0, not an error |
| `Geometry.ValidTriangleSymmetric` | src/App.jsx:416-417 | the triangle test gives the same answer for every order of the three sides |
| `Geometry.HeronExample345` | src/App.jsx:355-358 | sides 3, 4, 5 give radicand 36 and area 6 |
| `Geometry.HeronExample51213` | src/App.jsx:856-861 | sides 5, 12, 13 give radicand 900 and area 30 |
| `Geometry.HeronExample6810` | src/App.jsx:1049-1054 | sides 6, 8, 10 give radicand 576 and area 24 |
| `Geometry.HeronInvalidExample` | src/App.jsx:33-37 | sides 1, 1, 10 fail the test, the radicand is negative and the area is 0 whatever root is supplied |
| `Geometry.SignedDoubleArea` | src/App.jsx:42 | the expression inside the absolute value, A.x(B.y−C.y)+B.x(C.y−A.y)+C.x(A.y−B.y), twice the signed area; its orientation and translation lemmas are below |
| `Geometry.ShoelaceArea` | src/App.jsx:42 | the unscaled coordinate area is never negative |
| `Geometry.VertexArea` | src/App.jsx:40-43 | the displayed area is never negative and is the coordinate area divided by 10 |
| `Geometry.SignedDoubleAreaOrientation` | src/App.jsx:42 | the signed area is kept by a rotation of A, B, C and negated by a swap of two vertices |
| `Geometry.VertexAreaPermutation` | src/App.jsx:40-43 | the displayed area is the same for all six orders of the vertices |
| `Geometry.SignedDoubleAreaTranslation` | src/App.jsx:42 | moving all three vertices by the same offset keeps the signed area |
| `Geometry.CollinearAreaZero` | src/App.jsx:40-43 | a third vertex on the line through the other two gives area 0 |
| `Geometry.ShoelaceAgreesWithBasicArea` | src/App.jsx:30-43 | a triangle with its base on the x axis from the origin and apex at the given height has coordinate area base×height/2 |
| `Geometry.VertexAreaChallengeExample` | src/App.jsx:886-894 | A(2,1), B(6,1), C(4,5) give unscaled area 8 |
| `Geometry.VertexAreaProblemExample` | src/App.jsx:1082-1088 | A(0,0), B(4,0), C(2,3) give unscaled area 6 |
| `Measurements.DistSq` | src/App.jsx:601-603 | the squared distance under each side-length square root |
| `Measurements.IsSidesOf` | src/App.jsx:601-603 | the three side lengths are the non-negative square roots of the squared distances AB, BC and CA |
| `Measurements.DistSqZero` | src/App.jsx:601-603 | a squared side length is never negative and is 0 exactly when the two vertices coincide |
| `Measurements.Perimeter` | src/App.jsx:604 | the perimeter is at least each side, never negative, and 0 exactly when all three vertices coincide |
| `Measurements.Near` | src/App.jsx:608-610 | two lengths count as equal when they differ by less than 2; equal lengths are near |
| `Measurements.NearSymmetric` | src/App.jsx:608-610 | nearness is symmetric, so comparing CA with AB is the same as AB with CA |
| `Measurements.Classify` | src/App.jsx:607-612 | Scalene exactly when no pair of sides is within 2; Equilateral implies at least two near pairs, Isosceles one or two; three near pairs always give Equilateral |
| `Measurements.ClassifyPrecedence` | src/App.jsx:607-612 | Equilateral exactly when AB is near BC and BC is near CA; Isosceles exactly when that fails and some pair of sides differs by less than 2 |
| `Measurements.ScaleneSymmetric` | src/App.jsx:607-612 | whether the type is Scalene does not depend on how the sides are named |
| `Measurements.ExactlyEquilateral` | src/App.jsx:607-609 | three equal sides are classified Equilateral |
| `Measurements.ExactlyIsoscelesNotScalene` | src/App.jsx:607-612 | two equal sides are never classified Scalene |
| `Measurements.EquilateralSpread` | src/App.jsx:608 | an Equilateral classification keeps CA and AB less than 4 apart |
| `Measurements.EquilateralWithFarPair` | src/App.jsx:608 | sides 10, 11.9, 13.8 are classified Equilateral although CA and AB differ by more than the tolerance |
| `Measurements.RadicandBySquares` | src/App.jsx:33-37 | with sa, sb, sc the squares of the sides, 16 × Heron's radicand equals 4·sa·sc − (sa + sc − sb)² |
| `Measurements.RadicandIsSquaredShoelace` | src/App.jsx:33-43 | for the vertices' side lengths, Heron's radicand is the square of the coordinate area |
| `Measurements.HeronAgreesWithShoelace` | src/App.jsx:33-43 | Heron's formula on the vertices' side lengths gives exactly the unscaled coordinate area |
| `Measurements.SidesValidIffPositiveArea` | src/App.jsx:416-417 | for every three vertices, their side lengths pass the triangle test if and only if the displayed area is positive |
| `Measurements.CoincidentVerticesDegenerate` | src/App.jsx:601-603 | when two vertices coincide (two drags can clamp them to the same corner), the side lengths fail the triangle test and the area is 0 |
| `Explorer.Clamp` | src/App.jsx:466 | the result lies in [5, 95]; equals the input inside it, 5 below it and 95 above it |
| `Explorer.ClampIdempotent` | src/App.jsx:466 | clamping twice is clamping once |
| `Explorer.Drag` | src/App.jsx:464-467 | the dragged vertex lands at the pointer with each coordinate clamped to [5, 95] on its own, the other two vertices are unchanged, and a triangle inside the margin stays inside |
| `Explorer.DragInsideFollowsPointer` | src/App.jsx:464-467 | a pointer inside the margin places the dragged vertex exactly under it |
| `Explorer.DragIdempotent` | src/App.jsx:464-467 | a second move to the same position changes nothing |
| `Explorer.DragOverwrites` | src/App.jsx:464-467 | only the last pointer position of a drag matters |
| `Explorer.DefaultTriangleInCanvas` | src/App.jsx:17-21 | the default triangle lies inside the margin and shows area 180 |
| `Explorer.TriangleExplorer.constructor` | src/App.jsx:17-23 | starts with A(50,20), B(20,80), C(80,80), not dragging, no vertex selected |
| `Explorer.TriangleExplorer.OnMouseDown` | src/App.jsx:521-524 | selects vertex `v` and starts dragging; vertices unchanged |
| `Explorer.TriangleExplorer.OnMouseMove` | src/App.jsx:458-468 | without a drag in progress nothing changes; otherwise the vertices become `Drag` of the old ones for the selected vertex; the selection is unchanged |
| `Explorer.TriangleExplorer.OnMouseUp` | src/App.jsx:469-472 | from every state: not dragging, no vertex selected, vertices unchanged |
| `Explorer.TriangleExplorer.OnMouseLeave` | src/App.jsx:473-476 | from every state: not dragging, no vertex selected, vertices unchanged |
| `Explorer.TriangleExplorer.Reset` | src/App.jsx:545-550 | the vertices become the default triangle whatever they were; the selection is unchanged |
| `Explorer.DragOffCanvas` | src/App.jsx:458-476 | dragging A to (200, 50) and releasing leaves A at (95, 50), B and C unchanged, and no drag in progress |
| `Navigation.NextIndex` | src/App.jsx:1196-1198 | the index stays below the slide count; it is the next index, or 0 after the last |
| `Navigation.PrevIndex` | src/App.jsx:1200-1202 | the index stays below the slide count; it is the previous index, or the last after 0 |
| `Navigation.NextPrevInverse` | src/App.jsx:1196-1202 | next then previous, and previous then next, return to the same slide |
| `Navigation.Advance` | src/App.jsx:1196-1198 | any number of `nextSlide` calls keeps the index below the slide count (wrapping past the last slide is `nextSlide`'s own behaviour; the page never shows it, because the Next button is disabled there) |
| `Navigation.AdvanceWithinRound` | src/App.jsx:1196-1198 | k ≤ n calls of `nextSlide` from i reach i + k, or i + k − n past the end |
| `Navigation.AdvanceFullCycle` | src/App.jsx:1196-1198 | as many `nextSlide` calls as there are slides come back to the same slide |
| `Navigation.SlideDeck.constructor` | src/App.jsx:5 | starts on slide 0 |
| `Navigation.SlideDeck.NextSlide` | src/App.jsx:1196-1198 | the new index is `NextIndex` of the old one and stays in range |
| `Navigation.SlideDeck.PrevSlide` | src/App.jsx:1200-1202 | the new index is `PrevIndex` of the old one and stays in range |
| `Navigation.SlideDeck.GoTo` | src/App.jsx:1245 | a dot sets the index to exactly its own index |
| `Navigation.SlideDeck.PreviousDisabled` | src/App.jsx:1234 | the Previous button is disabled exactly on slide 0 |
| `Navigation.SlideDeck.NextDisabled` | src/App.jsx:1255 | the Next button is disabled exactly on the last slide |
| `Navigation.SlideDeck.ClickPrevious` | src/App.jsx:1232-1234 | the new index is `PrevButton` of the old one: the Previous button is disabled on slide 0, otherwise it moves back one slide |
| `Navigation.SlideDeck.ClickNext` | src/App.jsx:1253-1255 | the new index is `NextButton` of the old one: the Next button is disabled on the last slide, otherwise it moves forward one slide |
| `Navigation.NextButton` | src/App.jsx:1253-1255 | a click on Next stays in range, is ignored on the last slide and otherwise moves forward one slide |
| `Navigation.PrevButton` | src/App.jsx:1232-1234 | a click on Previous stays in range, is ignored on slide 0 and otherwise moves back one slide |
| `Navigation.NextClicksStopAtLast` | src/App.jsx:1253-1255 | k clicks on Next from slide i reach slide min(i + k, last): the buttons never wrap |
| `Navigation.PrevClicksStopAtFirst` | src/App.jsx:1232-1234 | k clicks on Previous from slide i reach slide max(i − k, 0) |

## Left out

- The particle animation (src/App.jsx:46-70) is not modelled. It is decorative, and it
  depends on `Math.random` and `requestAnimationFrame`.
- Slide markup and copy, SVG drawing, and the modal's open/close state and content are
  not modelled. They are presentation only and compute nothing.
- Pixel-to-percent normalisation with `getBoundingClientRect` (src/App.jsx:460-462) is
  not modelled. It depends on browser layout, so `OnMouseMove` takes the normalised
  position as its input.
- IEEE-754 rounding, NaN and infinities are not modelled beyond Heron's NaN-to-0 case.
  `toFixed` display formatting is not modelled either.
- `Math.sqrt` is not modelled as a function. Its results are parameters constrained by
  `IsRoot`, so no member computes a square root itself.
- The slider inputs and their setters (`setBase`, `setHeight`, `setSideA/B/C`) are not
  modelled. The sliders only store a number. The calculators take the slider values as
  parameters, and the HTML `min`/`max` ranges appear only as the precondition of
  `BasicAreaOnSliders`.
- The close button's `window.location.reload()` (src/App.jsx:1216) is not modelled.
  It is a browser side effect.
- React's asynchronous state batching is not modelled. Each handler is modelled as one
  atomic update of the fields.
