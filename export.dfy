/** Where a captured image is drawn on the PDF page, and the names exported files get.
    Page and image sizes are real numbers; floating-point rounding is not modelled. */
module Export {

  /** The rectangle passed to `addImage`: origin and size, in page units. */
  datatype Placement = Placement(x: real, y: real, width: real, height: real)

  /** The résumé export: full page width, the height that keeps the image's aspect ratio,
      clamped to the page height. */
  function FitToWidth(pageWidth: real, pageHeight: real, canvasWidth: real, canvasHeight: real): (p: Placement)
    requires pageWidth > 0.0 && pageHeight > 0.0 && canvasWidth > 0.0 && canvasHeight > 0.0
    ensures p.x == 0.0 && p.y == 0.0 && p.width == pageWidth
    ensures 0.0 < p.height <= pageHeight
    ensures canvasHeight * pageWidth <= pageHeight * canvasWidth ==> p.height * canvasWidth == pageWidth * canvasHeight
    ensures canvasHeight * pageWidth > pageHeight * canvasWidth ==> p.height == pageHeight
  {
    var aspectRatio := canvasWidth / canvasHeight;
    var imgHeight := pageWidth / aspectRatio;
    assert imgHeight * canvasWidth == pageWidth * canvasHeight;
    Placement(0.0, 0.0, pageWidth, if imgHeight > pageHeight then pageHeight else imgHeight)
  }

  /** The letter and dashboard exports: the image is stretched over the whole page. */
  function FullPage(pageWidth: real, pageHeight: real): (p: Placement)
    ensures p.x == 0.0 && p.y == 0.0 && p.width == pageWidth && p.height == pageHeight
  {
    Placement(0.0, 0.0, pageWidth, pageHeight)
  }

  /** A stretched image keeps its proportions exactly when the capture has the page's aspect
      ratio; any other capture is distorted. */
  lemma FullPageKeepsAspectIff(pageWidth: real, pageHeight: real, canvasWidth: real, canvasHeight: real)
    requires pageWidth > 0.0 && pageHeight > 0.0 && canvasWidth > 0.0 && canvasHeight > 0.0
    ensures var p := FullPage(pageWidth, pageHeight);
      p.height * canvasWidth == p.width * canvasHeight <==> canvasHeight * pageWidth == pageHeight * canvasWidth
  {
  }

  /** The résumé keeps its proportions exactly when its image is at least as wide, relative to
      its height, as the page; a taller image is cut at the page height. */
  lemma FitKeepsAspectIff(pageWidth: real, pageHeight: real, canvasWidth: real, canvasHeight: real)
    requires pageWidth > 0.0 && pageHeight > 0.0 && canvasWidth > 0.0 && canvasHeight > 0.0
    ensures var p := FitToWidth(pageWidth, pageHeight, canvasWidth, canvasHeight);
      p.height * canvasWidth == p.width * canvasHeight <==> canvasHeight * pageWidth <= pageHeight * canvasWidth
  {
    var p := FitToWidth(pageWidth, pageHeight, canvasWidth, canvasHeight);
    if canvasHeight * pageWidth > pageHeight * canvasWidth {
      assert p.height * canvasWidth == pageHeight * canvasWidth < canvasHeight * pageWidth;
    }
  }

  /** The résumé never covers more of the page than the stretched letter exports do. */
  lemma FitWithinFullPage(pageWidth: real, pageHeight: real, canvasWidth: real, canvasHeight: real)
    requires pageWidth > 0.0 && pageHeight > 0.0 && canvasWidth > 0.0 && canvasHeight > 0.0
    ensures FitToWidth(pageWidth, pageHeight, canvasWidth, canvasHeight).width == FullPage(pageWidth, pageHeight).width
    ensures FitToWidth(pageWidth, pageHeight, canvasWidth, canvasHeight).height <= FullPage(pageWidth, pageHeight).height
  {
  }

  /** `${stem}.pdf`. */
  function PdfFileName(stem: string): (name: string)
    ensures |name| == |stem| + 4
    ensures name[..|stem|] == stem && name[|name| - 4..] == ".pdf"
  {
    stem + ".pdf"
  }

  /** The stem a file name was made from: `PdfFileName` loses nothing. */
  function StemOf(name: string): string
    requires |name| >= 4 && name[|name| - 4..] == ".pdf"
  {
    name[..|name| - 4]
  }

  lemma PdfFileNameRoundTrip(stem: string)
    ensures StemOf(PdfFileName(stem)) == stem
  {
  }

  /** A letter's download name: `${first}_${last}_${kind}.pdf`. */
  function PersonFileName(first: string, last: string, kind: string): (name: string)
    ensures |name| >= 4 && name[|name| - 4..] == ".pdf"
    ensures first + "_" <= name
  {
    PdfFileName(first + "_" + last + "_" + kind)
  }

  /** Two people get the same letter name only if they are the same person, as long as first
      names carry no underscore. */
  lemma PersonFileNameInjective(f1: string, l1: string, f2: string, l2: string, kind: string)
    requires '_' !in f1 && '_' !in f2
    requires PersonFileName(f1, l1, kind) == PersonFileName(f2, l2, kind)
    ensures f1 == f2 && l1 == l2
  {
    var k := "_" + kind;
    var s1, s2 := f1 + "_" + l1 + k, f2 + "_" + l2 + k;
    assert s1 == f1 + "_" + l1 + "_" + kind;
    assert s2 == f2 + "_" + l2 + "_" + kind;
    PdfFileNameRoundTrip(s1);
    PdfFileNameRoundTrip(s2);
    assert f1 + "_" + l1 == s1[..|s1| - |k|] == s2[..|s2| - |k|] == f2 + "_" + l2;
    UnderscoreNamesInjective(f1, l1, f2, l2);
  }

  /** `${first}_${last}_${kind}` names tell their people apart as long as the first names carry no
      underscore: the first underscore ends the first name. */
  lemma {:induction false} UnderscoreNamesInjective(a: string, b: string, c: string, d: string)
    requires '_' !in a && '_' !in c
    requires a + "_" + b == c + "_" + d
    ensures a == c && b == d
  {
    var s := a + "_" + b;
    if |a| < |c| {
      UnderscoreEndsShorter(a, b, c, d);
      assert false;
    } else if |c| < |a| {
      UnderscoreEndsShorter(c, d, a, b);
      assert false;
    } else {
      assert a == s[..|a|] == (c + "_" + d)[..|c|] == c;
      assert b == s[|a| + 1..] == (c + "_" + d)[|c| + 1..] == d;
    }
  }

  /** A shorter first name puts its underscore where the longer one still has a letter. */
  lemma UnderscoreEndsShorter(a: string, b: string, c: string, d: string)
    requires '_' !in c && |a| < |c|
    ensures a + "_" + b != c + "_" + d
  {
    assert (a + "_" + b)[|a|] == '_';
    assert (c + "_" + d)[|a|] == c[|a|];
  }
}
