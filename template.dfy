/** `getTemplate`: the HTML text of a preview card, built from the
    configuration's class names and z-index, the anchor's height and the
    metadata record, with JavaScript's template-literal conversion of each
    interpolated value. */
module Template {
  import opened JsValues
  import opened Options
  import opened MetaFetch

  /** `${field}` of a record field: a missing content is undefined. */
  function FieldText(f: Option<string>): string {
    match f
    case None => "undefined"
    case Some(s) => s
  }

  /** `x` occurs in `s` at position `i`. */
  ghost predicate OccursAt(x: string, s: string, i: int) {
    0 <= i <= |s| - |x| && s[i..i + |x|] == x
  }

  ghost predicate IsSubstring(x: string, s: string) {
    exists i :: OccursAt(x, s, i)
  }

  /** The pieces of a text, joined in order. */
  function Concat(pieces: seq<string>): string {
    if |pieces| == 0 then "" else pieces[0] + Concat(pieces[1..])
  }

  /** Every piece occurs in the joined text. */
  lemma {:induction false} PieceInConcat(pieces: seq<string>, k: nat)
    requires k < |pieces|
    ensures IsSubstring(pieces[k], Concat(pieces))
    decreases k
  {
    var s := Concat(pieces);
    if k == 0 {
      assert OccursAt(pieces[0], s, 0);
    } else {
      PieceInConcat(pieces[1..], k - 1);
      var i :| OccursAt(pieces[k], Concat(pieces[1..]), i);
      assert s[|pieces[0]| + i..|pieces[0]| + i + |pieces[k]|] == Concat(pieces[1..])[i..i + |pieces[k]|];
      assert OccursAt(pieces[k], s, |pieces[0]| + i);
    }
  }

  function ImageSection(c: Config, m: Meta): string {
    "<img src=\"" + FieldText(m.image) + "\" class=\"" + ToStr(c.imageClass) + "\">"
  }

  function TitleSection(c: Config, m: Meta): string {
    "<h3 class=\"" + ToStr(c.titleClass) + "\">" + FieldText(m.title) + "</h3>"
  }

  function DescriptionSection(c: Config, m: Meta): string {
    "<p class=\"" + ToStr(c.descriptionClass) + "\">" + FieldText(m.description) + "</p>"
  }

  /** The text of the template literal, piece by piece in source order: the
      root element with its classes and inline style (absolutely placed below
      the anchor, transparent, at the configured z-index), the container,
      the image, and the content block with the title and the description. */
  function Pieces(c: Config, height: JsValue, m: Meta): seq<string> {
    [ "\n        <div class=\"", ToStr(c.defaultClass), " ", ToStr(c.rootClass), "\" style=\"",
      "\n        position: absolute;\n        top: ", ToStr(height), ";\n        left: 0;\n        ",
      "opacity: 0;", "\n        ", "z-index: " + ToStr(c.zIndex) + ";", "\n      ",
      "\">\n          <div class=\"", ToStr(c.containerClass), "\">\n            ",
      ImageSection(c, m),
      "\n            <div class=\"", ToStr(c.contentClass), "\">\n              ",
      TitleSection(c, m), "\n              ", DescriptionSection(c, m),
      "\n            </div>\n          </div>\n        </div>\n      " ]
  }

  /** `getTemplate(bound, metaTags)`, with `height` standing for `bound.height`. */
  function GetTemplate(c: Config, height: JsValue, m: Meta): (html: string)
    ensures |html| > 0
  {
    Concat(Pieces(c, height, m))
  }

  /** The card's text holds the image, title and description sections, and
      its style starts it transparent at the configured z-index. */
  lemma TemplateShowsRecord(c: Config, height: JsValue, m: Meta)
    ensures IsSubstring(ImageSection(c, m), GetTemplate(c, height, m))
    ensures IsSubstring(TitleSection(c, m), GetTemplate(c, height, m))
    ensures IsSubstring(DescriptionSection(c, m), GetTemplate(c, height, m))
    ensures IsSubstring("opacity: 0;", GetTemplate(c, height, m))
    ensures IsSubstring("z-index: " + ToStr(c.zIndex) + ";", GetTemplate(c, height, m))
  {
    var pieces := Pieces(c, height, m);
    PieceInConcat(pieces, 15);
    PieceInConcat(pieces, 19);
    PieceInConcat(pieces, 21);
    PieceInConcat(pieces, 8);
    PieceInConcat(pieces, 10);
  }
}
