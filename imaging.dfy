/**
 * Images as values. An image is its size plus the list of things painted on
 * it, in painting order: solid rectangles, text and other images pasted at an
 * offset. A fresh image with no colour is black (no items). Pixel contents are
 * not modelled; what is kept is exactly which operation put what where.
 */
module Imaging {

  type Color = string

  /** The text a drawing call renders. */
  datatype Label =
    | Chars(text: string)                      // a title or a single kanji
    | StatLine(key: int, orMore: bool, n: nat) // "{key} occurrences: n" or "{key}+ occurrences: n"
    | ZeroLine(n: nat, percent: real)          // "0 occurrences: n (percent% occurred)"

  datatype Item =
    | Fill(x: int, y: int, w: nat, h: nat, color: Color)
    | Write(x: int, y: int, caption: Label, color: Color)
    | Paste(x: int, y: int, image: Image)

  datatype Image = Image(width: nat, height: nat, items: seq<Item>)

  /** A new image without a colour: black everywhere. */
  function Blank(w: nat, h: nat): Image { Image(w, h, []) }

  /** A new image filled with `color`. */
  function Solid(w: nat, h: nat, color: Color): Image { Image(w, h, [Fill(0, 0, w, h, color)]) }

  function PasteAt(img: Image, x: int, y: int, part: Image): Image
  {
    img.(items := img.items + [Paste(x, y, part)])
  }

  function DrawText(img: Image, x: int, y: int, caption: Label, color: Color): Image
  {
    img.(items := img.items + [Write(x, y, caption, color)])
  }

  /** `_get_vert_cat`: `b` below `a`, on a new image as wide as `a`. */
  function VertCat(a: Image, b: Image): (r: Image)
    ensures r.width == a.width && r.height == a.height + b.height
    ensures r.items == [Paste(0, 0, a), Paste(0, a.height, b)]
  {
    PasteAt(PasteAt(Blank(a.width, a.height + b.height), 0, 0, a), 0, a.height, b)
  }

  /** `_get_hori_cat`: `b` right of `a`, on a new image as tall as `a`. */
  function HoriCat(a: Image, b: Image): (r: Image)
    ensures r.width == a.width + b.width && r.height == a.height
    ensures r.items == [Paste(0, 0, a), Paste(a.width, 0, b)]
  {
    PasteAt(PasteAt(Blank(a.width + b.width, a.height), 0, 0, a), a.width, 0, b)
  }

  /** The running image of a loop that appends each of `parts` below `top`. */
  function StackDown(top: Image, parts: seq<Image>): Image
  {
    if parts == [] then top
    else VertCat(StackDown(top, parts[..|parts| - 1]), parts[|parts| - 1])
  }

  function Heights(parts: seq<Image>): nat
  {
    if parts == [] then 0 else Heights(parts[..|parts| - 1]) + parts[|parts| - 1].height
  }

  lemma {:induction false} StackDownSize(top: Image, parts: seq<Image>)
    ensures StackDown(top, parts).width == top.width
    ensures StackDown(top, parts).height == top.height + Heights(parts)
  {
    if parts != [] {
      StackDownSize(top, parts[..|parts| - 1]);
    }
  }

  /** Parts of one common height `h` stack to `|parts| * h`. */
  lemma {:induction false} HeightsUniform(parts: seq<Image>, h: nat)
    requires forall i :: 0 <= i < |parts| ==> parts[i].height == h
    ensures Heights(parts) == |parts| * h
  {
    if parts != [] {
      HeightsUniform(parts[..|parts| - 1], h);
      assert (|parts| - 1) * h + h == |parts| * h;
    }
  }

  /** Regrouping the parts appended to a stack. */
  lemma AppendAssoc(a: seq<Image>, b: seq<Image>, c: seq<Image>, d: seq<Image>)
    ensures a + b + c + d == a + (b + c + d)
  {
  }

  /** Stacking one more part below the running image. */
  lemma StackDownSnoc(top: Image, parts: seq<Image>, part: Image)
    ensures StackDown(top, parts + [part]) == VertCat(StackDown(top, parts), part)
  {
    assert (parts + [part])[..|parts|] == parts;
  }

  /** Stacking one more part of `parts` puts it below the stack so far. */
  lemma StackDownNext(top: Image, parts: seq<Image>, i: nat, img: Image, part: Image)
    requires i < |parts| && img == StackDown(top, parts[..i]) && part == parts[i]
    ensures VertCat(img, part) == StackDown(top, parts[..i + 1])
  {
    assert parts[..i + 1][..i] == parts[..i];
  }
}
