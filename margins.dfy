/** Resolution of the four box margins from an element's CSS declarations:
    the loop that `AutoDocPipeline.open` runs both immediately and inside its
    deferred element. */
module MarginResolution {
  import opened CaseFold

  datatype Option<T> = None | Some(value: T)

  /** `CssUtils.parseValueToPt(value, pageWidth)`: turns a CSS length into points,
      percentages taken against the page width. Supplied from outside. */
  type Converter = (string, real) -> real

  /** One entry of a tag's CSS map, in the map's iteration order. */
  datatype CssEntry = CssEntry(key: string, value: string)

  datatype Side = Left | Right | Top | Bottom

  const MARGIN_LEFT: string := "margin-left"
  const MARGIN_RIGHT: string := "margin-right"
  const MARGIN_TOP: string := "margin-top"
  const MARGIN_BOTTOM: string := "margin-bottom"

  /** The CSS property that sets the margin of a side. */
  function PropertyName(s: Side): string {
    match s
    case Left => MARGIN_LEFT
    case Right => MARGIN_RIGHT
    case Top => MARGIN_TOP
    case Bottom => MARGIN_BOTTOM
  }

  /** The four values handed to `Document.setMargins(left, right, top, bottom)`. */
  datatype Margins = Margins(left: real, right: real, top: real, bottom: real) {
    function Get(s: Side): real {
      match s
      case Left => left
      case Right => right
      case Top => top
      case Bottom => bottom
    }

    /** These margins with side `s` overwritten by `v`. */
    function With(s: Side, v: real): (m: Margins)
      ensures m.Get(s) == v
      ensures forall o :: o != s ==> m.Get(o) == Get(o)
    {
      match s
      case Left => this.(left := v)
      case Right => this.(right := v)
      case Top => this.(top := v)
      case Bottom => this.(bottom := v)
    }
  }

  /** Every margin starts at 0. */
  const ZERO: Margins := Margins(0.0, 0.0, 0.0, 0.0)

  /** Does the CSS key name the margin property of side `s` (ignoring case)? */
  predicate Names(key: string, s: Side) {
    EqualsIgnoreCase(key, PropertyName(s))
  }

  /** The side a CSS key sets, tested in the order of the else-if chain in `AutoDocPipeline.open`.
      A key can name at most one side, so the order of the tests does not matter. */
  function KeySide(key: string): (r: Option<Side>)
    ensures forall s :: r == Some(s) <==> Names(key, s)
  {
    if Names(key, Left) then Some(Left)
    else if Names(key, Right) then Some(Right)
    else if Names(key, Top) then Some(Top)
    else if Names(key, Bottom) then Some(Bottom)
    else None
  }

  /** One iteration of the loop: the entry overwrites the slot its key names, if any. */
  function Step(m: Margins, e: CssEntry, pageWidth: real, toPt: Converter): Margins {
    match KeySide(e.key)
    case None => m
    case Some(s) => m.With(s, toPt(e.value, pageWidth))
  }

  /** The margins after the loop has visited the entries `css`, in that order. */
  function Resolve(css: seq<CssEntry>, pageWidth: real, toPt: Converter): Margins {
    if css == [] then ZERO
    else Step(Resolve(css[..|css| - 1], pageWidth, toPt), css[|css| - 1], pageWidth, toPt)
  }

  /** The index of the last entry whose key names side `s`, if there is one. */
  function LastMatch(css: seq<CssEntry>, s: Side): (r: Option<nat>)
    ensures r.Some? ==> r.value < |css| && Names(css[r.value].key, s)
    ensures r.Some? ==> forall j :: r.value < j < |css| ==> !Names(css[j].key, s)
    ensures r.None? ==> forall j :: 0 <= j < |css| ==> !Names(css[j].key, s)
  {
    if css == [] then None
    else if Names(css[|css| - 1].key, s) then Some(|css| - 1)
    else
      var init := css[..|css| - 1];
      assert forall j :: 0 <= j < |init| ==> init[j] == css[j];
      LastMatch(init, s)
  }

  /** The loop as `AutoDocPipeline.open` and its deferred `write` run it: four locals start at 0 and each entry
      whose key names a margin property overwrites the matching local. */
  method ResolveMargins(css: seq<CssEntry>, pageWidth: real, toPt: Converter) returns (m: Margins)
    ensures m == Resolve(css, pageWidth, toPt)
    ensures forall s :: m.Get(s) == match LastMatch(css, s)
                                      case None => 0.0
                                      case Some(i) => toPt(css[i].value, pageWidth)
  {
    var marginLeft, marginRight, marginTop, marginBottom := 0.0, 0.0, 0.0, 0.0;
    for i := 0 to |css|
      invariant Margins(marginLeft, marginRight, marginTop, marginBottom) == Resolve(css[..i], pageWidth, toPt)
    {
      var key, value := css[i].key, css[i].value;
      if EqualsIgnoreCase(key, MARGIN_LEFT) {
        marginLeft := toPt(value, pageWidth);
      } else if EqualsIgnoreCase(key, MARGIN_RIGHT) {
        marginRight := toPt(value, pageWidth);
      } else if EqualsIgnoreCase(key, MARGIN_TOP) {
        marginTop := toPt(value, pageWidth);
      } else if EqualsIgnoreCase(key, MARGIN_BOTTOM) {
        marginBottom := toPt(value, pageWidth);
      }
      assert css[..i + 1][..i] == css[..i];
    }
    assert css[..|css|] == css;
    m := Margins(marginLeft, marginRight, marginTop, marginBottom);
    forall s ensures m.Get(s) == match LastMatch(css, s)
                                   case None => 0.0
                                   case Some(i) => toPt(css[i].value, pageWidth) {
      ResolveIsLastMatch(css, pageWidth, toPt, s);
    }
  }

  /** Each margin is 0 unless some key names its property ignoring case, and
      otherwise the converted value of the LAST such entry: later entries win. */
  lemma {:induction false} ResolveIsLastMatch(css: seq<CssEntry>, pageWidth: real, toPt: Converter, s: Side)
    ensures Resolve(css, pageWidth, toPt).Get(s) == match LastMatch(css, s)
                                                     case None => 0.0
                                                     case Some(i) => toPt(css[i].value, pageWidth)
  {
    if css != [] {
      var init := css[..|css| - 1];
      ResolveIsLastMatch(init, pageWidth, toPt, s);
      var last := css[|css| - 1];
      if !Names(last.key, s) {
        match LastMatch(init, s)
        case None =>
        case Some(i) => assert css[i] == init[i];
      }
    }
  }

  /** One entry changes at most one margin, and one whose key names no margin property changes none. */
  lemma StepChangesAtMostOneSide(m: Margins, e: CssEntry, pageWidth: real, toPt: Converter)
    ensures KeySide(e.key).None? ==> Step(m, e, pageWidth, toPt) == m
    ensures forall s :: !Names(e.key, s) ==> Step(m, e, pageWidth, toPt).Get(s) == m.Get(s)
  {
  }

  /** The entries whose keys name one of the four margin properties. */
  function Relevant(css: seq<CssEntry>): (r: seq<CssEntry>)
    ensures |r| <= |css|
    ensures forall e :: e in r ==> e in css && KeySide(e.key).Some?
  {
    if css == [] then []
    else
      var last := css[|css| - 1];
      Relevant(css[..|css| - 1]) + if KeySide(last.key).Some? then [last] else []
  }

  /** Keys that name none of the four properties are ignored: dropping them
      from anywhere in the map leaves the resolved margins as they were. */
  lemma {:induction false} ResolveIgnoresIrrelevant(css: seq<CssEntry>, pageWidth: real, toPt: Converter)
    ensures Resolve(Relevant(css), pageWidth, toPt) == Resolve(css, pageWidth, toPt)
  {
    if css != [] {
      var init, last := css[..|css| - 1], css[|css| - 1];
      ResolveIgnoresIrrelevant(init, pageWidth, toPt);
      if KeySide(last.key).Some? {
        var r := Relevant(init) + [last];
        assert r[..|r| - 1] == Relevant(init);
      } else {
        assert Relevant(init) + [] == Relevant(init);
      }
    }
  }

  /** Two adjacent entries whose keys name different sides (or none) can be
      visited in either order: when no property repeats, iteration order is immaterial. */
  lemma {:induction false} ResolveSwapAdjacent(pre: seq<CssEntry>, x: CssEntry, y: CssEntry, post: seq<CssEntry>,
                                               pageWidth: real, toPt: Converter)
    requires KeySide(x.key).None? || KeySide(x.key) != KeySide(y.key)
    ensures Resolve(pre + [x, y] + post, pageWidth, toPt) == Resolve(pre + [y, x] + post, pageWidth, toPt)
  {
    if post == [] {
      var a, b := pre + [x, y], pre + [y, x];
      assert a[..|a| - 1] == pre + [x] && (pre + [x])[..|pre|] == pre;
      assert b[..|b| - 1] == pre + [y] && (pre + [y])[..|pre|] == pre;
      assert a == a + post && b == b + post;
    } else {
      var init := post[..|post| - 1];
      ResolveSwapAdjacent(pre, x, y, init, pageWidth, toPt);
      var a, b := pre + [x, y] + post, pre + [y, x] + post;
      assert a[..|a| - 1] == pre + [x, y] + init;
      assert b[..|b| - 1] == pre + [y, x] + init;
      assert a[|a| - 1] == b[|b| - 1];
    }
  }

  /** Worked example: `margin-left: 10%`, `margin-top: 5pt` and an unrelated
      `color` on a 200-unit page give left and top from the converter and 0 elsewhere. */
  lemma ResolveExample(toPt: Converter)
    ensures Resolve([CssEntry("margin-left", "10%"), CssEntry("margin-top", "5pt"), CssEntry("color", "red")], 200.0, toPt)
            == Margins(toPt("10%", 200.0), 0.0, toPt("5pt", 200.0), 0.0)
  {
    var css := [CssEntry("margin-left", "10%"), CssEntry("margin-top", "5pt"), CssEntry("color", "red")];
    assert css[..1][..0] == [] && css[..2][..1] == css[..1] && css[..3] == css;
    assert Names("margin-left", Left) && Names("margin-top", Top);
    assert KeySide("margin-top") == Some(Top);
    assert KeySide("color") == None;
    assert Resolve(css[..1], 200.0, toPt) == Margins(toPt("10%", 200.0), 0.0, 0.0, 0.0);
    assert Resolve(css[..2], 200.0, toPt) == Margins(toPt("10%", 200.0), 0.0, toPt("5pt", 200.0), 0.0);
  }
}
