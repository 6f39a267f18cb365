/** The card compositor of lib/canvas-utils.ts (`drawCardToCanvas`): the
    scale-to-fit computation of the canvas size and the greedy word wrap of
    the message. Text measurement is a parameter (`measure`), pixel drawing
    is reduced to the list of text placements the routine makes, and the
    JPEG export is left out. */
module CanvasUtils {

  import opened Wrappers
  import opened JsStrings

  /** Largest canvas side, in pixels. */
  const MaxSide: real := 900.0

  const CanvasNotSupported: string := "Canvas not supported"
  const FailedToLoadImage: string := "Failed to load image"
  const Title: string := "Season's Greetings"

  /** The browser's answer to `img.onload` / `img.onerror`. */
  datatype ImageLoad = LoadFailed | Loaded(width: nat, height: nat)

  /** One `strokeText` + `fillText` pair: the text and its anchor point. */
  datatype TextOp = TextOp(text: string, x: real, y: real)

  /** What the routine paints onto the canvas before exporting it. */
  datatype CardRender = CardRender(
    width: int,
    height: int,
    title: TextOp,
    messageLines: seq<TextOp>,
    sender: TextOp,
    recipient: TextOp)

  function Min(a: real, b: real): real
  {
    if a <= b then a else b
  }

  /** JavaScript's `Math.round`: the nearest integer, halves rounded up. */
  function Round(x: real): (n: int)
    ensures x - 0.5 < n as real <= x + 0.5
  {
    (x + 0.5).Floor
  }

  /** The factor one side allows: `900 / side` capped at 1. A zero side
      divides to +Infinity in JavaScript, which never wins the minimum, so
      it allows 1. */
  function SideScale(side: nat): real
  {
    if side == 0 then 1.0 else Min(MaxSide / side as real, 1.0)
  }

  lemma SideFactor(side: nat)
    ensures 0.0 < SideScale(side) <= 1.0
    ensures (side as real) * SideScale(side) <= MaxSide
    ensures (side as real) <= MaxSide ==> SideScale(side) == 1.0
    ensures SideScale(side) == 1.0 || (side as real) * SideScale(side) == MaxSide
  {
    if side > 0 {
      var q := MaxSide / side as real;
      assert (side as real) * q == MaxSide;
      if side as real <= MaxSide {
        assert q >= 1.0;
      } else {
        assert q < 1.0;
      }
    }
  }

  /** A factor that fits a `w` by `h` image into 900 by 900 without
      upscaling, and is tight: it is 1, or one scaled side lands exactly on
      900. */
  ghost predicate FitFactor(w: nat, h: nat, s: real)
  {
    && 0.0 < s <= 1.0
    && (w as real) * s <= MaxSide && (h as real) * s <= MaxSide
    && (s == 1.0 || (w as real) * s == MaxSide || (h as real) * s == MaxSide)
  }

  /** `Math.min(900 / w, 900 / h, 1)`: a fitting factor, and exactly 1 when
      the image already fits. */
  method ScaleFactor(w: nat, h: nat) returns (s: real)
    ensures FitFactor(w, h, s)
    ensures w as real <= MaxSide && h as real <= MaxSide ==> s == 1.0
  {
    SideFactor(w);
    SideFactor(h);
    s := Min(SideScale(w), SideScale(h));
  }

  lemma ScaleUp(x: real, a: real, b: real)
    requires x > 0.0 && a < b
    ensures x * a < x * b
  {
  }

  /** A fitting factor is the largest factor of at most 1 under which both
      sides fit: no smaller image is drawn than necessary. */
  lemma FitFactorIsLargest(w: nat, h: nat, s: real, t: real)
    requires FitFactor(w, h, s)
    requires 0.0 < t <= 1.0 && (w as real) * t <= MaxSide && (h as real) * t <= MaxSide
    ensures t <= s
  {
    if t > s && s != 1.0 {
      if (w as real) * s == MaxSide {
        ScaleUp(w as real, s, t);
      } else {
        ScaleUp(h as real, s, t);
      }
    }
  }

  /** There is only one fitting factor: the minimum
      `Math.min(900 / w, 900 / h, 1)`. */
  lemma FitFactorIsTheMinimum(w: nat, h: nat, s: real)
    requires FitFactor(w, h, s)
    ensures s == Min(SideScale(w), SideScale(h))
  {
    var m := Min(SideScale(w), SideScale(h));
    SideFactor(w);
    SideFactor(h);
    assert FitFactor(w, h, m);
    FitFactorIsLargest(w, h, s, m);
    FitFactorIsLargest(w, h, m, s);
  }

  /** `side * s`: a factor of at most one never enlarges a side, and a
      factor of one leaves it as it is. */
  method ScaledSide(side: nat, s: real) returns (exact: real)
    requires 0.0 < s <= 1.0
    ensures exact == (side as real) * s
    ensures 0.0 <= exact <= side as real
    ensures s == 1.0 ==> exact == side as real
  {
    exact := (side as real) * s;
  }

  /** `Math.round` of an exact side length that lies between 0 and both
      the source side and 900: the result keeps those bounds. */
  method RoundWithin(exact: real, side: nat) returns (n: int)
    requires 0.0 <= exact <= side as real && exact <= MaxSide
    ensures 0 <= n <= 900 && n <= side
    ensures exact == side as real ==> n == side
    ensures exact - 0.5 < n as real <= exact + 0.5
  {
    n := Round(exact);
  }

  /** One side of the drawn image, `Math.round(side * scale)`: within half
      a pixel of the exact scaled side, at most 900, at most the source
      side, and the source side itself when nothing was scaled. */
  method DrawSide(side: nat, s: real) returns (n: int)
    requires 0.0 < s <= 1.0 && (side as real) * s <= MaxSide
    ensures 0 <= n <= 900 && n <= side
    ensures s == 1.0 ==> n == side
    ensures (side as real) * s - 0.5 < n as real <= (side as real) * s + 0.5
  {
    var exact := ScaledSide(side, s);
    n := RoundWithin(exact, side);
  }

  /** `drawW` and `drawH` are the sides of a `w` by `h` image times the
      factor `s`, each rounded to the nearest integer (the only integer
      within half a pixel above or below). */
  ghost predicate ScaledBy(w: nat, h: nat, s: real, drawW: int, drawH: int)
  {
    && (w as real) * s - 0.5 < drawW as real <= (w as real) * s + 0.5
    && (h as real) * s - 0.5 < drawH as real <= (h as real) * s + 0.5
  }

  /** `Math.round(img.width * scale)` and `Math.round(img.height * scale)`:
      both sides scaled by the one fitting factor, never above 900, never
      above the source (no upscaling), and exactly the source size when it
      already fits. */
  method DrawSize(w: nat, h: nat) returns (drawW: int, drawH: int)
    ensures exists s :: FitFactor(w, h, s) && ScaledBy(w, h, s, drawW, drawH)
    ensures 0 <= drawW <= 900 && drawW <= w
    ensures 0 <= drawH <= 900 && drawH <= h
    ensures w <= 900 && h <= 900 ==> drawW == w && drawH == h
  {
    var s := ScaleFactor(w, h);
    drawW := DrawSide(w, s);
    drawH := DrawSide(h, s);
    assert FitFactor(w, h, s) && ScaledBy(w, h, s, drawW, drawH);
  }

  /** `drawW - drawW * 0.12`: a message line may take 88% of the width. */
  function MaxLineWidth(drawW: int): (w: real)
    ensures w == (drawW as real) * 0.88
    ensures drawW >= 0 ==> 0.0 <= w <= drawW as real
  {
    (drawW as real) - (drawW as real) * 0.12
  }

  /** `Math.round(drawH * 0.065)`. */
  function LineHeight(drawH: int): (h: int)
    ensures (drawH as real) * 0.065 - 0.5 < h as real <= (drawH as real) * 0.065 + 0.5
    ensures drawH >= 0 ==> h >= 0
  {
    Round((drawH as real) * 0.065)
  }

  /** `drawH * 0.45`: the baseline of the first message line. */
  function FirstLineY(drawH: int): (y: real)
    ensures y == (drawH as real) * 0.45
    ensures drawH > 0 ==> 0.0 < y < (drawH as real) / 2.0
  {
    (drawH as real) * 0.45
  }

  /** The text a group of words is drawn as: every word followed by one
      space, as `line + words[n] + ' '` builds it. */
  function Spaced(words: seq<string>): string
    decreases |words|
  {
    if |words| == 0 then "" else Spaced(words[..|words| - 1]) + words[|words| - 1] + " "
  }

  lemma {:induction false} SpacedConcat(a: seq<string>, b: seq<string>)
    ensures Spaced(a + b) == Spaced(a) + Spaced(b)
    decreases |b|
  {
    if |b| > 0 {
      var b' := b[..|b| - 1];
      assert (a + b)[..|a + b| - 1] == a + b';
      SpacedConcat(a, b');
    } else {
      assert a + b == a;
    }
  }

  /** One step of the wrap loop: word `w` joins the last line of `g` unless
      the tested line is wider than `maxWidth`, in which case it opens a new
      line. */
  function Extend(g: seq<seq<string>>, w: string, maxWidth: real, measure: string -> real): (g': seq<seq<string>>)
    requires |g| >= 1
    ensures g' == g + [[w]] || g' == g[..|g| - 1] + [g[|g| - 1] + [w]]
    ensures g' == g + [[w]] <==> measure(Spaced(g[|g| - 1]) + w + " ") > maxWidth
  {
    var line := g[|g| - 1];
    if measure(Spaced(line) + w + " ") > maxWidth then g + [[w]]
    else g[..|g| - 1] + [line + [w]]
  }

  /** The greedy wrap as a function of the words: the first word always
      opens the first line (the `n > 0` test), and every later word goes
      through `Extend`. The result lists the words of each drawn line. */
  function GroupsOf(words: seq<string>, maxWidth: real, measure: string -> real): (g: seq<seq<string>>)
    requires |words| >= 1
    ensures |g| >= 1
    ensures forall k :: 0 <= k < |g| ==> |g[k]| >= 1
    decreases |words|
  {
    if |words| == 1 then [words]
    else
      var prev := GroupsOf(words[..|words| - 1], maxWidth, measure);
      var g := Extend(prev, words[|words| - 1], maxWidth, measure);
      assert forall k :: 0 <= k < |g| - 1 ==> g[k] == prev[k];
      g
  }

  function Flatten(g: seq<seq<string>>): seq<string>
    decreases |g|
  {
    if |g| == 0 then [] else Flatten(g[..|g| - 1]) + g[|g| - 1]
  }

  function Texts(g: seq<seq<string>>): string
    decreases |g|
  {
    if |g| == 0 then "" else Texts(g[..|g| - 1]) + Spaced(g[|g| - 1])
  }

  lemma ExtendFlatten(g: seq<seq<string>>, w: string, maxWidth: real, measure: string -> real)
    requires |g| >= 1
    ensures Flatten(Extend(g, w, maxWidth, measure)) == Flatten(g) + [w]
  {
    var g' := Extend(g, w, maxWidth, measure);
    if g' == g + [[w]] {
      assert g'[..|g'| - 1] == g;
    } else {
      assert g'[..|g'| - 1] == g[..|g| - 1];
    }
  }

  /** Wrapping neither drops, duplicates nor reorders words: the lines,
      read one after the other, are exactly the words of the message. */
  lemma {:induction false} GroupsPartitionWords(words: seq<string>, maxWidth: real, measure: string -> real)
    requires |words| >= 1
    ensures Flatten(GroupsOf(words, maxWidth, measure)) == words
    decreases |words|
  {
    if |words| > 1 {
      var init := words[..|words| - 1];
      GroupsPartitionWords(init, maxWidth, measure);
      ExtendFlatten(GroupsOf(init, maxWidth, measure), words[|words| - 1], maxWidth, measure);
      assert init + [words[|words| - 1]] == words;
    } else {
      assert Flatten([words]) == Flatten([]) + words;
    }
  }

  lemma {:induction false} TextsIsSpacedFlatten(g: seq<seq<string>>)
    ensures Texts(g) == Spaced(Flatten(g))
    decreases |g|
  {
    if |g| > 0 {
      TextsIsSpacedFlatten(g[..|g| - 1]);
      SpacedConcat(Flatten(g[..|g| - 1]), g[|g| - 1]);
    }
  }

  /** The drawn lines, concatenated, are every word of the message in order,
      each followed by one space. */
  lemma WrapKeepsEveryWord(words: seq<string>, maxWidth: real, measure: string -> real)
    requires |words| >= 1
    ensures Texts(GroupsOf(words, maxWidth, measure)) == Spaced(words)
  {
    GroupsPartitionWords(words, maxWidth, measure);
    TextsIsSpacedFlatten(GroupsOf(words, maxWidth, measure));
  }

  lemma SpacedSnoc(line: seq<string>, w: string)
    ensures Spaced(line + [w]) == Spaced(line) + w + " "
  {
    assert (line + [w])[..|line|] == line;
  }

  /** A line holding two or more words was measured as it stands and fits
      in `maxWidth`; only a line of one word can be wider. No monotonicity
      of `measure` is needed. */
  lemma {:induction false} GroupsFit(words: seq<string>, maxWidth: real, measure: string -> real, k: nat)
    requires |words| >= 1
    requires k < |GroupsOf(words, maxWidth, measure)|
    requires |GroupsOf(words, maxWidth, measure)[k]| >= 2
    ensures measure(Spaced(GroupsOf(words, maxWidth, measure)[k])) <= maxWidth
    decreases |words|
  {
    var init := words[..|words| - 1];
    var w := words[|words| - 1];
    var prev := GroupsOf(init, maxWidth, measure);
    var g := GroupsOf(words, maxWidth, measure);
    assert g == Extend(prev, w, maxWidth, measure);
    if g == prev + [[w]] {
      assert g[k] == prev[k];
      GroupsFit(init, maxWidth, measure, k);
    } else if k < |prev| - 1 {
      assert g[k] == prev[k];
      GroupsFit(init, maxWidth, measure, k);
    } else {
      assert g[k] == prev[|prev| - 1] + [w];
      SpacedSnoc(prev[|prev| - 1], w);
    }
  }

  /** Every line break is forced: the line before a break, extended with the
      first word of the next line, was measured wider than `maxWidth`. */
  lemma {:induction false} GroupsBreakOnlyWhenTooWide(words: seq<string>, maxWidth: real, measure: string -> real, k: nat)
    requires |words| >= 1
    requires k + 1 < |GroupsOf(words, maxWidth, measure)|
    ensures var g := GroupsOf(words, maxWidth, measure);
      measure(Spaced(g[k]) + g[k + 1][0] + " ") > maxWidth
    decreases |words|
  {
    var init := words[..|words| - 1];
    var w := words[|words| - 1];
    var prev := GroupsOf(init, maxWidth, measure);
    var g := GroupsOf(words, maxWidth, measure);
    assert g == Extend(prev, w, maxWidth, measure);
    assert g[k] == prev[k];
    if g == prev + [[w]] {
      if k + 1 < |prev| {
        assert g[k + 1] == prev[k + 1];
        GroupsBreakOnlyWhenTooWide(init, maxWidth, measure, k);
      }
    } else {
      assert g[k + 1][0] == prev[k + 1][0];
      GroupsBreakOnlyWhenTooWide(init, maxWidth, measure, k);
    }
  }

  /** If the width of a text never falls below that of any piece of it, a
      word that is too wide on its own always stands on a line of its own. */
  lemma TooWideWordStandsAlone(words: seq<string>, maxWidth: real, measure: string -> real, k: nat, i: nat)
    requires |words| >= 1
    requires forall a: string, b: string, c: string :: measure(b) <= measure(a + b + c)
    requires var g := GroupsOf(words, maxWidth, measure); k < |g| && i < |g[k]|
    requires measure(GroupsOf(words, maxWidth, measure)[k][i] + " ") > maxWidth
    ensures |GroupsOf(words, maxWidth, measure)[k]| == 1
  {
    var g := GroupsOf(words, maxWidth, measure);
    var line := g[k];
    if |line| >= 2 {
      GroupsFit(words, maxWidth, measure, k);
      assert measure(Spaced(line)) <= maxWidth;
      SpacedSplitAt(line, i);
      assert false;
    }
  }

  lemma SeqAround<T>(s: seq<T>, i: nat)
    requires i < |s|
    ensures s == (s[..i] + [s[i]]) + s[i + 1..]
  {
    assert s[..i] + [s[i]] == s[..i + 1];
  }

  lemma SpacedSplitAt(line: seq<string>, i: nat)
    requires i < |line|
    ensures Spaced(line) == Spaced(line[..i]) + (line[i] + " ") + Spaced(line[i + 1..])
  {
    var pre, word, post := line[..i], line[i], line[i + 1..];
    SeqAround(line, i);
    SpacedConcat(pre + [word], post);
    SpacedSnoc(pre, word);
    assert Spaced(pre) + word + " " == Spaced(pre) + (word + " ");
  }

  /** The baseline of message line `k`: the first line at `0.45 * drawH`,
      each later line one line height below the one before. */
  function LineY(drawH: int, k: nat): real
  {
    if k == 0 then FirstLineY(drawH) else LineY(drawH, k - 1) + LineHeight(drawH) as real
  }

  /** Line `k` sits at `0.45 * drawH + k * lineHeight`. */
  lemma {:induction false} LineYClosedForm(drawH: int, k: nat)
    ensures LineY(drawH, k) == FirstLineY(drawH) + (k as real) * (LineHeight(drawH) as real)
  {
    if k > 0 {
      LineYClosedForm(drawH, k - 1);
      var lh := LineHeight(drawH) as real;
      assert (k as real) * lh == ((k - 1) as real) * lh + lh;
    }
  }

  /** `lines` draws the groups `g` one per line, centred at `x`, line `k` at
      height `LineY(drawH, k)`. */
  ghost predicate Placed(lines: seq<TextOp>, g: seq<seq<string>>, x: real, drawH: int)
  {
    && |lines| == |g|
    && forall k :: 0 <= k < |g| ==> lines[k] == TextOp(Spaced(g[k]), x, LineY(drawH, k))
  }

  /** Loop step when word `n` does not fit: the current line is emitted and
      the word opens the next line, one line height lower. */
  lemma WrapStepBreak(words: seq<string>, n: nat, maxWidth: real, measure: string -> real,
                      lines: seq<TextOp>, line: string, x: real, y: real, drawH: int)
    requires 0 < n < |words|
    requires Placed(lines + [TextOp(line, x, y)], GroupsOf(words[..n], maxWidth, measure), x, drawH)
    requires measure(line + words[n] + " ") > maxWidth
    ensures Placed(lines + [TextOp(line, x, y)] + [TextOp(words[n] + " ", x, y + LineHeight(drawH) as real)],
                   GroupsOf(words[..n + 1], maxWidth, measure), x, drawH)
  {
    var g := GroupsOf(words[..n], maxWidth, measure);
    var w := words[n];
    var before := lines + [TextOp(line, x, y)];
    var after := before + [TextOp(w + " ", x, y + LineHeight(drawH) as real)];
    assert words[..n + 1][..n] == words[..n];
    assert before[|g| - 1] == TextOp(line, x, y);
    var g' := GroupsOf(words[..n + 1], maxWidth, measure);
    assert g' == g + [[w]];
    SpacedSnoc([], w);
    assert [] + [w] == [w];
    forall k | 0 <= k < |g'|
      ensures after[k] == TextOp(Spaced(g'[k]), x, LineY(drawH, k))
    {
      if k < |g| {
        assert after[k] == before[k] && g'[k] == g[k];
      }
    }
  }

  /** Loop step when word `n` fits: it is appended to the current line. */
  lemma WrapStepJoin(words: seq<string>, n: nat, maxWidth: real, measure: string -> real,
                     lines: seq<TextOp>, line: string, x: real, y: real, drawH: int)
    requires 0 < n < |words|
    requires Placed(lines + [TextOp(line, x, y)], GroupsOf(words[..n], maxWidth, measure), x, drawH)
    requires measure(line + words[n] + " ") <= maxWidth
    ensures Placed(lines + [TextOp(line + words[n] + " ", x, y)],
                   GroupsOf(words[..n + 1], maxWidth, measure), x, drawH)
  {
    var g := GroupsOf(words[..n], maxWidth, measure);
    var last, w := g[|g| - 1], words[n];
    var g' := g[..|g| - 1] + [last + [w]];
    var before, after := lines + [TextOp(line, x, y)], lines + [TextOp(line + w + " ", x, y)];
    assert words[..n + 1][..n] == words[..n];
    assert GroupsOf(words[..n + 1], maxWidth, measure) == g';
    assert before[|g| - 1] == TextOp(line, x, y);
    SpacedSnoc(last, w);
    forall k | 0 <= k < |g'|
      ensures after[k] == TextOp(Spaced(g'[k]), x, LineY(drawH, k))
    {
      if k < |g| - 1 {
        assert after[k] == before[k] && g'[k] == g[k];
      }
    }
  }

  /** The first word always opens the first line. */
  lemma WrapStepFirst(words: seq<string>, maxWidth: real, measure: string -> real, x: real, drawH: int)
    requires 0 < |words|
    ensures Placed([TextOp(words[0] + " ", x, FirstLineY(drawH))],
                   GroupsOf(words[..1], maxWidth, measure), x, drawH)
  {
    var w := words[0];
    assert words[..1] == [w];
    var g := GroupsOf([w], maxWidth, measure);
    assert g == [[w]];
    SpacedSingle(w);
    var lines := [TextOp(w + " ", x, FirstLineY(drawH))];
    assert lines[0] == TextOp(Spaced(g[0]), x, LineY(drawH, 0));
  }

  lemma SpacedSingle(w: string)
    ensures Spaced([w]) == w + " "
  {
    SpacedSnoc([], w);
    assert [] + [w] == [w];
  }

  /** The wrap loop of `drawCardToCanvas`: splits the message on single
      spaces and draws line `k` of the greedy wrap at height
      `0.45 * drawH + k * lineHeight`, centred horizontally. */
  method WrapMessage(message: string, drawW: int, drawH: int, measure: string -> real)
    returns (lines: seq<TextOp>)
    ensures var g := GroupsOf(Split(message, ' '), MaxLineWidth(drawW), measure);
      && |lines| == |g|
      && forall k :: 0 <= k < |g| ==>
           lines[k] == TextOp(Spaced(g[k]), (drawW as real) / 2.0, LineY(drawH, k))
  {
    var maxWidth := MaxLineWidth(drawW);
    var lineHeight := LineHeight(drawH);
    var x := (drawW as real) / 2.0;
    var words := Split(message, ' ');
    var line := "";
    var y := FirstLineY(drawH);
    lines := [];
    for n := 0 to |words|
      invariant n == 0 ==> line == "" && lines == [] && y == FirstLineY(drawH)
      invariant n > 0 ==> Placed(lines + [TextOp(line, x, y)], GroupsOf(words[..n], maxWidth, measure), x, drawH)
    {
      var testLine := line + words[n] + " ";
      ghost var placed := GroupsOf(words[..n + 1], maxWidth, measure);
      if measure(testLine) > maxWidth && n > 0 {
        ghost var (lines0, line0, y0) := (lines, line, y);
        lines := lines + [TextOp(line, x, y)];
        line := words[n] + " ";
        y := y + lineHeight as real;
        assert Placed(lines + [TextOp(line, x, y)], placed, x, drawH) by {
          WrapStepBreak(words, n, maxWidth, measure, lines0, line0, x, y0, drawH);
        }
      } else {
        ghost var line0 := line;
        line := testLine;
        assert Placed(lines + [TextOp(line, x, y)], placed, x, drawH) by {
          if n == 0 {
            WrapStepFirst(words, maxWidth, measure, x, drawH);
          } else {
            WrapStepJoin(words, n, maxWidth, measure, lines, line0, x, y, drawH);
          }
        }
      }
    }
    assert words[..|words|] == words;
    lines := lines + [TextOp(line, x, y)];
  }

  /** `drawCardToCanvas`: fails with "Canvas not supported" when there is no
      2D context and with "Failed to load image" when the image does not
      load; otherwise sizes the canvas as `DrawSize` does and places the title,
      the wrapped message, the sender and the recipient. */
  method DrawCardToCanvas(contextAvailable: bool, image: ImageLoad, senderName: string,
                          recipientName: string, message: string, measure: string -> real)
    returns (r: Result<CardRender, string>)
    ensures !contextAvailable ==> r == Failure(CanvasNotSupported)
    ensures contextAvailable && image.LoadFailed? ==> r == Failure(FailedToLoadImage)
    ensures r.Success? <==> contextAvailable && image.Loaded?
    ensures r.Success? ==>
      var card := r.value;
      var g := GroupsOf(Split(message, ' '), MaxLineWidth(card.width), measure);
      && (exists s :: FitFactor(image.width, image.height, s) &&
                      ScaledBy(image.width, image.height, s, card.width, card.height))
      && 0 <= card.width <= 900 && card.width <= image.width
      && 0 <= card.height <= 900 && card.height <= image.height
      && (image.width <= 900 && image.height <= 900 ==> card.width == image.width && card.height == image.height)
      && card.title == TextOp(Title, (card.width as real) / 2.0, (card.height as real) * 0.12)
      && |card.messageLines| == |g|
      && (forall k :: 0 <= k < |g| ==>
            && card.messageLines[k].text == Spaced(g[k])
            && card.messageLines[k].x == (card.width as real) / 2.0
            && card.messageLines[k].y == LineY(card.height, k))
      && var (wr, hr) := (card.width as real, card.height as real);
      && card.sender == TextOp("\U{2014} " + senderName, wr * 0.94, hr * 0.93)
      && card.recipient == TextOp("To " + recipientName, wr / 2.0, hr * 0.82)
  {
    if !contextAvailable {
      return Failure(CanvasNotSupported);
    }
    match image {
      case LoadFailed =>
        r := Failure(FailedToLoadImage);
      case Loaded(w, h) =>
        var drawW, drawH := DrawSize(w, h);
        var wr, hr := drawW as real, drawH as real;
        var title := TextOp(Title, wr / 2.0, hr * 0.12);
        var lines := WrapMessage(message, drawW, drawH, measure);
        var sender := TextOp("\U{2014} " + senderName, wr - wr * 0.06, hr - hr * 0.07);
        var recipient := TextOp("To " + recipientName, wr / 2.0, hr - hr * 0.18);
        r := Success(CardRender(drawW, drawH, title, lines, sender, recipient));
    }
  }
}
