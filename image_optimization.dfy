// URL builders for images: the optimized-image query string, the srcset and
// sizes attributes, the avatar fallback and the team logo path. Numbers are
// integers; `toString` of a fraction and URL encoding of anything but the
// initials are not modelled (every parameter value here is digits, a
// format name, or '-' and letters, which URLSearchParams leaves as they are).

module ImageOptimization {
  import opened JsCore

  datatype Format = Webp | Avif | Jpg | Png

  function FormatName(f: Format): string
  {
    match f
    case Webp => "webp"
    case Avif => "avif"
    case Jpg => "jpg"
    case Png => "png"
  }

  /** `ImageOptimizationOptions`; None is an omitted field. */
  datatype Options = Options(width: Option<int>, height: Option<int>, quality: Option<int>,
                             format: Option<Format>, blur: Option<bool>, blurRadius: Option<int>)

  const NoOptions := Options(None, None, None, None, None, None)

  /** A number is truthy when present and not zero. */
  predicate Set(x: Option<int>)
  {
    x.Some? && x.value != 0
  }

  function QualityOf(o: Options): int { if o.quality.Some? then o.quality.value else 80 }
  function FormatOf(o: Options): Format { if o.format.Some? then o.format.value else Webp }
  function BlurOf(o: Options): bool { o.blur == Some(true) }
  function BlurRadiusOf(o: Options): int { if o.blurRadius.Some? then o.blurRadius.value else 10 }

  /** The query parameter names, in the order they are appended. */
  datatype Param = W | H | Q | F | BlurParam

  function ParamName(k: Param): string
  {
    match k
    case W => "w"
    case H => "h"
    case Q => "q"
    case F => "f"
    case BlurParam => "blur"
  }

  function WidthParam(o: Options): seq<(Param, string)>
  {
    if Set(o.width) then [(W, IntToString(o.width.value))] else []
  }

  function HeightParam(o: Options): seq<(Param, string)>
  {
    if Set(o.height) then [(H, IntToString(o.height.value))] else []
  }

  function QualityParam(o: Options): seq<(Param, string)>
  {
    if QualityOf(o) != 80 then [(Q, IntToString(QualityOf(o)))] else []
  }

  function FormatParam(o: Options): seq<(Param, string)>
  {
    if FormatOf(o) != Webp then [(F, FormatName(FormatOf(o)))] else []
  }

  function BlurParamOf(o: Options): seq<(Param, string)>
  {
    if BlurOf(o) then [(BlurParam, IntToString(BlurRadiusOf(o)))] else []
  }

  /** The query parameters of the options, in the order they are appended. */
  function QueryParams(o: Options): (r: seq<(Param, string)>)
    ensures |r| <= 5
    ensures Set(o.width) ==> |r| > 0 && r[0] == (W, IntToString(o.width.value))
    ensures BlurOf(o) ==> |r| > 0 && r[|r| - 1] == (BlurParam, IntToString(BlurRadiusOf(o)))
  {
    WidthParam(o) + HeightParam(o) + QualityParam(o) + FormatParam(o) + BlurParamOf(o)
  }

  function Keys(params: seq<(Param, string)>): (r: seq<Param>)
    ensures |r| == |params|
    ensures forall i :: 0 <= i < |params| ==> r[i] == params[i].0
  {
    seq(|params|, i requires 0 <= i < |params| => params[i].0)
  }

  lemma KeysAppend(a: seq<(Param, string)>, b: seq<(Param, string)>)
    ensures Keys(a + b) == Keys(a) + Keys(b)
  {
  }

  /** Each parameter appears exactly when its option differs from the
      default, and they come in the order w, h, q, f, blur. */
  lemma QueryParamsPresence(o: Options)
    ensures var k := Keys(QueryParams(o));
            && (W in k <==> Set(o.width))
            && (H in k <==> Set(o.height))
            && (Q in k <==> QualityOf(o) != 80)
            && (F in k <==> FormatOf(o) != Webp)
            && (BlurParam in k <==> BlurOf(o))
            && Subsequence(k, [W, H, Q, F, BlurParam])
    ensures QueryParams(o) == [] <==> !Set(o.width) && !Set(o.height) && QualityOf(o) == 80 && FormatOf(o) == Webp && !BlurOf(o)
  {
    var w, h, q, f, b := Set(o.width), Set(o.height), QualityOf(o) != 80, FormatOf(o) != Webp, BlurOf(o);
    var p1, p2, p3, p4, p5 := WidthParam(o), HeightParam(o), QualityParam(o), FormatParam(o), BlurParamOf(o);
    KeysAppend(p1, p2);
    KeysAppend(p1 + p2, p3);
    KeysAppend(p1 + p2 + p3, p4);
    KeysAppend(p1 + p2 + p3 + p4, p5);
    assert Keys(p1) == Opt(w, W);
    assert Keys(p2) == Opt(h, H);
    assert Keys(p3) == Opt(q, Q);
    assert Keys(p4) == Opt(f, F);
    assert Keys(p5) == Opt(b, BlurParam);
    KeysSubsequence(w, h, q, f, b);
    FlagMembers(w, h, q, f, b);
  }

  /** The key of one optional parameter: present or not. */
  function Opt(keep: bool, x: Param): seq<Param>
  {
    if keep then [x] else []
  }

  lemma KeysSubsequence(w: bool, h: bool, q: bool, f: bool, b: bool)
    ensures Subsequence(Opt(w, W) + Opt(h, H) + Opt(q, Q) + Opt(f, F) + Opt(b, BlurParam), [W, H, Q, F, BlurParam])
  {
    var all := [W, H, Q, F, BlurParam];
    var a, bb, c, d, k4 := Opt(w, W), Opt(h, H), Opt(q, Q), Opt(f, F), Opt(b, BlurParam);
    var k3 := d + k4;
    var k2 := c + k3;
    var k1 := bb + k2;
    assert all[4..][1..] == [] && all[3..][1..] == all[4..] && all[2..][1..] == all[3..] && all[1..][1..] == all[2..];
    assert Subsequence(k4, all[4..]) by {
      if b { assert k4[1..] == []; }
    }
    ConsOrSkip(f, F, k4, all[3..]);
    ConsOrSkip(q, Q, k3, all[2..]);
    ConsOrSkip(h, H, k2, all[1..]);
    ConsOrSkip(w, W, k1, all);
    Regroup(a + bb + c, d, k4);
    Regroup(a + bb, c, k3);
    Regroup(a, bb, k2);
  }

  lemma FlagMembers(w: bool, h: bool, q: bool, f: bool, b: bool)
    ensures var k := Opt(w, W) + Opt(h, H) + Opt(q, Q) + Opt(f, F) + Opt(b, BlurParam);
            && (W in k <==> w) && (H in k <==> h) && (Q in k <==> q) && (F in k <==> f) && (BlurParam in k <==> b)
            && (k == [] <==> !w && !h && !q && !f && !b)
  {
  }

  /** Prepending the head of b, or not, keeps a subsequence of its tail a
      subsequence of b. */
  lemma ConsOrSkip(keep: bool, x: Param, a: seq<Param>, b: seq<Param>)
    requires b != [] && b[0] == x && Subsequence(a, b[1..])
    ensures Subsequence(Opt(keep, x) + a, b)
  {
    if keep {
      assert ([x] + a)[1..] == a;
    } else {
      assert [] + a == a;
      SubsequenceSkip(a, b);
    }
  }

  /** `params.toString()`: `name=value` pairs joined by '&'. */
  function QueryString(params: seq<(Param, string)>): (r: string)
    ensures r == "" <==> params == []
    decreases |params|
  {
    if params == [] then ""
    else if |params| == 1 then ParamName(params[0].0) + "=" + params[0].1
    else ParamName(params[0].0) + "=" + params[0].1 + "&" + QueryString(params[1..])
  }

  /** `getOptimizedImageUrl` as a value: external URLs unchanged, otherwise
      the query appended when there is one. */
  function OptimizedImageUrl(src: string, o: Options): (r: string)
    ensures src <= r
    ensures r == src <==> StartsWith(src, "http") || QueryParams(o) == []
  {
    if StartsWith(src, "http") then src
    else
      var q := QueryString(QueryParams(o));
      if q != "" then src + "?" + q else src
  }

  /** `getOptimizedImageUrl`, appending to the parameter list one option at
      a time. */
  method GetOptimizedImageUrl(src: string, o: Options) returns (url: string)
    ensures url == OptimizedImageUrl(src, o)
  {
    if StartsWith(src, "http") {
      return src;
    }
    var params: seq<(Param, string)> := [];
    if Set(o.width) {
      params := params + [(W, IntToString(o.width.value))];
    }
    assert params == WidthParam(o);
    if Set(o.height) {
      params := params + [(H, IntToString(o.height.value))];
    }
    assert params == WidthParam(o) + HeightParam(o);
    var quality := if o.quality.Some? then o.quality.value else 80;
    if quality != 80 {
      params := params + [(Q, IntToString(quality))];
    }
    assert params == WidthParam(o) + HeightParam(o) + QualityParam(o);
    var format := if o.format.Some? then o.format.value else Webp;
    if format != Webp {
      params := params + [(F, FormatName(format))];
    }
    assert params == WidthParam(o) + HeightParam(o) + QualityParam(o) + FormatParam(o);
    var blur := if o.blur.Some? then o.blur.value else false;
    var blurRadius := if o.blurRadius.Some? then o.blurRadius.value else 10;
    if blur {
      params := params + [(BlurParam, IntToString(blurRadius))];
    }
    assert params == QueryParams(o);
    var query := QueryString(params);
    url := if query != "" then src + "?" + query else src;
  }

  /** External URLs pass through whatever the options; with only default
      options any source is unchanged; otherwise the URL is the source, '?'
      and the parameters. */
  lemma OptimizedImageUrlCases(src: string, o: Options)
    ensures StartsWith(src, "http") ==> OptimizedImageUrl(src, o) == src
    ensures QueryParams(o) == [] ==> OptimizedImageUrl(src, o) == src
    ensures !StartsWith(src, "http") && QueryParams(o) != [] ==>
              OptimizedImageUrl(src, o) == src + "?" + QueryString(QueryParams(o))
  {
  }

  // ---- srcset and sizes ----

  const DefaultBreakpoints: seq<int> := [320, 640, 768, 1024, 1280, 1536]

  /** One srcset candidate: the image at that width and its width descriptor. */
  function SrcSetEntry(src: string, width: int): string
  {
    OptimizedImageUrl(src, NoOptions.(width := Some(width))) + " " + IntToString(width) + "w"
  }

  function SrcSetEntries(src: string, breakpoints: seq<int>): (r: seq<string>)
    ensures |r| == |breakpoints|
    ensures forall i :: 0 <= i < |breakpoints| ==> r[i] == SrcSetEntry(src, breakpoints[i])
  {
    seq(|breakpoints|, i requires 0 <= i < |breakpoints| => SrcSetEntry(src, breakpoints[i]))
  }

  /** `generateSrcSet`. */
  function GenerateSrcSet(src: string, breakpoints: seq<int>): (r: string)
    ensures breakpoints == [] ==> r == ""
    ensures |breakpoints| == 1 ==> r == SrcSetEntry(src, breakpoints[0])
    ensures |breakpoints| > 1 ==> SrcSetEntry(src, breakpoints[0]) + ", " <= r
  {
    Join(SrcSetEntries(src, breakpoints), ", ")
  }

  /** A local source at a non-zero width gets just the `w` parameter; a zero
      width (falsy) gets none. */
  lemma SrcSetEntryForm(src: string, width: int)
    requires !StartsWith(src, "http")
    ensures width != 0 ==> SrcSetEntry(src, width) == src + "?w=" + IntToString(width) + " " + IntToString(width) + "w"
    ensures width == 0 ==> SrcSetEntry(src, width) == src + " 0w"
  {
    if width != 0 {
      SrcSetEntryWidth(src, width);
    } else {
      SrcSetEntryZero(src);
    }
  }

  lemma SrcSetEntryWidth(src: string, width: int)
    requires !StartsWith(src, "http") && width != 0
    ensures SrcSetEntry(src, width) == src + "?w=" + IntToString(width) + " " + IntToString(width) + "w"
  {
    var x := IntToString(width);
    WidthOnlyParams(width);
    var q := "w" + "=" + x;
    assert QueryString([(W, x)]) == q;
    assert OptimizedImageUrl(src, NoOptions.(width := Some(width))) == src + "?" + q;
    assert "?" + q == "?w=" + x;
  }

  lemma SrcSetEntryZero(src: string)
    requires !StartsWith(src, "http")
    ensures SrcSetEntry(src, 0) == src + " 0w"
  {
    WidthOnlyParams(0);
    assert OptimizedImageUrl(src, NoOptions.(width := Some(0))) == src;
    assert IntToString(0) == "0" by {
      assert NatToString(0) == [DigitChar(0)];
    }
    assert " " + "0" + "w" == " 0w";
  }

  /** Only the width is set: the query lists at most its parameter. */
  lemma WidthOnlyParams(width: int)
    ensures QueryParams(NoOptions.(width := Some(width))) == (if width != 0 then [(W, IntToString(width))] else [])
  {
    var o := NoOptions.(width := Some(width));
    assert HeightParam(o) == [] && QualityParam(o) == [] && FormatParam(o) == [] && BlurParamOf(o) == [];
  }

  /** With the default breakpoints a local image gets six candidates, the
      first one `src?w=320 320w`. */
  lemma DefaultSrcSet(src: string)
    requires !StartsWith(src, "http")
    ensures |SrcSetEntries(src, DefaultBreakpoints)| == 6
    ensures SrcSetEntries(src, DefaultBreakpoints)[0] == src + "?w=320 320w"
    ensures src + "?w=320 320w, " <= GenerateSrcSet(src, DefaultBreakpoints)
  {
    DefaultFirstCandidate(src);
    DefaultSrcSetStart(src);
    FirstSrcSetEntry(src);
    SeparatorSpelling(src);
  }

  lemma DefaultFirstCandidate(src: string)
    requires !StartsWith(src, "http")
    ensures SrcSetEntries(src, DefaultBreakpoints)[0] == src + "?w=320 320w"
  {
    var bs := DefaultBreakpoints;
    assert bs[0] == 320;
    FirstSrcSetEntry(src);
  }

  lemma DefaultSrcSetStart(src: string)
    ensures SrcSetEntry(src, 320) + ", " <= GenerateSrcSet(src, DefaultBreakpoints)
  {
    var bs := DefaultBreakpoints;
    assert |bs| == 6 && bs[0] == 320;
  }

  lemma FirstSrcSetEntry(src: string)
    requires !StartsWith(src, "http")
    ensures SrcSetEntry(src, 320) == src + "?w=320 320w"
  {
    SrcSetEntryWidth(src, 320);
    FirstBreakpointSpelling();
    FirstEntrySpelling(src);
  }

  lemma FirstEntrySpelling(src: string)
    ensures src + "?w=" + "320" + " " + "320" + "w" == src + "?w=320 320w"
  {
    var tail := "?w=" + "320" + " " + "320" + "w";
    assert tail == "?w=320 320w";
    assert src + "?w=" + "320" + " " + "320" + "w" == src + tail;
  }

  lemma SeparatorSpelling(src: string)
    ensures src + "?w=320 320w" + ", " == src + "?w=320 320w, "
  {
    var tail := "?w=320 320w" + ", ";
    assert tail == "?w=320 320w, ";
    assert src + "?w=320 320w" + ", " == src + tail;
  }

  lemma FirstBreakpointSpelling()
    ensures IntToString(320) == "320"
  {
    assert NatToString(3) == "3";
    assert NatToString(32) == NatToString(3) + [DigitChar(2)];
    assert NatToString(320) == NatToString(32) + [DigitChar(0)];
  }

  /** Appending a breakpoint appends one more candidate after ", ". */
  lemma SrcSetSnoc(src: string, breakpoints: seq<int>, width: int)
    requires breakpoints != []
    ensures GenerateSrcSet(src, breakpoints + [width]) == GenerateSrcSet(src, breakpoints) + ", " + SrcSetEntry(src, width)
  {
    assert SrcSetEntries(src, breakpoints + [width]) == SrcSetEntries(src, breakpoints) + [SrcSetEntry(src, width)];
    JoinSnoc(SrcSetEntries(src, breakpoints), SrcSetEntry(src, width), ", ");
  }

  predicate DescendingByKey(entries: seq<(int, string)>)
  {
    forall i :: 0 <= i < |entries| - 1 ==> entries[i].0 >= entries[i + 1].0
  }

  /** Insertion of one entry into a list sorted with the largest key
      first. */
  function InsertDesc(e: (int, string), sorted: seq<(int, string)>): (r: seq<(int, string)>)
    ensures |r| == |sorted| + 1
    decreases |sorted|
  {
    if sorted == [] || e.0 >= sorted[0].0 then [e] + sorted
    else [sorted[0]] + InsertDesc(e, sorted[1..])
  }

  lemma {:induction false} InsertDescFacts(e: (int, string), sorted: seq<(int, string)>)
    requires DescendingByKey(sorted)
    ensures DescendingByKey(InsertDesc(e, sorted))
    ensures multiset(InsertDesc(e, sorted)) == multiset(sorted) + multiset{e}
    ensures InsertDesc(e, sorted)[0] == (if sorted == [] || e.0 >= sorted[0].0 then e else sorted[0])
    decreases |sorted|
  {
    if sorted != [] && e.0 < sorted[0].0 {
      var rest := sorted[1..];
      assert DescendingByKey(rest) by {
        forall i | 0 <= i < |rest| - 1 ensures rest[i].0 >= rest[i + 1].0 {
          assert rest[i] == sorted[i + 1] && rest[i + 1] == sorted[i + 2];
        }
      }
      InsertDescFacts(e, rest);
      var r := InsertDesc(e, rest);
      assert rest != [] ==> sorted[0].0 >= rest[0].0 by {
        if rest != [] { assert rest[0] == sorted[1]; }
      }
      ConsDescending(sorted[0], r);
      assert sorted == [sorted[0]] + rest;
      assert multiset([sorted[0]] + r) == multiset{sorted[0]} + multiset(r);
    } else {
      ConsDescending(e, sorted);
    }
  }

  /** An entry with a key no smaller than the head keeps a list sorted. */
  lemma ConsDescending(x: (int, string), r: seq<(int, string)>)
    requires DescendingByKey(r)
    requires r != [] ==> x.0 >= r[0].0
    ensures DescendingByKey([x] + r)
  {
    var t := [x] + r;
    forall i | 0 <= i < |t| - 1 ensures t[i].0 >= t[i + 1].0 {
      if i > 0 { assert t[i] == r[i - 1] && t[i + 1] == r[i]; }
    }
  }

  /** `.sort((a, b) => b - a)` on the breakpoints, carrying each one's
      size. */
  function SortDesc(entries: seq<(int, string)>): (r: seq<(int, string)>)
    ensures |r| == |entries|
    decreases |entries|
  {
    if entries == [] then [] else InsertDesc(entries[0], SortDesc(entries[1..]))
  }

  lemma {:induction false} SortDescFacts(entries: seq<(int, string)>)
    ensures DescendingByKey(SortDesc(entries))
    ensures multiset(SortDesc(entries)) == multiset(entries)
    decreases |entries|
  {
    if entries != [] {
      SortDescFacts(entries[1..]);
      InsertDescFacts(entries[0], SortDesc(entries[1..]));
      assert entries == [entries[0]] + entries[1..];
    }
  }

  function MediaQuery(e: (int, string)): string
  {
    "(min-width: " + IntToString(e.0) + "px) " + e.1
  }

  /** The media queries for all breakpoints but the last (smallest) and that
      one's size; no breakpoints join a single undefined, the empty
      string. */
  function SizeParts(entries: seq<(int, string)>): (r: seq<string>)
    ensures |r| == if entries == [] then 1 else |entries|
  {
    var sorted := SortDesc(entries);
    if sorted == [] then [""]
    else
      seq(|sorted| - 1, i requires 0 <= i < |sorted| - 1 => MediaQuery(sorted[i])) + [sorted[|sorted| - 1].1]
  }

  /** `generateSizes`. */
  function GenerateSizes(entries: seq<(int, string)>): (r: string)
    ensures entries == [] ==> r == ""
    ensures |entries| == 1 ==> r == entries[0].1
  {
    Join(SizeParts(entries), ", ")
  }

  /** One media query for each breakpoint but the smallest, largest first,
      and the smallest breakpoint's size last; every breakpoint is used. */
  lemma SizePartsShape(entries: seq<(int, string)>)
    requires entries != []
    ensures var p, sorted := SizeParts(entries), SortDesc(entries);
            && DescendingByKey(sorted) && multiset(sorted) == multiset(entries)
            && p[|p| - 1] == sorted[|sorted| - 1].1
            && (forall i :: 0 <= i < |p| - 1 ==> p[i] == MediaQuery(sorted[i]))
            && (forall e :: e in entries ==> sorted[|sorted| - 1].0 <= e.0)
  {
    SortDescFacts(entries);
    var sorted := SortDesc(entries);
    forall e | e in entries ensures sorted[|sorted| - 1].0 <= e.0 {
      assert e in multiset(sorted);
      var i :| 0 <= i < |sorted| && sorted[i] == e;
      LastIsSmallest(sorted, i);
    }
  }

  /** The smallest breakpoint ends the sorted list. */
  lemma {:induction false} LastIsSmallest(sorted: seq<(int, string)>, i: nat)
    requires DescendingByKey(sorted) && i < |sorted|
    ensures sorted[i].0 >= sorted[|sorted| - 1].0
    decreases |sorted| - i
  {
    if i < |sorted| - 1 {
      LastIsSmallest(sorted, i + 1);
    }
  }

  const DefaultSizes: seq<(int, string)> := [(320, "100vw"), (768, "50vw"), (1024, "33vw"), (1280, "25vw")]

  /** The default sizes attribute. */
  lemma DefaultSizesText()
    ensures GenerateSizes(DefaultSizes) ==
            "(min-width: 1280px) 25vw" + ", " + "(min-width: 1024px) 33vw" + ", " + "(min-width: 768px) 50vw" + ", " + "100vw"
  {
    DefaultSizeParts();
    JoinFour("(min-width: 1280px) 25vw", "(min-width: 1024px) 33vw", "(min-width: 768px) 50vw", "100vw", ", ");
  }

  lemma DefaultSizeParts()
    ensures SizeParts(DefaultSizes) == ["(min-width: 1280px) 25vw", "(min-width: 1024px) 33vw", "(min-width: 768px) 50vw", "100vw"]
  {
    DefaultSorted();
    var sorted := SortDesc(DefaultSizes);
    var p := SizeParts(DefaultSizes);
    assert p == [MediaQuery(sorted[0]), MediaQuery(sorted[1]), MediaQuery(sorted[2]), sorted[3].1];
    DefaultMediaQueries();
  }

  /** The default breakpoints sorted, largest first. */
  lemma DefaultSorted()
    ensures SortDesc(DefaultSizes) == [(1280, "25vw"), (1024, "33vw"), (768, "50vw"), (320, "100vw")]
  {
    var e := DefaultSizes;
    var a, b, c, d := (1280, "25vw"), (1024, "33vw"), (768, "50vw"), (320, "100vw");
    assert e[3..][1..] == [];
    assert SortDesc(e[3..]) == [a];
    assert [a][1..] == [];
    assert InsertDesc(b, [a]) == [a] + InsertDesc(b, []);
    assert e[2..][1..] == e[3..];
    assert SortDesc(e[2..]) == [a, b];
    assert [a, b][1..] == [b] && [b][1..] == [];
    assert InsertDesc(c, [b]) == [b, c];
    assert InsertDesc(c, [a, b]) == [a] + InsertDesc(c, [b]);
    assert e[1..][1..] == e[2..];
    assert SortDesc(e[1..]) == [a, b, c];
    assert [a, b, c][1..] == [b, c] && [b, c][1..] == [c] && [c][1..] == [];
    assert InsertDesc(d, [c]) == [c, d];
    assert InsertDesc(d, [b, c]) == [b] + InsertDesc(d, [c]);
    assert InsertDesc(d, [a, b, c]) == [a] + InsertDesc(d, [b, c]);
  }

  lemma DefaultMediaQueries()
    ensures MediaQuery((1280, "25vw")) == "(min-width: 1280px) 25vw"
    ensures MediaQuery((1024, "33vw")) == "(min-width: 1024px) 33vw"
    ensures MediaQuery((768, "50vw")) == "(min-width: 768px) 50vw"
  {
    NatToStringLiterals();
    MediaQueryOf(1280, "1280", "25vw");
    MediaQueryOf(1024, "1024", "33vw");
    MediaQueryOf(768, "768", "50vw");
  }

  lemma MediaQueryOf(bp: int, digits: string, size: string)
    requires IntToString(bp) == digits
    ensures MediaQuery((bp, size)) == "(min-width: " + digits + "px) " + size
  {
  }

  lemma JoinFour(a: string, b: string, c: string, d: string, sep: string)
    ensures Join([a, b, c, d], sep) == a + sep + b + sep + c + sep + d
  {
    var p := [a, b, c, d];
    assert Join(p[3..], sep) == d;
    assert Join(p[2..], sep) == c + sep + Join(p[3..], sep) by { assert p[2..][1..] == p[3..]; }
    assert Join(p[1..], sep) == b + sep + Join(p[2..], sep) by { assert p[1..][1..] == p[2..]; }
  }

  lemma NatToStringLiterals()
    ensures IntToString(1280) == "1280" && IntToString(1024) == "1024" && IntToString(768) == "768"
  {
    assert NatToString(1) == "1" && NatToString(7) == "7";
    assert NatToString(12) == NatToString(1) + [DigitChar(2)];
    assert NatToString(128) == NatToString(12) + [DigitChar(8)];
    assert NatToString(10) == NatToString(1) + [DigitChar(0)];
    assert NatToString(102) == NatToString(10) + [DigitChar(2)];
    assert NatToString(76) == NatToString(7) + [DigitChar(6)];
  }

  // ---- Avatars and logos ----

  /** `s.split(' ')`. */
  function Split(s: string): (r: seq<string>)
    ensures |r| >= 1
    decreases |s|
  {
    if s == [] then [""]
    else if s[0] == ' ' then [""] + Split(s[1..])
    else
      var rest := Split(s[1..]);
      [[s[0]] + rest[0]] + rest[1..]
  }

  /** The first character of each part; an empty part contributes
      `undefined`, which `join('')` renders as nothing. */
  function FirstLetters(parts: seq<string>): (r: string)
    ensures |r| <= |parts|
    ensures forall c :: c in r ==> exists i :: 0 <= i < |parts| && parts[i] != [] && parts[i][0] == c
    decreases |parts|
  {
    if parts == [] then []
    else (if parts[0] == [] then [] else [parts[0][0]]) + FirstLetters(parts[1..])
  }

  /** The characters that start a word: not a space, and first or after a
      space. */
  function WordStarts(s: string, afterSpace: bool): (r: string)
    ensures |r| <= |s|
    ensures forall c :: c in r ==> c in s && c != ' '
    decreases |s|
  {
    if s == [] then []
    else (if s[0] != ' ' && afterSpace then [s[0]] else []) + WordStarts(s[1..], s[0] == ' ')
  }

  /** Splitting on spaces and joining back gives the name again. */
  lemma {:induction false} SplitJoin(s: string)
    ensures Join(Split(s), " ") == s
    decreases |s|
  {
    if s != [] {
      var t := s[1..];
      SplitJoin(t);
      var r := Split(t);
      if s[0] == ' ' {
        JoinEmptyFirst(r, " ");
      } else {
        JoinExtendFirst(s[0], r, " ");
      }
      assert s == [s[0]] + t;
    }
  }

  /** An empty first part leaves only the separator before the rest. */
  lemma JoinEmptyFirst(r: seq<string>, sep: string)
    requires |r| >= 1
    ensures Join([""] + r, sep) == sep + Join(r, sep)
  {
    assert ([""] + r)[1..] == r;
  }

  /** A character put before the first part comes first in the join. */
  lemma JoinExtendFirst(c: char, r: seq<string>, sep: string)
    requires |r| >= 1
    ensures Join([[c] + r[0]] + r[1..], sep) == [c] + Join(r, sep)
  {
    var parts := [[c] + r[0]] + r[1..];
    assert parts[1..] == r[1..];
  }

  /** The first letters of the parts are the letters that start the words
      of the name; those of every part but the first are the ones after a
      space. */
  lemma {:induction false} SplitLetters(s: string)
    ensures FirstLetters(Split(s)) == WordStarts(s, true)
    ensures FirstLetters(Split(s)[1..]) == WordStarts(s, false)
    decreases |s|
  {
    if s != [] {
      var t := s[1..];
      SplitLetters(t);
      var r := Split(t);
      if s[0] == ' ' {
        assert Split(s) == [""] + r;
        assert ([""] + r)[1..] == r;
      } else {
        var parts := Split(s);
        assert parts == [[s[0]] + r[0]] + r[1..];
        assert parts[1..] == r[1..];
        assert FirstLetters(parts) == [s[0]] + FirstLetters(r[1..]);
      }
    }
  }

  /** `playerName.split(' ').map(name => name[0]).join('').toUpperCase()`. */
  function Initials(playerName: string): (r: string)
    ensures r == ToUpper(WordStarts(playerName, true))
  {
    SplitLetters(playerName);
    ToUpper(FirstLetters(Split(playerName)))
  }

  /** `encodeURIComponent` on ASCII: letters, digits and `-_.!~*'()` are
      kept and every other character below 128 becomes `%XX`. */
  predicate Unreserved(c: char)
  {
    IsUpperAscii(c) || IsLowerAscii(c) || ('0' <= c <= '9') || c in "-_.!~*'()"
  }

  function HexDigit(d: nat): (h: char)
    requires d < 16
    ensures HexValue(h) == d
  {
    "0123456789ABCDEF"[d]
  }

  /** The value of an upper-case hexadecimal digit, -1 for any other character. */
  function HexValue(h: char): int
  {
    if '0' <= h <= '9' then h as int - '0' as int
    else if 'A' <= h <= 'F' then h as int - 'A' as int + 10
    else -1
  }

  /** A reserved ASCII character becomes `%` and two hexadecimal digits that
      read back as its code. */
  function EncodeChar(c: char): (r: string)
    ensures Unreserved(c) ==> r == [c]
    ensures !Unreserved(c) && (c as int) < 128 ==>
              |r| == 3 && r[0] == '%' && HexValue(r[1]) * 16 + HexValue(r[2]) == c as int
  {
    if Unreserved(c) || (c as int) >= 128 then [c]
    else ['%', HexDigit((c as int) / 16), HexDigit((c as int) % 16)]
  }

  function EncodeUriComponent(s: string): (r: string)
    ensures (forall i :: 0 <= i < |s| ==> Unreserved(s[i])) ==> r == s
    decreases |s|
  {
    if s == [] then [] else EncodeChar(s[0]) + EncodeUriComponent(s[1..])
  }

  /** `options.width || 128`. */
  function WidthOr(o: Options, fallback: int): int
  {
    if Set(o.width) then o.width.value else fallback
  }

  /** `getPlayerAvatarUrl`: an optimized custom URL when one is given,
      otherwise the initials avatar service. */
  function PlayerAvatarUrl(playerName: string, customUrl: Option<string>, o: Options): (r: string)
    ensures customUrl.Some? && customUrl.value != "" ==> r == OptimizedImageUrl(customUrl.value, o)
    ensures customUrl.None? || customUrl.value == "" ==>
              r == "https://ui-avatars.com/api/?name=" + EncodeUriComponent(ToUpper(WordStarts(playerName, true)))
                   + "&background=random&size=" + IntToString(WidthOr(o, 128))
  {
    if customUrl.Some? && customUrl.value != "" then OptimizedImageUrl(customUrl.value, o)
    else
      "https://ui-avatars.com/api/?name=" + EncodeUriComponent(Initials(playerName))
      + "&background=random&size=" + IntToString(WidthOr(o, 128))
  }

  datatype LogoSize = Small | Medium | Large

  function SizePixels(size: LogoSize): int
  {
    match size
    case Small => 32
    case Medium => 64
    case Large => 128
  }

  function LogoPath(teamCode: string): string
  {
    "/images/teams/" + ToLower(teamCode) + "-logo.png"
  }

  /** `getTeamLogoUrl`: the lower-cased code's logo at the given width or
      the size's. */
  function TeamLogoUrl(teamCode: string, size: LogoSize, o: Options): (r: string)
    ensures LogoPath(teamCode) + "?w=" + IntToString(WidthOr(o, SizePixels(size))) <= r
  {
    var w := WidthOr(o, SizePixels(size));
    var p := QueryParams(o.(width := Some(w)));
    var path := LogoPath(teamCode);
    assert path[0] == '/';
    assert |path| >= 4 ==> path[..4][0] == '/';
    QueryStringStartsWithFirst(p);
    assert "w" + "=" + IntToString(w) <= QueryString(p);
    OptimizedImageUrl(LogoPath(teamCode), o.(width := Some(w)))
  }

  /** The query string starts with its first parameter. */
  lemma QueryStringStartsWithFirst(params: seq<(Param, string)>)
    requires params != []
    ensures ParamName(params[0].0) + "=" + params[0].1 <= QueryString(params)
  {
  }

  /** A logo URL always carries its width first: the path is local and the
      width is never zero. */
  lemma TeamLogoUrlWidth(teamCode: string, size: LogoSize, o: Options)
    ensures var w := WidthOr(o, SizePixels(size));
            var p := QueryParams(o.(width := Some(w)));
            && w != 0
            && (!Set(o.width) ==> w == SizePixels(size))
            && p != [] && p[0] == (W, IntToString(w))
            && TeamLogoUrl(teamCode, size, o) == LogoPath(teamCode) + "?" + QueryString(p)
  {
    var w := WidthOr(o, SizePixels(size));
    var path := LogoPath(teamCode);
    assert path[0] == '/';
    assert |path| >= 4 ==> path[..4][0] == '/';
  }
}
