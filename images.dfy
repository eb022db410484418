/** The shape logic shared by the three `_to_pil` converters: an image
    arrives either as a PIL image or as an array of which only the shape
    matters here; `np.squeeze` drops its size-1 axes, a channel-first
    `[c, h, w]` is turned into `[h, w, c]`, and the channel count picks the
    PIL mode. */
module Images {
  import opened Base

  /** A PIL image as far as the nodes look at it: its mode and its size. */
  datatype Picture = Picture(mode: string, height: nat, width: nat)

  /** What a vision node receives: a PIL image, or a tensor / array-like
      value, of which the model keeps the shape (`arr.shape`). */
  datatype ImageInput = PilImage(picture: Picture) | ArrayImage(shape: seq<nat>)

  /** The two `TypeError`s a converter raises. */
  datatype ConversionError = UnsupportedChannels(channels: nat) | UnhandledShape(shape: seq<nat>)

  /** How many axes of `s` have size `d`. */
  function Count(s: seq<nat>, d: nat): nat {
    multiset(s)[d]
  }

  /** `np.squeeze(arr).shape`: the axes of size 1 removed, the rest kept in order. */
  function Squeeze(s: seq<nat>): (r: seq<nat>)
    ensures 1 !in r
    ensures forall d :: d != 1 ==> Count(r, d) == Count(s, d)
  {
    if s == [] then []
    else
      assert s == [s[0]] + s[1..];
      if s[0] == 1 then Squeeze(s[1..]) else [s[0]] + Squeeze(s[1..])
  }

  /** Squeezing removes exactly the axes of size 1. */
  lemma {:induction false} SqueezeLength(s: seq<nat>)
    ensures |Squeeze(s)| == |s| - Count(s, 1)
  {
    if s != [] {
      assert s == [s[0]] + s[1..];
      SqueezeLength(s[1..]);
    }
  }

  /** Squeezing works axis by axis, so it distributes over concatenation. */
  lemma {:induction false} SqueezeAppend(a: seq<nat>, b: seq<nat>)
    ensures Squeeze(a + b) == Squeeze(a) + Squeeze(b)
  {
    if a != [] {
      var ab := a + b;
      assert ab != [] && ab[0] == a[0] && ab[1..] == a[1..] + b;
      SqueezeAppend(a[1..], b);
      if a[0] == 1 {
        assert Squeeze(ab) == Squeeze(a[1..] + b);
        assert Squeeze(a) == Squeeze(a[1..]);
      } else {
        assert Squeeze(ab) == [a[0]] + Squeeze(a[1..] + b);
        assert Squeeze(a) == [a[0]] + Squeeze(a[1..]);
      }
    } else {
      assert a + b == b;
    }
  }

  /** Squeezing an already squeezed shape changes nothing. */
  lemma {:induction false} SqueezeIdempotent(s: seq<nat>)
    ensures Squeeze(Squeeze(s)) == Squeeze(s)
  {
    if s != [] {
      SqueezeIdempotent(s[1..]);
    }
  }

  /** The number of elements of an array of shape `s` (1 for the empty shape). */
  function Elements(s: seq<nat>): nat {
    if s == [] then 1 else s[0] * Elements(s[1..])
  }

  /** Squeezing never changes how many elements the array holds. */
  lemma {:induction false} SqueezeKeepsElements(s: seq<nat>)
    ensures Elements(Squeeze(s)) == Elements(s)
  {
    if s != [] {
      SqueezeKeepsElements(s[1..]);
    }
  }

  /** A shape made of ones only squeezes to rank 0. */
  lemma {:induction false} SqueezeAllOnes(s: seq<nat>)
    requires forall i :: 0 <= i < |s| ==> s[i] == 1
    ensures Squeeze(s) == []
  {
    if s != [] {
      SqueezeAllOnes(s[1..]);
    }
  }

  /** The first-axis sizes that the converters read as "channels first". */
  predicate ChannelFirstSize(d: nat) {
    d == 1 || d == 3 || d == 4
  }

  /** `np.transpose(arr, (1, 2, 0))` on a 3-axis shape. */
  function ToChannelLast(s: seq<nat>): (r: seq<nat>)
    requires |s| == 3
    ensures |r| == 3 && r[2] == s[0] && r[..2] == s[1..]
  {
    [s[1], s[2], s[0]]
  }

  /** `{1: "L", 3: "RGB", 4: "RGBA"}.get(ch)`. */
  function ModeFor(ch: nat): (m: Option<string>)
    ensures m.Some? <==> ChannelFirstSize(ch)
    ensures m.Some? ==> m.value != ""
    ensures m == Some("L") <==> ch == 1
  {
    if ch == 1 then Some("L")
    else if ch == 3 then Some("RGB")
    else if ch == 4 then Some("RGBA")
    else None
  }

  /** The result of a converter: the PIL image, or the error it raised. */
  datatype Conversion = Converted(picture: Picture) | Rejected(error: ConversionError)

  /** What converting an array of squeezed shape `s` must give, stated
      without the transpose: two axes are grayscale; on three axes a first
      axis of 3 or 4 is the channel count (channels first), otherwise the
      last axis is, and it must be 3 or 4. A channel count of 1 cannot occur
      on three axes once squeezed, so grayscale never appears there. */
  function Reference(s: seq<nat>): (r: Option<Picture>)
    requires 1 !in s
  {
    if |s| == 2 then Some(Picture("L", s[0], s[1]))
    else if |s| == 3 && (s[0] == 3 || s[0] == 4) then
      Some(Picture(if s[0] == 3 then "RGB" else "RGBA", s[1], s[2]))
    else if |s| == 3 && (s[2] == 3 || s[2] == 4) then
      Some(Picture(if s[2] == 3 then "RGB" else "RGBA", s[0], s[1]))
    else None
  }

  /** The error a rejected array of squeezed shape `s` must raise: on three
      axes the channel count (which is then the last axis) is unsupported,
      on any other rank the shape is. */
  function RejectionOf(s: seq<nat>): ConversionError {
    if |s| == 3 then UnsupportedChannels(s[2]) else UnhandledShape(s)
  }

  /** A converter meets the reference on array input of shape `shape`. */
  predicate MeetsReference(shape: seq<nat>, r: Conversion) {
    var s := Squeeze(shape);
    match Reference(s)
    case Some(p) => r == Converted(p)
    case None => r == Rejected(RejectionOf(s))
  }

  /** The text Python gives a shape tuple: `()`, `(5,)`, `(2, 3, 4, 5)`. It
      is parenthesised, it is `()` exactly for rank 0, and it has a trailing
      comma exactly for rank 1. */
  function ShapeText(s: seq<nat>): (r: string)
    ensures |r| >= 2 && r[0] == '(' && r[|r| - 1] == ')'
    ensures r == "()" <==> s == []
    ensures r[|r| - 2] == ',' <==> |s| == 1
  {
    if |s| == 1 then "(" + NatToString(s[0]) + ",)" else "(" + JoinDims(s) + ")"
  }

  function JoinDims(s: seq<nat>): (r: string)
    ensures s == [] <==> r == ""
    ensures s != [] ==> IsDigit(r[0]) && IsDigit(r[|r| - 1])
  {
    if s == [] then ""
    else if |s| == 1 then NatToString(s[0])
    else NatToString(s[0]) + ", " + JoinDims(s[1..])
  }

  /** The number of digits `t` starts with. */
  function DigitRun(t: string): (n: nat)
    ensures n <= |t|
    ensures forall i :: 0 <= i < n ==> IsDigit(t[i])
    ensures n < |t| ==> !IsDigit(t[n])
  {
    if t == [] || !IsDigit(t[0]) then 0 else 1 + DigitRun(t[1..])
  }

  /** Reads a `", "`-separated list of decimal numbers, each written
      without leading zeros. */
  function ReadDims(t: string): Option<seq<nat>>
    decreases |t|
  {
    var n := DigitRun(t);
    if n == 0 || (n > 1 && t[0] == '0') then None
    else if n == |t| then Some([DigitsValue(t)])
    else if n + 2 <= |t| && t[n] == ',' && t[n + 1] == ' ' && ReadDims(t[n + 2..]).Some? then
      Some([DigitsValue(t[..n])] + ReadDims(t[n + 2..]).value)
    else None
  }

  /** Reads a Python shape tuple back from its text: `()`, `(d,)` or
      `(d1, d2, ...)` with at least two numbers. */
  function ReadShapeText(t: string): Option<seq<nat>> {
    if |t| < 2 || t[0] != '(' || t[|t| - 1] != ')' then None
    else
      var inner := t[1..|t| - 1];
      if inner == "" then Some([])
      else if inner[|inner| - 1] == ',' then
        match ReadDims(inner[..|inner| - 1])
        case Some(dims) => if |dims| == 1 then Some(dims) else None
        case None => None
      else
        match ReadDims(inner)
        case Some(dims) => if |dims| >= 2 then Some(dims) else None
        case None => None
  }

  lemma {:induction false} DigitRunOf(d: string, rest: string)
    requires forall i :: 0 <= i < |d| ==> IsDigit(d[i])
    requires rest == [] || !IsDigit(rest[0])
    ensures DigitRun(d + rest) == |d|
    decreases |d|
  {
    if d != [] {
      assert (d + rest)[1..] == d[1..] + rest;
      DigitRunOf(d[1..], rest);
    } else {
      assert d + rest == rest;
    }
  }

  /** `ReadDims` on a number's digits followed by the separator. */
  lemma ReadDimsSplit(t: string, n: nat)
    requires 0 < n == DigitRun(t) && (n > 1 ==> t[0] != '0')
    requires n + 2 <= |t| && t[n] == ',' && t[n + 1] == ' ' && ReadDims(t[n + 2..]).Some?
    ensures ReadDims(t) == Some([DigitsValue(t[..n])] + ReadDims(t[n + 2..]).value)
  {
  }

  /** `ReadDims` on the text of one number, alone or before more numbers. */
  lemma ReadDimsOfNumber(k: nat, tail: string)
    requires tail == [] || ReadDims(tail).Some?
    ensures tail == [] ==> ReadDims(NatToString(k)) == Some([k])
    ensures tail != [] ==> ReadDims(NatToString(k) + ", " + tail) == Some([k] + ReadDims(tail).value)
  {
    var d := NatToString(k);
    NatToStringRoundTrip(k);
    assert |d| > 1 ==> d[0] != '0';
    if tail == [] {
      DigitRunOf(d, "");
      assert d + "" == d;
    } else {
      var t := d + ", " + tail;
      assert t == d + (", " + tail);
      DigitRunOf(d, ", " + tail);
      assert t[..|d|] == d;
      assert t[|d|] == ',' && t[|d| + 1] == ' ';
      assert t[|d| + 2..] == tail;
      ReadDimsSplit(t, |d|);
    }
  }

  lemma {:induction false} ReadDimsOfJoin(s: seq<nat>)
    requires s != []
    ensures ReadDims(JoinDims(s)) == Some(s)
    decreases |s|
  {
    if |s| == 1 {
      assert JoinDims(s) == NatToString(s[0]);
      ReadDimsOfNumber(s[0], "");
      assert s == [s[0]];
    } else {
      var tail := JoinDims(s[1..]);
      assert JoinDims(s) == NatToString(s[0]) + ", " + tail;
      ReadDimsOfJoin(s[1..]);
      ReadDimsOfNumber(s[0], tail);
      assert [s[0]] + s[1..] == s;
    }
  }

  /** One step of `ReadDims` on a text it accepts. */
  /** A text that `ReadDims` accepts and that holds a single number. */
  lemma ReadDimsLast(t: string, s: seq<nat>, n: nat)
    requires ReadDims(t) == Some(s) && n == DigitRun(t) && n == |t|
    ensures (n > 1 ==> t[0] != '0') && s == [DigitsValue(t)]
  {
  }

  /** A text that `ReadDims` accepts and that holds more than one number. */
  lemma ReadDimsNext(t: string, s: seq<nat>, n: nat)
    requires ReadDims(t) == Some(s) && n == DigitRun(t) && n < |t|
    ensures 0 < n && (n > 1 ==> t[0] != '0')
    ensures n + 2 <= |t| && t[n] == ',' && t[n + 1] == ' ' && ReadDims(t[n + 2..]).Some?
    ensures s == [DigitsValue(t[..n])] + ReadDims(t[n + 2..]).value
  {
  }

  lemma SplitAtSeparator(t: string, n: nat)
    requires n + 2 <= |t| && t[n] == ',' && t[n + 1] == ' '
    ensures t == t[..n] + ", " + t[n + 2..]
  {
    assert t[n..n + 2] == ", ";
    assert t == t[..n] + t[n..n + 2] + t[n + 2..];
  }

  lemma {:induction false} JoinOfReadDims(t: string, s: seq<nat>)
    requires ReadDims(t) == Some(s)
    ensures s != [] && JoinDims(s) == t
    decreases |t|
  {
    var n := DigitRun(t);
    if n == |t| {
      ReadDimsLast(t, s, n);
      DigitsRoundTrip(t);
    } else {
      ReadDimsNext(t, s, n);
      var head, tail := t[..n], t[n + 2..];
      assert head[0] == t[0];
      DigitsRoundTrip(head);
      JoinOfReadDims(tail, s[1..]);
      SplitAtSeparator(t, n);
    }
  }

  /** Only the tuple text of a shape reads back as that shape: the reader
      accepts exactly the texts Python prints. */
  lemma ShapeTextOfRead(t: string, s: seq<nat>)
    requires ReadShapeText(t) == Some(s)
    ensures ShapeText(s) == t
  {
    var inner := t[1..|t| - 1];
    assert t == "(" + inner + ")";
    if inner == "" {
      assert s == [];
    } else if inner[|inner| - 1] == ',' {
      var body := inner[..|inner| - 1];
      assert ReadDims(body) == Some(s) && |s| == 1;
      JoinOfReadDims(body, s);
      assert inner == body + ",";
      assert t == "(" + NatToString(s[0]) + ",)";
    } else {
      assert ReadDims(inner) == Some(s) && |s| >= 2;
      JoinOfReadDims(inner, s);
    }
  }

  /** The tuple text of a shape reads back as that shape. */
  lemma ShapeTextReadBack(s: seq<nat>)
    ensures ReadShapeText(ShapeText(s)) == Some(s)
  {
    var t := ShapeText(s);
    var inner := t[1..|t| - 1];
    if s == [] {
      assert inner == "";
    } else if |s| == 1 {
      assert inner == NatToString(s[0]) + ",";
      assert inner[..|inner| - 1] == NatToString(s[0]) == JoinDims(s);
      ReadDimsOfJoin(s);
    } else {
      assert inner == JoinDims(s);
      ReadDimsOfJoin(s);
    }
  }
  /** The reader and the printer are inverse: a text reads as `s` exactly
      when it is the tuple text of `s`. */
  lemma ShapeTextExact(t: string, s: seq<nat>)
    ensures ReadShapeText(t) == Some(s) <==> t == ShapeText(s)
  {
    if ReadShapeText(t) == Some(s) {
      ShapeTextOfRead(t, s);
    }
    if t == ShapeText(s) {
      ShapeTextReadBack(s);
    }
  }


  /** `r` is the text of the `TypeError` for `e`, under the given leading
      words: the channel count can be read back from the digits after its
      lead, and the shape's tuple text follows its lead. */
  predicate ErrorTextReadsBack(r: string, e: ConversionError, channelsLead: string, shapeLead: string) {
    match e
    case UnsupportedChannels(ch) =>
      && StartsWith(r, channelsLead)
      && |r| == |channelsLead| + |NatToString(ch)|
      && (forall i :: |channelsLead| <= i < |r| ==> IsDigit(r[i]))
      && DigitsValue(r[|channelsLead|..]) == ch
    case UnhandledShape(s) => StartsWith(r, shapeLead) && r[|shapeLead|..] == ShapeText(s)
  }

  /** `f"{lead}{ch}"` or `f"{lead}{arr.shape}"`. */
  function TypeErrorText(e: ConversionError, channelsLead: string, shapeLead: string): (r: string)
    ensures ErrorTextReadsBack(r, e, channelsLead, shapeLead)
  {
    match e
    case UnsupportedChannels(ch) =>
      NatToStringRoundTrip(ch);
      StripPrefixOfConcat(channelsLead, NatToString(ch));
      channelsLead + NatToString(ch)
    case UnhandledShape(s) =>
      StripPrefixOfConcat(shapeLead, ShapeText(s));
      shapeLead + ShapeText(s)
  }

  const SplitChannelsLead: string := "Unsupported channels: "
  const SplitShapeLead: string := "Cannot handle shape: "

  /** The `TypeError` texts of the two split-form converters; the two kinds
      of error are told apart by their first word. */
  function SplitFormErrorText(e: ConversionError): (r: string)
    ensures ErrorTextReadsBack(r, e, SplitChannelsLead, SplitShapeLead)
    ensures StartsWith(r, SplitChannelsLead) <==> e.UnsupportedChannels?
  {
    var r := TypeErrorText(e, SplitChannelsLead, SplitShapeLead);
    if e.UnhandledShape? then
      assert r[..|SplitShapeLead|] == SplitShapeLead;
      assert r[0] == 'C';
      r
    else r
  }

  /** Conversion succeeds exactly on rank 2, and on rank 3 when the last
      axis after the optional transpose (the first axis when it is 1, 3 or
      4, the last one otherwise) is a channel count of 1, 3 or 4. */
  lemma ReferenceSucceedsIff(s: seq<nat>)
    requires 1 !in s
    ensures Reference(s).Some? <==>
      |s| == 2 || (|s| == 3 && ChannelFirstSize(if ChannelFirstSize(s[0]) then s[0] else s[2]))
    ensures Reference(s).Some? && |s| == 2 ==> Reference(s).value.mode == "L"
    ensures Reference(s).Some? && |s| == 3 ==>
      Some(Reference(s).value.mode) == ModeFor(if ChannelFirstSize(s[0]) then s[0] else s[2])
  {
  }

  /** Grayscale only ever comes from a two-axis array: on three axes a size-1
      axis, and with it the `1: "L"` entry, cannot survive the squeeze. */
  lemma {:induction false} NoGrayscaleOnThreeAxes(shape: seq<nat>, r: Conversion)
    requires MeetsReference(shape, r) && r.Converted? && r.picture.mode == "L"
    ensures |Squeeze(shape)| == 2
  {
  }

  /** An array of ones only (a 1x1 grayscale pixel, say) squeezes to rank 0
      and is rejected as a shape. */
  lemma {:induction false} AllOnesRejected(shape: seq<nat>, r: Conversion)
    requires forall i :: 0 <= i < |shape| ==> shape[i] == 1
    requires MeetsReference(shape, r)
    ensures r == Rejected(UnhandledShape([]))
  {
    SqueezeAllOnes(shape);
  }

  /** A ComfyUI image batch `[1, h, w, c]` whose height and width are neither
      1 nor a channel count converts to an `h` by `w` image in the mode of `c`. */
  lemma {:induction false} ComfyImageConverts(h: nat, w: nat, c: nat, r: Conversion)
    requires h != 1 && w != 1 && h != 3 && h != 4 && (c == 3 || c == 4)
    requires MeetsReference([1, h, w, c], r)
    ensures r == Converted(Picture(if c == 3 then "RGB" else "RGBA", h, w))
  {
    SqueezeFourAxes(1, h, w, c);
  }

  /** The channel-first guess misreads a ComfyUI image only 3 or 4 pixels
      high: its height is taken as the channel count. */
  lemma {:induction false} ShortImageMisread(h: nat, w: nat, c: nat, r: Conversion)
    requires (h == 3 || h == 4) && w != 1 && c != 1
    requires MeetsReference([1, h, w, c], r)
    ensures r == Converted(Picture(if h == 3 then "RGB" else "RGBA", w, c))
  {
    SqueezeFourAxes(1, h, w, c);
  }

  /** A batch of more than one image keeps four axes and is rejected. */
  lemma {:induction false} BatchRejected(b: nat, h: nat, w: nat, c: nat, r: Conversion)
    requires b > 1 && h != 1 && w != 1 && c != 1
    requires MeetsReference([b, h, w, c], r)
    ensures r == Rejected(UnhandledShape([b, h, w, c]))
  {
    SqueezeFourAxes(b, h, w, c);
    assert [b] + [h] + [w] + [c] == [b, h, w, c];
  }

  /** A one-pixel-high colour image loses its height axis and is read as a
      `w` by `c` grayscale image. */
  lemma {:induction false} OneRowReadAsGray(w: nat, c: nat, r: Conversion)
    requires w != 1 && c != 1
    requires MeetsReference([1, 1, w, c], r)
    ensures r == Converted(Picture("L", w, c))
  {
    SqueezeFourAxes(1, 1, w, c);
  }

  /** The squeezed form of a single axis. */
  function Keep(x: nat): seq<nat> {
    if x == 1 then [] else [x]
  }

  lemma SqueezeFourAxes(a: nat, b: nat, c: nat, d: nat)
    ensures Squeeze([a, b, c, d]) == Keep(a) + Keep(b) + Keep(c) + Keep(d)
  {
    var cd := [c] + [d];
    var bcd := [b] + cd;
    assert [a, b, c, d] == [a] + bcd;
    SqueezeOne(a);
    SqueezeOne(b);
    SqueezeOne(c);
    SqueezeOne(d);
    SqueezeAppend([c], [d]);
    assert Squeeze(cd) == Keep(c) + Keep(d);
    SqueezeAppend([b], cd);
    assert Squeeze(bcd) == Keep(b) + (Keep(c) + Keep(d));
    SqueezeAppend([a], bcd);
    assert Squeeze([a] + bcd) == Keep(a) + (Keep(b) + (Keep(c) + Keep(d)));
  }

  lemma SqueezeOne(x: nat)
    ensures Squeeze([x]) == Keep(x)
  {
    assert [x][1..] == [];
  }
}
