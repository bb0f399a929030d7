/** The text controls of src/TextInput.js: calculateTextPositions, which turns a print
    option and offsets into the anchor points of the text layer, and the trim/non-empty
    guard before the text record is set and applied. */
module TextInput {
  import opened Basics
  import opened State
  import opened Model
  import opened Gui

  // ----- String.prototype.trim -----

  /** The ECMAScript WhiteSpace and LineTerminator code points, which trim removes. */
  predicate IsJsWhitespace(c: char)
  {
    || ('\U{0009}' <= c <= '\U{000D}') || c == '\U{0020}' || c == '\U{00A0}' || c == '\U{1680}'
    || ('\U{2000}' <= c <= '\U{200A}') || c == '\U{2028}' || c == '\U{2029}' || c == '\U{202F}'
    || c == '\U{205F}' || c == '\U{3000}' || c == '\U{FEFF}'
  }

  predicate AllWhitespace(s: string)
  {
    forall k :: 0 <= k < |s| ==> IsJsWhitespace(s[k])
  }

  /** Neither end of s is whitespace. */
  predicate Trimmed(s: string)
  {
    s == [] || (!IsJsWhitespace(s[0]) && !IsJsWhitespace(s[|s| - 1]))
  }

  function TrimStart(s: string): string
  {
    if |s| > 0 && IsJsWhitespace(s[0]) then TrimStart(s[1..]) else s
  }

  function TrimEnd(s: string): string
  {
    if |s| > 0 && IsJsWhitespace(s[|s| - 1]) then TrimEnd(s[..|s| - 1]) else s
  }

  /** textInput.value.trim(). */
  function Trim(s: string): string
  {
    TrimEnd(TrimStart(s))
  }

  /** TrimStart drops a whitespace prefix and stops at the first other character. */
  lemma {:induction false} TrimStartSplits(s: string)
    ensures |TrimStart(s)| <= |s| && TrimStart(s) == s[|s| - |TrimStart(s)|..]
    ensures AllWhitespace(s[..|s| - |TrimStart(s)|])
    ensures TrimStart(s) == [] || !IsJsWhitespace(TrimStart(s)[0])
  {
    if |s| > 0 && IsJsWhitespace(s[0]) {
      TrimStartSplits(s[1..]);
      var r := TrimStart(s[1..]);
      assert s[1..][|s| - 1 - |r|..] == s[|s| - |r|..];
      assert s[..|s| - |r|] == [s[0]] + s[1..][..|s| - 1 - |r|];
    }
  }

  /** TrimEnd drops a whitespace suffix and stops at the last other character. */
  lemma {:induction false} TrimEndSplits(s: string)
    ensures |TrimEnd(s)| <= |s| && TrimEnd(s) == s[..|TrimEnd(s)|]
    ensures AllWhitespace(s[|TrimEnd(s)|..])
    ensures TrimEnd(s) == [] || !IsJsWhitespace(TrimEnd(s)[|TrimEnd(s)| - 1])
  {
    if |s| > 0 && IsJsWhitespace(s[|s| - 1]) {
      var t := s[..|s| - 1];
      TrimEndSplits(t);
      var r := TrimEnd(t);
      assert t[..|r|] == s[..|r|];
      assert s[|r|..] == t[|r|..] + [s[|s| - 1]];
    }
  }

  lemma {:induction false} TrimStartOfPadded(w: string, t: string)
    requires AllWhitespace(w) && (t == [] || !IsJsWhitespace(t[0]))
    ensures TrimStart(w + t) == t
  {
    if w != [] {
      assert (w + t)[1..] == w[1..] + t;
      TrimStartOfPadded(w[1..], t);
    }
  }

  lemma {:induction false} TrimEndOfPadded(t: string, w: string)
    requires AllWhitespace(w) && (t == [] || !IsJsWhitespace(t[|t| - 1]))
    ensures TrimEnd(t + w) == t
  {
    if w != [] {
      assert (t + w)[..|t + w| - 1] == t + w[..|w| - 1];
      TrimEndOfPadded(t, w[..|w| - 1]);
    }
  }

  /** trim removes exactly the whitespace around the text: s is that whitespace, then
      the trimmed text, then more whitespace, and the trimmed text starts and ends with
      something else. */
  lemma TrimSplits(s: string)
    ensures var t := Trim(s);
      exists i :: 0 <= i <= i + |t| <= |s| && t == s[i..i + |t|] && AllWhitespace(s[..i]) && AllWhitespace(s[i + |t|..])
    ensures Trimmed(Trim(s))
  {
    TrimStartSplits(s);
    var u := TrimStart(s);
    var i := |s| - |u|;
    TrimEndSplits(u);
    var t := TrimEnd(u);
    assert t == s[i..i + |t|];
    assert s[i + |t|..] == u[|t|..];
    if t != [] {
      assert t[0] == u[0];
    }
  }

  /** Surrounding whitespace is all that trim removes. */
  lemma TrimOfPadded(w1: string, t: string, w2: string)
    requires AllWhitespace(w1) && AllWhitespace(w2) && Trimmed(t)
    ensures Trim(w1 + t + w2) == t
  {
    if t == [] {
      assert w1 + t + w2 == w1 + w2;
      assert AllWhitespace(w1 + w2);
      TrimStartOfPadded(w1 + w2, []);
      assert w1 + w2 + [] == w1 + w2;
    } else {
      assert w1 + t + w2 == w1 + (t + w2);
      TrimStartOfPadded(w1, t + w2);
      TrimEndOfPadded(t, w2);
    }
  }

  /** Trimming twice is trimming once. */
  lemma TrimIdempotent(s: string)
    ensures Trim(Trim(s)) == Trim(s)
  {
    TrimSplits(s);
    var t := Trim(s);
    assert t == [] + t + [];
    TrimOfPadded([], t, []);
  }

  /** The guard `if (text)`: the trimmed text is empty exactly when the input is all
      whitespace. */
  lemma TrimEmpty(s: string)
    ensures Trim(s) == [] <==> AllWhitespace(s)
  {
    TrimSplits(s);
    if AllWhitespace(s) {
      assert s == s + [] + [];
      TrimOfPadded(s, [], []);
    }
  }

  // ----- calculateTextPositions -----

  const FrontOffsetX := 50.0
  const FrontOffsetY := 35.0
  const BackOffsetX := 0.0
  const BackOffsetY := 20.0

  function FrontAnchor(width: real, height: real, xOffset: real, yOffset: real): Anchor
  {
    Anchor(width * 0.25 + FrontOffsetX + xOffset, height / 2.0 + FrontOffsetY + yOffset)
  }

  function BackAnchor(width: real, height: real, xOffset: real, yOffset: real): Anchor
  {
    Anchor(width * 0.75 + BackOffsetX + xOffset, height / 2.0 + BackOffsetY + yOffset)
  }

  /** floor(random * 6) + 5 prints for "many". */
  function PrintCount(u: real): (n: nat)
    requires 0.0 <= u < 1.0
    ensures 5 <= n <= 10
  {
    PickIndex(u, 6) + 5
  }

  /** The i-th random point of "many": draws from + 1 + 2 i and from + 2 + 2 i. */
  function RandomAnchor(width: real, height: real, xOffset: real, yOffset: real, rand: Stream, from: nat, i: nat): Anchor
    requires IsUnitStream(rand)
  {
    Anchor(Spread(rand(from + 1 + 2 * i), width, xOffset), Spread(rand(from + 2 + 2 * i), height, yOffset))
  }

  /** What calculateTextPositions returns for each option. */
  function TextPositions(option: string, width: real, height: real, xOffset: real, yOffset: real,
                         rand: Stream, from: nat): seq<Anchor>
    requires IsUnitStream(rand)
  {
    if option == "front" then [FrontAnchor(width, height, xOffset, yOffset)]
    else if option == "back" then [BackAnchor(width, height, xOffset, yOffset)]
    else if option == "both" then [FrontAnchor(width, height, xOffset, yOffset), BackAnchor(width, height, xOffset, yOffset)]
    else if option == "many" then
      seq(PrintCount(rand(from)), i requires 0 <= i < PrintCount(rand(from)) =>
        RandomAnchor(width, height, xOffset, yOffset, rand, from, i))
    else []
  }

  /** How many random draws calculateTextPositions reads. */
  function PositionDraws(option: string, rand: Stream, from: nat): nat
    requires IsUnitStream(rand)
  {
    if option == "many" then 1 + 2 * PrintCount(rand(from)) else 0
  }

  /** The index of the first draw after calculateTextPositions. */
  function PositionsEnd(option: string, rand: Stream, from: nat): nat
    requires IsUnitStream(rand)
  {
    from + PositionDraws(option, rand, from)
  }

  /** On the 1024 by 256 texture, "front" prints once at (306, 163) and "back" once at
      (768, 148), moved by the offsets; "both" prints at the front point then the back point;
      any other option but "many" prints nowhere. */
  lemma FixedPositions(option: string, xOffset: real, yOffset: real, rand: Stream, from: nat)
    requires IsUnitStream(rand)
    ensures option == "front" ==>
      TextPositions(option, 1024.0, 256.0, xOffset, yOffset, rand, from) == [Anchor(306.0 + xOffset, 163.0 + yOffset)]
    ensures option == "back" ==>
      TextPositions(option, 1024.0, 256.0, xOffset, yOffset, rand, from) == [Anchor(768.0 + xOffset, 148.0 + yOffset)]
    ensures option == "both" ==>
      TextPositions(option, 1024.0, 256.0, xOffset, yOffset, rand, from)
      == [Anchor(306.0 + xOffset, 163.0 + yOffset), Anchor(768.0 + xOffset, 148.0 + yOffset)]
    ensures option !in {"front", "back", "both", "many"} ==>
      TextPositions(option, 1024.0, 256.0, xOffset, yOffset, rand, from) == []
    ensures option != "many" ==> PositionDraws(option, rand, from) == 0
  {
  }

  /** "many" prints between 5 and 10 times, each point somewhere in the surface moved by
      the offsets. */
  lemma ManyPositions(width: real, height: real, xOffset: real, yOffset: real, rand: Stream, from: nat)
    requires IsUnitStream(rand) && width > 0.0 && height > 0.0
    ensures var ps := TextPositions("many", width, height, xOffset, yOffset, rand, from);
      && 5 <= |ps| <= 10
      && forall i :: 0 <= i < |ps| ==>
           xOffset <= ps[i].x < width + xOffset && yOffset <= ps[i].y < height + yOffset
  {
    var ps := TextPositions("many", width, height, xOffset, yOffset, rand, from);
    forall i | 0 <= i < |ps|
      ensures xOffset <= ps[i].x < width + xOffset && yOffset <= ps[i].y < height + yOffset
    {
      assert ps[i] == RandomAnchor(width, height, xOffset, yOffset, rand, from, i);
      assert 0.0 <= rand(from + 1 + 2 * i) < 1.0 && 0.0 <= rand(from + 2 + 2 * i) < 1.0;
    }
  }

  /** calculateTextPositions: the switch, with the counted loop for "many". */
  method CalculateTextPositions(option: string, width: real, height: real, xOffset: real, yOffset: real,
                                rand: Stream, from: nat) returns (positions: seq<Anchor>, next: nat)
    requires IsUnitStream(rand)
    ensures positions == TextPositions(option, width, height, xOffset, yOffset, rand, from)
    ensures next == from + PositionDraws(option, rand, from)
  {
    positions := [];
    next := from;
    var front := FrontAnchor(width, height, xOffset, yOffset);
    var back := BackAnchor(width, height, xOffset, yOffset);
    if option == "front" {
      positions := positions + [front];
    } else if option == "back" {
      positions := positions + [back];
    } else if option == "both" {
      positions := positions + [front];
      positions := positions + [back];
    } else if option == "many" {
      positions, next := RandomPositions(width, height, xOffset, yOffset, rand, from);
    }
  }

  /** The "many" case of calculateTextPositions: one draw for the count, then two per point. */
  method RandomPositions(width: real, height: real, xOffset: real, yOffset: real, rand: Stream, from: nat)
    returns (positions: seq<Anchor>, next: nat)
    requires IsUnitStream(rand)
    ensures positions == TextPositions("many", width, height, xOffset, yOffset, rand, from)
    ensures next == from + PositionDraws("many", rand, from)
  {
    positions := [];
    next := from;
    var printCount := PrintCount(rand(next));
    next := next + 1;
    var i := 0;
    while i < printCount
      invariant 0 <= i <= printCount && next == from + 1 + 2 * i
      invariant |positions| == i
      invariant forall j :: 0 <= j < i ==> positions[j] == RandomAnchor(width, height, xOffset, yOffset, rand, from, j)
    {
      var randX := Spread(rand(next), width, xOffset);
      var randY := Spread(rand(next + 1), height, yOffset);
      next := next + 2;
      positions := positions + [Anchor(randX, randY)];
      i := i + 1;
    }
  }

  // ----- the text controls -----

  /** What applyTextWithCurrentSettings reads from the controls; the offsets and font size
      are the sliders' parsed values. */
  datatype Controls = Controls(input: string, color: string, option: string,
                               xOffset: real, yOffset: real, fontSize: real)

  /** applyTextWithCurrentSettings: an input that trims to nothing changes nothing;
      otherwise the trimmed text is stored with positions on the 1024 by 256 texture and
      applied. */
  method ApplyTextWithCurrentSettings(garments: Garments, layers: Compositor, text: TextState, texture: TextureState,
                                      logo: LogoState, controls: Controls, rand: Stream, from: nat)
    returns (next: nat, failed: bool)
    requires layers.Valid() && garments.Valid() && IsUnitStream(rand)
    modifies layers, garments, text
    ensures layers.Valid() && garments.Valid()
    ensures AllWhitespace(controls.input) ==>
      && layers.Snapshot() == old(layers.Snapshot()) && garments.Snapshot() == old(garments.Snapshot())
      && text.Value() == old(text.Value()) && next == from && !failed
    ensures !AllWhitespace(controls.input) ==>
      text.Value() == TextRecord(Trim(controls.input), controls.color, controls.option,
        TextPositions(controls.option, 1024.0, 256.0, controls.xOffset, controls.yOffset, rand, from),
        controls.fontSize)
    ensures !AllWhitespace(controls.input) ==>
      Applied(layers.Snapshot(), garments.Snapshot(), next, failed)
        == Apply(old(layers.Snapshot()), old(garments.Snapshot()), text.Value(), texture.Value(), logo.Value(), rand,
                 PositionsEnd(controls.option, rand, from))
  {
    var trimmed := Trim(controls.input);
    TrimEmpty(controls.input);
    if trimmed == [] {
      return from, false;
    }
    ghost var l0, g0 := layers.Snapshot(), garments.Snapshot();
    var positions;
    positions, next := CalculateTextPositions(controls.option, 1024.0, 256.0,
                                              controls.xOffset, controls.yOffset, rand, from);
    assert layers.Snapshot() == l0 && garments.Snapshot() == g0;
    var record := TextRecord(trimmed, controls.color, controls.option, positions, controls.fontSize);
    ghost var drawn := PositionsEnd(controls.option, rand, from);
    assert next == drawn;
    next, failed := StoreText(garments, layers, text, texture, logo, record, rand, next);
    assert Applied(layers.Snapshot(), garments.Snapshot(), next, failed)
        == Apply(l0, g0, record, texture.Value(), logo.Value(), rand, drawn);
    assert l0 == old(layers.Snapshot()) && g0 == old(garments.Snapshot());
    assert record == TextRecord(Trim(controls.input), controls.color, controls.option,
      TextPositions(controls.option, 1024.0, 256.0, controls.xOffset, controls.yOffset, rand, from), controls.fontSize);
  }

  /** setText with the settings read from the controls, then applyToTShirt. */
  method StoreText(garments: Garments, layers: Compositor, text: TextState, texture: TextureState,
                   logo: LogoState, record: TextRecord, rand: Stream, from: nat)
    returns (next: nat, failed: bool)
    requires layers.Valid() && garments.Valid() && IsUnitStream(rand)
    modifies layers, garments, text
    ensures layers.Valid() && garments.Valid()
    ensures text.Value() == record
    ensures Applied(layers.Snapshot(), garments.Snapshot(), next, failed)
         == Apply(old(layers.Snapshot()), old(garments.Snapshot()), record, texture.Value(), logo.Value(), rand, from)
  {
    text.SetText(record.text, record.color, record.option, record.positions, Some(record.fontSize));
    next, failed := layers.ApplyToTShirt(garments, text, texture, logo, rand, from);
  }

  /** The remove button: with a garment loaded, the text record is cleared and applied. */
  method RemoveTextClicked(garments: Garments, layers: Compositor, text: TextState, texture: TextureState,
                           logo: LogoState, rand: Stream, from: nat)
    returns (next: nat, failed: bool)
    requires layers.Valid() && garments.Valid() && IsUnitStream(rand)
    modifies layers, garments, text
    ensures layers.Valid() && garments.Valid()
    ensures !ModelLoaded(old(garments.Snapshot())) ==>
      && layers.Snapshot() == old(layers.Snapshot()) && garments.Snapshot() == old(garments.Snapshot())
      && text.Value() == old(text.Value()) && next == from && !failed
    ensures ModelLoaded(old(garments.Snapshot())) ==>
      && text.Value() == InitialText
      && Applied(layers.Snapshot(), garments.Snapshot(), next, failed)
         == Apply(old(layers.Snapshot()), old(garments.Snapshot()), InitialText, texture.Value(), logo.Value(), rand, from)
  {
    if garments.currentModelName.None? || garments.currentModelName.value !in garments.models {
      return from, false;
    }
    text.ClearText();
    next, failed := layers.ApplyToTShirt(garments, text, texture, logo, rand, from);
  }

  /** Text that trims to something is always painted: with positions from "front", "back",
      "both" or "many" the text layer is not blank. */
  lemma AppliedTextIsPainted(controls: Controls, rand: Stream, from: nat)
    requires IsUnitStream(rand) && !AllWhitespace(controls.input)
    requires controls.option in {"front", "back", "both", "many"}
    ensures var positions := TextPositions(controls.option, 1024.0, 256.0,
                                           controls.xOffset, controls.yOffset, rand, from);
      var record := TextRecord(Trim(controls.input), controls.color, controls.option, positions, controls.fontSize);
      |TextOps(record)| == |positions| > 0
  {
    TrimEmpty(controls.input);
    if controls.option == "many" {
      ManyPositions(1024.0, 256.0, controls.xOffset, controls.yOffset, rand, from);
    }
  }
}
