/** src/irc_protocol.cpp, split_text: a reply of any length as lines the protocol can carry. */
module IrcLines {
  import opened Basics
  import opened Text

  // ---------------------------------------------------------------- valid UTF-8

  /** Whole code points, one after the other: a lead byte and the tail bytes it announces. */
  predicate Utf8(text: string) {
    text == "" ||
    (var width := Announced(text[0]);
     && !IsTail(text[0]) && width <= |text|
     && (forall k | 1 <= k < width :: IsTail(text[k]))
     && Utf8(text[width..]))
  }

  /** Where a code point begins, or the end. */
  predicate IsBoundary(text: string, at: nat) {
    at == |text| || (at < |text| && !IsTail(text[at]))
  }

  lemma {:induction false} Utf8Cut(text: string, at: nat)
    requires Utf8(text) && IsBoundary(text, at)
    ensures Utf8(text[..at]) && Utf8(text[at..])
  {
    if at == 0 {
      assert text[0..] == text;
    } else {
      var width := Announced(text[0]);
      assert at >= width;
      assert at < |text| ==> text[width..][at - width] == text[at];
      Utf8Cut(text[width..], at - width);
      assert text[..at][width..] == text[width..][..at - width];
      assert text[at..] == text[width..][at - width..];
    }
  }

  lemma {:induction false} Utf8Join(front: string, back: string)
    requires Utf8(front) && Utf8(back)
    ensures Utf8(front + back)
  {
    hide IsTail;
    if front == "" {
      assert front + back == back;
    } else {
      var width := Announced(front[0]);
      Utf8Join(front[width..], back);
      assert forall k | 0 <= k < |front| :: (front + back)[k] == front[k];
      assert (front + back)[width..] == front[width..] + back;
    }
  }

  /** An ASCII character is a code point of its own. */
  lemma Utf8Ascii(text: string, at: nat)
    requires Utf8(text) && at < |text| && text[at] as int < 0x80
    ensures Utf8(text[..at]) && Utf8(text[at + 1..])
  {
    Utf8Cut(text, at);
    assert text[at..][1..] == text[at + 1..];
  }

  /** No more than three tail bytes come one after the other. */
  lemma {:induction false} BoundaryNear(text: string, at: nat)
    requires Utf8(text) && 4 <= at < |text|
    ensures exists k :: at - 3 <= k <= at && !IsTail(text[k])
  {
    var width := Announced(text[0]);
    if at < width + 4 {
      if width <= at {
        assert !IsTail(text[width..][0]);
        assert !IsTail(text[width]) && at - 3 <= width <= at;
      }
    } else {
      BoundaryNear(text[width..], at - width);
      var k :| at - width - 3 <= k <= at - width && !IsTail(text[width..][k]);
      assert text[k + width] == text[width..][k];
    }
  }

  // ---------------------------------------------------------------- where to cut

  /** boundary_before: the largest cut not longer than that many bytes that leaves every sequence whole. */
  function BoundaryBefore(text: string, most: nat): (cut: nat)
    ensures cut <= most && cut <= |text|
    ensures cut > 0 ==> IsBoundary(text, cut)
    ensures |text| <= most ==> cut == |text|
    ensures forall k | cut < k <= most && k <= |text| :: !IsBoundary(text, k)
  {
    if most >= |text| then |text|
    else if most > 0 && IsTail(text[most]) then BoundaryBefore(text, most - 1)
    else most
  }

  method BoundaryBeforeLoop(text: string, most: nat) returns (cut: nat)
    ensures cut == BoundaryBefore(text, most)
  {
    cut := Min(most, |text|);
    while cut > 0 && cut < |text| && IsTail(text[cut])
      invariant cut <= |text| && BoundaryBefore(text, cut) == BoundaryBefore(text, most)
    {
      cut := cut - 1;
    }
  }

  /** The last blank up to a position. */
  function LastBlank(text: string, upTo: nat): (at: Option<nat>)
    ensures at.Some? ==> at.value < |text| && at.value <= upTo && text[at.value] == ' '
    ensures forall k | 0 <= k < |text| && k <= upTo && text[k] == ' ' :: at.Some? && k <= at.value
  {
    if upTo < |text| && text[upTo] == ' ' then Some(upTo)
    else if upTo == 0 then None
    else LastBlank(text, upTo - 1)
  }

  /** How a piece is cut: so many bytes are a line, and so many after them are dropped. */
  datatype Cut = Cut(length: nat, skip: nat)

  /** At the last blank of the second half, if there is one, else between two code points. */
  function CutAt(piece: string, most: nat): (cut: Cut)
    requires most >= 1
    ensures cut.length <= most && cut.length + cut.skip <= |piece|
    ensures cut.skip > 0 ==> cut.skip == 1 && piece[cut.length] == ' '
    ensures cut.length > 0 ==> IsBoundary(piece, cut.length)
    ensures |piece| <= most ==> cut == Cut(|piece|, 0)
  {
    var length := BoundaryBefore(piece, most);
    if length == |piece| then Cut(length, 0) else
    match LastBlank(piece, length)
    case Some(blank) => if blank * 2 >= length then Cut(blank, 1) else Cut(length, 0)
    case None => Cut(length, 0)
  }

  /** A cut makes no line exactly when the bytes there is room for begin no code point but the first. */
  lemma CutFails(piece: string, most: nat)
    requires piece != "" && most >= 1
    ensures CutAt(piece, most).length == 0 <==> |piece| > most && forall k | 1 <= k <= most :: IsTail(piece[k])
  {
    var length := BoundaryBefore(piece, most);
    assert CutAt(piece, most).length == 0 <==> length == 0;
    if |piece| > most && length == 0 {
      forall k | 1 <= k <= most
        ensures IsTail(piece[k])
      {
        assert !IsBoundary(piece, k);
      }
    }
  }

  /** With room for a code point, every cut of valid text makes a line. */
  lemma CutMakesLine(piece: string, most: nat)
    requires Utf8(piece) && piece != "" && most >= 4
    ensures CutAt(piece, most).length > 0
  {
    CutFails(piece, most);
    if |piece| > most {
      BoundaryNear(piece, most);
      var k :| most - 3 <= k <= most && !IsTail(piece[k]);
      assert 1 <= k <= most;
    }
  }

  // ---------------------------------------------------------------- pieces

  /** The next line of the text, without its end. */
  function NextPiece(text: string): string {
    text[..FindChar(text, '\n')]
  }

  function AfterPiece(text: string): (rest: string)
    requires text != ""
    ensures |rest| < |text|
  {
    text[Min(FindChar(text, '\n') + 1, |text|)..]
  }

  function WithoutReturns(line: string): (kept: string)
    ensures kept <= line
  {
    if line != "" && line[|line| - 1] == '\r' then WithoutReturns(line[..|line| - 1]) else line
  }

  /** The lines of the text that say something. */
  function Pieces(text: string): seq<string> {
    if text == "" then [] else
    var piece := WithoutReturns(NextPiece(text));
    (if piece == "" then [] else [piece]) + Pieces(AfterPiece(text))
  }

  lemma {:induction false} ReturnsOff(line: string)
    requires Utf8(line)
    ensures Utf8(WithoutReturns(line))
  {
    if line != "" && line[|line| - 1] == '\r' {
      Utf8Ascii(line, |line| - 1);
      ReturnsOff(line[..|line| - 1]);
    }
  }

  lemma PieceValid(text: string)
    requires text != ""
    ensures Utf8(text) ==> Utf8(WithoutReturns(NextPiece(text))) && Utf8(AfterPiece(text))
  {
    if !Utf8(text) {
      return;
    }
    var end := FindChar(text, '\n');
    if end < |text| {
      Utf8Ascii(text, end);
    } else {
      assert text[..end] == text && text[|text|..] == "";
    }
    ReturnsOff(NextPiece(text));
  }

  // ---------------------------------------------------------------- what the lines are made of

  const DOT := " \U{C2}\U{B7} "

  /** What became of one piece: it went on the last line after a dot, or began lines of its own, a blank dropped between two of
      them or nothing at all. */
  datatype Placing = OnLast(piece: string) | OnItsOwn(parts: seq<string>, blanks: seq<bool>)

  function Blank(dropped: bool): string {
    if dropped then " " else ""
  }

  /** The parts and the blanks between them, in order: the last part has none after it. */
  function Whole(parts: seq<string>, blanks: seq<bool>): string
    requires |parts| == |blanks|
  {
    if parts == [] then "" else parts[0] + Blank(blanks[0]) + Whole(parts[1..], blanks[1..])
  }

  /** The piece that was placed, byte by byte. */
  function Source(placing: Placing): string {
    match placing
    case OnLast(piece) => piece
    case OnItsOwn(parts, blanks) => if |parts| == |blanks| then Whole(parts, blanks) else ""
  }

  function Placed(lines: seq<string>, placing: Placing): seq<string> {
    match placing
    case OnLast(piece) => if lines == [] then [piece] else lines[|lines| - 1 := lines[|lines| - 1] + DOT + piece]
    case OnItsOwn(parts, _) => lines + parts
  }

  /** The lines, piece after piece. */
  function Laid(placings: seq<Placing>): seq<string> {
    if placings == [] then [] else Placed(Laid(placings[..|placings| - 1]), placings[|placings| - 1])
  }

  // ---------------------------------------------------------------- the cuts of a piece

  function AfterCut(piece: string, most: nat): (rest: string)
    requires piece != "" && most >= 1
    ensures CutAt(piece, most).length > 0 ==> |rest| < |piece|
  {
    var cut := CutAt(piece, most);
    piece[cut.length + cut.skip..]
  }

  /** The lines a piece is cut in, as far as every cut makes one. */
  function Parts(piece: string, most: nat): seq<string>
    requires most >= 1
    decreases |piece|
  {
    if piece == "" || CutAt(piece, most).length == 0 then []
    else [piece[..CutAt(piece, most).length]] + Parts(AfterCut(piece, most), most)
  }

  /** Whether a blank is dropped after each of them. */
  function Blanks(piece: string, most: nat): seq<bool>
    requires most >= 1
    decreases |piece|
  {
    if piece == "" || CutAt(piece, most).length == 0 then []
    else [CutAt(piece, most).skip > 0] + Blanks(AfterCut(piece, most), most)
  }

  /** What is left of the piece at each cut the loop comes to. */
  function Views(piece: string, most: nat): seq<string>
    requires most >= 1
    decreases |piece|
  {
    if piece == "" then []
    else if CutAt(piece, most).length == 0 then [piece]
    else [piece] + Views(AfterCut(piece, most), most)
  }

  /** More than a line is left, and the bytes there is room for begin no code point but the first. */
  predicate IsStuck(view: string, most: nat) {
    |view| > most && forall k | 1 <= k <= most :: IsTail(view[k])
  }

  ghost predicate NeverStuck(piece: string, most: nat)
    requires most >= 1
  {
    forall view | view in Views(piece, most) :: !IsStuck(view, most)
  }

  /** Valid text, and room for a code point: what the lines are promised to carry whole. */
  predicate IsFit(text: string, most: nat) {
    Utf8(text) && most >= 4
  }

  predicate AllValid(texts: seq<string>) {
    forall k | 0 <= k < |texts| :: Utf8(texts[k])
  }

  /** A line that can be sent. */
  predicate CanSend(line: string, most: nat) {
    line != "" && |line| <= most
  }

  predicate AllSent(lines: seq<string>, most: nat) {
    forall k | 0 <= k < |lines| :: CanSend(lines[k], most)
  }

  /** One cut of a piece. */
  lemma CutGoesOn(piece: string, most: nat)
    requires piece != "" && most >= 1
    ensures var cut := CutAt(piece, most);
            && piece == piece[..cut.length] + Blank(cut.skip > 0) + AfterCut(piece, most)
            && (cut.length > 0 ==> CanSend(piece[..cut.length], most))
            && (IsFit(piece, most) ==> cut.length > 0 && Utf8(piece[..cut.length]) && Utf8(AfterCut(piece, most)))
  {
    hide Utf8; hide CutAt; hide IsTail;
    var cut := CutAt(piece, most);
    assert piece == piece[..cut.length] + piece[cut.length..];
    if IsFit(piece, most) {
      CutMakesLine(piece, most);
      Utf8Cut(piece, cut.length);
      if cut.skip > 0 {
        Utf8Ascii(piece, cut.length);
      }
    }
  }

  /** The lines of a piece can be sent and make up its beginning, blanks and all. */
  lemma {:induction false} PartsBegin(piece: string, most: nat)
    requires most >= 1
    ensures AllSent(Parts(piece, most), most)
    ensures |Parts(piece, most)| == |Blanks(piece, most)| && Whole(Parts(piece, most), Blanks(piece, most)) <= piece
    decreases |piece|
  {
    hide CutAt; hide CanSend; hide AfterCut; hide Blank;
    if piece != "" && CutAt(piece, most).length > 0 {
      CutGoesOn(piece, most);
      PartsBegin(AfterCut(piece, most), most);
    }
  }

  lemma Prefixed(front: string, one: string, other: string)
    ensures front + one == front + other <==> one == other
  {
    assert (front + one)[|front|..] == one && (front + other)[|front|..] == other;
  }

  /** And they make up the whole of it exactly when no cut the loop comes to is stuck. */
  lemma {:induction false} PartsWhole(piece: string, most: nat)
    requires most >= 1
    ensures |Parts(piece, most)| == |Blanks(piece, most)|
    ensures Whole(Parts(piece, most), Blanks(piece, most)) == piece <==> NeverStuck(piece, most)
    decreases |piece|
  {
    hide CutAt; hide AfterCut; hide Blank; hide IsStuck; hide CanSend;
    PartsBegin(piece, most);
    if piece != "" {
      StuckHere(piece, most);
      CutGoesOn(piece, most);
      var cut, rest := CutAt(piece, most), AfterCut(piece, most);
      if cut.length == 0 {
        assert piece in Views(piece, most);
      } else {
        PartsWhole(rest, most);
        ViewsOn(piece, most);
        Prefixed(piece[..cut.length] + Blank(cut.skip > 0), Whole(Parts(rest, most), Blanks(rest, most)), rest);
      }
    }
  }

  lemma StuckHere(piece: string, most: nat)
    requires piece != "" && most >= 1
    ensures CutAt(piece, most).length == 0 <==> IsStuck(piece, most)
  {
    CutFails(piece, most);
  }

  lemma ViewsOn(piece: string, most: nat)
    requires piece != "" && most >= 1 && CutAt(piece, most).length > 0
    ensures NeverStuck(piece, most) <==> !IsStuck(piece, most) && NeverStuck(AfterCut(piece, most), most)
  {
    hide CutAt; hide AfterCut; hide IsStuck;
    var views, rest := Views(piece, most), Views(AfterCut(piece, most), most);
    assert views == [piece] + rest;
    assert forall view :: view in views <==> view == piece || view in rest;
  }

  lemma {:induction false} FitParts(piece: string, most: nat)
    requires most >= 1 && IsFit(piece, most)
    ensures AllValid(Parts(piece, most)) && NeverStuck(piece, most)
    decreases |piece|
  {
    hide CutAt; hide AfterCut; hide Blank; hide IsStuck; hide CanSend; hide Utf8;
    if piece != "" {
      CutGoesOn(piece, most);
      StuckHere(piece, most);
      FitParts(AfterCut(piece, most), most);
      ViewsOn(piece, most);
    }
  }

  /** A piece that goes on the last line is not stuck either. */
  lemma ShortNeverStuck(piece: string, most: nat)
    requires 1 <= most && |piece| <= most
    ensures NeverStuck(piece, most)
  {
    if piece != "" {
      assert CutAt(piece, most) == Cut(|piece|, 0);
      assert Views(piece, most) == [piece] + Views("", most) == [piece];
    }
  }

  /** The loop over one piece. What no cut can make a line of is left out. */
  method CutPiece(piece: string, most: nat) returns (parts: seq<string>)
    requires most >= 1
    ensures parts == Parts(piece, most)
  {
    hide CutAt;
    var view := piece;
    parts := [];
    while view != ""
      invariant parts + Parts(view, most) == Parts(piece, most)
      decreases |view|
    {
      var cut := CutAt(view, most);
      if cut.length == 0 {
        break;
      }
      PartsJoin(parts, view[..cut.length], Parts(AfterCut(view, most), most));
      parts := parts + [view[..cut.length]];
      view := view[cut.length + cut.skip..];
    }
  }

  lemma PartsJoin(parts: seq<string>, part: string, rest: seq<string>)
    ensures parts + ([part] + rest) == (parts + [part]) + rest
  {
  }

  // ---------------------------------------------------------------- the lines of a text

  /** Where a piece goes, after those lines. */
  function Place(lines: seq<string>, piece: string, most: nat): Placing
    requires most >= 1
  {
    if lines != [] && |lines[|lines| - 1]| + |DOT| + |piece| <= most then OnLast(piece)
    else OnItsOwn(Parts(piece, most), Blanks(piece, most))
  }

  function Placings(pieces: seq<string>, most: nat): (placings: seq<Placing>)
    requires most >= 1
    ensures |placings| == |pieces|
  {
    if pieces == [] then [] else
    var before := Placings(pieces[..|pieces| - 1], most);
    before + [Place(Laid(before), pieces[|pieces| - 1], most)]
  }

  lemma DotValid()
    ensures Utf8(DOT)
  {
    assert DOT[1..][2..] == " ";
    assert " "[1..] == "";
  }

  lemma LineGrows(line: string, piece: string)
    requires Utf8(line) && Utf8(piece)
    ensures Utf8(line + DOT + piece)
  {
    hide Utf8;
    DotValid();
    Utf8Join(line, DOT);
    Utf8Join(line + DOT, piece);
  }

  lemma PlacedSent(lines: seq<string>, piece: string, most: nat)
    requires most >= 1 && AllSent(lines, most)
    ensures AllSent(Placed(lines, Place(lines, piece, most)), most)
  {
    hide Parts; hide Blanks;
    PartsBegin(piece, most);
  }

  lemma PlacedValid(lines: seq<string>, piece: string, most: nat)
    requires AllValid(lines) && most >= 1 && IsFit(piece, most)
    ensures AllValid(Placed(lines, Place(lines, piece, most)))
  {
    hide Utf8; hide Parts; hide Blanks; hide IsFit;
    FitParts(piece, most);
    if lines != [] && |lines[|lines| - 1]| + |DOT| + |piece| <= most {
      assert Utf8(piece) by { FitValid(piece, most); }
      LineGrows(lines[|lines| - 1], piece);
    }
  }

  lemma FitValid(piece: string, most: nat)
    requires IsFit(piece, most)
    ensures Utf8(piece)
  {
  }

  /** What is placed of a piece is its beginning, and the whole of it exactly when no cut is stuck. */
  lemma PlacedWhole(lines: seq<string>, piece: string, most: nat)
    requires most >= 1
    ensures Source(Place(lines, piece, most)) <= piece
    ensures Source(Place(lines, piece, most)) == piece <==> NeverStuck(piece, most)
  {
    hide Parts; hide Blanks; hide Whole; hide NeverStuck;
    PartsBegin(piece, most);
    PartsWhole(piece, most);
    if lines != [] && |lines[|lines| - 1]| + |DOT| + |piece| <= most {
      ShortNeverStuck(piece, most);
    }
  }

  lemma LaidMore(placings: seq<Placing>, placing: Placing)
    ensures Laid(placings + [placing]) == Placed(Laid(placings), placing)
  {
    assert (placings + [placing])[..|placings|] == placings;
  }

  lemma PlacingsMore(pieces: seq<string>, piece: string, most: nat)
    requires most >= 1
    ensures var before := Placings(pieces, most);
            Placings(pieces + [piece], most) == before + [Place(Laid(before), piece, most)]
  {
    assert (pieces + [piece])[..|pieces|] == pieces;
  }

  lemma {:induction false} PlacingsAt(pieces: seq<string>, most: nat, k: nat)
    requires most >= 1 && k < |pieces|
    ensures Placings(pieces, most)[k] == Place(Laid(Placings(pieces[..k], most)), pieces[k], most)
  {
    hide Place; hide Laid;
    var front := pieces[..|pieces| - 1];
    if k < |front| {
      PlacingsAt(front, most, k);
      assert front[..k] == pieces[..k];
    }
  }

  lemma {:induction false} AllLinesSent(pieces: seq<string>, most: nat)
    requires most >= 1
    ensures AllSent(Laid(Placings(pieces, most)), most)
  {
    hide Place; hide AllSent;
    if pieces == [] {
      assert AllSent([], most) by { NoneSent(most); }
    } else {
      var before := Placings(pieces[..|pieces| - 1], most);
      AllLinesSent(pieces[..|pieces| - 1], most);
      PlacedSent(Laid(before), pieces[|pieces| - 1], most);
      LaidMore(before, Place(Laid(before), pieces[|pieces| - 1], most));
    }
  }

  lemma NoneSent(most: nat)
    ensures AllSent([], most)
  {
  }

  lemma {:induction false} AllLinesValid(pieces: seq<string>, most: nat)
    requires most >= 4 && AllValid(pieces)
    ensures AllValid(Laid(Placings(pieces, most)))
  {
    hide Place; hide Utf8;
    if pieces != [] {
      var before := Placings(pieces[..|pieces| - 1], most);
      AllLinesValid(pieces[..|pieces| - 1], most);
      PlacedValid(Laid(before), pieces[|pieces| - 1], most);
      LaidMore(before, Place(Laid(before), pieces[|pieces| - 1], most));
    }
  }

  lemma {:induction false} PiecesValid(text: string)
    requires Utf8(text)
    ensures AllValid(Pieces(text))
    decreases |text|
  {
    hide Utf8; hide NextPiece; hide AfterPiece; hide WithoutReturns;
    if text != "" {
      PieceValid(text);
      PiecesValid(AfterPiece(text));
    }
  }

  /** The lines of a text can be sent and are made of its pieces in order, each of them whole or short of its end, with nothing but
      dots added and blanks dropped. A piece is whole exactly when no cut its loop comes to is followed by nothing but tail bytes
      as far as there is room. Of valid text and with room for a code point every piece is whole, and every line valid. */
  lemma LinesCarry(text: string, most: nat)
    requires most >= 1
    ensures var pieces := Pieces(text);
            var placings := Placings(pieces, most);
            && AllSent(Laid(placings), most)
            && (forall k | 0 <= k < |pieces| :: Source(placings[k]) <= pieces[k])
            && (forall k | 0 <= k < |pieces| :: Source(placings[k]) == pieces[k] <==> NeverStuck(pieces[k], most))
            && (IsFit(text, most) ==> AllValid(Laid(placings)) && forall k | 0 <= k < |pieces| :: Source(placings[k]) == pieces[k])
  {
    hide Pieces; hide Placings; hide Laid; hide Source; hide NeverStuck; hide Utf8; hide Place; hide AllSent;
    var pieces := Pieces(text);
    AllLinesSent(pieces, most);
    forall k | 0 <= k < |pieces|
      ensures Source(Placings(pieces, most)[k]) <= pieces[k]
      ensures Source(Placings(pieces, most)[k]) == pieces[k] <==> NeverStuck(pieces[k], most)
    {
      PlacingsAt(pieces, most, k);
      PlacedWhole(Laid(Placings(pieces[..k], most)), pieces[k], most);
    }
    if IsFit(text, most) {
      PiecesValid(text);
      AllLinesValid(pieces, most);
      forall k | 0 <= k < |pieces|
        ensures NeverStuck(pieces[k], most)
      {
        FitParts(pieces[k], most);
      }
    }
  }

  /** Two tail bytes, with room for one: nothing is sent. */
  lemma BytesLost()
    ensures exists text: string, most: nat :: most >= 1 && Pieces(text) == [text] && Laid(Placings(Pieces(text), most)) == []
  {
    var text := "\U{80}\U{80}";
    assert FindChar(text, '\n') == 2;
    assert text[..2] == text && AfterPiece(text) == "";
    assert Pieces("") == [];
    assert Pieces(text) == [text] + [];
    assert [text] + [] == [text];
    CutFails(text, 1);
    assert Parts(text, 1) == [] && Blanks(text, 1) == [];
    var placing := OnItsOwn([], []);
    assert Place([], text, 1) == placing;
    assert Placings([], 1) == [] && Laid([]) == [];
    PlacingsMore([], text, 1);
    LaidMore([], placing);
    assert [] + [text] == [text];
  }

  /** split_text. It always ends, and makes the lines of the text. */
  method SplitText(text: string, maxBytes: nat) returns (lines: seq<string>)
    ensures lines == Laid(Placings(Pieces(text), Max(maxBytes, 1)))
  {
    hide Pieces; hide WithoutReturns; hide NextPiece; hide AfterPiece; hide Parts; hide Blanks; hide Laid; hide Placings;
    var most := Max(maxBytes, 1);
    var view := text;
    lines := [];
    ghost var done: seq<string> := [];
    NothingLaid(most);
    while view != ""
      invariant lines == Laid(Placings(done, most))
      invariant done + Pieces(view) == Pieces(text)
      decreases |view|
    {
      PiecesOn(done, view);
      var piece := WithoutReturns(NextPiece(view));
      view := AfterPiece(view);
      if piece != "" {
        PlacingsMore(done, piece, most);
        LaidMore(Placings(done, most), Place(lines, piece, most));
        if lines != [] && |lines[|lines| - 1]| + |DOT| + |piece| <= most {
          lines := lines[|lines| - 1 := lines[|lines| - 1] + DOT + piece];
        } else {
          var parts := CutPiece(piece, most);
          lines := lines + parts;
        }
        done := done + [piece];
      }
    }
    PiecesNone(done);
  }

  lemma NothingLaid(most: nat)
    requires most >= 1
    ensures Laid(Placings([], most)) == []
  {
  }

  lemma PiecesOn(done: seq<string>, text: string)
    requires text != ""
    ensures var piece := WithoutReturns(NextPiece(text));
            done + Pieces(text) == (if piece == "" then done else done + [piece]) + Pieces(AfterPiece(text))
  {
    hide WithoutReturns; hide NextPiece; hide AfterPiece;
    var piece, rest := WithoutReturns(NextPiece(text)), Pieces(AfterPiece(text));
    assert [] + rest == rest;
    assert done + ([piece] + rest) == (done + [piece]) + rest;
  }

  lemma PiecesNone(done: seq<string>)
    ensures done + Pieces("") == done
  {
  }
}
