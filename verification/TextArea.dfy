/**
 The dashboard's multi-line editor as pure functions over a text and a cursor index, and the
 (row, column) arithmetic they rest on (src/tui/widgets/textarea-ops.ts).
 */
module TextArea {

  datatype EditState = EditState(text: string, cursor: nat)
  datatype Position = Position(row: nat, col: nat)
  datatype Step = Up | Down

  predicate InRange(s: EditState) { s.cursor <= |s.text| }

  // ---- Reading positions --------------------------------------------------------------------

  function Newlines(t: string): nat {
    if t == "" then 0 else (if t[0] == '\n' then 1 else 0) + Newlines(t[1..])
  }

  /** Index of the last newline, or -1. */
  function LastNewline(t: string): (i: int)
    ensures -1 <= i < |t|
    decreases |t|
  {
    if t == "" then -1
    else if t[|t| - 1] == '\n' then |t| - 1
    else LastNewline(t[..|t| - 1])
  }

  /** Index of the first newline at or after a position, or -1. */
  function NextNewline(t: string, i: nat): (j: int)
    requires i <= |t|
    ensures j == -1 || i <= j < |t|
    decreases |t| - i
  {
    if i == |t| then -1 else if t[i] == '\n' then i else NextNewline(t, i + 1)
  }

  function CursorPos(s: EditState): Position
    requires InRange(s)
  {
    var before := s.text[..s.cursor];
    Position(Newlines(before), s.cursor - (LastNewline(before) + 1))
  }

  function Split(t: string): (ls: seq<string>)
    ensures |ls| > 0
  {
    if t == "" then [""]
    else if t[0] == '\n' then [""] + Split(t[1..])
    else var ls := Split(t[1..]); [[t[0]] + ls[0]] + ls[1..]
  }

  function TextLines(s: EditState): seq<string> { Split(s.text) }

  /** Where a row starts: every earlier line and its newline. */
  function Start(ls: seq<string>, row: nat): nat
    requires row <= |ls|
  {
    if row == 0 then 0 else |ls[0]| + 1 + Start(ls[1..], row - 1)
  }

  // ---- Editing ----------------------------------------------------------------------------------

  predicate Control(c: char) { (c < ' ' && c != '\n') || c == '\U{007F}' }

  /** Line endings become newlines, tabs become spaces, other control characters go. */
  function Clean(raw: string): (r: string) {
    if raw == "" then ""
    else if raw[0] == '\r' then "\n" + Clean(if |raw| > 1 && raw[1] == '\n' then raw[2..] else raw[1..])
    else if raw[0] == '\t' then "  " + Clean(raw[1..])
    else if Control(raw[0]) then Clean(raw[1..])
    else [raw[0]] + Clean(raw[1..])
  }

  function Insert(s: EditState, raw: string): EditState
    requires InRange(s)
  {
    var clean := Clean(raw);
    if clean == "" then s
    else EditState(s.text[..s.cursor] + clean + s.text[s.cursor..], s.cursor + |clean|)
  }

  function Backspace(s: EditState): EditState
    requires InRange(s)
  {
    if s.cursor == 0 then s
    else EditState(s.text[..s.cursor - 1] + s.text[s.cursor..], s.cursor - 1)
  }

  function ForwardDelete(s: EditState): EditState
    requires InRange(s)
  {
    s.(text := s.text[..s.cursor] + if s.cursor < |s.text| then s.text[s.cursor + 1..] else "")
  }

  /** One step left or right, staying inside the text. */
  function MoveHorizontal(s: EditState, delta: int): EditState
    requires InRange(s)
  {
    var i := s.cursor + delta;
    s.(cursor := if i < 0 then 0 else if i > |s.text| then |s.text| else i)
  }

  function MoveVertical(s: EditState, d: Step): EditState
    requires InRange(s)
  {
    var ls := TextLines(s);
    var p := CursorPos(s);
    var target := if d.Up? then p.row - 1 else p.row + 1;
    if target < 0 || target >= |ls| then s
    else s.(cursor := Start(ls, target) + Min(p.col, |ls[target]|))
  }

  function Min(a: nat, b: nat): nat { if a < b then a else b }

  function LineHome(s: EditState): EditState
    requires InRange(s)
  {
    s.(cursor := LastNewline(s.text[..s.cursor]) + 1)
  }

  function LineEnd(s: EditState): EditState
    requires InRange(s)
  {
    var next := NextNewline(s.text, s.cursor);
    s.(cursor := if next == -1 then |s.text| else next)
  }

  // ---- How positions grow with the text ------------------------------------------------------------

  lemma {:induction false} LastNewlineCons(c: char, t: string)
    ensures LastNewline([c] + t) ==
      if LastNewline(t) >= 0 then LastNewline(t) + 1 else if c == '\n' then 0 else -1
    decreases |t|
  {
    if t == "" {
      assert ([c] + t)[..0] == "";
    } else {
      var n := |t| - 1;
      assert ([c] + t)[..|t|] == [c] + t[..n];
      LastNewlineCons(c, t[..n]);
    }
  }

  /** One more character in front: a newline moves every row down, another moves row 0 right. */
  lemma PosCons(c: char, t: string, i: nat)
    requires i <= |t|
    ensures var p := CursorPos(EditState(t, i)); var q := CursorPos(EditState([c] + t, i + 1));
      q == if c == '\n' then Position(p.row + 1, p.col) else Position(p.row, p.col + if p.row == 0 then 1 else 0)
  {
    var before := t[..i];
    assert ([c] + t)[..i + 1] == [c] + before;
    LastNewlineCons(c, before);
    assert ([c] + before)[1..] == before;
    NoNewline(before);
  }

  lemma {:induction false} NoNewline(t: string)
    ensures LastNewline(t) == -1 <==> Newlines(t) == 0
    decreases |t|
  {
    if t != "" {
      NoNewline(t[1..]);
      assert t == [t[0]] + t[1..];
      LastNewlineCons(t[0], t[1..]);
    }
  }

  // ---- The position round trip ---------------------------------------------------------------------------

  lemma FirstRow(t: string)
    ensures CursorPos(EditState(t, 0)) == Position(0, 0)
  {
    assert t[..0] == "";
  }

  lemma FirstStart(ls: seq<string>)
    ensures Start(ls, 0) == 0
  {
  }

  /** Lines and their starts, with one more character in front. */
  lemma SplitCons(c: char, t: string, row: nat)
    ensures var ls := Split(t); var more := Split([c] + t);
      && |more| == |ls| + (if c == '\n' then 1 else 0)
      && (row < |more| ==>
            if c == '\n' && row > 0 then more[row] == ls[row - 1] && Start(more, row) == Start(ls, row - 1) + 1
            else if c == '\n' then more[row] == "" && Start(more, row) == 0
            else if row > 0 then more[row] == ls[row] && Start(more, row) == Start(ls, row) + 1
            else |more[row]| == |ls[row]| + 1 && Start(more, row) == 0 == Start(ls, row))
  {
    var ls := Split(t);
    var more := Split([c] + t);
    assert ([c] + t)[1..] == t;
    if c == '\n' {
      assert more[1..] == ls;
    } else {
      assert more[1..] == ls[1..];
    }
  }

  /** A cursor's position is a real one: an existing row, a column on its line, and it leads back to the cursor. */
  lemma {:induction false} PositionOf(t: string, i: nat)
    requires i <= |t|
    ensures var p := CursorPos(EditState(t, i)); var ls := Split(t);
      p.row < |ls| && p.col <= |ls[p.row]| && Start(ls, p.row) + p.col == i
    decreases |t|
  {
    hide Split, Start, CursorPos;
    if i > 0 {
      var c, u := t[0], t[1..];
      assert t == [c] + u;
      PosCons(c, u, i - 1);
      PositionOf(u, i - 1);
      SplitCons(c, u, CursorPos(EditState(t, i)).row);
    } else {
      FirstRow(t);
      FirstStart(Split(t));
    }
  }

  /** And every real position is the position of the cursor it leads to. */
  lemma {:induction false} PositionAt(t: string, row: nat, col: nat)
    requires row < |Split(t)| && col <= |Split(t)[row]|
    ensures var i := Start(Split(t), row) + col;
      i <= |t| && CursorPos(EditState(t, i)) == Position(row, col)
    decreases |t|, 1
  {
    if t != "" {
      var c, u := t[0], t[1..];
      assert t == [c] + u;
      PositionAtCons(c, u, row, col);
    }
  }

  lemma PositionAtCons(c: char, u: string, row: nat, col: nat)
    requires row < |Split([c] + u)| && col <= |Split([c] + u)[row]|
    ensures var i := Start(Split([c] + u), row) + col;
      i <= |u| + 1 && CursorPos(EditState([c] + u, i)) == Position(row, col)
    decreases |u| + 1, 0
  {
    hide Split, Start;
    SplitCons(c, u, row);
    if row == 0 && (c == '\n' || col == 0) {
      assert ([c] + u)[..0] == "";
    } else {
      var r := if c == '\n' then row - 1 else row;
      var k := if row == 0 then col - 1 else col;
      PositionAt(u, r, k);
      PosCons(c, u, Start(Split(u), r) + k);
      hide CursorPos;
    }
  }

  /** The position round trip, both ways, for every text. */
  lemma PositionRoundTrip(s: EditState, row: nat, col: nat)
    requires InRange(s)
    ensures var p := CursorPos(s); var ls := TextLines(s);
      && p.row < |ls| && p.col <= |ls[p.row]| && Start(ls, p.row) + p.col == s.cursor
      && (p == Position(row, col) <==> row < |ls| && col <= |ls[row]| && Start(ls, row) + col == s.cursor)
  {
    PositionOf(s.text, s.cursor);
    if row < |TextLines(s)| && col <= |TextLines(s)[row]| { PositionAt(s.text, row, col); }
  }

  // ---- Moving ----------------------------------------------------------------------------------------------

  predicate AtEdge(s: EditState, d: Step)
    requires InRange(s)
  {
    if d.Up? then CursorPos(s).row == 0 else CursorPos(s).row + 1 == |TextLines(s)|
  }

  function NextRow(s: EditState, d: Step): int
    requires InRange(s)
  {
    if d.Up? then CursorPos(s).row - 1 else CursorPos(s).row + 1
  }

  /** A vertical move lands on the next row, at the same column or the line's end; at an edge it stays. */
  lemma MoveLands(s: EditState, d: Step)
    requires InRange(s)
    ensures var ls := TextLines(s); var row := NextRow(s, d); var r := MoveVertical(s, d);
      && InRange(r) && r.text == s.text
      && (AtEdge(s, d) ==> r == s)
      && (!AtEdge(s, d) ==> 0 <= row < |ls| && CursorPos(r) == Position(row, Min(CursorPos(s).col, |ls[row]|)))
  {
    PositionOf(s.text, s.cursor);
    hide Split, Start, CursorPos, Min;
    var row := NextRow(s, d);
    if !AtEdge(s, d) { Landing(s, row, CursorPos(s).col); }
  }

  lemma Landing(s: EditState, row: nat, col: nat)
    requires row < |TextLines(s)|
    ensures var ls := TextLines(s); var r := s.(cursor := Start(ls, row) + Min(col, |ls[row]|));
      InRange(r) && CursorPos(r) == Position(row, Min(col, |ls[row]|))
  {
    PositionAt(s.text, row, Min(col, |TextLines(s)[row]|));
  }

  function Opposite(d: Step): Step { if d.Up? then Down else Up }

  /** A move off the edge and its opposite come back exactly when the line between is long enough. */
  lemma ThereAndBack(s: EditState, d: Step)
    requires InRange(s) && !AtEdge(s, d)
    ensures InRange(MoveVertical(s, d)) && 0 <= NextRow(s, d) < |TextLines(s)|
    ensures MoveVertical(MoveVertical(s, d), Opposite(d)) == s <==> CursorPos(s).col <= |TextLines(s)[NextRow(s, d)]|
  {
    MoveLands(s, d);
    var r := MoveVertical(s, d);
    MoveLands(r, Opposite(d));
    var back := MoveVertical(r, Opposite(d));
    PositionOf(s.text, s.cursor);
    PositionOf(back.text, back.cursor);
    hide Split, Start, CursorPos, MoveVertical;
  }

  function LineEndIndex(t: string, i: nat): nat
    requires i <= |t|
  {
    var next := NextNewline(t, i); if next == -1 then |t| else next
  }

  lemma {:induction false} LineEndOf(t: string, i: nat)
    requires i <= |t|
    ensures var row := CursorPos(EditState(t, i)).row; var ls := Split(t);
      row < |ls| && LineEndIndex(t, i) == Start(ls, row) + |ls[row]|
    decreases |t|
  {
    PositionOf(t, i);
    if t != "" {
      var c, u := t[0], t[1..];
      assert t == [c] + u;
      var j := if i == 0 then 0 else i - 1;
      hide Split, Start, CursorPos, NextNewline, LineEndIndex;
      FirstRow(t);
      FirstRow(u);
      if i > 0 { PosCons(c, u, j); }
      LineEndOf(u, j);
      LineEndCons(c, u, i);
      LineEndStep(c, u, i);
    }
  }

  lemma LineEndCons(c: char, u: string, i: nat)
    requires i <= |u| + 1
    ensures LineEndIndex([c] + u, i) ==
      if i == 0 && c == '\n' then 0 else LineEndIndex(u, if i == 0 then 0 else i - 1) + 1
  {
    var t := [c] + u;
    assert t[1..] == u;
    if i > 0 { NextNewlineCons(t, i); } else { NextNewlineCons(t, 1); }
  }

  lemma LineEndStep(c: char, u: string, i: nat)
    requires i <= |u| + 1
    requires var p := CursorPos(EditState([c] + u, i)).row; p < |Split([c] + u)|
    requires var j := if i == 0 then 0 else i - 1; var ls := Split(u);
      var row := CursorPos(EditState(u, j)).row; var row1 := CursorPos(EditState([c] + u, i)).row;
      && row < |ls| && LineEndIndex(u, j) == Start(ls, row) + |ls[row]|
      && row1 == (if c == '\n' && i > 0 then row + 1 else row) && (i == 0 ==> row == 0)
      && LineEndIndex([c] + u, i) == (if i == 0 && c == '\n' then 0 else LineEndIndex(u, j) + 1)
    ensures var row1 := CursorPos(EditState([c] + u, i)).row; var ls1 := Split([c] + u);
      LineEndIndex([c] + u, i) == Start(ls1, row1) + |ls1[row1]|
  {
    var row1 := CursorPos(EditState([c] + u, i)).row;
    hide CursorPos, LineEndIndex;
    SplitCons(c, u, row1);
    hide Split, Start;
  }

  lemma {:induction false} NextNewlineCons(t: string, i: nat)
    requires 0 < i <= |t|
    ensures var next := NextNewline(t[1..], i - 1); NextNewline(t, i) == if next == -1 then -1 else next + 1
    decreases |t| - i
  {
    if i < |t| { NextNewlineCons(t, i + 1); }
  }

  /** Home and end stay on the row: column 0, and the line's length. */
  lemma HomeAndEnd(s: EditState)
    requires InRange(s)
    ensures var ls := TextLines(s); var p := CursorPos(s);
      && InRange(LineHome(s)) && CursorPos(LineHome(s)) == Position(p.row, 0)
      && p.row < |ls| && InRange(LineEnd(s)) && CursorPos(LineEnd(s)) == Position(p.row, |ls[p.row]|)
      && LineHome(s).text == LineEnd(s).text == s.text
  {
    PositionOf(s.text, s.cursor);
    var p := CursorPos(s);
    var ls := TextLines(s);
    PositionAt(s.text, p.row, 0);
    LineEndOf(s.text, s.cursor);
    hide Split, Start;
    PositionAt(s.text, p.row, |ls[p.row]|);
  }

  // ---- Inserting and taking back ---------------------------------------------------------------------------

  lemma {:induction false} CleanIsClean(raw: string)
    ensures forall c :: c in Clean(raw) ==> !Control(c)
    decreases |raw|
  {
    if raw != "" {
      CleanIsClean(raw[1..]);
      if |raw| > 1 { CleanIsClean(raw[2..]); }
    }
  }

  /** What has been cleaned stays as it is. */
  lemma {:induction false} CleanOnce(raw: string)
    requires forall c :: c in raw ==> !Control(c)
    ensures Clean(raw) == raw
    decreases |raw|
  {
    if raw != "" {
      assert raw[0] in raw;
      CleanOnce(raw[1..]);
      assert raw == [raw[0]] + raw[1..];
    }
  }

  /** Cleaning twice is cleaning once. */
  lemma CleanTwice(raw: string)
    ensures Clean(Clean(raw)) == Clean(raw)
  {
    CleanIsClean(raw);
    CleanOnce(Clean(raw));
  }

  function Backspaces(s: EditState, n: nat): EditState
    requires InRange(s)
    decreases n
  {
    if n == 0 then s else Backspaces(Backspace(s), n - 1)
  }

  lemma {:induction false} TakesBack(before: string, mid: string, after: string)
    ensures InRange(EditState(before + mid + after, |before| + |mid|))
    ensures Backspaces(EditState(before + mid + after, |before| + |mid|), |mid|) == EditState(before + after, |before|)
    decreases |mid|
  {
    if mid == "" {
      assert before + mid + after == before + after;
    } else {
      var n := |mid| - 1;
      var s := EditState(before + mid + after, |before| + |mid|);
      assert s.text[..s.cursor - 1] == before + mid[..n];
      assert s.text[s.cursor..] == after;
      TakesBack(before, mid[..n], after);
    }
  }

  /** One backspace per inserted character undoes an insert. */
  lemma InsertUndone(s: EditState, raw: string)
    requires InRange(s)
    ensures InRange(Insert(s, raw)) && Backspaces(Insert(s, raw), |Clean(raw)|) == s
  {
    assert s.text[..s.cursor] + s.text[s.cursor..] == s.text;
    TakesBack(s.text[..s.cursor], Clean(raw), s.text[s.cursor..]);
  }

  /** Backspace is a step left and a forward delete, except at the start of the text. */
  lemma BackspaceIsLeftDelete(s: EditState)
    requires InRange(s)
    ensures InRange(MoveHorizontal(s, -1))
    ensures Backspace(s) == ForwardDelete(MoveHorizontal(s, -1)) <==> s.cursor > 0 || s.text == ""
  {
    var left := MoveHorizontal(s, -1);
    assert s.text[..0] + s.text[0..] == s.text;
    assert |ForwardDelete(left).text| == |s.text| - if left.cursor < |s.text| then 1 else 0;
  }

  /** Backspace, then typing what it deleted, changes nothing, unless it deleted a control character. */
  lemma BackspaceUndone(s: EditState)
    requires InRange(s) && s.cursor > 0
    ensures InRange(Backspace(s))
    ensures Insert(Backspace(s), [s.text[s.cursor - 1]]) == s <==> !Control(s.text[s.cursor - 1])
  {
    var c := s.text[s.cursor - 1];
    var b := Backspace(s);
    assert b.text[..b.cursor] == s.text[..s.cursor - 1] && b.text[b.cursor..] == s.text[s.cursor..];
    assert s.text[..s.cursor - 1] + [c] + s.text[s.cursor..] == s.text;
    assert [c][1..] == "";
    assert Clean([c]) == if c == '\r' then "\n" else if c == '\t' then "  " else if Control(c) then "" else [c];
    if !Control(c) {
      assert Insert(b, [c]) == s;
    } else if c == '\r' {
      assert Insert(b, [c]).text[b.cursor] == '\n' && s.text[b.cursor] == '\r';
    }
  }
}
