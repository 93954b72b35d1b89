/** JavaScript string operations: `trim`, `startsWith`, `split`. */
module Text {
  import Collections

  /** The white space `trim` removes. */
  predicate IsSpace(c: char)
  {
    || c == ' ' || '\t' <= c <= '\r' || c == '\U{00A0}' || c == '\U{1680}'
    || '\U{2000}' <= c <= '\U{200A}' || c == '\U{2028}' || c == '\U{2029}'
    || c == '\U{202F}' || c == '\U{205F}' || c == '\U{3000}' || c == '\U{FEFF}'
  }

  function TrimStart(s: string): string
  {
    if s != "" && IsSpace(s[0]) then TrimStart(s[1..]) else s
  }

  function TrimEnd(s: string): string
  {
    if s != "" && IsSpace(s[|s| - 1]) then TrimEnd(s[..|s| - 1]) else s
  }

  function Trim(s: string): string
  {
    TrimEnd(TrimStart(s))
  }

  /** One more character: a separator opens a new piece, anything else lengthens the last one. */
  function Extend(pieces: seq<string>, ch: char, c: char): (longer: seq<string>)
    requires |pieces| >= 1
    ensures |longer| >= 1
  {
    if ch == c then pieces + [""]
    else
      var last := |pieces| - 1;
      pieces[..last] + [pieces[last] + [ch]]
  }

  /** `s.split(c)`: the pieces between the separators, at least one. */
  function Split(s: string, c: char): (pieces: seq<string>)
    ensures |pieces| >= 1
  {
    if s == "" then [""] else Extend(Split(s[..|s| - 1], c), s[|s| - 1], c)
  }

  function Join(pieces: seq<string>, c: char): string
    requires |pieces| >= 1
  {
    var last := |pieces| - 1;
    if last == 0 then pieces[0] else Join(pieces[..last], c) + [c] + pieces[last]
  }

  lemma JoinSnoc(front: seq<string>, piece: string, c: char)
    requires |front| >= 1
    ensures Join(front + [piece], c) == Join(front, c) + [c] + piece
  {
    assert (front + [piece])[..|front|] == front;
  }

  lemma ExtendJoins(pieces: seq<string>, ch: char, c: char)
    requires |pieces| >= 1
    ensures Join(Extend(pieces, ch, c), c) == Join(pieces, c) + [ch]
  {
    if ch == c {
      JoinSnoc(pieces, "", c);
      assert Join(pieces, c) + [c] + "" == Join(pieces, c) + [c];
    } else if |pieces| > 1 {
      var front, tail := pieces[..|pieces| - 1], pieces[|pieces| - 1];
      JoinSnoc(front, tail + [ch], c);
      Collections.Assoc(Join(front, c) + [c], tail, [ch]);
    }
  }

  /** Splitting loses nothing, and no piece contains the separator. */
  lemma {:induction false} SplitJoins(s: string, c: char)
    ensures Join(Split(s, c), c) == s
    ensures forall i :: 0 <= i < |Split(s, c)| ==> c !in Split(s, c)[i]
  {
    if s != "" {
      SplitJoins(s[..|s| - 1], c);
      ExtendJoins(Split(s[..|s| - 1], c), s[|s| - 1], c);
      Collections.FrontLast(s);
    }
  }

  lemma {:induction false} SplitUnbroken(s: string, c: char)
    requires c !in s
    ensures Split(s, c) == [s]
  {
    if s != "" {
      SplitUnbroken(s[..|s| - 1], c);
      assert s == s[..|s| - 1] + [s[|s| - 1]];
    }
  }

  lemma ExtendLast(front: seq<string>, pieces: seq<string>, ch: char, c: char)
    requires |pieces| >= 1
    ensures Extend(front + pieces, ch, c) == front + Extend(pieces, ch, c)
  {
    var last := |front + pieces| - 1;
    assert (front + pieces)[..last] == front + pieces[..|pieces| - 1];
  }

  lemma SplitSnoc(s: string, ch: char, c: char)
    ensures Split(s + [ch], c) == Extend(Split(s, c), ch, c)
  {
    assert (s + [ch])[..|s|] == s;
  }

  /** Splitting a longer text only changes the last piece: it is completed by what follows. */
  lemma {:induction false} SplitAppend(a: string, b: string, c: char)
    ensures var p := Split(a, c);
            Split(a + b, c) == p[..|p| - 1] + Split(p[|p| - 1] + b, c)
    decreases |b|
  {
    var p := Split(a, c);
    var front, tail := p[..|p| - 1], p[|p| - 1];
    if b == "" {
      SplitJoins(a, c);
      SplitUnbroken(tail, c);
      assert a + b == a && tail + b == tail;
      Collections.FrontLast(p);
    } else {
      var rest, ch := b[..|b| - 1], b[|b| - 1];
      Collections.FrontLast(b);
      SplitAppend(a, rest, c);
      Collections.Assoc(a, rest, [ch]);
      SplitSnoc(a + rest, ch, c);
      Collections.Assoc(tail, rest, [ch]);
      SplitSnoc(tail + rest, ch, c);
      ExtendLast(front, Split(tail + rest, c), ch, c);
    }
  }
}
