/** The few operations on text the records are written and read with. */
module Text {

  /** White space, as Unicode has it. */
  predicate IsSpace(c: char) {
    var u := c as int;
    9 <= u <= 13 || u == 32 || u == 0x85 || u == 0xA0 || u == 0x1680 || 0x2000 <= u <= 0x200A ||
    u == 0x2028 || u == 0x2029 || u == 0x202F || u == 0x205F || u == 0x3000
  }

  // ----- Splitting at a character -----

  /** The pieces of s between the separators: one more than there are of those. */
  function Split(s: string, sep: char): (pieces: seq<string>)
    ensures |pieces| >= 1
    ensures forall p :: p in pieces ==> sep !in p
  {
    if s == "" then [""]
    else if s[0] == sep then [""] + Split(s[1..], sep)
    else var rest := Split(s[1..], sep); [[s[0]] + rest[0]] + rest[1..]
  }

  function Join(pieces: seq<string>, sep: char): string {
    if pieces == [] then "" else if |pieces| == 1 then pieces[0]
    else pieces[0] + [sep] + Join(pieces[1..], sep)
  }

  lemma {:induction false} SplitOfOne(s: string, sep: char)
    requires sep !in s
    ensures Split(s, sep) == [s]
  {
    if s != "" {
      assert sep !in s[1..] && s[0] in s;
      SplitOfOne(s[1..], sep);
      assert s == [s[0]] + s[1..];
    }
  }

  lemma {:induction false} SplitAtFirst(a: string, sep: char, rest: string)
    requires sep !in a
    ensures Split(a + [sep] + rest, sep) == [a] + Split(rest, sep)
  {
    if a == "" {
      assert (a + [sep] + rest)[1..] == rest;
    } else {
      assert a[0] in a && a == [a[0]] + a[1..];
      SplitAtFirst(a[1..], sep, rest);
      assert (a + [sep] + rest)[1..] == a[1..] + [sep] + rest;
    }
  }

  /** Pieces that hold no separator come back as they were joined. */
  lemma {:induction false} SplitJoin(pieces: seq<string>, sep: char)
    requires pieces != [] && forall p :: p in pieces ==> sep !in p
    ensures Split(Join(pieces, sep), sep) == pieces
  {
    if |pieces| == 1 {
      SplitOfOne(pieces[0], sep);
    } else {
      SplitJoin(pieces[1..], sep);
      SplitAtFirst(pieces[0], sep, Join(pieces[1..], sep));
    }
  }

  /** Each line, ended. */
  function Lines(lines: seq<string>): string {
    if lines == [] then "" else lines[0] + "\n" + Lines(lines[1..])
  }

  // ----- Trimming -----

  function TrimRight(s: string, c: char): string {
    if s != "" && s[|s| - 1] == c then TrimRight(s[..|s| - 1], c) else s
  }

  function TrimLeft(s: string): string {
    if s != "" && IsSpace(s[0]) then TrimLeft(s[1..]) else s
  }

  function TrimEnd(s: string): string {
    if s != "" && IsSpace(s[|s| - 1]) then TrimEnd(s[..|s| - 1]) else s
  }

  function TrimSpace(s: string): string {
    TrimEnd(TrimLeft(s))
  }

  predicate Trimmed(s: string) {
    s == "" || (!IsSpace(s[0]) && !IsSpace(s[|s| - 1]))
  }

  lemma TrimmedStays(s: string)
    requires Trimmed(s)
    ensures TrimSpace(s) == s
  {
  }

  lemma {:induction false} LinesJoined(lines: seq<string>)
    requires lines != []
    ensures Lines(lines) == Join(lines, '\n') + "\n"
  {
    if |lines| > 1 {
      LinesJoined(lines[1..]);
    } else {
      assert lines[1..] == [];
    }
  }

  lemma {:induction false} JoinEnds(lines: seq<string>, sep: char)
    requires lines != [] && lines[|lines| - 1] != ""
    ensures Join(lines, sep) != "" && Join(lines, sep)[|Join(lines, sep)| - 1] == lines[|lines| - 1][|lines[|lines| - 1]| - 1]
  {
    if |lines| > 1 {
      JoinEnds(lines[1..], sep);
    }
  }

  /** Lines written one by one are read back: the last of them is not empty and none holds a line end. */
  lemma LinesReadBack(lines: seq<string>)
    requires lines != [] && lines[|lines| - 1] != ""
    requires forall l :: l in lines ==> '\n' !in l
    ensures Split(TrimRight(Lines(lines), '\n'), '\n') == lines
  {
    LinesJoined(lines);
    JoinEnds(lines, '\n');
    var joined := Join(lines, '\n');
    var last := lines[|lines| - 1];
    assert last in lines && last[|last| - 1] in last;
    assert (joined + "\n")[..|joined + "\n"| - 1] == joined;
    SplitJoin(lines, '\n');
  }

  // ----- Fields -----

  /** The characters s begins with, up to its first space. */
  function Word(s: string): (w: string)
    ensures |w| <= |s| && w == s[..|w|]
    ensures forall c :: c in w ==> !IsSpace(c)
    ensures s != "" && !IsSpace(s[0]) ==> w != ""
  {
    if s == "" || IsSpace(s[0]) then "" else [s[0]] + Word(s[1..])
  }

  /** The words of s, as runs of space part them. */
  function Fields(s: string): seq<string>
    decreases |s|
  {
    if s == "" then []
    else if IsSpace(s[0]) then Fields(s[1..])
    else [Word(s)] + Fields(s[|Word(s)|..])
  }

  lemma {:induction false} WordThen(w: string, rest: string)
    requires forall c :: c in w ==> !IsSpace(c)
    requires rest == "" || IsSpace(rest[0])
    ensures Word(w + rest) == w
  {
    if w == "" {
      assert w + rest == rest;
    } else {
      assert (w + rest)[1..] == w[1..] + rest;
      WordThen(w[1..], rest);
    }
  }

  lemma {:induction false} FieldsSkip(spaces: string, s: string)
    requires forall c :: c in spaces ==> IsSpace(c)
    ensures Fields(spaces + s) == Fields(s)
  {
    if spaces == "" {
      assert spaces + s == s;
    } else {
      assert (spaces + s)[1..] == spaces[1..] + s;
      FieldsSkip(spaces[1..], s);
    }
  }

  /** The first field of a line, and the rest of them. */
  lemma FieldsBegin(spaces: string, w: string, rest: string)
    requires forall c :: c in spaces ==> IsSpace(c)
    requires w != "" && forall c :: c in w ==> !IsSpace(c)
    requires rest == "" || IsSpace(rest[0])
    ensures Fields(spaces + w + rest) == [w] + Fields(rest)
  {
    assert spaces + w + rest == spaces + (w + rest);
    FieldsSkip(spaces, w + rest);
    WordThen(w, rest);
    assert (w + rest)[|w|..] == rest;
  }

  // ----- Cutting at a character -----

  /** s up to the first separator, what follows that, and whether there is one. */
  function Cut(s: string, sep: char): (string, string, bool) {
    if s == "" then ("", "", false)
    else if s[0] == sep then ("", s[1..], true)
    else var (before, after, found) := Cut(s[1..], sep); ([s[0]] + before, after, found)
  }

  lemma {:induction false} CutAtFirst(before: string, sep: char, after: string)
    requires sep !in before
    ensures Cut(before + [sep] + after, sep) == (before, after, true)
  {
    if before == "" {
      assert ("" + [sep] + after)[1..] == after;
    } else {
      assert (before + [sep] + after)[1..] == before[1..] + [sep] + after;
      assert before == [before[0]] + before[1..] && before[0] in before;
      CutAtFirst(before[1..], sep, after);
    }
  }

  lemma {:induction false} CutNowhere(s: string, sep: char)
    requires sep !in s
    ensures Cut(s, sep) == (s, "", false)
  {
    if s != "" {
      assert s == [s[0]] + s[1..] && s[0] in s;
      CutNowhere(s[1..], sep);
    }
  }

  // ----- Decimal numbers -----

  function Digit(n: nat): char
    requires n < 10
  {
    '0' + n as char
  }

  predicate AllDigits(s: string) {
    forall i :: 0 <= i < |s| ==> '0' <= s[i] <= '9'
  }

  function Itoa(n: nat): (s: string)
    ensures s != "" && AllDigits(s)
  {
    if n < 10 then [Digit(n)] else Itoa(n / 10) + [Digit(n % 10)]
  }

  function Number(s: string): nat
    requires AllDigits(s)
  {
    if s == "" then 0 else Number(s[..|s| - 1]) * 10 + (s[|s| - 1] as int - '0' as int)
  }

  lemma {:induction false} NumberOfItoa(n: nat)
    ensures Number(Itoa(n)) == n
  {
    if n < 10 {
      assert Itoa(n)[..0] == "";
    } else {
      NumberOfItoa(n / 10);
      assert Itoa(n)[..|Itoa(n)| - 1] == Itoa(n / 10);
    }
  }

  /** A number as it is read: 0 for what is none. */
  function Atoi(s: string): nat {
    if s != "" && AllDigits(s) then Number(s) else 0
  }

  lemma DigitsArePlain(s: string)
    requires AllDigits(s)
    ensures forall c :: c in s ==> !IsSpace(c) && c !in {'\n', ',', ':', '='}
    ensures Trimmed(s)
  {
  }
}
