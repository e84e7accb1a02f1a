/** Small value types and the JavaScript string operations the model relies on:
    `String.prototype.trim`, `Array.prototype.join`, `String.prototype.split`
    on one character, and decimal rendering of integers. */
module Base {

  datatype Option<+T> = None | Some(value: T) {
    function GetOr(default: T): T {
      match this
      case Some(v) => v
      case None => default
    }
  }

  /** The code points ECMAScript's `trim` removes: WhiteSpace (TAB, VT, FF,
      SP, NBSP, ZWNBSP and the Unicode Zs category) and LineTerminator. */
  predicate IsSpace(c: char) {
    || c in {'\t', '\n', '\U{000B}', '\U{000C}', '\r', ' ', '\U{00A0}', '\U{1680}'}
    || ('\U{2000}' <= c <= '\U{200A}')
    || c in {'\U{2028}', '\U{2029}', '\U{202F}', '\U{205F}', '\U{3000}', '\U{FEFF}'}
  }

  predicate AllSpace(s: string) {
    forall i :: 0 <= i < |s| ==> IsSpace(s[i])
  }

  function TrimStart(s: string): (r: string)
    ensures |r| <= |s|
    decreases |s|
  {
    if s != [] && IsSpace(s[0]) then TrimStart(s[1..]) else s
  }

  function TrimEnd(s: string): (r: string)
    ensures |r| <= |s|
    decreases |s|
  {
    if s != [] && IsSpace(s[|s| - 1]) then TrimEnd(s[..|s| - 1]) else s
  }

  /** `s.trim()` */
  function Trim(s: string): string {
    TrimEnd(TrimStart(s))
  }

  lemma {:induction false} TrimStartSkipsSpace(w: string, s: string)
    requires AllSpace(w)
    ensures TrimStart(w + s) == TrimStart(s)
    decreases |w|
  {
    if w != [] {
      assert (w + s)[1..] == w[1..] + s;
      TrimStartSkipsSpace(w[1..], s);
    } else {
      assert w + s == s;
    }
  }

  lemma {:induction false} TrimEndSkipsSpace(s: string, w: string)
    requires AllSpace(w)
    ensures TrimEnd(s + w) == TrimEnd(s)
    decreases |w|
  {
    if w != [] {
      assert (s + w)[..|s + w| - 1] == s + w[..|w| - 1];
      TrimEndSkipsSpace(s, w[..|w| - 1]);
    } else {
      assert s + w == s;
    }
  }

  /** Trailing spaces either survive `TrimStart` untouched or are eaten with
      the rest of an all-space string. */
  lemma {:induction false} TrimStartThenSpace(s: string, w: string)
    requires AllSpace(w)
    ensures AllSpace(s) ==> TrimStart(s + w) == []
    ensures !AllSpace(s) ==> TrimStart(s + w) == TrimStart(s) + w
    decreases |s|
  {
    if s == [] {
      assert s + w == w;
      TrimStartSkipsSpace(w, []);
      assert w + [] == w;
    } else {
      assert (s + w)[0] == s[0];
      assert (s + w)[1..] == s[1..] + w;
      TrimStartThenSpace(s[1..], w);
      if IsSpace(s[0]) {
        assert AllSpace(s) <==> AllSpace(s[1..]) by {
          if AllSpace(s[1..]) {
            forall i | 0 <= i < |s| ensures IsSpace(s[i]) {
              if i > 0 { assert s[i] == s[1..][i - 1]; }
            }
          }
        }
      } else {
        assert !AllSpace(s);
      }
    }
  }

  lemma {:induction false} TrimStartOfSpace(s: string)
    requires AllSpace(s)
    ensures TrimStart(s) == []
  {
    TrimStartThenSpace(s, []);
    assert s + [] == s;
  }

  lemma {:induction false} TrimEndOfSpace(s: string)
    requires AllSpace(s)
    ensures TrimEnd(s) == []
  {
    TrimEndSkipsSpace([], s);
    assert [] + s == s;
  }

  /** Padding a string with whitespace on either side never changes what
      `trim` returns. */
  lemma {:induction false} TrimIgnoresPadding(w1: string, s: string, w2: string)
    requires AllSpace(w1) && AllSpace(w2)
    ensures Trim(w1 + s + w2) == Trim(s)
  {
    assert w1 + s + w2 == w1 + (s + w2);
    TrimStartSkipsSpace(w1, s + w2);
    TrimStartThenSpace(s, w2);
    if AllSpace(s) {
      TrimStartOfSpace(s);
      TrimEndOfSpace([]);
    } else {
      TrimEndSkipsSpace(TrimStart(s), w2);
    }
  }

  /** What `TrimStart` leaves of a string that is not all space begins with a
      character that is not a space. */
  lemma {:induction false} TrimStartStopsAtText(s: string)
    requires !AllSpace(s)
    ensures TrimStart(s) != [] && !IsSpace(TrimStart(s)[0])
    decreases |s|
  {
    if IsSpace(s[0]) {
      assert !AllSpace(s[1..]) by {
        var i :| 0 <= i < |s| && !IsSpace(s[i]);
        assert s[1..][i - 1] == s[i];
      }
      TrimStartStopsAtText(s[1..]);
    }
  }

  /** `TrimEnd` never empties a string whose first character is not a space. */
  lemma {:induction false} TrimEndKeepsText(s: string)
    requires s != [] && !IsSpace(s[0])
    ensures TrimEnd(s) != []
    decreases |s|
  {
    if |s| > 1 && IsSpace(s[|s| - 1]) {
      TrimEndKeepsText(s[..|s| - 1]);
    }
  }

  /** `trim` returns the empty string exactly for all-space strings. */
  lemma TrimEmptyIffSpace(s: string)
    ensures Trim(s) == [] <==> AllSpace(s)
  {
    if AllSpace(s) {
      TrimStartOfSpace(s);
    } else {
      TrimStartStopsAtText(s);
      TrimEndKeepsText(TrimStart(s));
    }
  }

  /** `parts.join(sep)` */
  function Join(parts: seq<string>, sep: string): string
    decreases |parts|
  {
    if |parts| == 0 then ""
    else if |parts| == 1 then parts[0]
    else Join(parts[..|parts| - 1], sep) + sep + parts[|parts| - 1]
  }

  /** A template literal: its parts one after the other. */
  function Concat(parts: seq<string>): string
    decreases |parts|
  {
    if parts == [] then "" else Concat(parts[..|parts| - 1]) + parts[|parts| - 1]
  }

  /** Joining two non-empty lists joins their joins. */
  lemma {:induction false} JoinAppend(a: seq<string>, b: seq<string>, sep: string)
    requires |a| >= 1 && |b| >= 1
    ensures Join(a + b, sep) == Join(a, sep) + sep + Join(b, sep)
    decreases |b|
  {
    if |b| == 1 {
      assert (a + b)[..|a + b| - 1] == a;
    } else {
      var b' := b[..|b| - 1];
      assert (a + b)[..|a + b| - 1] == a + b';
      JoinAppend(a, b', sep);
    }
  }

  /** Blocks of lines, one empty line between consecutive blocks. */
  function BlankSeparated(blocks: seq<seq<string>>): seq<string>
    decreases |blocks|
  {
    if |blocks| == 0 then []
    else if |blocks| == 1 then blocks[0]
    else BlankSeparated(blocks[..|blocks| - 1]) + [""] + blocks[|blocks| - 1]
  }

  /** Each block's lines joined by newlines.  */
  function JoinEach(blocks: seq<seq<string>>): (r: seq<string>)
    ensures |r| == |blocks|
    ensures forall i :: 0 <= i < |blocks| ==> r[i] == Join(blocks[i], "\n")
  {
    seq(|blocks|, i requires 0 <= i < |blocks| => Join(blocks[i], "\n"))
  }

  /** Joining multi-line blocks with a blank line (`"\n\n"`) gives the same
      text as joining all their lines, with an empty line between blocks, by
      single newlines. */
  lemma {:induction false} JoinBlocks(blocks: seq<seq<string>>)
    requires forall i :: 0 <= i < |blocks| ==> |blocks[i]| >= 1
    ensures Join(JoinEach(blocks), "\n\n") == Join(BlankSeparated(blocks), "\n")
    ensures |blocks| >= 1 ==> |BlankSeparated(blocks)| >= 1
    decreases |blocks|
  {
    if |blocks| == 1 {
      assert JoinEach(blocks) == [Join(blocks[0], "\n")];
    } else if |blocks| > 1 {
      var init, last := blocks[..|blocks| - 1], blocks[|blocks| - 1];
      var bi := BlankSeparated(init);
      var je := JoinEach(blocks);
      JoinBlocks(init);
      assert je[..|je| - 1] == JoinEach(init);
      assert Join(je, "\n\n") == Join(bi, "\n") + "\n\n" + Join(last, "\n");
      assert BlankSeparated(blocks) == (bi + [""]) + last;
      JoinAppend(bi + [""], last, "\n");
      assert (bi + [""])[..|bi|] == bi;
      assert Join(bi + [""], "\n") == Join(bi, "\n") + "\n" + "";
      assert Join(bi, "\n") + "\n" + "" + "\n" == Join(bi, "\n") + "\n\n";
    }
  }

  /** `s.split(c)` for a one-character separator. */
  function Split(s: string, c: char): (r: seq<string>)
    ensures |r| >= 1
    decreases |s|
  {
    if s == [] then [""]
    else if s[|s| - 1] == c then Split(s[..|s| - 1], c) + [""]
    else
      var r := Split(s[..|s| - 1], c);
      r[..|r| - 1] + [r[|r| - 1] + [s[|s| - 1]]]
  }

  /** How `Split` treats one more character at the end. */
  lemma SplitSnoc(s: string, x: char, c: char)
    ensures x == c ==> Split(s + [x], c) == Split(s, c) + [""]
    ensures x != c ==> Split(s + [x], c) == ExtendLast(Split(s, c), x)
  {
    assert (s + [x])[..|s + [x]| - 1] == s;
  }

  function ExtendLast(r: seq<string>, x: char): seq<string>
    requires |r| >= 1
  {
    r[..|r| - 1] + [r[|r| - 1] + [x]]
  }

  lemma {:induction false} SplitNoSeparator(s: string, c: char)
    requires c !in s
    ensures Split(s, c) == [s]
    decreases |s|
  {
    if s != [] {
      var init := s[..|s| - 1];
      assert init + [s[|s| - 1]] == s;
      SplitNoSeparator(init, c);
      SplitSnoc(init, s[|s| - 1], c);
    }
  }

  lemma ExtendLastAppend(ra: seq<string>, rb: seq<string>, x: char)
    requires |rb| >= 1
    ensures ExtendLast(ra + rb, x) == ra + ExtendLast(rb, x)
  {
    assert (ra + rb)[..|ra + rb| - 1] == ra + rb[..|rb| - 1];
  }

  /** Splitting at a separator splits the two sides independently. */
  lemma {:induction false} SplitAt(a: string, c: char, b: string)
    ensures Split(a + [c] + b, c) == Split(a, c) + Split(b, c)
    decreases |b|
  {
    if b == [] {
      assert a + [c] + b == a + [c];
      SplitSnoc(a, c, c);
    } else {
      var b', x := b[..|b| - 1], b[|b| - 1];
      var front := a + [c] + b';
      assert front + [x] == a + [c] + b;
      assert b' + [x] == b;
      SplitAt(a, c, b');
      SplitSnoc(front, x, c);
      SplitSnoc(b', x, c);
      if x != c {
        ExtendLastAppend(Split(a, c), Split(b', c), x);
      }
    }
  }

  /** Joining with a one-character separator that occurs in no part is undone
      by splitting on it. */
  lemma {:induction false} SplitJoin(parts: seq<string>, c: char)
    requires |parts| >= 1
    requires forall i :: 0 <= i < |parts| ==> c !in parts[i]
    ensures Split(Join(parts, [c]), c) == parts
    decreases |parts|
  {
    if |parts| == 1 {
      SplitNoSeparator(parts[0], c);
    } else {
      var init := parts[..|parts| - 1];
      SplitJoin(init, c);
      SplitAt(Join(init, [c]), c, parts[|parts| - 1]);
      SplitNoSeparator(parts[|parts| - 1], c);
      assert init + [parts[|parts| - 1]] == parts;
    }
  }

  /** Each line followed by a newline: what `text += line + '\n'` builds. */
  function Terminated(lines: seq<string>): string
    decreases |lines|
  {
    if lines == [] then "" else Terminated(lines[..|lines| - 1]) + lines[|lines| - 1] + "\n"
  }

  lemma {:induction false} TerminatedAppend(a: seq<string>, b: seq<string>)
    ensures Terminated(a + b) == Terminated(a) + Terminated(b)
    decreases |b|
  {
    if b == [] {
      assert a + b == a;
    } else {
      assert (a + b)[..|a + b| - 1] == a + b[..|b| - 1];
      TerminatedAppend(a, b[..|b| - 1]);
    }
  }

  lemma TerminatedSnoc(a: seq<string>, line: string)
    ensures Terminated(a + [line]) == Terminated(a) + line + "\n"
  {
    assert (a + [line])[..|a|] == a;
  }

  /** One more line of a list, written after the lines before it. */
  lemma TerminatedStep(lines: seq<string>, i: nat, line: string)
    requires i < |lines| && line == lines[i]
    ensures Terminated(lines[..i]) + line + "\n" == Terminated(lines[..i + 1])
  {
    assert lines[..i + 1] == lines[..i] + [line];
    TerminatedSnoc(lines[..i], line);
  }

  /** For a non-empty list, the newline-terminated lines are the lines
      joined by newlines plus one final newline. */
  lemma {:induction false} TerminatedIsJoin(lines: seq<string>)
    requires |lines| >= 1
    ensures Terminated(lines) == Join(lines, "\n") + "\n"
    decreases |lines|
  {
    if |lines| > 1 {
      TerminatedIsJoin(lines[..|lines| - 1]);
    } else {
      assert lines[..0] == [];
    }
  }

  function DigitChar(d: nat): char
    requires d < 10
  {
    "0123456789"[d]
  }

  /** Decimal rendering of an integer, as JavaScript's `String(n)` gives it
      for integral values. */
  function NatToString(n: nat): (r: string)
    ensures |r| >= 1
    ensures forall i :: 0 <= i < |r| ==> '0' <= r[i] <= '9'
  {
    if n < 10 then [DigitChar(n)] else NatToString(n / 10) + [DigitChar(n % 10)]
  }

  function IntToString(n: int): string {
    if n < 0 then "-" + NatToString(-n) else NatToString(n)
  }

  predicate StartsWith(s: string, prefix: string) {
    |prefix| <= |s| && s[..|prefix|] == prefix
  }

  lemma SeqAssoc(a: string, b: string, c: string)
    ensures a + b + c == a + (b + c)
  {
  }

  /** Different numbers have different decimal renderings. */
  lemma {:induction false} NatToStringInjective(a: nat, b: nat)
    ensures NatToString(a) == NatToString(b) <==> a == b
    decreases a
  {
    var ra, rb := NatToString(a), NatToString(b);
    if a >= 10 && b >= 10 {
      NatToStringInjective(a / 10, b / 10);
      if ra == rb {
        assert ra[..|ra| - 1] == NatToString(a / 10);
        assert rb[..|rb| - 1] == NatToString(b / 10);
        assert ra[|ra| - 1] == "0123456789"[a % 10];
        assert rb[|rb| - 1] == "0123456789"[b % 10];
      }
    } else if a < 10 && b < 10 {
      assert ra == ["0123456789"[a]] && rb == ["0123456789"[b]];
    } else {
      assert |ra| == 1 <==> a < 10;
      assert |rb| == 1 <==> b < 10;
    }
  }
}
