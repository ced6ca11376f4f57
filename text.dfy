/**
 * The JavaScript string operations the route handlers and the dashboard use:
 * trim, startsWith, indexOf/lastIndexOf of one character, slice, split on a
 * line break and join. A string is a sequence of characters; JavaScript
 * counts UTF-16 code units, which agrees with this model for text inside the
 * Basic Multilingual Plane.
 */
module Text {

  /** The WhiteSpace and LineTerminator code points of ECMAScript: what String.prototype.trim removes. */
  predicate IsSpace(c: char)
  {
    c == '\t' || c == '\n' || c == '\U{000B}' || c == '\U{000C}' || c == '\r' || c == ' '
    || c == '\U{00A0}' || c == '\U{1680}' || ('\U{2000}' <= c <= '\U{200A}')
    || c == '\U{2028}' || c == '\U{2029}' || c == '\U{202F}' || c == '\U{205F}'
    || c == '\U{3000}' || c == '\U{FEFF}'
  }

  predicate AllSpace(s: string)
  {
    forall k :: 0 <= k < |s| ==> IsSpace(s[k])
  }

  /** The text without its leading white space: a suffix of s, everything cut off is white space, and it starts with a non-space. */
  function TrimStart(s: string): (r: string)
    ensures |r| <= |s| && r == s[|s| - |r|..]
    ensures AllSpace(s[..|s| - |r|])
    ensures r == [] || !IsSpace(r[0])
  {
    if s != [] && IsSpace(s[0]) then
      var r := TrimStart(s[1..]);
      assert s[1..][|s| - 1 - |r|..] == s[|s| - |r|..];
      assert forall k :: 1 <= k < |s| - |r| ==> s[k] == s[1..][..|s| - 1 - |r|][k - 1];
      r
    else s
  }

  /** The text without its trailing white space: a prefix of s, everything cut off is white space, and it ends with a non-space. */
  function TrimEnd(s: string): (r: string)
    ensures |r| <= |s| && r == s[..|r|]
    ensures AllSpace(s[|r|..])
    ensures r == [] || !IsSpace(r[|r| - 1])
  {
    if s != [] && IsSpace(s[|s| - 1]) then TrimEnd(s[..|s| - 1]) else s
  }

  /** String.prototype.trim */
  function Trim(s: string): string
  {
    TrimEnd(TrimStart(s))
  }

  /** trim() gives the empty string exactly when the text is all white space. */
  lemma TrimEmptyIffAllSpace(s: string)
    ensures Trim(s) == "" <==> AllSpace(s)
  {
    var t := TrimStart(s);
    var cut := |s| - |t|;
    if t != [] {
      assert s[cut] == t[0] && !IsSpace(s[cut]);
    }
    if Trim(s) == "" {
      assert AllSpace(t) by {
        assert t[|TrimEnd(t)|..] == t;
      }
      forall k | 0 <= k < |s|
        ensures IsSpace(s[k])
      {
        assert s[..cut][k] == s[k];
      }
    }
  }

  /** Text that neither starts nor ends with white space is left alone by trim(). */
  lemma TrimKeepsUnpadded(s: string)
    requires s == [] || (!IsSpace(s[0]) && !IsSpace(s[|s| - 1]))
    ensures Trim(s) == s
  {
  }

  /** trim() is idempotent, and what it returns neither starts nor ends with white space. */
  lemma TrimIdempotent(s: string)
    ensures var t := Trim(s); t == [] || (!IsSpace(t[0]) && !IsSpace(t[|t| - 1]))
    ensures Trim(Trim(s)) == Trim(s)
  {
    var t := TrimStart(s);
    var u := TrimEnd(t);
    if u != [] {
      assert u[0] == t[0];
    }
    TrimKeepsUnpadded(u);
  }

  predicate StartsWith(s: string, prefix: string)
  {
    |prefix| <= |s| && s[..|prefix|] == prefix
  }

  /** String.prototype.indexOf for one character: the first position of c, or -1 when c does not occur. */
  function IndexOf(s: string, c: char): (r: int)
    ensures r == -1 <==> c !in s
    ensures r != -1 ==> 0 <= r < |s| && s[r] == c && forall j :: 0 <= j < r ==> s[j] != c
  {
    if |s| == 0 then -1
    else if s[0] == c then 0
    else
      var r := IndexOf(s[1..], c);
      if r == -1 then -1 else r + 1
  }

  /** String.prototype.lastIndexOf for one character: the last position of c, or -1 when c does not occur. */
  function LastIndexOf(s: string, c: char): (r: int)
    ensures r == -1 <==> c !in s
    ensures r != -1 ==> 0 <= r < |s| && s[r] == c && forall j :: r < j < |s| ==> s[j] != c
  {
    if |s| == 0 then -1
    else if s[|s| - 1] == c then |s| - 1
    else
      var init := s[..|s| - 1];
      var r := LastIndexOf(init, c);
      assert forall j :: 0 <= j < |init| ==> init[j] == s[j];
      r
  }

  /** A position holding c with no c before it is the one indexOf finds. */
  lemma IndexOfFirst(s: string, c: char, i: nat)
    requires i < |s| && s[i] == c && forall j :: 0 <= j < i ==> s[j] != c
    ensures IndexOf(s, c) == i
  {
    assert c in s;
  }

  /** A position holding c with no c after it is the one lastIndexOf finds. */
  lemma LastIndexOfLast(s: string, c: char, i: nat)
    requires i < |s| && s[i] == c && forall j :: i < j < |s| ==> s[j] != c
    ensures LastIndexOf(s, c) == i
  {
    assert c in s;
  }

  /**
   * String.prototype.split with a one-character separator: the pieces
   * between the separators, at least one. The first character either is a
   * separator, which starts a new empty piece, or joins the first piece.
   */
  function Split(s: string, sep: char): (parts: seq<string>)
    ensures |parts| >= 1
    ensures forall k :: 0 <= k < |parts| ==> sep !in parts[k]
  {
    if s == [] then [""]
    else
      var t := Split(s[1..], sep);
      if s[0] == sep then [""] + t else [[s[0]] + t[0]] + t[1..]
  }

  /** Array.prototype.join */
  function Join(parts: seq<string>, sep: string): string
  {
    if |parts| == 0 then ""
    else if |parts| == 1 then parts[0]
    else parts[0] + sep + Join(parts[1..], sep)
  }

  /** Text put in front of the first piece comes out in front of the joined text. */
  lemma JoinPrefixFirst(x: string, parts: seq<string>, sep: string)
    requires |parts| >= 1
    ensures Join([x + parts[0]] + parts[1..], sep) == x + Join(parts, sep)
  {
    var q := [x + parts[0]] + parts[1..];
    if |parts| > 1 {
      assert q[1..] == parts[1..];
    }
  }

  /** Joining the pieces of a split with the same separator gives back the text. */
  lemma {:induction false} JoinSplit(s: string, sep: char)
    ensures Join(Split(s, sep), [sep]) == s
  {
    if s != [] {
      var t := Split(s[1..], sep);
      JoinSplit(s[1..], sep);
      if s[0] == sep {
        assert ([""] + t)[1..] == t;
      } else {
        JoinPrefixFirst([s[0]], t, [sep]);
      }
      assert s == [s[0]] + s[1..];
    }
  }

  /** Drops one '\r' from the end of a piece. */
  function DropCR(line: string): string
  {
    if |line| > 0 && line[|line| - 1] == '\r' then line[..|line| - 1] else line
  }

  /**
   * `s.split(/\r?\n/)`: split at every '\n', where a '\r' just before a '\n'
   * belongs to the break; a '\r' at the very end of the text stays.
   */
  function SplitLines(s: string): (lines: seq<string>)
    ensures |lines| == |Split(s, '\n')| >= 1
  {
    var parts := Split(s, '\n');
    seq(|parts|, k requires 0 <= k < |parts| => if k < |parts| - 1 then DropCR(parts[k]) else parts[k])
  }

  /** Without carriage returns, splitting into lines and joining with "\n" gives back the text. */
  lemma JoinSplitLines(s: string)
    requires '\r' !in s
    ensures Join(SplitLines(s), "\n") == s
  {
    var parts := Split(s, '\n');
    forall k | 0 <= k < |parts| ensures DropCR(parts[k]) == parts[k] {
      SplitPiecesFrom(s, '\n', k);
    }
    assert SplitLines(s) == parts;
    JoinSplit(s, '\n');
  }

  /** Every character of a piece of a split comes from the text. */
  lemma {:induction false} SplitPiecesFrom(s: string, sep: char, k: nat)
    requires k < |Split(s, sep)|
    ensures forall c :: c in Split(s, sep)[k] ==> c in s
  {
    if s != [] {
      var t := Split(s[1..], sep);
      if s[0] == sep {
        if k > 0 {
          SplitPiecesFrom(s[1..], sep, k - 1);
        }
      } else if k == 0 {
        SplitPiecesFrom(s[1..], sep, 0);
      } else {
        SplitPiecesFrom(s[1..], sep, k);
      }
    }
  }

  /** A text without the separator is a single piece. */
  lemma SplitWithoutSep(s: string, sep: char)
    requires sep !in s
    ensures Split(s, sep) == [s]
  {
    if s != [] {
      SplitWithoutSep(s[1..], sep);
      assert s == [s[0]] + s[1..];
    }
  }

  /** Splitting text in two at a separator gives the pieces of both halves. */
  lemma {:induction false} SplitConcat(a: string, b: string, sep: char)
    ensures Split(a + [sep] + b, sep) == Split(a, sep) + Split(b, sep)
  {
    if a == [] {
      assert a + [sep] + b == [sep] + b;
      SplitCons(sep, b, sep);
    } else {
      var c, r := a[0], a[1..];
      assert a == [c] + r;
      Associative([c], r, [sep]);
      Associative([c], r + [sep], b);
      SplitConcat(r, b, sep);
      SplitCons(c, r + [sep] + b, sep);
      SplitCons(c, r, sep);
      var pr, sb := Split(r, sep), Split(b, sep);
      if c == sep {
        Associative([""], pr, sb);
      } else {
        TailOfConcat(pr, sb);
        Associative([[c] + pr[0]], pr[1..], sb);
      }
    }
  }

  /** The head and the tail of a concatenation whose left part is not empty. */
  lemma TailOfConcat<T>(x: seq<T>, y: seq<T>)
    requires |x| >= 1
    ensures (x + y)[0] == x[0] && (x + y)[1..] == x[1..] + y
  {
  }

  /** Concatenation is associative (stated for any element type, which keeps the proof away from the elements). */
  lemma Associative<T>(x: seq<T>, y: seq<T>, z: seq<T>)
    ensures x + (y + z) == x + y + z
  {
  }

  /** One character in front: a separator starts a new empty piece, any other character joins the first piece. */
  lemma SplitCons(c: char, r: string, sep: char)
    ensures Split([c] + r, sep) ==
      if c == sep then [""] + Split(r, sep) else [[c] + Split(r, sep)[0]] + Split(r, sep)[1..]
  {
    assert ([c] + r)[1..] == r;
  }

  /** The pieces of a text that has no carriage return are its lines. */
  lemma SplitLinesWithoutCR(s: string)
    requires '\r' !in s
    ensures SplitLines(s) == Split(s, '\n')
  {
    var parts := Split(s, '\n');
    forall k | 0 <= k < |parts| ensures DropCR(parts[k]) == parts[k] {
      SplitPiecesFrom(s, '\n', k);
    }
  }

  /** Splitting pieces joined with a separator they do not contain gives the pieces back. */
  lemma {:induction false} SplitJoin(parts: seq<string>, sep: char)
    requires |parts| >= 1 && forall i :: 0 <= i < |parts| ==> sep !in parts[i]
    ensures Split(Join(parts, [sep]), sep) == parts
  {
    SplitWithoutSep(parts[0], sep);
    if |parts| > 1 {
      SplitJoin(parts[1..], sep);
      SplitConcat(parts[0], Join(parts[1..], [sep]), sep);
      assert parts == [parts[0]] + parts[1..];
    }
  }
}
